/** The retired envelope dialect: which decisions are sent back, and when the typed
    protocol can say the same thing (internal/decision/envelope_result.go). */
module Envelope {
  import opened Options
  import opened Text
  import opened Investigation
  import opened Fold
  import opened FoldSpec
  import opened FoldOrder
  import opened Refold
  import opened Decisions
  import opened Persistence

  /** The names of the table, and memory, which is kept beside it. */
  datatype Field =
    | ReactionField | MessageField | FollowupMessagesField | TitleField | IncidentTitleField | TaskTitleField
    | TaskRepositoryField | TaskPromptField | TaskPullRequestField | MemoryOfferField | PreferenceOfferField
    | RuleOfferField | ScheduleOfferField | ScheduleOffersField | PendingApprovalField | AlertAssessmentField
    | CompletionField | EvidenceField | CoverageField | FindingsField | VisualsField | PublicationUpdatesField
    | MemoryField

  /** WatchDecisionPayload, in the table's order. */
  const PAYLOAD_FIELDS := [
    ReactionField, MessageField, FollowupMessagesField, TitleField, IncidentTitleField, TaskTitleField,
    TaskRepositoryField, TaskPromptField, TaskPullRequestField, MemoryOfferField, PreferenceOfferField,
    RuleOfferField, ScheduleOfferField, ScheduleOffersField, PendingApprovalField, AlertAssessmentField,
    CompletionField, EvidenceField, CoverageField, FindingsField, VisualsField, PublicationUpdatesField]

  const ENVELOPE_OWNED := {ReactionField, TitleField, TaskPullRequestField, PublicationUpdatesField}

  predicate Present(name: Field, d: Decision) {
    match name
    case ReactionField => d.reaction != ""
    case MessageField => d.result.reply.message != ""
    case FollowupMessagesField => d.result.reply.followups != []
    case TitleField => d.title != ""
    case IncidentTitleField => d.result.work.incidentTitle != ""
    case TaskTitleField => d.result.work.taskTitle != ""
    case TaskRepositoryField => d.result.work.taskRepository != ""
    case TaskPromptField => d.result.work.taskPrompt != ""
    case TaskPullRequestField => d.pullRequest != ""
    case MemoryOfferField => d.result.offers.memory.Some?
    case PreferenceOfferField => d.result.offers.preference.Some?
    case RuleOfferField => d.result.offers.rule.Some?
    case ScheduleOfferField => d.result.schedules.primary.Some?
    case ScheduleOffersField => d.result.schedules.more != []
    case PendingApprovalField => d.result.offers.approval.Some?
    case AlertAssessmentField => d.result.offers.alert.Some?
    case CompletionField => d.result.reply.assessment.Some?
    case EvidenceField => d.result.records.evidence != []
    case CoverageField => d.result.records.coverage != []
    case FindingsField => d.result.records.findings != []
    case VisualsField => d.result.reply.visuals != []
    case PublicationUpdatesField => d.updates != []
    case MemoryField => !MemoryEmpty(d.result.reply.memory)
  }

  /** The listed fields that are present and belong to the result. */
  function Bearing(names: seq<Field>, d: Decision): seq<Field> {
    if names == [] then []
    else
      var last := names[|names| - 1];
      Bearing(names[..|names| - 1], d) + if last in ENVELOPE_OWNED || !Present(last, d) then [] else [last]
  }

  /** watchMemoryEmpty */
  predicate MemoryEmpty(m: Memory) {
    && m.goal == "" && m.channelPurpose == "" && m.situation == "" && |m.activeTopics| == 0 && |m.openLoops| == 0
    && |m.topology| == 0 && |m.decisions| == 0 && |m.questions| == 0 && |m.evidenceRefs| == 0 && |m.knowledge| == 0
  }

  function Misplaced(d: Decision): seq<Field> {
    Bearing(PAYLOAD_FIELDS, d) + if MemoryEmpty(d.result.reply.memory) then [] else [MemoryField]
  }

  method MisplacedResultFields(d: Decision) returns (fields: seq<Field>)
    ensures fields == Misplaced(d)
  {
    hide Present;
    fields := [];
    for i := 0 to |PAYLOAD_FIELDS|
      invariant fields == Bearing(PAYLOAD_FIELDS[..i], d)
    {
      var name := PAYLOAD_FIELDS[i];
      assert PAYLOAD_FIELDS[..i + 1][..i] == PAYLOAD_FIELDS[..i];
      if !(name in ENVELOPE_OWNED || !Present(name, d)) {
        fields := fields + [name];
      }
    }
    assert PAYLOAD_FIELDS[..|PAYLOAD_FIELDS|] == PAYLOAD_FIELDS;
    if !MemoryEmpty(d.result.reply.memory) {
      fields := fields + [MemoryField];
    }
  }

  /** UnreadableEnvelopeResult has something to say. */
  predicate Unreadable(d: Decision) {
    d.operations == [] && Misplaced(d) != [] && (d.action == "reply" || (d.action == "ignore" && Misplaced(d) == [MemoryField]))
  }

  lemma {:induction false} BearingMembers(names: seq<Field>, d: Decision)
    ensures forall name :: name in Bearing(names, d) <==> name in names && name !in ENVELOPE_OWNED && Present(name, d)
  {
    hide Present;
    if names != [] {
      BearingMembers(names[..|names| - 1], d);
      assert names == names[..|names| - 1] + [names[|names| - 1]];
    }
  }

  /** What JSON decoding gives: the two fields that are off the contract are empty. */
  predicate FromJson(d: Decision) {
    d.result.records.contents == [] && d.result.offers.grant.None?
  }

  function Row(name: Field): nat
    requires name != MemoryField
    ensures Row(name) < |PAYLOAD_FIELDS| && PAYLOAD_FIELDS[Row(name)] == name
  {
    match name
    case ReactionField => 0
    case MessageField => 1
    case FollowupMessagesField => 2
    case TitleField => 3
    case IncidentTitleField => 4
    case TaskTitleField => 5
    case TaskRepositoryField => 6
    case TaskPromptField => 7
    case TaskPullRequestField => 8
    case MemoryOfferField => 9
    case PreferenceOfferField => 10
    case RuleOfferField => 11
    case ScheduleOfferField => 12
    case ScheduleOffersField => 13
    case PendingApprovalField => 14
    case AlertAssessmentField => 15
    case CompletionField => 16
    case EvidenceField => 17
    case CoverageField => 18
    case FindingsField => 19
    case VisualsField => 20
    case PublicationUpdatesField => 21
  }

  lemma Listed(name: Field)
    ensures name in PAYLOAD_FIELDS <==> name != MemoryField
  {
    if name != MemoryField {
      assert PAYLOAD_FIELDS[Row(name)] in PAYLOAD_FIELDS;
    }
  }

  /** A field is named exactly when it is there, whatever else is: what was said, */
  lemma RepliesByName(d: Decision)
    ensures var names, p := Misplaced(d), d.result;
            && (MessageField in names <==> p.reply.message != "") && (FollowupMessagesField in names <==> p.reply.followups != [])
            && (VisualsField in names <==> p.reply.visuals != []) && (CompletionField in names <==> p.reply.assessment.Some?)
  {
    hide Misplaced;
    NamedExactly(d, MessageField);
    NamedExactly(d, FollowupMessagesField);
    NamedExactly(d, VisualsField);
    NamedExactly(d, CompletionField);
  }

  /** what was recorded and scheduled, */
  lemma RowsByName(d: Decision)
    ensures var names, p := Misplaced(d), d.result;
            && (EvidenceField in names <==> p.records.evidence != []) && (CoverageField in names <==> p.records.coverage != [])
            && (FindingsField in names <==> p.records.findings != [])
            && (ScheduleOfferField in names <==> p.schedules.primary.Some?)
            && (ScheduleOffersField in names <==> p.schedules.more != [])
  {
    hide Misplaced;
    NamedExactly(d, EvidenceField);
    NamedExactly(d, CoverageField);
    NamedExactly(d, FindingsField);
    NamedExactly(d, ScheduleOfferField);
    NamedExactly(d, ScheduleOffersField);
  }

  /** what was offered, */
  lemma OffersByName(d: Decision)
    ensures var names, p := Misplaced(d), d.result;
            && (MemoryOfferField in names <==> p.offers.memory.Some?)
            && (PreferenceOfferField in names <==> p.offers.preference.Some?)
            && (RuleOfferField in names <==> p.offers.rule.Some?)
            && (PendingApprovalField in names <==> p.offers.approval.Some?)
            && (AlertAssessmentField in names <==> p.offers.alert.Some?)
  {
    hide Misplaced;
    NamedExactly(d, MemoryOfferField);
    NamedExactly(d, PreferenceOfferField);
    NamedExactly(d, RuleOfferField);
    NamedExactly(d, PendingApprovalField);
    NamedExactly(d, AlertAssessmentField);
  }

  /** the work asked for; and what the envelope owns never is. */
  lemma WorkByName(d: Decision)
    ensures var names, p := Misplaced(d), d.result;
            && (IncidentTitleField in names <==> p.work.incidentTitle != "")
            && (TaskTitleField in names <==> p.work.taskTitle != "")
            && (TaskRepositoryField in names <==> p.work.taskRepository != "")
            && (TaskPromptField in names <==> p.work.taskPrompt != "")
            && ReactionField !in names && TitleField !in names && TaskPullRequestField !in names
            && PublicationUpdatesField !in names
  {
    hide Misplaced;
    NamedExactly(d, IncidentTitleField);
    NamedExactly(d, TaskTitleField);
    NamedExactly(d, TaskRepositoryField);
    NamedExactly(d, TaskPromptField);
    NamedExactly(d, ReactionField);
    NamedExactly(d, TitleField);
    NamedExactly(d, TaskPullRequestField);
    NamedExactly(d, PublicationUpdatesField);
  }

  predicate Owned(name: Field) {
    name.ReactionField? || name.TitleField? || name.TaskPullRequestField? || name.PublicationUpdatesField?
  }

  lemma OwnedExactly(name: Field)
    ensures name in ENVELOPE_OWNED <==> Owned(name)
  {
  }

  lemma NamedExactly(d: Decision, name: Field)
    requires name != MemoryField
    ensures name in Misplaced(d) <==> !Owned(name) && Present(name, d)
  {
    hide Owned, Present, Bearing, MemoryEmpty;
    OwnedExactly(name);
    Listed(name);
    BearingMembers(PAYLOAD_FIELDS, d);
  }

  ghost predicate Absent(d: Decision) {
    forall name: Field :: name !in ENVELOPE_OWNED && name != MemoryField ==> !Present(name, d)
  }

  lemma NoReplyFields(d: Decision)
    requires Absent(d)
    ensures d.result.reply == EMPTY.reply.(memory := d.result.reply.memory)
    ensures d.result.records == EMPTY.records.(contents := d.result.records.contents)
  {
    assert !Present(MessageField, d) && !Present(FollowupMessagesField, d) && !Present(VisualsField, d);
    assert !Present(CompletionField, d);
    assert !Present(EvidenceField, d) && !Present(CoverageField, d) && !Present(FindingsField, d);
  }

  lemma NoOfferFields(d: Decision)
    requires Absent(d)
    ensures d.result.offers == EMPTY.offers.(grant := d.result.offers.grant)
  {
    assert !Present(MemoryOfferField, d) && !Present(PreferenceOfferField, d) && !Present(RuleOfferField, d);
    assert !Present(PendingApprovalField, d) && !Present(AlertAssessmentField, d);
  }

  lemma NoWorkFields(d: Decision)
    requires Absent(d)
    ensures d.result.schedules == EMPTY.schedules && d.result.work == EMPTY.work
  {
    assert !Present(ScheduleOfferField, d) && !Present(ScheduleOffersField, d);
    assert !Present(IncidentTitleField, d) && !Present(TaskTitleField, d);
    assert !Present(TaskRepositoryField, d) && !Present(TaskPromptField, d);
  }

  lemma AbsentIsEmpty(d: Decision)
    requires FromJson(d)
    ensures Absent(d) <==> d.result == EMPTY.(reply := EMPTY.reply.(memory := d.result.reply.memory))
  {
    if Absent(d) {
      NoReplyFields(d);
      NoOfferFields(d);
      NoWorkFields(d);
      hide Absent;
    }
  }

  /** The table misses no field the fold may write. */
  lemma TableIsComplete(d: Decision)
    requires FromJson(d)
    ensures Bearing(PAYLOAD_FIELDS, d) == []
       <==> d.result == EMPTY.(reply := EMPTY.reply.(memory := d.result.reply.memory))
  {
    hide Present, Bearing;
    BearingMembers(PAYLOAD_FIELDS, d);
    AbsentIsEmpty(d);
    forall name: Field { Listed(name); }
    var bearing := Bearing(PAYLOAD_FIELDS, d);
    if bearing != [] {
      assert bearing[0] in bearing;
    }
  }

  /** An envelope with nothing misplaced carries no result, and one with only memory
      misplaced carries nothing but memory. */
  lemma NothingElseToMove(d: Decision)
    requires FromJson(d)
    ensures Misplaced(d) == [] <==> d.result == EMPTY
    ensures Misplaced(d) == [MemoryField] <==>
              d.result == EMPTY.(reply := EMPTY.reply.(memory := d.result.reply.memory))
              && d.result.reply.memory != NO_MEMORY
  {
    TableIsComplete(d);
    BearingMembers(PAYLOAD_FIELDS, d);
    hide Present, Bearing;
    var bearing := Bearing(PAYLOAD_FIELDS, d);
    if bearing != [] {
      assert bearing[0] in bearing && bearing[0] == Misplaced(d)[0];
      assert bearing[0] in PAYLOAD_FIELDS;
    }
  }
}
