/** How a branch is told from its lead: conversation keys and source ids
    (internal/fanout/branch.go, internal/branching/branching.go). */
module Fanout {
  import opened Options
  import opened Text

  const BRANCH_MARKER := "#branch:"

  /** The conversation key without a branch of its own. */
  function LeadKey(base: string): string {
    match Index(base, BRANCH_MARKER) case None => base case Some(at) => base[..at]
  }

  function BranchConversationKey(base: string, goal: string): string {
    LeadKey(base) + BRANCH_MARKER + goal
  }

  /** GoalOf: the goal a branch conversation was minted for. */
  function GoalOf(key: string): Option<string> {
    match Index(key, BRANCH_MARKER)
    case None => None
    case Some(at) =>
      var goal := key[at + |BRANCH_MARKER|..];
      if Blank(goal) then None else Some(goal)
  }

  /** The marker filter of ListForLead, before any goal is read. */
  predicate Marked(key: string) {
    Index(key, BRANCH_MARKER).Some?
  }

  lemma LeadKeyIsUnmarked(base: string)
    ensures Index(LeadKey(base), BRANCH_MARKER).None?
  {
    var at := Index(base, BRANCH_MARKER);
    if at.Some? {
      var lead := base[..at.value];
      var inner := Index(lead, BRANCH_MARKER);
      if inner.Some? {
        assert base[inner.value..inner.value + |BRANCH_MARKER|] == lead[inner.value..inner.value + |BRANCH_MARKER|];
        assert OccursAt(base, BRANCH_MARKER, inner.value);
        assert false;
      }
    }
  }

  lemma CharacterOf(s: string, j: nat, k: nat)
    requires OccursAt(s, BRANCH_MARKER, j) && j <= k < j + |BRANCH_MARKER|
    ensures s[k] == BRANCH_MARKER[k - j]
    ensures s[k] == '#' ==> k == j
  {
    assert s[k] == s[j..j + |BRANCH_MARKER|][k - j];
  }

  /** The marker's first character occurs nowhere else in it, so no occurrence can
      straddle the point where the host wrote one. */
  lemma FirstMarker(base: string, goal: string)
    requires Index(base, BRANCH_MARKER).None?
    ensures Index(base + BRANCH_MARKER + goal, BRANCH_MARKER) == Some(|base|)
  {
    var all, m := base + BRANCH_MARKER + goal, |BRANCH_MARKER|;
    assert all[|base|..|base| + m] == BRANCH_MARKER;
    forall j | 0 <= j < |base| ensures !OccursAt(all, BRANCH_MARKER, j) {
      NoEarlierMarker(base, goal, j);
    }
    IndexIs(all, BRANCH_MARKER, |base|);
  }

  lemma NoEarlierMarker(base: string, goal: string, j: nat)
    requires j < |base| && !OccursAt(base, BRANCH_MARKER, j)
    ensures !OccursAt(base + BRANCH_MARKER + goal, BRANCH_MARKER, j)
  {
    var all, m := base + BRANCH_MARKER + goal, |BRANCH_MARKER|;
    assert all[|base|] == '#';
    assert j + m <= |base| ==> all[j..j + m] == base[j..j + m];
    if OccursAt(all, BRANCH_MARKER, j) {
      CharacterOf(all, j, if j + m <= |base| then j else |base|);
    }
  }

  lemma IndexIs(s: string, part: string, at: nat)
    requires OccursAt(s, part, at) && forall j :: 0 <= j < at ==> !OccursAt(s, part, j)
    ensures Index(s, part) == Some(at)
  {
    var found := Index(s, part);
    hide OccursAt;
  }

  /** The outermost separator is the one the host wrote: whatever the base and
      whatever the goal, the goal is read back. */
  lemma GoalRoundTrip(base: string, goal: string)
    ensures GoalOf(BranchConversationKey(base, goal)) == if Blank(goal) then None else Some(goal)
    ensures Marked(BranchConversationKey(base, goal))
  {
    LeadKeyIsUnmarked(base);
    FirstMarker(LeadKey(base), goal);
    var lead := LeadKey(base);
    assert (lead + BRANCH_MARKER + goal)[|lead| + |BRANCH_MARKER|..] == goal;
    hide Blank, Index;
  }

  /** A branch minted from a branch is a branch of the lead. */
  lemma BranchOfBranch(base: string, goal: string, other: string)
    ensures BranchConversationKey(BranchConversationKey(base, goal), other) == BranchConversationKey(base, other)
  {
    LeadKeyIsUnmarked(base);
    FirstMarker(LeadKey(base), goal);
    var lead := LeadKey(base);
    assert (lead + BRANCH_MARKER + goal)[..|lead|] == lead;
    hide Index;
  }

  function BranchSourceId(lead: string, goal: string): string {
    "branch_" + lead + "_" + goal
  }

  function SynthesisSourceId(lead: string): string {
    "synthesis_" + lead
  }

  /** "episode_run_" and the 32 hexadecimal digits of core.NewID: what matters is
      that every lead id has one length. */
  const LEAD_LENGTH := 44

  predicate LeadId(id: string) {
    |id| == LEAD_LENGTH && !Blank(id)
  }

  /** For well-formed leads a source id names one lead and one goal. */
  lemma BranchSourceIsInjective(lead: string, goal: string, other: string, otherGoal: string)
    requires LeadId(lead) && LeadId(other)
    requires BranchSourceId(lead, goal) == BranchSourceId(other, otherGoal)
    ensures lead == other && goal == otherGoal
  {
    hide Blank;
    var a, b := BranchSourceId(lead, goal), BranchSourceId(other, otherGoal);
    assert lead == a[7..7 + LEAD_LENGTH] == b[7..7 + LEAD_LENGTH] == other;
    assert goal == a[8 + LEAD_LENGTH..] == b[8 + LEAD_LENGTH..] == otherGoal;
  }

  /** Without one length for every lead it would not. */
  lemma UnevenLeadsCollide()
    ensures BranchSourceId("x_y", "z") == BranchSourceId("x", "y_z")
  {
  }

  lemma SynthesisIsNoBranch(lead: string, other: string, goal: string)
    ensures SynthesisSourceId(lead) != BranchSourceId(other, goal)
  {
    assert SynthesisSourceId(lead)[0] == 's' && BranchSourceId(other, goal)[0] == 'b';
  }

  lemma SynthesisSourceIsInjective(lead: string, other: string)
    requires SynthesisSourceId(lead) == SynthesisSourceId(other)
    ensures lead == other
  {
    assert lead == SynthesisSourceId(lead)[10..] == SynthesisSourceId(other)[10..] == other;
  }
}
