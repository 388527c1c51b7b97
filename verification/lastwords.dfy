/** Rows told over and over under names, some of them past the point where the host
    stops reading, some put in again by the host itself: when what was read is the last
    word sent on everything. */
module LastWords {
  import opened Options
  import opened Carry

  /** A row that was sent and read, one sent past the limit of reading, or one the host
      put back, which is read and was not sent. */
  datatype Utterance<T> = Read(row: T) | Unread(row: T) | Returned(row: T)

  /** What was sent. */
  function Rows<T>(said: seq<Utterance<T>>): seq<T> {
    if said == [] then []
    else
      var last := said[|said| - 1];
      Rows(said[..|said| - 1]) + if last.Returned? then [] else [last.row]
  }

  /** What was read. */
  function ReadRows<T>(said: seq<Utterance<T>>): seq<T> {
    if said == [] then []
    else
      var last := said[|said| - 1];
      ReadRows(said[..|said| - 1]) + if last.Unread? then [] else [last.row]
  }

  lemma {:induction false} RowsConcat<T>(a: seq<Utterance<T>>, b: seq<Utterance<T>>)
    ensures Rows(a + b) == Rows(a) + Rows(b)
    ensures ReadRows(a + b) == ReadRows(a) + ReadRows(b)
    decreases |b|
  {
    if b == [] {
      assert a + b == a;
    } else {
      assert (a + b)[..|a + b| - 1] == a + b[..|b| - 1];
      RowsConcat(a, b[..|b| - 1]);
    }
  }

  /** Nothing after it is said under the same name. */
  ghost predicate LastWord<T>(said: seq<Utterance<T>>, name: T -> string, i: nat)
    requires i < |said|
  {
    forall j :: i < j < |said| ==> name(said[j].row) != name(said[i].row)
  }

  /** The last row read under a name. */
  function LastRead<T>(said: seq<Utterance<T>>, name: T -> string, k: string): Option<T> {
    if said == [] then None
    else
      var last := said[|said| - 1];
      if !last.Unread? && name(last.row) == k then Some(last.row) else LastRead(said[..|said| - 1], name, k)
  }

  /** The last row sent under a name. */
  function LastSent<T>(said: seq<Utterance<T>>, name: T -> string, k: string): Option<T> {
    if said == [] then None
    else
      var last := said[|said| - 1];
      if !last.Returned? && name(last.row) == k then Some(last.row) else LastSent(said[..|said| - 1], name, k)
  }

  /** It was sent and read; or it was not read, and repeats what was last read under its
      name; or it was not sent, and repeats what last was. */
  predicate Stands<T(==)>(said: seq<Utterance<T>>, name: T -> string, i: nat)
    requires i < |said|
  {
    match said[i]
    case Read(_) => true
    case Unread(row) => LastRead(said[..i], name, name(row)) == Some(row)
    case Returned(row) => LastSent(said[..i], name, name(row)) == Some(row)
  }

  /** Every last word stands. */
  ghost predicate LastWordsStand<T>(said: seq<Utterance<T>>, name: T -> string) {
    forall i :: 0 <= i < |said| && LastWord(said, name, i) ==> Stands(said, name, i)
  }

  ghost predicate WordStands<T>(said: seq<Utterance<T>>, name: T -> string, k: string) {
    forall i :: 0 <= i < |said| && name(said[i].row) == k && LastWord(said, name, i) ==> Stands(said, name, i)
  }

  ghost predicate Agree<T>(a: map<string, T>, b: map<string, T>, k: string) {
    (k in a <==> k in b) && (k in a ==> a[k] == b[k])
  }

  lemma OneMore<T>(said: seq<Utterance<T>>, name: T -> string)
    requires said != []
    ensures var front, last := said[..|said| - 1], said[|said| - 1];
            && ByKey(Rows(said), name)
               == (if last.Returned? then ByKey(Rows(front), name) else ByKey(Rows(front), name)[name(last.row) := last.row])
            && ByKey(ReadRows(said), name)
               == if last.Unread? then ByKey(ReadRows(front), name)
                  else ByKey(ReadRows(front), name)[name(last.row) := last.row]
  {
    var front, last := said[..|said| - 1], said[|said| - 1];
    assert (Rows(front) + [last.row])[..|Rows(front)|] == Rows(front);
    assert (ReadRows(front) + [last.row])[..|ReadRows(front)|] == ReadRows(front);
    assert Rows(front) + [] == Rows(front) && ReadRows(front) + [] == ReadRows(front);
  }

  function Under<T>(m: map<string, T>, k: string): Option<T> {
    if k in m then Some(m[k]) else None
  }

  lemma {:induction false} LastReadHeld<T>(said: seq<Utterance<T>>, name: T -> string, k: string)
    ensures LastRead(said, name, k) == Under(ByKey(ReadRows(said), name), k)
  {
    if said != [] {
      OneMore(said, name);
      LastReadHeld(said[..|said| - 1], name, k);
      hide ReadRows, Rows;
    }
  }

  lemma NothingSent<T>(name: T -> string)
    ensures ByKey(Rows<T>([]), name) == map[]
  {
  }

  lemma {:induction false} LastSentHeld<T>(said: seq<Utterance<T>>, name: T -> string, k: string)
    ensures LastSent(said, name, k) == Under(ByKey(Rows(said), name), k)
  {
    hide Rows, ReadRows, ByKey;
    if said == [] {
      NothingSent(name);
    } else {
      OneMore(said, name);
      LastSentHeld(said[..|said| - 1], name, k);
    }
  }

  lemma EarlierWords<T>(said: seq<Utterance<T>>, name: T -> string, k: string)
    requires said != [] && name(said[|said| - 1].row) != k
    ensures WordStands(said, name, k) <==> WordStands(said[..|said| - 1], name, k)
  {
    var n := |said| - 1;
    var front := said[..n];
    hide LastRead, LastSent;
    forall i | 0 <= i < n && name(said[i].row) == k
      ensures LastWord(said, name, i) == LastWord(front, name, i) && Stands(said, name, i) == Stands(front, name, i)
    {
      assert said[..i] == front[..i];
    }
    hide LastWord, Stands;
  }

  lemma FinalWord<T>(said: seq<Utterance<T>>, name: T -> string, k: string)
    requires said != [] && name(said[|said| - 1].row) == k
    ensures WordStands(said, name, k) <==> Stands(said, name, |said| - 1)
  {
    hide Stands;
    var n := |said| - 1;
    assert LastWord(said, name, n);
    assert forall i :: 0 <= i < n && name(said[i].row) == k ==> !LastWord(said, name, i);
  }

  lemma {:induction false} WordAgrees<T>(said: seq<Utterance<T>>, name: T -> string, k: string)
    ensures Agree(ByKey(ReadRows(said), name), ByKey(Rows(said), name), k) <==> WordStands(said, name, k)
  {
    if said != [] {
      hide LastRead, LastSent, ByKey, ReadRows, Rows;
      var n := |said| - 1;
      var front, last := said[..n], said[n];
      OneMore(said, name);
      WordAgrees(front, name, k);
      LastReadHeld(front, name, k);
      LastSentHeld(front, name, k);
      if name(last.row) == k {
        FinalWord(said, name, k);
      } else {
        EarlierWords(said, name, k);
      }
      hide WordStands;
    }
  }

  lemma AllAgree<T>(a: map<string, T>, b: map<string, T>)
    requires forall k :: Agree(a, b, k)
    ensures a == b
  {
    assert forall k :: Agree(a, b, k) ==> (k in a <==> k in b);
  }

  /** What was read says what was last sent on everything exactly when every last word
      stands. */
  lemma LastWordsExactly<T>(said: seq<Utterance<T>>, name: T -> string)
    ensures ByKey(ReadRows(said), name) == ByKey(Rows(said), name) <==> LastWordsStand(said, name)
  {
    hide ByKey, Rows, ReadRows, LastWord, Stands;
    forall k ensures Agree(ByKey(ReadRows(said), name), ByKey(Rows(said), name), k) <==> WordStands(said, name, k) {
      WordAgrees(said, name, k);
    }
    if LastWordsStand(said, name) {
      forall k ensures Agree(ByKey(ReadRows(said), name), ByKey(Rows(said), name), k) {
        assert WordStands(said, name, k);
      }
      AllAgree(ByKey(ReadRows(said), name), ByKey(Rows(said), name));
    }
    if ByKey(ReadRows(said), name) == ByKey(Rows(said), name) {
      forall i | 0 <= i < |said| && LastWord(said, name, i) ensures Stands(said, name, i) {
        var k := name(said[i].row);
        assert Agree(ByKey(ReadRows(said), name), ByKey(Rows(said), name), k);
        assert WordStands(said, name, k);
      }
    }
  }

  /** Rows that are all read. */
  function AllRead<T>(rows: seq<T>): seq<Utterance<T>> {
    seq(|rows|, i requires 0 <= i < |rows| => Read(rows[i]))
  }

  /** Rows the host put back. */
  function AllReturned<T>(rows: seq<T>): seq<Utterance<T>> {
    seq(|rows|, i requires 0 <= i < |rows| => Returned(rows[i]))
  }

  lemma {:induction false} AllReadRows<T>(rows: seq<T>)
    ensures Rows(AllRead(rows)) == rows && ReadRows(AllRead(rows)) == rows
    ensures Rows(AllReturned(rows)) == [] && ReadRows(AllReturned(rows)) == rows
  {
    if rows != [] {
      AllReadRows(rows[..|rows| - 1]);
      assert AllRead(rows)[..|rows| - 1] == AllRead(rows[..|rows| - 1]);
      assert AllReturned(rows)[..|rows| - 1] == AllReturned(rows[..|rows| - 1]);
    }
  }

  /** What was read before, overridden by rows that are all read, is the last word on
      everything exactly when each last word before them stands or is overridden. */
  lemma OverriddenExactly<T>(said: seq<Utterance<T>>, own: seq<T>, name: T -> string)
    ensures ByKey(ReadRows(said), name) + ByKey(own, name) == ByKey(Rows(said) + own, name)
       <==> LastWordsStand(said + AllRead(own), name)
  {
    hide ByKey, Rows, ReadRows, LastWordsStand;
    AllReadRows(own);
    RowsConcat(said, AllRead(own));
    ByKeyConcat(ReadRows(said), own, name);
    LastWordsExactly(said + AllRead(own), name);
  }

  /** Nothing was left unread and nothing put back. */
  predicate AllHeard<T>(said: seq<Utterance<T>>) {
    forall i :: 0 <= i < |said| ==> said[i].Read?
  }

  lemma HeardConcat<T>(a: seq<Utterance<T>>, b: seq<Utterance<T>>)
    requires AllHeard(a) && AllHeard(b)
    ensures AllHeard(a + b)
  {
  }

  /** Then every last word stands. */
  lemma HeardStands<T>(said: seq<Utterance<T>>, name: T -> string)
    requires AllHeard(said)
    ensures LastWordsStand(said, name)
  {
    hide LastWord;
  }
}
