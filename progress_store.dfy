/** The `web.progress` transient model of web_progress/models/web_progress.py:
    an append-only table of progress records, the cancel flag query and the
    parent-first progress stack returned to the web client. */
module ProgressStore {
  import opened Wrappers

  /** The `state` selection; `Unset` is the `False` read from an empty
      recordset or from a record created without a state. */
  datatype State = Ongoing | Done | Cancel | Unset

  /** One row of `web.progress`. Char fields read as `False` when unset
      (`None` here); Integer fields read as 0 and Boolean fields as `False`.
      `recurDepth` keeps the stored column itself: a row created without
      a depth holds NULL (`None`), which reads as 0 but is not equal to 0
      in a search domain. */
  datatype Record = Record(
    name: Option<string>,
    code: Option<string>,
    recurDepth: Option<int>,
    progress: int,
    done: int,
    total: int,
    state: State,
    cancellable: bool)

  /** The fields as read from an empty recordset. */
  const EmptyRecord: Record := Record(None, None, None, 0, 0, 0, Unset, false)

  /** `progress_id.recur_depth`: the stored depth, with NULL read as 0. */
  function ReadDepth(r: Record): int {
    if r.recurDepth.Some? then r.recurDepth.value else 0
  }

  /** The record `cancel_progress(code)` creates: only `code` and `state`
      are given, every other field is unset; its depth column is NULL. */
  function CancelRecord(code: string): Record {
    Record(None, Some(code), None, 0, 0, 0, Cancel, false)
  }

  /** One element of the list `get_progress` returns (`progress_vals`). */
  datatype Entry = Entry(
    msg: Option<string>,
    code: Option<string>,
    progress: int,
    done: int,
    total: int,
    state: State,
    cancellable: bool)

  function EntryOf(r: Record): Entry {
    Entry(r.name, r.code, r.progress, r.done, r.total, r.state, r.cancellable)
  }

  /** `if code:` — a missing or empty code adds no code condition. */
  predicate FiltersCode(code: Option<string>) {
    code.Some? && code.value != ""
  }

  /** The search domain of `get_progress`: `('recur_depth', '=', d)` only
      matches rows whose depth column holds `d`, never a NULL one. */
  predicate Matches(r: Record, code: Option<string>, recurDepth: Option<int>) {
    && (recurDepth.Some? ==> r.recurDepth == recurDepth)
    && (FiltersCode(code) ==> r.code == code)
  }

  /** Index of the most recently created record matching the domain. */
  function LatestMatch(records: seq<Record>, code: Option<string>, recurDepth: Option<int>): (i: Option<nat>)
    ensures i.Some? ==> i.value < |records| && Matches(records[i.value], code, recurDepth)
    ensures i.Some? ==> forall j :: i.value < j < |records| ==> !Matches(records[j], code, recurDepth)
    ensures i.None? ==> forall j :: 0 <= j < |records| ==> !Matches(records[j], code, recurDepth)
  {
    if records == [] then None
    else if Matches(records[|records| - 1], code, recurDepth) then Some(|records| - 1)
    else LatestMatch(records[..|records| - 1], code, recurDepth)
  }

  /** `progress_id`: the latest matching record, or the empty recordset when
      the domain is empty or nothing matches. */
  function Locate(records: seq<Record>, code: Option<string>, recurDepth: Option<int>): (r: Record)
    ensures r == EmptyRecord || r in records
    ensures !FiltersCode(code) && recurDepth.None? ==> r == EmptyRecord
    ensures (FiltersCode(code) || recurDepth.Some?) && LatestMatch(records, code, recurDepth).None?
            ==> r == EmptyRecord
    ensures (FiltersCode(code) || recurDepth.Some?) && LatestMatch(records, code, recurDepth).Some?
            ==> r == records[LatestMatch(records, code, recurDepth).value]
  {
    if !FiltersCode(code) && recurDepth.None? then EmptyRecord
    else match LatestMatch(records, code, recurDepth)
      case None => EmptyRecord
      case Some(i) => records[i]
  }

  /** The largest recursion depth stored in the table (0 for none). */
  function MaxDepth(records: seq<Record>): (d: nat)
    ensures forall r :: r in records ==> ReadDepth(r) <= d
  {
    if records == [] then 0
    else
      var rest := MaxDepth(records[1..]);
      assert forall r :: r in records ==> r == records[0] || r in records[1..];
      if ReadDepth(records[0]) > rest then ReadDepth(records[0]) else rest
  }

  /** Termination measure of the recursion in `get_progress`: the depth the
      located record can have. */
  function DepthBound(records: seq<Record>, recurDepth: Option<int>): nat {
    match recurDepth
    case None => MaxDepth(records) + 1
    case Some(d) => if d < 0 then 0 else d
  }

  lemma LocatedDepthBounded(records: seq<Record>, code: Option<string>, recurDepth: Option<int>)
    ensures ReadDepth(Locate(records, code, recurDepth)) <= DepthBound(records, recurDepth)
  {
    var r := Locate(records, code, recurDepth);
    if r != EmptyRecord && recurDepth.Some? {
      var i := LatestMatch(records, code, recurDepth);
      assert i.Some?;
    }
  }

  /** The list `get_progress(code, recur_depth)` returns: the stacks of the
      parent depths 0 .. d-1 of the located record, in that order, followed
      by the located record's own entry. */
  function Stack(records: seq<Record>, code: Option<string>, recurDepth: Option<int>): seq<Entry>
    decreases DepthBound(records, recurDepth), 1, 0
  {
    var r := Locate(records, code, recurDepth);
    LocatedDepthBounded(records, code, recurDepth);
    Parents(records, code, ReadDepth(r)) + [EntryOf(r)]
  }

  /** `get_progress(code, 0) + ... + get_progress(code, d - 1)`, the result
      of the loop over `range(d)` (empty for d <= 0). */
  function Parents(records: seq<Record>, code: Option<string>, d: int): seq<Entry>
    decreases d, 0
  {
    if d <= 0 then []
    else Parents(records, code, d - 1) + Stack(records, code, Some(d - 1))
  }

  /** `check_cancelled`: true when some record of `code` is in state cancel
      (the source returns `True`, or `None` otherwise). */
  function IsCancelled(records: seq<Record>, code: string): (b: bool)
    ensures b <==> exists i :: 0 <= i < |records| && records[i].code == Some(code) && records[i].state == Cancel
  {
    if records == [] then false
    else
      var last := records[|records| - 1];
      if last.code == Some(code) && last.state == Cancel then true
      else
        var rest := IsCancelled(records[..|records| - 1], code);
        assert forall i :: 0 <= i < |records| - 1 ==> records[..|records| - 1][i] == records[i];
        rest
  }

  function Pow2(n: nat): (p: nat)
    ensures p >= 1
  {
    if n == 0 then 1 else 2 * Pow2(n - 1)
  }

  /** With neither a code nor a depth the stack is the single entry of the
      empty recordset. */
  lemma StackWithoutFilter(records: seq<Record>, code: Option<string>)
    requires !FiltersCode(code)
    ensures Stack(records, code, None) == [EntryOf(EmptyRecord)]
  {
    assert Parents(records, code, 0) == [];
  }

  /** The last entry describes the most recently created record that
      matches the filter (`order='create_date desc', limit=1`), whatever
      its state and whatever was created before it. */
  lemma StackEndsWithLatest(records: seq<Record>, code: Option<string>, recurDepth: Option<int>, i: nat)
    requires FiltersCode(code) || recurDepth.Some?
    requires i < |records| && Matches(records[i], code, recurDepth)
    requires forall j :: i < j < |records| ==> !Matches(records[j], code, recurDepth)
    ensures var s := Stack(records, code, recurDepth);
            |s| >= 1 && s[|s| - 1] == EntryOf(records[i])
  {
  }

  /** A code no record carries yields the single entry of the empty
      recordset, whose state is unset. */
  lemma StackOfUnknownCode(records: seq<Record>, code: string)
    requires code != ""
    requires forall i :: 0 <= i < |records| ==> records[i].code != Some(code)
    ensures Stack(records, Some(code), None) == [EntryOf(EmptyRecord)]
  {
    assert Locate(records, Some(code), None) == EmptyRecord;
    assert Parents(records, Some(code), 0) == [];
  }

  /** A cancel stored between a depth-0 record and a nested depth-1 record
      of the same code does not stand in for the depth-0 parent: its depth
      column is NULL, so the parent search skips it. */
  lemma CancelIsNoParent(p0: Record, p1: Record, k: string)
    requires k != ""
    requires p0.code == Some(k) && p0.recurDepth == Some(0)
    requires p1.code == Some(k) && p1.recurDepth == Some(1)
    ensures Stack([p0, CancelRecord(k), p1], Some(k), None) == [EntryOf(p0), EntryOf(p1)]
  {
    var records := [p0, CancelRecord(k), p1];
    assert LatestMatch(records, Some(k), None) == Some(2);
    assert LatestMatch(records, Some(k), Some(0)) == Some(0) by {
      var front := records[..2];
      assert front == [p0, CancelRecord(k)];
      assert front[..1] == [p0];
      assert LatestMatch([p0], Some(k), Some(0)) == Some(0);
      assert LatestMatch(front, Some(k), Some(0)) == Some(0);
    }
    assert Stack(records, Some(k), Some(0)) == [EntryOf(p0)];
    assert Parents(records, Some(k), 1) == Parents(records, Some(k), 0) + Stack(records, Some(k), Some(0));
  }

  /** A located record of depth 0 or less, or no match at all, gives a
      one-element stack. */
  lemma StackOfTopLevel(records: seq<Record>, code: Option<string>, recurDepth: Option<int>)
    requires ReadDepth(Locate(records, code, recurDepth)) <= 0
    ensures |Stack(records, code, recurDepth)| == 1
  {
    assert Parents(records, code, ReadDepth(Locate(records, code, recurDepth))) == [];
  }

  /** Every depth 0 .. d has a record of `code`. */
  ghost predicate HasAllDepths(records: seq<Record>, code: Option<string>, d: nat) {
    forall p :: 0 <= p <= d ==> HasDepth(records, code, p)
  }

  /** Depth p has a record of `code`: the search for it finds one. */
  ghost predicate HasDepth(records: seq<Record>, code: Option<string>, p: nat) {
    LatestMatch(records, code, Some(p)).Some?
  }

  /** The search finds a record exactly when the table holds one. */
  lemma HasDepthIffRecord(records: seq<Record>, code: Option<string>, p: nat)
    ensures HasDepth(records, code, p) <==> exists i :: 0 <= i < |records| && Matches(records[i], code, Some(p))
  {
    if exists i :: 0 <= i < |records| && Matches(records[i], code, Some(p)) {
      var i :| 0 <= i < |records| && Matches(records[i], code, Some(p));
      assert LatestMatch(records, code, Some(p)).Some?;
    }
  }

  lemma {:induction false} Pow2Grows(a: nat, b: nat)
    requires a < b
    ensures Pow2(a) < Pow2(b)
    decreases b
  {
    if a < b - 1 {
      Pow2Grows(a, b - 1);
    }
  }

  lemma AllDepthsBelow(records: seq<Record>, code: Option<string>, p: nat, d: nat)
    requires p <= d
    requires HasAllDepths(records, code, d)
    ensures HasAllDepths(records, code, p)
  {
  }

  lemma LocateAtDepth(records: seq<Record>, code: Option<string>, d: nat)
    requires HasAllDepths(records, code, d)
    ensures Locate(records, code, Some(d)).recurDepth == Some(d)
  {
    assert HasDepth(records, code, d);
  }

  /** When every depth 0 .. d has a record, each parent call recurses again
      and the stack for depth d holds 2^d entries. */
  lemma {:induction false} StackLength(records: seq<Record>, code: Option<string>, d: nat)
    requires HasAllDepths(records, code, d)
    ensures |Stack(records, code, Some(d))| == Pow2(d)
    decreases d, 1
  {
    LocateAtDepth(records, code, d);
    ParentsLength(records, code, d);
  }

  /** The parent part for depth d holds 2^d - 1 entries. */
  lemma {:induction false} ParentsLength(records: seq<Record>, code: Option<string>, d: nat)
    requires d > 0 ==> HasAllDepths(records, code, d - 1)
    ensures |Parents(records, code, d)| == Pow2(d) - 1
    decreases d, 0
  {
    if d > 0 {
      if d > 1 {
        AllDepthsBelow(records, code, d - 2, d - 1);
      }
      ParentsLength(records, code, d - 1);
      StackLength(records, code, d - 1);
    }
  }

  /** The stack for depth d is its parents' stacks followed by the entry of
      the latest record of depth d. */
  lemma StackSplit(records: seq<Record>, code: Option<string>, d: nat)
    requires HasAllDepths(records, code, d)
    ensures Stack(records, code, Some(d))
            == Parents(records, code, d) + [EntryOf(Locate(records, code, Some(d)))]
  {
    LocateAtDepth(records, code, d);
  }

  /** Appending the stack of depth d leaves the entries before it alone. */
  lemma ParentsPrefix(records: seq<Record>, code: Option<string>, d: nat, i: nat)
    requires i < |Parents(records, code, d)|
    ensures i < |Parents(records, code, d + 1)|
    ensures Parents(records, code, d + 1)[i] == Parents(records, code, d)[i]
  {
    assert Parents(records, code, d + 1) == Parents(records, code, d) + Stack(records, code, Some(d));
  }

  /** The block appended for depth k ends with the entry of the latest record
      of depth k. */
  lemma ParentsLastBlock(records: seq<Record>, code: Option<string>, k: nat)
    requires HasAllDepths(records, code, k)
    ensures |Parents(records, code, k + 1)| == Pow2(k + 1) - 1
    ensures Parents(records, code, k + 1)[Pow2(k + 1) - 2] == EntryOf(Locate(records, code, Some(k)))
  {
    var init := Parents(records, code, k);
    var block := Stack(records, code, Some(k));
    assert Parents(records, code, k + 1) == init + block;
    ParentsLength(records, code, k);
    StackLength(records, code, k);
    StackSplit(records, code, k);
    assert Pow2(k + 1) - 2 == |init| + |block| - 1;
  }

  /** Within `Parents(d)`, position 2^(k+1) - 2 holds the entry of the latest
      record of depth k: blocks come in increasing depth order. */
  lemma {:induction false} ParentBlockEnd(records: seq<Record>, code: Option<string>, k: nat, d: nat)
    requires k < d
    requires HasAllDepths(records, code, d - 1)
    ensures |Parents(records, code, d)| == Pow2(d) - 1
    ensures Pow2(k + 1) <= Pow2(d)
    ensures Parents(records, code, d)[Pow2(k + 1) - 2] == EntryOf(Locate(records, code, Some(k)))
    decreases d
  {
    ParentsLength(records, code, d);
    if k + 1 < d {
      AllDepthsBelow(records, code, d - 2, d - 1);
      ParentBlockEnd(records, code, k, d - 1);
      Pow2Grows(d - 1, d);
      ParentsPrefix(records, code, d - 1, Pow2(k + 1) - 2);
    } else {
      AllDepthsBelow(records, code, k, d - 1);
      ParentsLastBlock(records, code, k);
    }
  }

  /** Parent-first order: in the stack for depth d, position 2^(k+1) - 2
      holds the latest record of depth k, for each parent depth k < d. */
  lemma StackIsParentFirst(records: seq<Record>, code: Option<string>, d: nat, k: nat)
    requires HasAllDepths(records, code, d)
    requires k < d
    ensures |Stack(records, code, Some(d))| == Pow2(d)
    ensures Pow2(k + 1) <= Pow2(d)
    ensures Stack(records, code, Some(d))[Pow2(k + 1) - 2] == EntryOf(Locate(records, code, Some(k)))
  {
    StackSplit(records, code, d);
    ParentBlockEnd(records, code, k, d);
    var parents := Parents(records, code, d);
    assert Stack(records, code, Some(d))[Pow2(k + 1) - 2] == parents[Pow2(k + 1) - 2];
  }

  /** Records are only appended, so a cancel once recorded stays visible. */
  lemma CancelIsPermanent(records: seq<Record>, more: seq<Record>, code: string)
    requires IsCancelled(records, code)
    ensures IsCancelled(records + more, code)
  {
    var i :| 0 <= i < |records| && records[i].code == Some(code) && records[i].state == Cancel;
    assert (records + more)[i] == records[i];
  }

  /** After `cancel_progress(code)` the check for that code answers true. */
  lemma CancelThenChecked(records: seq<Record>, code: string)
    ensures IsCancelled(records + [CancelRecord(code)], code)
  {
    assert (records + [CancelRecord(code)])[|records|] == CancelRecord(code);
  }

  /** The table itself: records in creation order. Concurrency and
      transactions are out of the model; an append is atomic. */
  class ProgressTable {
    var records: seq<Record>

    constructor ()
      ensures records == []
    {
      records := [];
    }

    /** `cancel_progress`: one record with the code and state cancel. The
        `code` column is required, so the default `code=None` makes the
        create fail (`stored` is false) and nothing is appended. */
    method CancelProgress(code: Option<string>) returns (stored: bool)
      modifies this
      ensures stored <==> code.Some?
      ensures code.None? ==> records == old(records)
      ensures code.Some? ==> records == old(records) + [CancelRecord(code.value)]
    {
      if code.None? {
        return false;
      }
      records := records + [CancelRecord(code.value)];
      stored := true;
    }

    /** `record_progress`: one record carrying `vals`; as for a cancel, a
        record without a code is refused and nothing is appended. */
    method RecordProgress(vals: Record) returns (stored: bool)
      modifies this
      ensures stored <==> vals.code.Some?
      ensures records == old(records) + (if stored then [vals] else [])
    {
      if vals.code.None? {
        return false;
      }
      records := records + [vals];
      stored := true;
    }

    function CheckCancelled(code: string): (b: bool)
      reads this
      ensures b <==> exists i :: 0 <= i < |records| && records[i].code == Some(code) && records[i].state == Cancel
    {
      IsCancelled(records, code)
    }

    /** `get_progress`: a loop over the parent depths whose body recurses. */
    method GetProgress(code: Option<string>, recurDepth: Option<int>) returns (result: seq<Entry>)
      ensures result == Stack(records, code, recurDepth)
      decreases DepthBound(records, recurDepth)
    {
      result := [];
      var progress := Locate(records, code, recurDepth);
      LocatedDepthBounded(records, code, recurDepth);
      var depth := ReadDepth(progress);
      if depth != 0 {
        var parentDepth := 0;
        while parentDepth < depth
          invariant 0 <= parentDepth
          invariant parentDepth <= depth || parentDepth == 0
          invariant result == Parents(records, code, parentDepth)
          decreases depth - parentDepth
        {
          var parent := GetProgress(code, Some(parentDepth));
          result := result + parent;
          parentDepth := parentDepth + 1;
        }
      }
      result := result + [EntryOf(progress)];
    }
  }
}
