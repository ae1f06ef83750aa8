/** Progress reporting of web_progress/models/base.py: the percent and
    reporting-step arithmetic, the stored record and log line, the shared
    recursion-depth counters and the reporting generator. */
module Reporting {
  import opened Wrappers
  import opened ProgressStore
  import opened Text

  /** `int(total/(100/step)) or 1`, where the step is 10 (every 10%) for at
      most 200 elements and 1 (every 1%) above. */
  function OnePer(total: int): (n: int)
    requires total > 0
    ensures n >= 1
    ensures total <= 200 ==> n == (if total / 10 == 0 then 1 else total / 10)
    ensures total > 200 ==> n == total / 100
  {
    var step := if total <= 200 then 10 else 1;
    var perStep := (total * step) / 100;
    if perStep == 0 then 1 else perStep
  }

  /** `1 == one_per or 0 == (num % one_per)` (the divisor is positive, so
      Python's `%` agrees with Dafny's). */
  predicate Reports(num: int, total: int)
    requires total > 0
  {
    OnePer(total) == 1 || num % OnePer(total) == 0
  }

  /** `int(x)` of the float quotient a/b: truncation toward zero. */
  function TruncDiv(a: int, b: int): int
    requires b > 0
  {
    if a >= 0 then a / b else -((-a) / b)
  }

  /** `int(100 * num / total) + (num and 1 or 0)`. */
  function Percent(num: int, total: int): int
    requires total > 0
  {
    TruncDiv(100 * num, total) + (if num != 0 then 1 else 0)
  }

  /** The first element is always reported, and every element when the
      reporting interval is 1. */
  lemma ReportsFirstAndEvery(num: int, total: int)
    requires total > 0
    ensures Reports(0, total)
    ensures total < 20 ==> Reports(num, total)
  {
  }

  lemma MulMonotone(a: int, b: int, t: int)
    requires t > 0 && a <= b
    ensures a * t <= b * t
  {
    assert b * t - a * t == (b - a) * t;
  }

  lemma DivBelow(x: int, t: int, c: int)
    requires t > 0 && 0 <= x < c * t
    ensures x / t < c
  {
    var q := x / t;
    assert q * t <= x;
    if c <= q {
      MulMonotone(c, q, t);
    }
  }

  lemma DivMonotone(x: int, y: int, t: int)
    requires t > 0 && 0 <= x <= y
    ensures x / t <= y / t
  {
    var qx, qy := x / t, y / t;
    assert qx * t <= x;
    assert y < (qy + 1) * t;
    if qy + 1 <= qx {
      MulMonotone(qy + 1, qx, t);
    }
  }

  /** For an element index inside the range, the reported percent lies in
      0..100 and is 0 exactly for the first element. */
  lemma PercentBounds(num: int, total: int)
    requires 0 <= num < total
    ensures 0 <= Percent(num, total) <= 100
    ensures Percent(num, total) == 0 <==> num == 0
  {
    var x := 100 * num;
    assert 0 <= x < 100 * total;
    DivBelow(x, total, 100);
    assert Percent(num, total) == x / total + (if num != 0 then 1 else 0);
  }

  /** Later elements never report a smaller percent. */
  lemma PercentMonotone(a: int, b: int, total: int)
    requires 0 <= a <= b < total
    ensures Percent(a, total) <= Percent(b, total)
  {
    DivMonotone(100 * a, 100 * b, total);
  }

  /** The `vals` that `_report_progress_store` passes to `record_progress`. */
  function ProgressRecord(code: string, percent: int, num: int, total: int, msg: string,
                          state: State, depth: int, cancellable: bool): Record
  {
    Record(Some(msg), Some(code), Some(depth), percent, num, total, state, cancellable)
  }

  function Repeat(c: char, n: int): (s: string)
    ensures |s| == (if n > 0 then n else 0)
    ensures forall i :: 0 <= i < |s| ==> s[i] == c
    decreases n
  {
    if n <= 0 then [] else [c] + Repeat(c, n - 1)
  }

  /** `msg and (' %s.' % msg) or ''`. */
  function MessageSuffix(msg: string): string {
    if msg != "" then " " + msg + "." else ""
  }

  /** The "P% (num/total)" part of the log line. */
  function Counts(percent: int, num: int, total: int): string {
    Decimal(percent) + "% (" + Decimal(num) + "/" + Decimal(total) + ")"
  }

  /** The line handed to the logger: `'>' * recur_depth + ' ' +
      "Progress P% (num/total)"` followed by the message suffix. */
  function LogLine(depth: int, percent: int, num: int, total: int, msg: string): string {
    Repeat('>', depth) + " Progress " + Counts(percent, num, total) + MessageSuffix(msg)
  }

  /** The line opens with one `>` per level of nesting and " Progress ". */
  lemma LogLinePrefix(depth: nat, percent: int, num: int, total: int, msg: string)
    ensures var line := LogLine(depth, percent, num, total, msg);
            && |line| > depth + 10
            && (forall i :: 0 <= i < depth ==> line[i] == '>')
            && line[depth..depth + 10] == " Progress "
  {
    var marks := Repeat('>', depth);
    var head := marks + " Progress ";
    var counts := Counts(percent, num, total);
    var line := LogLine(depth, percent, num, total, msg);
    assert line == (head + counts) + MessageSuffix(msg);
    HeadTail(head + counts, MessageSuffix(msg), |head + counts|);
    HeadTail(head, counts, depth + 10);
    HeadTail(marks, " Progress ", depth);
    assert line[..depth + 10] == head by {
      assert line[..depth + 10] == (head + counts)[..depth + 10];
    }
    assert line[depth..depth + 10] == line[..depth + 10][depth..];
    forall i | 0 <= i < depth
      ensures line[i] == '>'
    {
      assert line[i] == line[..depth + 10][i] == marks[i];
    }
  }

  /** The line ends with " msg." exactly when the message is non-empty,
      and with the closing parenthesis of "(num/total)" otherwise. */
  lemma LogLineSuffix(depth: nat, percent: int, num: int, total: int, msg: string)
    ensures var line := LogLine(depth, percent, num, total, msg);
            && |line| >= |msg| + 2
            && (msg != "" ==> line[|line| - |msg| - 2..] == " " + msg + ".")
            && (msg == "" ==> line[|line| - 1] == ')')
  {
    var body := Repeat('>', depth) + " Progress " + Counts(percent, num, total);
    var tail := MessageSuffix(msg);
    assert LogLine(depth, percent, num, total, msg) == body + tail;
    HeadTail(body, tail, |body|);
    assert body[|body| - 1] == ')';
  }

  lemma HeadTail(head: string, tail: string, n: nat)
    requires n == |head|
    ensures (head + tail)[..n] == head && (head + tail)[n..] == tail
  {
  }

  /** What one call of `_report_progress_do_percent` does. */
  datatype StepOutcome = Silent | Raised | Stored(rec: Record)

  function DoPercent(records: seq<Record>, code: string, num: int, total: int, msg: string,
                     depth: int, cancellable: bool): (s: StepOutcome)
    ensures s.Silent? <==> total <= 0 || !Reports(num, total)
    ensures s.Raised? <==> total > 0 && Reports(num, total) && cancellable && IsCancelled(records, code)
    ensures s.Stored? ==> s.rec.code == Some(code) && s.rec.done == num && s.rec.total == total
                          && s.rec.recurDepth == Some(depth) && s.rec.state == Ongoing
                          && s.rec.progress == Percent(num, total)
                          && s.rec.name == Some(msg) && s.rec.cancellable == cancellable
  {
    if total <= 0 then Silent
    else if !Reports(num, total) then Silent
    else if cancellable && IsCancelled(records, code) then Raised
    else Stored(ProgressRecord(code, Percent(num, total), num, total, msg, Ongoing, depth, cancellable))
  }

  /** The state of the reporting loop after trying elements num .. steps-1:
      the table, how many elements were yielded, whether a cancel raised. */
  datatype Run = Run(records: seq<Record>, count: nat, raised: bool)

  function IterRun(records: seq<Record>, code: string, num: nat, steps: nat, total: int,
                   msg: string, depth: int, cancellable: bool): (r: Run)
    ensures num <= r.count && (num <= steps ==> r.count <= steps)
    decreases steps - num
  {
    if num >= steps then Run(records, num, false)
    else match DoPercent(records, code, num, total, msg, depth, cancellable)
      case Raised => Run(records, num, true)
      case Silent => IterRun(records, code, num + 1, steps, total, msg, depth, cancellable)
      case Stored(r) => IterRun(records + [r], code, num + 1, steps, total, msg, depth, cancellable)
  }

  /** One element of the loop: the step's outcome decides between stopping
      with a raise and going on with the table it leaves. */
  lemma IterRunStep(records: seq<Record>, code: string, num: nat, steps: nat, total: int,
                    msg: string, depth: int, cancellable: bool)
    requires num < steps
    ensures var s := DoPercent(records, code, num, total, msg, depth, cancellable);
            IterRun(records, code, num, steps, total, msg, depth, cancellable)
            == if s.Raised? then Run(records, num, true)
               else IterRun(records + (if s.Stored? then [s.rec] else []), code, num + 1,
                            steps, total, msg, depth, cancellable)
  {
    var s := DoPercent(records, code, num, total, msg, depth, cancellable);
    if s.Silent? {
      assert records + [] == records;
    }
  }

  /** What the loop stores: the table only grows; every new record is an
      ongoing record of this code and depth for an element before the
      stopping point, with a percent in 0..100; without a cancel every
      element is yielded, and a cancel is raised only when cancellable. */
  lemma {:induction false} IterRunFacts(records: seq<Record>, code: string, num: nat, steps: nat,
                                        total: int, msg: string, depth: int, cancellable: bool)
    requires num <= steps
    requires num < steps ==> steps <= total
    ensures var run := IterRun(records, code, num, steps, total, msg, depth, cancellable);
            && (!run.raised ==> run.count == steps)
            && (run.raised ==> cancellable)
            && |records| <= |run.records|
            && run.records[..|records|] == records
            && forall i :: |records| <= i < |run.records| ==>
                 && run.records[i].code == Some(code)
                 && run.records[i].recurDepth == Some(depth)
                 && run.records[i].state == Ongoing
                 && num <= run.records[i].done < run.count
                 && 0 <= run.records[i].progress <= 100
    decreases steps - num
  {
    if num < steps {
      var step := DoPercent(records, code, num, total, msg, depth, cancellable);
      match step
      case Raised =>
      case Silent =>
        IterRunFacts(records, code, num + 1, steps, total, msg, depth, cancellable);
      case Stored(r) =>
        PercentBounds(num, total);
        var more := records + [r];
        IterRunFacts(more, code, num + 1, steps, total, msg, depth, cancellable);
        var run := IterRun(more, code, num + 1, steps, total, msg, depth, cancellable);
        assert run.records[..|more|] == more;
        assert run.records[..|records|] == records by {
          assert run.records[..|records|] == run.records[..|more|][..|records|];
        }
        assert run.records[|records|] == r;
    }
  }

  /** `code = context.get('progress_code') or str(thread_id)`. */
  function OperationCode(contextCode: Option<string>, threadId: string): string {
    if contextCode.Some? && contextCode.value != "" then contextCode.value else threadId
  }

  /** Entering an operation: the depth is the count already stored for the
      code (0 for the outermost) and the count goes up by one. */
  function EnterDepths(depths: map<string, nat>, code: string): map<string, nat> {
    var depth := if code in depths then depths[code] else 0;
    if depth != 0 then depths[code := depth + 1] else depths[code := 1]
  }

  /** Leaving: the count goes down by one and the key is deleted at 0
      (a missing key raises KeyError in the source; it is left unchanged here). */
  function ExitDepths(depths: map<string, nat>, code: string): map<string, nat> {
    if code !in depths then depths
    else if depths[code] <= 1 then depths - {code}
    else depths[code := depths[code] - 1]
  }

  /** The invariant of `_recur_depths`: every stored count is positive. */
  ghost predicate PositiveCounts(depths: map<string, nat>) {
    forall c :: c in depths ==> depths[c] >= 1
  }

  /** Leaving undoes entering, so nested operations of one code see depths
      0, 1, 2, ... and the map is restored once all have left. */
  lemma ExitUndoesEnter(depths: map<string, nat>, code: string)
    requires PositiveCounts(depths)
    ensures PositiveCounts(EnterDepths(depths, code))
    ensures code in EnterDepths(depths, code)
    ensures EnterDepths(depths, code)[code] == (if code in depths then depths[code] else 0) + 1
    ensures ExitDepths(EnterDepths(depths, code), code) == depths
  {
    var entered := EnterDepths(depths, code);
    var left := ExitDepths(entered, code);
    assert left.Keys == depths.Keys;
  }

  /** Where the generator of `report_progress_iter` stands: created by the
      call but not started (none of its body has run), suspended at the
      `yield`, or finished (exhausted, raised or closed). */
  datatype Phase = Created | Suspended | Finished

  /** The arguments of `report_progress_iter`, fixed when it is called;
      `dataLen` is `len(data)`. */
  datatype Args = Args(contextCode: Option<string>, threadId: string, dataLen: nat,
                       msg: string, total: Option<int>, cancellable: bool)

  /** The generator's local variables: `code`, `recur_depth`, `total`, how
      many elements `zip(range(total), data)` runs over, and how many have
      been yielded. */
  datatype Gen = Gen(phase: Phase, code: string, depth: nat, size: int, steps: nat, num: nat)

  const NewGen: Gen := Gen(Created, "", 0, 0, 0, 0)

  /** The locals a suspended generator can have. */
  predicate WellFormed(a: Args, g: Gen) {
    g.phase == Suspended ==> g.num <= g.steps <= a.dataLen && (g.steps > 0 ==> g.steps <= g.size)
  }

  /** What one resumption leaves behind: the generator's locals, the table,
      the shared depth counters, the index of the element yielded (if any)
      and whether the `UserError` was raised. */
  datatype Resumed = Resumed(gen: Gen, records: seq<Record>, depths: map<string, nat>,
                             item: Option<nat>, raised: bool)

  /** Lines 30-41, run by the first `next()`: the operation code, the depth
      found on entry and the length of the loop. */
  function Begin(a: Args, depths: map<string, nat>): (g: Gen)
    ensures g.phase == Suspended && g.num == 0 && WellFormed(a, g)
    ensures g.code == OperationCode(a.contextCode, a.threadId)
    ensures g.depth == (if g.code in depths then depths[g.code] else 0)
  {
    var code := OperationCode(a.contextCode, a.threadId);
    var size := if a.total.Some? then a.total.value else a.dataLen;
    Gen(Suspended, code, if code in depths then depths[code] else 0, size,
        Min(if size > 0 then size else 0, a.dataLen), 0)
  }

  /** The `done` record of the `finally` block. */
  function DoneRecord(a: Args, g: Gen): Record {
    ProgressRecord(g.code, 100, g.size, g.size, a.msg, Done, g.depth, a.cancellable)
  }

  /** The `finally` block (lines 46-52): store the `done` record, leave. */
  function Finally(a: Args, g: Gen, records: seq<Record>, depths: map<string, nat>, raised: bool): Resumed {
    Resumed(g.(phase := Finished), records + [DoneRecord(a, g)], ExitDepths(depths, g.code), None, raised)
  }

  /** Running a suspended generator up to its next `yield` or its end: one
      `_report_progress_do_percent` against the table as it is NOW, which
      holds whatever was written while the generator was suspended. */
  function Advance(a: Args, g: Gen, records: seq<Record>, depths: map<string, nat>): (r: Resumed)
    requires WellFormed(a, g) && g.phase == Suspended
    ensures WellFormed(a, r.gen) && r.gen.code == g.code && r.gen.depth == g.depth
    ensures r.item.Some? ==> r.gen.phase == Suspended && r.item.value == g.num < g.steps
                             && r.gen.num == g.num + 1 && r.depths == depths
    ensures r.item.None? ==> r.gen.phase == Finished && r.depths == ExitDepths(depths, g.code)
                             && r.records == records + [DoneRecord(a, g)]
    ensures r.raised ==> r.item.None? && a.cancellable && IsCancelled(records, g.code)
    ensures |records| <= |r.records| <= |records| + 1 && r.records[..|records|] == records
  {
    if g.num >= g.steps then Finally(a, g, records, depths, false)
    else match DoPercent(records, g.code, g.num, g.size, a.msg, g.depth, a.cancellable)
      case Raised => Finally(a, g, records, depths, true)
      case Silent => Resumed(g.(num := g.num + 1), records, depths, Some(g.num), false)
      case Stored(rec) => Resumed(g.(num := g.num + 1), records + [rec], depths, Some(g.num), false)
  }

  /** `next()` on the generator. The first call enters the operation; a
      finished generator only raises `StopIteration` again. A raise comes
      only from a cancel recorded for this code, and the table only grows,
      by at most one record. */
  function Resume(a: Args, g: Gen, records: seq<Record>, depths: map<string, nat>): (r: Resumed)
    requires WellFormed(a, g)
    ensures WellFormed(a, r.gen)
    ensures g.phase == Finished ==> r == Resumed(g, records, depths, None, false)
    ensures g.phase == Suspended ==> r.gen.code == g.code && r.gen.depth == g.depth
    ensures r.item.Some? ==> r.gen.phase == Suspended && r.item.value < a.dataLen
                             && r.gen.num == r.item.value + 1
                             && r.depths == (if g.phase == Created then EnterDepths(depths, r.gen.code) else depths)
    ensures r.raised ==> r.gen.phase == Finished && a.cancellable && IsCancelled(records, r.gen.code)
    ensures |records| <= |r.records| <= |records| + 1 && r.records[..|records|] == records
    ensures PositiveCounts(depths) ==> PositiveCounts(r.depths)
  {
    match g.phase
    case Finished => Resumed(g, records, depths, None, false)
    case Created =>
      var b := Begin(a, depths);
      Advance(a, b, records, EnterDepths(depths, b.code))
    case Suspended => Advance(a, g, records, depths)
  }

  /** `close()` on the generator: a suspended one runs its `finally` block;
      a created or finished one is only marked finished. */
  function Closing(a: Args, g: Gen, records: seq<Record>, depths: map<string, nat>): (r: Resumed)
    ensures r.gen.phase == Finished && r.gen.num == g.num && r.item.None? && !r.raised
    ensures g.phase != Suspended ==> r.records == records && r.depths == depths
    ensures g.phase == Suspended ==> r.records == records + [DoneRecord(a, g)]
                                     && r.depths == ExitDepths(depths, g.code)
  {
    if g.phase == Suspended then Finally(a, g, records, depths, false)
    else Resumed(g.(phase := Finished), records, depths, None, false)
  }

  /** A cancel recorded by the browser while the generator is suspended
      stops it at the next element that reports: the `UserError` is raised,
      the `done` record stored and the depth counter released. */
  lemma CancelBetweenYields(a: Args, g: Gen, before: seq<Record>, after: seq<Record>,
                            depths: map<string, nat>)
    requires WellFormed(a, g) && g.phase == Suspended && g.num < g.steps
    requires a.cancellable && Reports(g.num, g.size)
    ensures var records := before + [CancelRecord(g.code)] + after;
            var r := Resume(a, g, records, depths);
            && r.raised && r.item.None?
            && r.records == records + [DoneRecord(a, g)]
            && r.depths == ExitDepths(depths, g.code)
  {
    var records := before + [CancelRecord(g.code)] + after;
    CancelThenChecked(before, g.code);
    CancelIsPermanent(before + [CancelRecord(g.code)], after, g.code);
    assert IsCancelled(records, g.code);
  }

  /** A nested `report_progress_iter` of the same code, started while the
      outer one is suspended, runs one level deeper; once it is closed the
      counters are those the outer one left. */
  lemma NestedRunIsDeeper(outer: Args, inner: Args, records: seq<Record>, depths: map<string, nat>)
    requires PositiveCounts(depths)
    requires OperationCode(inner.contextCode, inner.threadId) == OperationCode(outer.contextCode, outer.threadId)
    requires Resume(outer, NewGen, records, depths).gen.phase == Suspended
    ensures var o := Resume(outer, NewGen, records, depths);
            var i := Resume(inner, NewGen, o.records, o.depths);
            && i.gen.depth == o.gen.depth + 1
            && Closing(inner, i.gen, i.records, i.depths).depths == o.depths
  {
    var o := Resume(outer, NewGen, records, depths);
    var code := o.gen.code;
    ExitUndoesEnter(depths, code);
    assert o.depths == EnterDepths(depths, code);
    ResumeThenCloseRestores(inner, o.records, o.depths);
  }

  /** Starting a generator and closing it, whatever happened to it in
      between its first `next()` and the `close()`, restores the counters. */
  lemma ResumeThenCloseRestores(a: Args, records: seq<Record>, depths: map<string, nat>)
    requires PositiveCounts(depths)
    ensures var r := Resume(a, NewGen, records, depths);
            Closing(a, r.gen, r.records, r.depths).depths == depths
  {
    var r := Resume(a, NewGen, records, depths);
    ExitUndoesEnter(depths, Begin(a, depths).code);
  }

  /** A consumer that calls `next()` up to `takes` times, doing nothing
      else in between, and then closes the generator. */
  function Consume(a: Args, g: Gen, records: seq<Record>, depths: map<string, nat>, takes: nat): Resumed
    requires WellFormed(a, g)
    decreases takes
  {
    if takes == 0 then Closing(a, g, records, depths)
    else
      var r := Resume(a, g, records, depths);
      if r.gen.phase == Finished then r
      else Consume(a, r.gen, r.records, r.depths, takes - 1)
  }

  /** Left alone between its `next()` calls, a suspended generator does what
      `IterRun` describes and then stores its `done` record and leaves. */
  lemma {:induction false} ConsumeSuspended(a: Args, g: Gen, records: seq<Record>,
                                            depths: map<string, nat>, takes: nat)
    requires WellFormed(a, g) && g.phase == Suspended
    ensures var r := Consume(a, g, records, depths, takes);
            var run := IterRun(records, g.code, g.num, Min(g.num + takes, g.steps), g.size,
                               a.msg, g.depth, a.cancellable);
            && r.records == run.records + [DoneRecord(a, g)]
            && r.raised == run.raised && r.gen.num == run.count
            && r.depths == ExitDepths(depths, g.code)
    decreases takes
  {
    var stop := Min(g.num + takes, g.steps);
    if takes > 0 && g.num < g.steps {
      IterRunStep(records, g.code, g.num, stop, g.size, a.msg, g.depth, a.cancellable);
      AdvanceIsLoopTurn(a, g, records, depths);
      var r := Advance(a, g, records, depths);
      if r.gen.phase != Finished {
        ConsumeSuspended(a, r.gen, r.records, r.depths, takes - 1);
      }
    }
  }

  /** Resuming before the last element is one turn of the reporting loop. */
  lemma AdvanceIsLoopTurn(a: Args, g: Gen, records: seq<Record>, depths: map<string, nat>)
    requires WellFormed(a, g) && g.phase == Suspended && g.num < g.steps
    ensures var s := DoPercent(records, g.code, g.num, g.size, a.msg, g.depth, a.cancellable);
            var r := Advance(a, g, records, depths);
            && Resume(a, g, records, depths) == r
            && (s.Raised? ==> r == Finally(a, g, records, depths, true))
            && (!s.Raised? ==> r.gen == g.(num := g.num + 1) && r.depths == depths
                               && r.records == records + (if s.Stored? then [s.rec] else []))
  {
  }

  /** The generator drained by a consumer that does nothing between its
      `next()` calls: it yields the elements `IterRun` allows, raises as it
      says, always stores the `done` record and restores the counters. */
  lemma ConsumeFromStart(a: Args, records: seq<Record>, depths: map<string, nat>, takes: nat)
    requires PositiveCounts(depths) && takes > 0
    ensures var g := Begin(a, depths);
            var r := Consume(a, NewGen, records, depths, takes);
            var run := IterRun(records, g.code, 0, Min(takes, g.steps), g.size, a.msg, g.depth, a.cancellable);
            && r.records == run.records + [DoneRecord(a, g)]
            && r.raised == run.raised && r.gen.num == run.count
            && r.depths == depths
  {
    var g := Begin(a, depths);
    var entered := EnterDepths(depths, g.code);
    ExitUndoesEnter(depths, g.code);
    ConsumeSuspended(a, g, records, entered, takes);
    assert Consume(a, NewGen, records, depths, takes) == Consume(a, g, records, entered, takes);
  }

  /** The shared state of the `Base` model: the class-level `_recur_depths`
      dictionary and the `web.progress` table records are written to. */
  class Reporter {
    var depths: map<string, nat>
    const table: ProgressTable

    ghost predicate Valid()
      reads this
    {
      PositiveCounts(depths)
    }

    constructor (table: ProgressTable)
      ensures Valid() && depths == map[] && this.table == table
    {
      depths := map[];
      this.table := table;
    }

    /** Lines 33-38 of the generator, under the lock. */
    method Enter(code: string) returns (depth: nat)
      requires Valid()
      modifies this
      ensures Valid()
      ensures depth == (if code in old(depths) then old(depths)[code] else 0)
      ensures depths == EnterDepths(old(depths), code)
    {
      depth := if code in depths then depths[code] else 0;
      if depth != 0 {
        depths := depths[code := depths[code] + 1];
      } else {
        depths := depths[code := 1];
      }
    }

    /** Lines 49-52 of the generator, under the lock. */
    method Exit(code: string)
      requires Valid()
      modifies this
      ensures Valid()
      ensures depths == ExitDepths(old(depths), code)
    {
      if code in depths {
        if depths[code] <= 1 {
          depths := depths - {code};
        } else {
          depths := depths[code := depths[code] - 1];
        }
      }
    }

    /** `_report_progress_store`: logs a line and appends one record. */
    method Store(code: string, percent: int, num: int, total: int, msg: string,
                 state: State, depth: int, cancellable: bool) returns (line: string)
      modifies table
      ensures line == LogLine(depth, percent, num, total, msg)
      ensures table.records == old(table.records)
                               + [ProgressRecord(code, percent, num, total, msg, state, depth, cancellable)]
    {
      line := LogLine(depth, percent, num, total, msg);
      var stored := table.RecordProgress(ProgressRecord(code, percent, num, total, msg, state, depth, cancellable));
    }

    /** `_report_progress_do_percent`; `raised` is the UserError. */
    method DoPercentStep(code: string, num: int, total: int, msg: string, depth: int, cancellable: bool)
      returns (raised: bool)
      modifies table
      ensures var s := DoPercent(old(table.records), code, num, total, msg, depth, cancellable);
              && raised == s.Raised?
              && table.records == old(table.records) + (if s.Stored? then [s.rec] else [])
    {
      raised := false;
      if total <= 0 {
        return;
      }
      var step := if total <= 200 then 10 else 1;
      var onePer := (total * step) / 100;
      if onePer == 0 {
        onePer := 1;
      }
      assert onePer == OnePer(total);
      if onePer == 1 || num % onePer == 0 {
        assert Reports(num, total);
        if cancellable && table.CheckCancelled(code) {
          raised := true;
          return;
        }
        var percent := TruncDiv(100 * num, total) + (if num != 0 then 1 else 0);
        assert percent == Percent(num, total);
        var _ := Store(code, percent, num, total, msg, Ongoing, depth, cancellable);
      } else {
        assert !Reports(num, total);
      }
    }
  }

  /** The generator object `report_progress_iter` returns. It shares the
      depth counters and the table with every other operation, so whatever
      they write while it is suspended is seen by its next step. */
  class ProgressIter<T> {
    const reporter: Reporter
    const args: Args
    const data: seq<T>
    var gen: Gen

    ghost predicate Valid()
      reads this, reporter
    {
      reporter.Valid() && args.dataLen == |data| && WellFormed(args, gen)
    }

    /** Calling `report_progress_iter`: nothing of its body runs yet. */
    constructor (reporter: Reporter, contextCode: Option<string>, threadId: string, data: seq<T>,
                 msg: string, total: Option<int>, cancellable: bool)
      requires reporter.Valid()
      ensures Valid() && gen == NewGen && this.reporter == reporter && this.data == data
      ensures args == Args(contextCode, threadId, |data|, msg, total, cancellable)
    {
      this.reporter := reporter;
      this.args := Args(contextCode, threadId, |data|, msg, total, cancellable);
      this.data := data;
      gen := NewGen;
    }

    /** `next()`: an element, the end of the iteration (`None`, not
        raised), or the `UserError` (`raised`). */
    method Next() returns (item: Option<T>, raised: bool)
      requires Valid()
      modifies this, reporter, reporter.table
      ensures Valid()
      ensures var r := Resume(args, old(gen), old(reporter.table.records), old(reporter.depths));
              && gen == r.gen && reporter.table.records == r.records && reporter.depths == r.depths
              && raised == r.raised && item == (if r.item.Some? then Some(data[r.item.value]) else None)
    {
      if gen.phase == Finished {
        return None, false;
      }
      if gen.phase == Created {
        Start();
      }
      item, raised := Step();
    }

    /** The first `next()` runs lines 30-41 before the loop. */
    method Start()
      requires Valid() && gen.phase == Created
      modifies this, reporter
      ensures Valid()
      ensures gen == Begin(args, old(reporter.depths))
      ensures reporter.depths == EnterDepths(old(reporter.depths), gen.code)
    {
      var code := OperationCode(args.contextCode, args.threadId);
      var depth := reporter.Enter(code);
      var size := if args.total.Some? then args.total.value else |data|;
      gen := Gen(Suspended, code, depth, size, Min(if size > 0 then size else 0, |data|), 0);
    }

    /** One turn of the loop from the `yield` it is suspended at. */
    method Step() returns (item: Option<T>, raised: bool)
      requires Valid() && gen.phase == Suspended
      modifies this, reporter, reporter.table
      ensures Valid()
      ensures var r := Advance(args, old(gen), old(reporter.table.records), old(reporter.depths));
              && gen == r.gen && reporter.table.records == r.records && reporter.depths == r.depths
              && raised == r.raised && item == (if r.item.Some? then Some(data[r.item.value]) else None)
    {
      item, raised := None, false;
      if gen.num < gen.steps {
        raised := reporter.DoPercentStep(gen.code, gen.num, gen.size, args.msg, gen.depth, args.cancellable);
        if !raised {
          item := Some(data[gen.num]);
          gen := gen.(num := gen.num + 1);
          return;
        }
      }
      RunFinally();
    }

    /** `close()`. */
    method Close()
      requires Valid()
      modifies this, reporter, reporter.table
      ensures Valid()
      ensures var r := Closing(args, old(gen), old(reporter.table.records), old(reporter.depths));
              gen == r.gen && reporter.table.records == r.records && reporter.depths == r.depths
    {
      if gen.phase == Suspended {
        RunFinally();
      } else {
        gen := gen.(phase := Finished);
      }
    }

    /** The `finally` block: the `done` record, then leaving under the lock. */
    method RunFinally()
      requires Valid() && gen.phase == Suspended
      modifies this, reporter, reporter.table
      ensures Valid() && gen == old(gen).(phase := Finished)
      ensures reporter.table.records == old(reporter.table.records) + [DoneRecord(args, old(gen))]
      ensures reporter.depths == ExitDepths(old(reporter.depths), old(gen).code)
    {
      var _ := reporter.Store(gen.code, 100, gen.size, gen.size, args.msg, Done, gen.depth, args.cancellable);
      reporter.Exit(gen.code);
      gen := gen.(phase := Finished);
    }
  }

  function Min(a: int, b: int): int {
    if a <= b then a else b
  }
}
