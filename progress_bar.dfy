/** The blocking-UI progress bar of
    web_progress/static/src/js/progress_bar.js: a bar follows one progress
    code and folds the parent-first stack of levels it receives into one
    weighted percentage; `blockUI`/`unblockUI` keep the list of open bars. */
module ProgressBar {
  import opened Wrappers
  import opened ProgressStore

  /** The accumulators of `showProgress`: `progress`, `progress_total`
      (the weight of the next level, in percent of the bar) and
      `cancellable`. JavaScript doubles are modelled as exact reals. */
  datatype Acc = Acc(progress: real, weight: real, cancellable: bool)

  const Start: Acc := Acc(0.0, 100.0, true)

  /** One level: it adds its share only when both `progress` and `total`
      are non-zero, and divides the weight by a non-zero total. */
  function Step(a: Acc, e: Entry): (r: Acc)
    ensures r.cancellable <==> a.cancellable && e.cancellable
    ensures e.progress == 0 || e.total == 0 ==> r.progress == a.progress
    ensures e.total == 0 ==> r.weight == a.weight
  {
    var progress := if e.progress != 0 && e.total != 0
                    then a.progress + (e.progress as real) * a.weight / 100.0
                    else a.progress;
    var weight := if e.total != 0 then a.weight / (e.total as real) else a.weight;
    Acc(progress, weight, a.cancellable && e.cancellable)
  }

  /** The fold over the levels, outermost first. */
  function Aggregate(levels: seq<Entry>): Acc
    decreases |levels|
  {
    if levels == [] then Start
    else Step(Aggregate(levels[..|levels| - 1]), levels[|levels| - 1])
  }

  /** A level with no negative progress or total adds no negative share
      and keeps the weight non-negative. */
  lemma NoNegativeShare(a: Acc, e: Entry)
    ensures a.weight >= 0.0 && e.progress >= 0 && e.total >= 0 ==>
              a.progress <= Step(a, e).progress && 0.0 <= Step(a, e).weight
  {
    if a.weight >= 0.0 && e.progress >= 0 && e.total >= 0 && e.total != 0 {
      assert (e.progress as real) * a.weight >= 0.0;
    }
  }

  /** With no negative progress or total the bar never shows a negative
      share, whatever the depth of the stack. */
  lemma {:induction false} AggregateNonNegative(levels: seq<Entry>)
    requires forall i :: 0 <= i < |levels| ==> levels[i].progress >= 0 && levels[i].total >= 0
    ensures Aggregate(levels).progress >= 0.0 && Aggregate(levels).weight >= 0.0
    decreases |levels|
  {
    if levels != [] {
      var init := levels[..|levels| - 1];
      AggregateNonNegative(init);
      NoNegativeShare(Aggregate(init), levels[|levels| - 1]);
    }
  }

  /** A single level with non-zero progress and total shows exactly its
      own progress. */
  lemma SingleLevel(e: Entry)
    requires e.progress != 0 && e.total != 0
    ensures Aggregate([e]).progress == e.progress as real
    ensures Aggregate([e]).weight == 100.0 / (e.total as real)
  {
    assert [e][..0] == [];
  }

  /** A level with zero progress or zero total adds nothing. */
  lemma ZeroLevelAddsNothing(levels: seq<Entry>, e: Entry)
    requires e.progress == 0 || e.total == 0
    ensures Aggregate(levels + [e]).progress == Aggregate(levels).progress
  {
    assert (levels + [e])[..|levels|] == levels;
  }

  /** The bar is cancellable exactly when every level is. */
  lemma {:induction false} CancellableIffAll(levels: seq<Entry>)
    ensures Aggregate(levels).cancellable <==> forall i :: 0 <= i < |levels| ==> levels[i].cancellable
    decreases |levels|
  {
    if levels != [] {
      var init := levels[..|levels| - 1];
      CancellableIffAll(init);
      assert forall i :: 0 <= i < |init| ==> init[i] == levels[i];
    }
  }

  /** With every total at least 1 the weight stays positive and never
      grows from one level to the next. */
  lemma {:induction false} WeightNonincreasing(levels: seq<Entry>, i: nat)
    requires forall j :: 0 <= j < |levels| ==> levels[j].total >= 1
    requires i < |levels|
    ensures 0.0 < Aggregate(levels[..i + 1]).weight <= Aggregate(levels[..i]).weight
    decreases i
  {
    assert levels[..i + 1][..i] == levels[..i];
    WeightPositive(levels, i);
    var w := Aggregate(levels[..i]).weight;
    var t := levels[i].total as real;
    assert Aggregate(levels[..i + 1]).weight == w / t;
    DivShrinks(w, t);
  }

  lemma DivShrinks(w: real, t: real)
    requires w > 0.0 && t >= 1.0
    ensures 0.0 < w / t <= w
  {
    var q := w / t;
    assert q * t == w;
    assert q > 0.0;
    assert q * (t - 1.0) >= 0.0;
    assert q * t - q == q * (t - 1.0);
  }

  lemma {:induction false} WeightPositive(levels: seq<Entry>, i: nat)
    requires forall j :: 0 <= j < |levels| ==> levels[j].total >= 1
    requires i <= |levels|
    ensures Aggregate(levels[..i]).weight > 0.0
    decreases i
  {
    if i > 0 {
      WeightPositive(levels, i - 1);
      assert levels[..i][..i - 1] == levels[..i - 1];
    }
  }

  /** Half of an outer level done and its current inner level complete:
      the bar is full. */
  lemma WorkedExample(a: Entry, b: Entry)
    requires a.progress == 50 && a.total == 2 && b.progress == 100 && b.total == 1
    ensures Aggregate([a, b]).progress == 100.0
  {
    assert [a, b][..1] == [a];
    assert [a][..0] == [];
    assert Aggregate([a]) == Acc(50.0, 50.0, a.cancellable);
    assert 100.0 * 50.0 / 100.0 == 50.0;
  }

  /** What the bar shows after `showProgress`: the width of the bar and
      whether the cancel button is offered (for which code). */
  datatype Display = Display(progress: real, cancellable: bool, code: Option<string>)

  class ProgressBarWidget {
    var progressCode: Option<string>
    var display: Option<Display>
    var destroyed: bool

    /** A new bar follows no code (`progress_code: false`) and shows nothing. */
    constructor ()
      ensures progressCode == None && display == None && !destroyed
    {
      progressCode, display, destroyed := None, None, false;
    }

    /** `defineProgressCode`: sets the followed code and nothing else. */
    method DefineProgressCode(code: Option<string>)
      modifies this
      ensures progressCode == code && display == old(display) && destroyed == old(destroyed)
    {
      progressCode := code;
    }

    /** The fold of `showProgress`, run as the source runs it. */
    method Fold(levels: seq<Entry>) returns (acc: Acc)
      ensures acc == Aggregate(levels)
    {
      acc := Start;
      var i := 0;
      while i < |levels|
        invariant 0 <= i <= |levels|
        invariant acc == Aggregate(levels[..i])
      {
        var el := levels[i];
        var progress := acc.progress;
        var progressTotal := acc.weight;
        if el.progress != 0 && el.total != 0 {
          progress := progress + (el.progress as real) * progressTotal / 100.0;
        }
        if el.total != 0 {
          progressTotal := progressTotal / (el.total as real);
        }
        acc := Acc(progress, progressTotal, acc.cancellable && el.cancellable);
        assert levels[..i + 1][..i] == levels[..i];
        i := i + 1;
      }
      assert levels[..i] == levels;
    }

    /** `showProgress`: a list whose top level carries another code is
        ignored; otherwise the bar shows the folded progress and offers
        cancelling exactly when every level is cancellable. An empty list
        fails on `progress_list[0]` and changes nothing (`failed`). */
    method ShowProgress(levels: seq<Entry>) returns (failed: bool)
      modifies this
      ensures failed <==> levels == []
      ensures progressCode == old(progressCode) && destroyed == old(destroyed)
      ensures levels == [] || levels[0].code != progressCode ==> display == old(display)
      ensures levels != [] && levels[0].code == progressCode ==>
                var acc := Aggregate(levels);
                display == Some(Display(acc.progress, acc.cancellable, levels[0].code))
    {
      if levels == [] {
        return true;
      }
      failed := false;
      var top := levels[0];
      var code := top.code;
      if progressCode != code {
        return;
      }
      var acc := Fold(levels);
      display := Some(Display(acc.progress, acc.cancellable, code));
    }

    method Destroy()
      modifies this
      ensures destroyed && progressCode == old(progressCode) && display == old(display)
    {
      destroyed := true;
    }
  }

  /** The module-level `progress_bars` list. */
  class Overlay {
    var bars: seq<ProgressBarWidget>

    constructor ()
      ensures bars == []
    {
      bars := [];
    }

    /** `blockUI`: one new bar is appended. */
    method BlockUI() returns (bar: ProgressBarWidget)
      modifies this
      ensures fresh(bar) && bars == old(bars) + [bar]
      ensures bar.progressCode == None && bar.display == None && !bar.destroyed
    {
      bar := new ProgressBarWidget();
      bars := bars + [bar];
    }

    /** `unblockUI`: every listed bar is destroyed and the list emptied. */
    method UnblockUI()
      modifies this, bars
      ensures bars == []
      ensures forall b :: b in old(bars) ==>
                b.destroyed && b.progressCode == old(b.progressCode) && b.display == old(b.display)
    {
      var i := 0;
      while i < |bars|
        invariant 0 <= i <= |bars| && bars == old(bars)
        invariant forall j :: 0 <= j < i ==> bars[j].destroyed
        invariant forall b :: b in bars ==> b.progressCode == old(b.progressCode) && b.display == old(b.display)
      {
        bars[i].Destroy();
        i := i + 1;
      }
      assert forall b :: b in bars ==> exists j :: 0 <= j < i && bars[j] == b;
      bars := [];
    }
  }
}
