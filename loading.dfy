/** The poll-timer registry of web_progress/static/src/js/loading.js: the
    `progress_timers` map from progress code to timeout handle, kept by the
    `Loading` widget, together with the browser state it drives (pending
    timeouts, RPCs sent and polls awaiting their response). */
module Loading {
  import opened Wrappers
  import opened ProgressStore

  /** A `setTimeout` handle. */
  type Handle = nat

  /** The RPCs the widget sends to `web.progress`. */
  datatype Rpc = GetProgressCall(code: string) | CancelProgressCall(code: string)

  /** A snapshot of everything the handlers read or change:
      `timers` is `progress_timers`; `pending` maps each timeout still to
      fire to the code its callback polls; `next` is the next handle the
      browser hands out; `sent` logs the RPCs; `inFlight` counts, per code,
      the `get_progress` polls whose response has not arrived. */
  datatype View = View(timers: map<string, Handle>, pending: map<Handle, string>, next: Handle,
                       sent: seq<Rpc>, inFlight: multiset<string>)

  /** The timeouts that will poll `code`. */
  function PendingFor(v: View, code: string): set<Handle> {
    set h | h in v.pending && v.pending[h] == code
  }

  /** `clearTimeout` of every handle in `hs`. */
  function Cleared(pending: map<Handle, string>, hs: set<Handle>): map<Handle, string> {
    map h | h in pending && h !in hs :: pending[h]
  }

  /** `add_progress`: a new timeout polls the code and its handle replaces
      any previous one under the key; the previous timeout is not cleared. */
  function AddStep(v: View, code: string): (w: View)
    ensures code in w.timers && w.timers[code] in w.pending && w.pending[w.timers[code]] == code
    ensures forall c :: c != code ==> (c in w.timers <==> c in v.timers)
    ensures forall c :: c in v.timers && c != code ==> w.timers[c] == v.timers[c]
    ensures forall h :: h in v.pending ==> h in w.pending
    ensures forall h :: h in v.pending && h != v.next ==> w.pending[h] == v.pending[h]
    ensures w.sent == v.sent && w.inFlight == v.inFlight
  {
    v.(timers := v.timers[code := v.next], pending := v.pending[v.next := code], next := v.next + 1)
  }

  /** `remove_progress`: a present key's timeout is cleared and the key
      deleted; an absent key changes nothing. */
  function RemoveStep(v: View, code: string): (w: View)
    ensures code !in w.timers
    ensures code !in v.timers ==> w == v
    ensures code in v.timers ==> v.timers[code] !in w.pending
    ensures forall c :: c != code ==> (c in w.timers <==> c in v.timers)
    ensures forall c :: c in w.timers ==> w.timers[c] == v.timers[c]
    ensures forall h :: h in w.pending ==> h in v.pending && w.pending[h] == v.pending[h]
  {
    if code in v.timers then
      v.(timers := v.timers - {code}, pending := Cleared(v.pending, {v.timers[code]}))
    else v
  }

  /** A timeout fires: its callback calls `progress`, which sends one
      `get_progress` poll for its code. A handle that is not pending (it
      fired already or was cleared) does nothing. */
  function FireStep(v: View, h: Handle): (w: View)
    ensures h !in v.pending ==> w == v
    ensures h in v.pending ==>
              && h !in w.pending
              && w.sent == v.sent + [GetProgressCall(v.pending[h])]
              && w.inFlight == v.inFlight + multiset{v.pending[h]}
    ensures forall k :: k in v.pending && k != h ==> k in w.pending && w.pending[k] == v.pending[k]
    ensures forall k :: k in w.pending ==> k in v.pending && w.pending[k] == v.pending[k]
    ensures w.timers == v.timers
  {
    if h in v.pending then
      var code := v.pending[h];
      v.(pending := v.pending - {h}, sent := v.sent + [GetProgressCall(code)],
         inFlight := v.inFlight + multiset{code})
    else v
  }

  /** Whether a poll response is passed on as `rpc_progress`. */
  predicate Emits(list: seq<Entry>) {
    |list| > 0 && (list[0].state == Ongoing || list[0].state == Done)
  }

  /** The `then` callback of `progress`: a non-empty response whose first
      entry is ongoing or done is published; a non-empty response
      reschedules the poll only while the code is still a key. A response
      to a poll that was never sent does not arrive. */
  function ResultStep(v: View, code: string, list: seq<Entry>): (r: (View, Option<seq<Entry>>))
    ensures r.1.Some? <==> code in v.inFlight && Emits(list)
    ensures r.1.Some? ==> r.1.value == list
    ensures code in v.inFlight ==> r.0.inFlight == v.inFlight - multiset{code}
    ensures PendingFor(r.0, code) != PendingFor(v, code) ==> code in v.inFlight && |list| > 0 && code in v.timers
    ensures code in v.inFlight && |list| > 0 && code in v.timers ==>
              code in r.0.timers && r.0.timers[code] in PendingFor(r.0, code)
    ensures r.0.timers.Keys == v.timers.Keys && r.0.sent == v.sent
  {
    if code !in v.inFlight then (v, None)
    else
      var w := v.(inFlight := v.inFlight - multiset{code});
      if |list| > 0 then
        var emitted := if Emits(list) then Some(list) else None;
        if code in v.timers then
          (w.(timers := w.timers[code := w.next], pending := w.pending[w.next := code],
              next := w.next + 1), emitted)
        else (w, emitted)
      else (w, None)
  }

  /** A poll whose RPC fails: its `then` never runs, so the chain of polls
      for the code ends. */
  function FailStep(v: View, code: string): (w: View)
    ensures w.timers == v.timers && w.pending == v.pending
    ensures w.inFlight == v.inFlight - multiset{code}
  {
    v.(inFlight := v.inFlight - multiset{code})
  }

  /** `cancel_progress`: one cancel RPC; its response is ignored. */
  function CancelStep(v: View, code: string): (w: View)
    ensures w.sent == v.sent + [CancelProgressCall(code)]
    ensures w.timers == v.timers && w.pending == v.pending && w.inFlight == v.inFlight
  {
    v.(sent := v.sent + [CancelProgressCall(code)])
  }

  /** `destroy`: clears the timeout of every key; the keys stay. */
  function DestroyStep(v: View): (w: View)
    ensures forall h :: h in w.pending ==> h !in v.timers.Values
    ensures forall h :: h in v.pending && h !in v.timers.Values ==> h in w.pending
    ensures w.timers == v.timers && w.sent == v.sent && w.inFlight == v.inFlight
  {
    v.(pending := Cleared(v.pending, v.timers.Values))
  }

  /** The inputs the widget reacts to. */
  datatype Event =
    | AddEv(code: string)
    | RemoveEv(code: string)
    | FireEv(h: Handle)
    | ResultEv(code: string, list: seq<Entry>)
    | FailEv(code: string)
    | CancelEv(code: string)
    | DestroyEv

  function Apply(v: View, e: Event): View {
    match e
    case AddEv(c) => AddStep(v, c)
    case RemoveEv(c) => RemoveStep(v, c)
    case FireEv(h) => FireStep(v, h)
    case ResultEv(c, list) => ResultStep(v, c, list).0
    case FailEv(c) => FailStep(v, c)
    case CancelEv(c) => CancelStep(v, c)
    case DestroyEv => DestroyStep(v)
  }

  function Run(v: View, es: seq<Event>): View
    decreases |es|
  {
    if es == [] then v else Run(Apply(v, es[0]), es[1..])
  }

  /** Once a code is not a key, no event other than adding it again
      schedules a poll for it: its pending timeouts only go away. */
  lemma NoNewPollStep(v: View, c: string, e: Event)
    requires c !in v.timers && e != AddEv(c)
    ensures c !in Apply(v, e).timers
    ensures PendingFor(Apply(v, e), c) <= PendingFor(v, c)
  {
    var w := Apply(v, e);
    forall h | h in PendingFor(w, c)
      ensures h in PendingFor(v, c)
    {
      match e
      case AddEv(d) =>
        assert h != v.next;
      case ResultEv(d, list) =>
        if d != c && d in v.inFlight && |list| > 0 && d in v.timers {
          assert h != v.next;
        }
      case _ =>
    }
  }

  lemma {:induction false} NoNewPollRun(v: View, c: string, es: seq<Event>)
    requires c !in v.timers
    requires forall i :: 0 <= i < |es| ==> es[i] != AddEv(c)
    ensures c !in Run(v, es).timers
    ensures PendingFor(Run(v, es), c) <= PendingFor(v, c)
    decreases |es|
  {
    if es != [] {
      NoNewPollStep(v, c, es[0]);
      NoNewPollRun(Apply(v, es[0]), c, es[1..]);
    }
  }

  /** After `remove_progress(c)`, until `c` is added again, no poll for `c`
      is ever scheduled: the only timeouts left for it are ones pending
      before the removal under some other handle than its key's. */
  lemma RemoveStopsPolling(v: View, c: string, es: seq<Event>)
    requires forall i :: 0 <= i < |es| ==> es[i] != AddEv(c)
    ensures var w := Run(RemoveStep(v, c), es);
            && c !in w.timers
            && PendingFor(w, c) <= PendingFor(v, c)
            && (c in v.timers ==> v.timers[c] !in PendingFor(w, c))
  {
    var u := RemoveStep(v, c);
    NoNewPollRun(u, c, es);
    assert PendingFor(u, c) <= PendingFor(v, c);
  }

  /** A `done` state does not stop the polling: while the code is a key,
      a non-empty response schedules the next poll. */
  lemma DoneDoesNotStop(v: View, c: string, list: seq<Entry>)
    requires c in v.inFlight && c in v.timers && |list| > 0 && list[0].state == Done
    ensures var w := ResultStep(v, c, list);
            && w.1 == Some(list)
            && c in w.0.timers && w.0.timers[c] in PendingFor(w.0, c)
  {
  }

  /** Handles are handed out once: every handle in use is below `next`. */
  ghost predicate Fresh(v: View) {
    && (forall h :: h in v.pending ==> h < v.next)
    && (forall c :: c in v.timers ==> v.timers[c] < v.next)
    && (forall c, d :: c in v.timers && d in v.timers && c != d ==> v.timers[c] != v.timers[d])
  }

  /** One poll chain per code: a pending timeout is the one stored under
      its code, and a code with a poll in flight has exactly one and no
      pending timeout. */
  ghost predicate Tracked(v: View) {
    && Fresh(v)
    && (forall h :: h in v.pending ==> v.pending[h] in v.timers && v.timers[v.pending[h]] == h)
    && (forall c :: c in v.inFlight ==> v.inFlight[c] == 1 && (c in v.timers ==> v.timers[c] !in v.pending))
  }

  /** A code is idle when it has no pending timeout and no poll in flight:
      a fresh code, or one whose chain has ended. */
  predicate Idle(v: View, c: string) {
    (c !in v.timers || v.timers[c] !in v.pending) && c !in v.inFlight
  }

  lemma TrackedAdd(v: View, c: string)
    requires Tracked(v) && Idle(v, c)
    ensures Tracked(AddStep(v, c))
  {
    var w := AddStep(v, c);
    forall h | h in w.pending
      ensures w.pending[h] in w.timers && w.timers[w.pending[h]] == h
    {
      if h != v.next {
        assert v.pending[h] != c;
      }
    }
    forall d | d in w.inFlight
      ensures w.inFlight[d] == 1 && (d in w.timers ==> w.timers[d] !in w.pending)
    {
      assert d != c;
    }
  }

  lemma TrackedFire(v: View, h: Handle)
    requires Tracked(v)
    ensures Tracked(FireStep(v, h))
  {
    var w := FireStep(v, h);
    if h in v.pending {
      var c := v.pending[h];
      assert c !in v.inFlight;
      forall d | d in w.inFlight
        ensures w.inFlight[d] == 1 && (d in w.timers ==> w.timers[d] !in w.pending)
      {
        if d != c {
          assert d in v.inFlight;
        }
      }
    }
  }

  lemma TrackedResult(v: View, c: string, list: seq<Entry>)
    requires Tracked(v)
    ensures Tracked(ResultStep(v, c, list).0)
  {
    if c in v.inFlight {
      // The response ends the poll in flight and, when it reschedules,
      // adds the code again, now idle.
      var w := FailStep(v, c);
      TrackedFail(v, c);
      if |list| > 0 && c in v.timers {
        assert ResultStep(v, c, list).0 == AddStep(w, c);
        TrackedAdd(w, c);
      } else {
        assert ResultStep(v, c, list).0 == w;
      }
    }
  }

  lemma TrackedFail(v: View, c: string)
    requires Tracked(v)
    ensures Tracked(FailStep(v, c))
  {
    var w := FailStep(v, c);
    forall d | d in w.inFlight
      ensures w.inFlight[d] == 1 && (d in w.timers ==> w.timers[d] !in w.pending)
    {
      assert d in v.inFlight;
    }
  }

  /** Every event keeps one chain per code, as long as codes are only
      added while idle. */
  lemma TrackedStep(v: View, e: Event)
    requires Tracked(v)
    requires e.AddEv? ==> Idle(v, e.code)
    ensures Tracked(Apply(v, e))
  {
    match e
    case AddEv(c) => TrackedAdd(v, c);
    case RemoveEv(c) =>
    case FireEv(h) => TrackedFire(v, h);
    case ResultEv(c, list) => TrackedResult(v, c, list);
    case FailEv(c) => TrackedFail(v, c);
    case CancelEv(c) =>
    case DestroyEv =>
  }
  /** A run of events in which every addition finds its code idle. */
  predicate AddsWhileIdle(v: View, es: seq<Event>)
    decreases |es|
  {
    es == [] || ((es[0].AddEv? ==> Idle(v, es[0].code)) && AddsWhileIdle(Apply(v, es[0]), es[1..]))
  }

  /** `TrackedStep` over a whole run: one chain per code survives every
      run that adds codes only while they are idle. */
  lemma {:induction false} TrackedRun(v: View, es: seq<Event>)
    requires Tracked(v) && AddsWhileIdle(v, es)
    ensures Tracked(Run(v, es))
    decreases |es|
  {
    if es != [] {
      TrackedStep(v, es[0]);
      TrackedRun(Apply(v, es[0]), es[1..]);
    }
  }


  /** With one chain per code, `destroy` leaves no timeout pending. */
  lemma DestroyClearsAll(v: View)
    requires Tracked(v)
    ensures DestroyStep(v).pending == map[]
  {
    forall h | h in v.pending
      ensures h in v.timers.Values
    {
      assert v.timers[v.pending[h]] == h;
    }
  }

  /** `destroy` keeps the keys, so a poll in flight when it runs re-arms a
      timeout when its response arrives. */
  lemma DestroyThenResultRearms(v: View, c: string, list: seq<Entry>)
    requires c in v.inFlight && c in v.timers && |list| > 0
    ensures var w := ResultStep(DestroyStep(v), c, list).0;
            c in w.timers && w.timers[c] in PendingFor(w, c) && w.pending != map[]
  {
    var w := ResultStep(DestroyStep(v), c, list).0;
    assert w.timers[c] in w.pending;
  }

  /** Adding a code while its timeout is pending orphans that timeout:
      `destroy` afterwards leaves it pending, and it will still poll. */
  lemma AddOrphans(v: View, c: string)
    requires Tracked(v) && c in v.timers && v.timers[c] in v.pending
    ensures var w := DestroyStep(AddStep(v, c));
            v.timers[c] in w.pending && w.pending[v.timers[c]] == c
  {
    var u := AddStep(v, c);
    var orphan := v.timers[c];
    assert orphan != v.next;
    forall d | d in u.timers
      ensures u.timers[d] != orphan
    {
      if d != c {
        assert v.timers[d] != v.timers[c];
      }
    }
    assert v.pending[orphan] == c by {
      assert v.timers[v.pending[orphan]] == orphan;
    }
    assert orphan in u.pending;
  }

  /** One poll chain for the code `c`, whatever the other codes do: its only
      pending timeout is the one stored under its key, and while a poll of
      it is in flight there is exactly one and no pending timeout. */
  ghost predicate PerCode(v: View, c: string) {
    && Fresh(v)
    && (forall h :: h in v.pending && v.pending[h] == c ==> c in v.timers && v.timers[c] == h)
    && (c in v.inFlight ==> v.inFlight[c] == 1 && (c in v.timers ==> v.timers[c] !in v.pending))
  }

  lemma TrackedIsPerCode(v: View, c: string)
    requires Tracked(v)
    ensures PerCode(v, c)
  {
  }

  /** Adding takes a handle never used before. */
  lemma FreshAdd(v: View, d: string)
    requires Fresh(v)
    ensures Fresh(AddStep(v, d))
  {
    var w := AddStep(v, d);
    forall c, c' | c in w.timers && c' in w.timers && c != c'
      ensures w.timers[c] != w.timers[c']
    {
      if c != d && c' != d {
        assert w.timers[c] == v.timers[c] && w.timers[c'] == v.timers[c'];
      }
    }
  }

  /** Every event keeps handles fresh. */
  lemma FreshStep(v: View, e: Event)
    requires Fresh(v)
    ensures Fresh(Apply(v, e))
  {
    match e
    case AddEv(d) => FreshAdd(v, d);
    case ResultEv(d, list) =>
      if d in v.inFlight && |list| > 0 && d in v.timers {
        assert Apply(v, e) == AddStep(FailStep(v, d), d);
        FreshAdd(FailStep(v, d), d);
      }
    case _ =>
  }

  /** Adding `c` while it is idle starts its one chain. */
  lemma PerCodeAdd(v: View, c: string)
    requires PerCode(v, c) && Idle(v, c)
    ensures PerCode(AddStep(v, c), c)
  {
    FreshStep(v, AddEv(c));
  }

  /** Adding another code leaves the chain of `c` alone. */
  lemma PerCodeAddOther(v: View, c: string, d: string)
    requires PerCode(v, c) && d != c
    ensures PerCode(AddStep(v, d), c)
  {
    FreshAdd(v, d);
    var w := AddStep(v, d);
    forall h | h in w.pending && w.pending[h] == c
      ensures c in w.timers && w.timers[c] == h
    {
      assert h != v.next;
    }
  }

  /** A poll response ends the poll in flight and, if it reschedules, adds
      its code again, now idle. */
  lemma PerCodeResult(v: View, c: string, d: string, list: seq<Entry>)
    requires PerCode(v, c)
    ensures PerCode(ResultStep(v, d, list).0, c)
  {
    if d in v.inFlight {
      var w := FailStep(v, d);
      assert PerCode(w, c);
      if |list| > 0 && d in v.timers {
        assert ResultStep(v, d, list).0 == AddStep(w, d);
        if d == c {
          PerCodeAdd(w, c);
        } else {
          PerCodeAddOther(w, c, d);
        }
      } else {
        assert ResultStep(v, d, list).0 == w;
      }
    }
  }

  /** No event other than adding `c` again breaks the chain of `c`. */
  lemma PerCodeStep(v: View, c: string, e: Event)
    requires PerCode(v, c) && e != AddEv(c)
    ensures PerCode(Apply(v, e), c)
  {
    FreshStep(v, e);
    match e
    case AddEv(d) => PerCodeAddOther(v, c, d);
    case RemoveEv(d) =>
    case FireEv(h) =>
      if h in v.pending && v.pending[h] == c {
        assert c !in v.inFlight;
      }
    case ResultEv(d, list) => PerCodeResult(v, c, d, list);
    case FailEv(d) =>
    case CancelEv(d) =>
    case DestroyEv =>
  }

  lemma {:induction false} PerCodeRun(v: View, c: string, es: seq<Event>)
    requires PerCode(v, c)
    requires forall i :: 0 <= i < |es| ==> es[i] != AddEv(c)
    ensures PerCode(Run(v, es), c)
    decreases |es|
  {
    if es != [] {
      PerCodeStep(v, c, es[0]);
      PerCodeRun(Apply(v, es[0]), c, es[1..]);
    }
  }

  /** While its chain is intact, removing `c` leaves no timeout polling it. */
  lemma PerCodeRemove(v: View, c: string)
    requires PerCode(v, c)
    ensures PendingFor(RemoveStep(v, c), c) == {}
  {
    var w := RemoveStep(v, c);
    forall h | h in w.pending
      ensures w.pending[h] != c
    {
      assert h in v.pending && w.pending[h] == v.pending[h];
    }
  }

  /** The browser side: `setTimeout`/`clearTimeout` and the RPC transport. */
  class Browser {
    var pending: map<Handle, string>
    var next: Handle
    var sent: seq<Rpc>
    var inFlight: multiset<string>

    constructor ()
      ensures pending == map[] && next == 1 && sent == [] && inFlight == multiset{}
    {
      pending, next, sent, inFlight := map[], 1, [], multiset{};
    }

    /** `setTimeout` of a callback polling `code`: a handle never used before. */
    method SetTimeout(code: string) returns (h: Handle)
      modifies this
      ensures h == old(next) && next == old(next) + 1
      ensures pending == old(pending)[h := code]
      ensures sent == old(sent) && inFlight == old(inFlight)
    {
      h := next;
      pending := pending[h := code];
      next := next + 1;
    }

    /** `clearTimeout`: a handle that already fired or was cleared is ignored. */
    method ClearTimeout(h: Handle)
      modifies this
      ensures pending == Cleared(old(pending), {h})
      ensures next == old(next) && sent == old(sent) && inFlight == old(inFlight)
    {
      pending := Cleared(pending, {h});
    }
  }

  /** The `Loading` widget with its `progress_timers` field. */
  class LoadingWidget {
    var progressTimers: map<string, Handle>
    const browser: Browser

    function State(): View
      reads this, browser
    {
      View(progressTimers, browser.pending, browser.next, browser.sent, browser.inFlight)
    }

    constructor (browser: Browser)
      ensures this.browser == browser && progressTimers == map[]
    {
      this.browser := browser;
      progressTimers := map[];
    }

    method AddProgress(code: string)
      modifies this, browser
      ensures State() == AddStep(old(State()), code)
    {
      var h := browser.SetTimeout(code);
      progressTimers := progressTimers[code := h];
    }

    method RemoveProgress(code: string)
      modifies this, browser
      ensures State() == RemoveStep(old(State()), code)
    {
      if code in progressTimers {
        browser.ClearTimeout(progressTimers[code]);
        progressTimers := progressTimers - {code};
      }
    }

    /** `progress`: one `get_progress` poll for the code. */
    method Progress(code: string)
      modifies browser
      ensures browser.sent == old(browser.sent) + [GetProgressCall(code)]
      ensures browser.inFlight == old(browser.inFlight) + multiset{code}
      ensures browser.pending == old(browser.pending) && browser.next == old(browser.next)
    {
      browser.sent := browser.sent + [GetProgressCall(code)];
      browser.inFlight := browser.inFlight + multiset{code};
    }

    /** The browser runs the callback of a due timeout. */
    method OnTimeout(h: Handle)
      modifies browser
      ensures State() == FireStep(old(State()), h)
    {
      if h in browser.pending {
        var code := browser.pending[h];
        browser.pending := browser.pending - {h};
        Progress(code);
      }
    }

    /** The `then` callback of a `get_progress` poll. */
    method OnPollResult(code: string, resultList: seq<Entry>) returns (emitted: Option<seq<Entry>>)
      modifies this, browser
      ensures (State(), emitted) == ResultStep(old(State()), code, resultList)
    {
      emitted := None;
      if code !in browser.inFlight {
        return;
      }
      browser.inFlight := browser.inFlight - multiset{code};
      if |resultList| > 0 {
        var result := resultList[0];
        if result.state == Ongoing || result.state == Done {
          emitted := Some(resultList);
        }
        if code in progressTimers {
          var h := browser.SetTimeout(code);
          progressTimers := progressTimers[code := h];
        }
      }
    }

    method OnPollFailed(code: string)
      modifies browser
      ensures State() == FailStep(old(State()), code)
    {
      browser.inFlight := browser.inFlight - multiset{code};
    }

    method CancelProgress(code: string)
      modifies browser
      ensures State() == CancelStep(old(State()), code)
    {
      browser.sent := browser.sent + [CancelProgressCall(code)];
    }

    /** `destroy`: clears the timeout stored under every key. */
    method Destroy()
      modifies browser
      ensures State() == DestroyStep(old(State()))
    {
      var keys := progressTimers.Keys;
      ghost var done: set<string> := {};
      ghost var start := browser.pending;
      while keys != {}
        invariant keys + done == progressTimers.Keys && keys !! done
        invariant browser.pending == Cleared(start, HandlesOf(progressTimers, done))
        invariant browser.next == old(browser.next) && browser.sent == old(browser.sent)
        invariant browser.inFlight == old(browser.inFlight)
        decreases |keys|
      {
        var key :| key in keys;
        browser.ClearTimeout(progressTimers[key]);
        ClearedTwice(start, HandlesOf(progressTimers, done), progressTimers[key]);
        HandlesOfGrows(progressTimers, done, key);
        keys := keys - {key};
        done := done + {key};
      }
      HandlesOfAll(progressTimers);
    }
  }

  /** The handles stored under the keys `ks`. */
  ghost function HandlesOf(timers: map<string, Handle>, ks: set<string>): set<Handle> {
    set k | k in ks && k in timers :: timers[k]
  }

  lemma ClearedTwice(pending: map<Handle, string>, hs: set<Handle>, h: Handle)
    ensures Cleared(Cleared(pending, hs), {h}) == Cleared(pending, hs + {h})
  {
  }

  lemma HandlesOfGrows(timers: map<string, Handle>, ks: set<string>, k: string)
    requires k in timers
    ensures HandlesOf(timers, ks + {k}) == HandlesOf(timers, ks) + {timers[k]}
  {
  }

  lemma HandlesOfAll(timers: map<string, Handle>)
    ensures HandlesOf(timers, timers.Keys) == timers.Values
  {
    forall h | h in timers.Values
      ensures h in HandlesOf(timers, timers.Keys)
    {
      var k :| k in timers && timers[k] == h;
    }
  }
}
