/** How the `rpc_progress_request` event of
    web_progress/static/src/js/ajax.js reaches `add_progress` of
    web_progress/static/src/js/loading.js. The event is triggered with the
    arguments `(fct_name, params, progress_code)`, and the handler binds
    its first argument as the code, so the poll timer is keyed by the
    function name `"call"` instead of the code. The model of the source
    as written and the evidently intended wiring are both given; the
    intended one is proved to end polling once the result arrives. */
module Wiring {
  import opened Wrappers
  import opened Uuid
  import opened ProgressStore
  import Ajax
  import opened Loading

  /** The code `add_progress` receives, as written: the event's first argument. */
  function AddArgumentAsWritten(ev: Ajax.ProgressRequest): string {
    ev.fctName
  }

  /** The intended wiring: the code that was injected into the call. */
  function AddArgument(ev: Ajax.ProgressRequest): string {
    ev.code
  }

  /** As written: a relayed request is always for an eligible call, so
      its function name is `"call"`. Once the request is added and its
      result removes the code, the timer under `"call"` is still pending
      and the request's own code is not a key. */
  lemma AsWrittenTimerSurvives(v: View, ev: Ajax.ProgressRequest)
    requires Fresh(v)
    requires ev.fctName == "call" && UuidShaped(ev.code)
    ensures var w := RemoveStep(AddStep(v, AddArgumentAsWritten(ev)), ev.code);
            && "call" in w.timers && w.timers["call"] in PendingFor(w, "call")
            && ev.code !in w.timers
  {
    assert ev.code != "call" by {
      assert |ev.code| == 36;
    }
    var u := AddStep(v, "call");
    var w := RemoveStep(u, ev.code);
    assert w.timers["call"] == u.timers["call"];
    assert u.timers["call"] in u.pending && u.pending[u.timers["call"]] == "call";
    assert ev.code in u.timers ==> u.timers[ev.code] != u.timers["call"];
  }

  /** As written, the timer keeps polling: a poll of a code no record
      carries (such as `"call"`) gets the single unset entry back, publishes
      nothing and schedules the next poll. */
  lemma AsWrittenPollsForever(v: View, records: seq<Record>, key: string)
    requires key != ""
    requires forall i :: 0 <= i < |records| ==> records[i].code != Some(key)
    requires key in v.inFlight && key in v.timers
    ensures var r := ResultStep(v, key, Stack(records, Some(key), None));
            && r.1 == None
            && key in r.0.timers && r.0.timers[key] in PendingFor(r.0, key)
  {
    StackOfUnknownCode(records, key);
    UnsetEntryReschedules(v, Stack(records, Some(key), None), key);
  }

  /** The single unset entry of the empty recordset is not published, and
      the poll is scheduled again while the key is present. */
  lemma UnsetEntryReschedules(v: View, list: seq<Entry>, key: string)
    requires list == [EntryOf(EmptyRecord)]
    requires key in v.inFlight && key in v.timers
    ensures var r := ResultStep(v, key, list);
            && r.1 == None
            && key in r.0.timers && r.0.timers[key] in PendingFor(r.0, key)
  {
  }

  /** Intended: a request added under its own code, whose chain then runs
      beside any other activity (timeouts, poll responses, failures,
      cancels, other codes added or removed), is left with no pending
      timeout once its result removes the code, and no later event short of
      adding the code again schedules a poll for it. */
  lemma CorrectedPollingEnds(v: View, ev: Ajax.ProgressRequest, during: seq<Event>, after: seq<Event>)
    requires PerCode(v, ev.code) && Idle(v, ev.code)
    requires forall i :: 0 <= i < |during| ==> during[i] != AddEv(ev.code)
    requires forall i :: 0 <= i < |after| ==> after[i] != AddEv(ev.code)
    ensures var c := AddArgument(ev);
            var w := Run(RemoveStep(Run(AddStep(v, c), during), c), after);
            c !in w.timers && PendingFor(w, c) == {}
  {
    var c := AddArgument(ev);
    PerCodeAdd(v, c);
    PerCodeRun(AddStep(v, c), c, during);
    var r := RemoveStep(Run(AddStep(v, c), during), c);
    PerCodeRemove(Run(AddStep(v, c), during), c);
    NoNewPollRun(r, c, after);
  }
}
