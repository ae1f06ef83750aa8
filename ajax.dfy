/** Request tagging and result correlation of
    web_progress/static/src/js/ajax.js: eligible dataset calls get a fresh
    `progress_code` injected into their parameters, the code is registered
    in `progress_codes`, and the result of the call resolves it again. */
module Ajax {
  import opened Wrappers
  import opened Uuid
  import opened Text

  /** A JSON scalar as it may sit in a context or an argument object. */
  datatype Scalar = Str(s: string) | Num(n: int) | Bool(b: bool) | Null

  type Dict = map<string, Scalar>

  /** A positional argument: an object, whose keys can be set, or a primitive. */
  datatype Arg = Obj(fields: Dict) | Prim(v: Scalar)

  /** `params.kwargs`; `context` is `None` when the key is absent. */
  datatype Kwargs = Kwargs(context: Option<Dict>, rest: Dict)

  /** The parameters of a JSON-RPC call; an absent key is `None`. */
  datatype Params = Params(model: Option<string>, args: Option<seq<Arg>>,
                           kwargs: Option<Kwargs>, rest: Dict)

  const CodeKey: string := "progress_code"

  predicate StartsWith(prefix: string, s: string) {
    |prefix| <= |s| && s[..|prefix|] == prefix
  }

  /** The guard shared by `genericRelayEvents` and `RelayRequest`. */
  predicate Eligible(url: string, fctName: string, model: Option<string>) {
    StartsWith("/web/dataset/", url) && fctName == "call" && model != Some("web.progress")
  }

  /** Where the tagging puts the code. A `kwargs` key without `context`
      leaves no slot, whatever `args` holds; a primitive last argument
      cannot take a property in strict mode (a TypeError). */
  datatype Slot = InContext | InLastArg | PrimitiveLastArg | NoSlot

  function SlotOf(p: Params): Slot {
    if p.kwargs.Some? then
      (if p.kwargs.value.context.Some? then InContext else NoSlot)
    else if p.args.Some? && |p.args.value| > 0 then
      (if p.args.value[|p.args.value| - 1].Obj? then InLastArg else PrimitiveLastArg)
    else NoSlot
  }

  predicate Taggable(p: Params) {
    SlotOf(p) == InContext || SlotOf(p) == InLastArg
  }

  /** Setting `progress_code` in the slot: that one key gets the code and
      every other key, argument and field keeps its value. */
  function Inject(p: Params, code: string): (q: Params)
    requires Taggable(p)
    ensures q.model == p.model && q.rest == p.rest
    ensures SlotOf(p) == InContext ==>
              && q.args == p.args
              && q.kwargs.Some? && q.kwargs.value.rest == p.kwargs.value.rest
              && q.kwargs.value.context.Some?
              && var before := p.kwargs.value.context.value;
                 var after := q.kwargs.value.context.value;
                 && after.Keys == before.Keys + {CodeKey}
                 && after[CodeKey] == Str(code)
                 && forall k :: k in before && k != CodeKey ==> after[k] == before[k]
    ensures SlotOf(p) == InLastArg ==>
              && q.kwargs == p.kwargs
              && q.args.Some? && |q.args.value| == |p.args.value|
              && var n := |p.args.value|;
                 && q.args.value[..n - 1] == p.args.value[..n - 1]
                 && q.args.value[n - 1].Obj?
                 && var before := p.args.value[n - 1].fields;
                    var after := q.args.value[n - 1].fields;
                    && after.Keys == before.Keys + {CodeKey}
                    && after[CodeKey] == Str(code)
                    && forall k :: k in before && k != CodeKey ==> after[k] == before[k]
  {
    if SlotOf(p) == InContext then
      var kw := p.kwargs.value;
      p.(kwargs := Some(kw.(context := Some(kw.context.value[CodeKey := Str(code)]))))
    else
      var args := p.args.value;
      var fields := args[|args| - 1].fields;
      p.(args := Some(args[|args| - 1 := Obj(fields[CodeKey := Str(code)])]))
  }

  /** What `RelayResult` reads as the code: the `-1` default, `undefined`
      from an object or primitive without the key, a value found, or a
      TypeError from reading a property of a `null` last argument. */
  datatype Extracted = Default | Undefined | Found(v: Scalar) | ReadFailed

  function Extract(p: Params): Extracted {
    if p.kwargs.Some? && p.kwargs.value.context.Some? && CodeKey in p.kwargs.value.context.value then
      Found(p.kwargs.value.context.value[CodeKey])
    else if p.args.Some? && |p.args.value| > 0 then
      match p.args.value[|p.args.value| - 1]
      case Obj(fields) => if CodeKey in fields then Found(fields[CodeKey]) else Undefined
      case Prim(v) => if v.Null? then ReadFailed else Undefined
    else Default
  }

  /** Round trip: the code injected into a taggable call is the code read
      back from it. */
  lemma InjectExtract(p: Params, code: string)
    requires Taggable(p)
    ensures Extract(Inject(p, code)) == Found(Str(code))
  {
    var q := Inject(p, code);
    if SlotOf(p) == InLastArg {
      assert q.kwargs.None?;
      assert q.args.value[|q.args.value| - 1].fields[CodeKey] == Str(code);
    }
  }

  /** The property name `progress_code in progress_codes` looks up: the
      value converted to a string (no name for a failed read). */
  function Key(e: Extracted): Option<string> {
    match e
    case Default => Some("-1")
    case Undefined => Some("undefined")
    case ReadFailed => None
    case Found(v) =>
      Some(match v
           case Str(s) => s
           case Num(n) => Decimal(n)
           case Bool(b) => if b then "true" else "false"
           case Null => "null")
  }

  /** Only a string code can name a UUID-shaped key: the `-1` default,
      `undefined`, numbers, booleans and `null` never do. */
  lemma OnlyStringsNameCodes(e: Extracted, k: string)
    requires Key(e) == Some(k) && UuidShaped(k)
    ensures e == Found(Str(k))
  {
  }

  /** `RelayResult`'s handler on a map of registered codes: the code read
      is deleted and published when it is a key; otherwise nothing changes
      and nothing is published. */
  function Resolve<V>(codes: map<string, V>, e: Extracted): (r: (map<string, V>, Option<string>))
    ensures r.1.Some? <==> Key(e).Some? && Key(e).value in codes
    ensures r.1.Some? ==> r.1 == Key(e) && r.0 == codes - {r.1.value}
    ensures r.1.None? ==> r.0 == codes
  {
    match Key(e)
    case None => (codes, None)
    case Some(k) => if k in codes then (codes - {k}, Some(k)) else (codes, None)
  }

  /** A second result for the same parameters publishes nothing and
      changes nothing. */
  lemma ResolveIdempotent<V>(codes: map<string, V>, e: Extracted)
    ensures var once := Resolve(codes, e);
            Resolve(once.0, e) == (once.0, None)
  {
  }

  /** With UUID-shaped keys only, a result without a string code (the `-1`
      default, `undefined`, a number...) publishes nothing. */
  lemma NonStringNeverResolves<V>(codes: map<string, V>, e: Extracted)
    requires forall k :: k in codes ==> UuidShaped(k)
    requires !(e.Found? && e.v.Str?)
    ensures Resolve(codes, e) == (codes, None)
  {
    if Key(e).Some? && Key(e).value in codes {
      OnlyStringsNameCodes(e, Key(e).value);
    }
  }

  /** What `genericRelayEvents` does to a call: the parameters after it,
      the code it registered, and whether it threw. */
  datatype Tagging = Tagging(params: Params, code: Option<string>, threw: bool)

  function Tag(url: string, fctName: string, p: Params, random: Oracle): (t: Tagging)
    ensures t.code.Some? <==> Eligible(url, fctName, p.model) && Taggable(p)
    ensures t.threw <==> Eligible(url, fctName, p.model) && SlotOf(p) == PrimitiveLastArg
    ensures t.code.None? ==> t.params == p
    ensures t.code.Some? ==> t.code == Some(PseudoUuid(random))
    ensures t.code.Some? ==> t.params == Inject(p, t.code.value)
    ensures t.code.Some? ==> Extract(t.params) == Found(Str(t.code.value))
  {
    if !Eligible(url, fctName, p.model) then Tagging(p, None, false)
    else
      var code := PseudoUuid(random);
      match SlotOf(p)
      case InContext => InjectExtract(p, code); Tagging(Inject(p, code), Some(code), false)
      case InLastArg => InjectExtract(p, code); Tagging(Inject(p, code), Some(code), false)
      case PrimitiveLastArg => Tagging(p, None, true)
      case NoSlot => Tagging(p, None, false)
  }

  /** `kwargs` without `context` is never tagged, even with arguments that
      could take the code. */
  lemma KwargsWithoutContextNotTagged(url: string, fctName: string, p: Params, random: Oracle)
    requires p.kwargs.Some? && p.kwargs.value.context.None?
    ensures Tag(url, fctName, p, random) == Tagging(p, None, false)
  {
  }

  /** A result carrying a registered code resolves it once; a repeated
      result resolves nothing. */
  lemma ResolveRegistered<V>(codes: map<string, V>, q: Params, c: string, relay: V)
    requires Extract(q) == Found(Str(c))
    ensures var first := Resolve(codes[c := relay], Extract(q));
            && first == (codes - {c}, Some(c))
            && Resolve(first.0, Extract(q)) == (codes - {c}, None)
  {
    assert Key(Extract(q)) == Some(c);
    assert codes[c := relay] - {c} == codes - {c};
  }

  /** End to end: after a tagged call is registered, its result resolves
      exactly that code once, and a repeated result resolves nothing. */
  lemma TagThenResolve<V>(codes: map<string, V>, url: string, fctName: string, p: Params,
                          random: Oracle, relay: V)
    requires Eligible(url, fctName, p.model) && Taggable(p)
    ensures var t := Tag(url, fctName, p, random);
            var c := t.code.value;
            var first := Resolve(codes[c := relay], Extract(t.params));
            && first == (codes - {c}, Some(c))
            && Resolve(first.0, Extract(t.params)) == (codes - {c}, None)
  {
    var t := Tag(url, fctName, p, random);
    ResolveRegistered(codes, t.params, t.code.value, relay);
  }

  /** The parameters object, which the tagging mutates in place. */
  class CallParams {
    var value: Params

    constructor (p: Params)
      ensures value == p
    {
      value := p;
    }

    /** Lines 58-66 of `genericRelayEvents`: puts the code in its slot;
        `relay` says it was put, `threw` that the last argument was a
        primitive. */
    method SetCode(code: string) returns (relay: bool, threw: bool)
      modifies this
      ensures relay <==> Taggable(old(value))
      ensures threw <==> SlotOf(old(value)) == PrimitiveLastArg
      ensures value == if relay then Inject(old(value), code) else old(value)
    {
      relay, threw := false, false;
      var p := value;
      if p.kwargs.Some? {
        if p.kwargs.value.context.Some? {
          value := Inject(p, code);
          relay := true;
        }
      } else if p.args.Some? && |p.args.value| > 0 {
        if p.args.value[|p.args.value| - 1].Prim? {
          threw := true;
          return;
        }
        value := Inject(p, code);
        relay := true;
      }
    }
  }

  /** The `rpc_progress_request` event: `(fct_name, params, progress_code)`. */
  datatype ProgressRequest = ProgressRequest(fctName: string, params: Params, code: string)

  /** `RelayRequest`: listens for the next `rpc_request` and then destroys
      itself, which detaches the listener. */
  class RelayRequest {
    const url: string
    const fctName: string
    const params: CallParams
    const code: string
    var listening: bool

    constructor (url: string, fctName: string, params: CallParams, code: string)
      ensures this.url == url && this.fctName == fctName && this.params == params
      ensures this.code == code && listening
    {
      this.url := url;
      this.fctName := fctName;
      this.params := params;
      this.code := code;
      listening := true;
    }

    /** The `rpc_request` handler: relays the request at most once, on the
        first event, and only for an eligible call. */
    method OnRpcRequest() returns (emitted: Option<ProgressRequest>)
      modifies this
      ensures !listening
      ensures emitted.Some? <==> old(listening) && Eligible(url, fctName, params.value.model)
      ensures emitted.Some? ==> emitted.value == ProgressRequest(fctName, params.value, code)
    {
      emitted := None;
      if listening {
        if Eligible(url, fctName, params.value.model) {
          emitted := Some(ProgressRequest(fctName, params.value, code));
        }
        listening := false;
      }
    }
  }

  /** The module-level `progress_codes` map and the functions that use it. */
  class CodeRegistry {
    var codes: map<string, RelayRequest>

    /** Every key is a code made by `pseudo_uuid`, registered with the
        relay that carries it. */
    ghost predicate Valid()
      reads this
    {
      forall k :: k in codes ==> UuidShaped(k) && codes[k].code == k
    }

    constructor ()
      ensures Valid() && codes == map[]
    {
      codes := map[];
    }

    /** `genericRelayEvents`: tags the parameters in place and registers a
        fresh relay under the code exactly when a code was injected. */
    method GenericRelayEvents(url: string, fctName: string, params: CallParams, random: Oracle)
      returns (threw: bool)
      requires Valid()
      modifies this, params
      ensures Valid()
      ensures var t := Tag(url, fctName, old(params.value), random);
              && params.value == t.params && threw == t.threw
              && (t.code.None? ==> codes == old(codes))
              && (t.code.Some? ==>
                    var c := t.code.value;
                    && c in codes && fresh(codes[c])
                    && codes == old(codes)[c := codes[c]]
                    && codes[c].listening && codes[c].params == params
                    && codes[c].url == url && codes[c].fctName == fctName)
    {
      threw := false;
      if !Eligible(url, fctName, params.value.model) {
        return;
      }
      var code := PseudoUuid(random);
      var relay;
      relay, threw := params.SetCode(code);
      if relay {
        PseudoUuidShaped(random);
        Register(url, fctName, params, code);
      }
    }

    /** `progress_codes[progress_code] = new RelayRequest(...)`. */
    method Register(url: string, fctName: string, params: CallParams, code: string)
      requires Valid() && UuidShaped(code)
      modifies this
      ensures Valid()
      ensures code in codes && fresh(codes[code]) && codes == old(codes)[code := codes[code]]
      ensures codes[code].listening && codes[code].params == params
      ensures codes[code].url == url && codes[code].fctName == fctName
    {
      var request := new RelayRequest(url, fctName, params, code);
      codes := codes[code := request];
    }

    /** The `rpc:result` handler of `RelayResult`. */
    method OnResult(p: Params) returns (emitted: Option<string>)
      requires Valid()
      modifies this
      ensures Valid()
      ensures (codes, emitted) == Resolve(old(codes), Extract(p))
      ensures !(Extract(p).Found? && Extract(p).v.Str?) ==> emitted.None? && codes == old(codes)
    {
      if !(Extract(p).Found? && Extract(p).v.Str?) {
        NonStringNeverResolves(codes, Extract(p));
      }
      emitted := None;
      var e := Extract(p);
      var key := Key(e);
      if key.Some? && key.value in codes {
        codes := codes - {key.value};
        emitted := key;
      }
    }
  }
}
