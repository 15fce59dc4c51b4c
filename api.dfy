/**
 * The API client and every way of calling its one endpoint.
 *
 * All calling styles end in `APIClient.ActualEndpoint`. Its only effect is a
 * diagnostic line naming its three arguments; the model records those
 * arguments in the client's ghost `log`, so that each style can be shown to
 * deliver exactly the intended `(name, opt1, opt2)`.
 */
module Api {
  import opened Wrappers
  import opened Ints
  import opened DeriveBuilder
  import Params

  /** The arguments of one endpoint call, as the endpoint receives them. */
  datatype EndpointCall = EndpointCall(name: string, opt1: Option<u32>, opt2: Option<i32>)

  /** `Value`, what the endpoint returns. */
  datatype Value = Value

  /**
   * `ReturnedValue`. The boxed error can only ever be a builder's error:
   * the endpoint itself never fails.
   */
  type ReturnedValue = Result<Value, BuildError>

  /**
   * An argument of `approach_b` of type `T1: Into<Option<T>>`: either a bare
   * value (converted by `impl From<T> for Option<T>`) or an `Option<T>`
   * (converted by the identity conversion).
   */
  datatype IntoOption<T> = Bare(value: T) | Optional(option: Option<T>)
  {
    /** `.into()`: a bare value becomes `Some` of it, an `Option` stays as it is. */
    function Into(): (r: Option<T>)
      ensures Bare? ==> r == Some(value)
      ensures Optional? ==> r == option
    {
      match this
      case Bare(v) => Some(v)
      case Optional(o) => o
    }
  }

  /** A bare value and the same value wrapped in `Some` convert to the same option. */
  lemma BareAgreesWithSome<T>(v: T)
    ensures Bare(v).Into() == Optional(Some(v)).Into() == Some(v)
  {
  }

  /** `APIClient`: holds no state of its own; `log` is the model of its output. */
  class APIClient {
    /** The arguments of every endpoint call made through this client, oldest first. */
    ghost var log: seq<EndpointCall>

    /** `APIClient {}`, which has made no call yet. */
    constructor ()
      ensures log == []
    {
      log := [];
    }

    /** `actual_endpoint`: never fails, and records exactly the triple it was given. */
    method ActualEndpoint(name: string, opt1: Option<u32>, opt2: Option<i32>) returns (r: ReturnedValue)
      modifies this
      ensures r == Ok(Value)
      ensures log == old(log) + [EndpointCall(name, opt1, opt2)]
    {
      log := log + [EndpointCall(name, opt1, opt2)];
      r := Ok(Value);
    }

    /** `approach_a`: passes the plain options through unchanged. */
    method ApproachA(name: string, opt1: Option<u32>, opt2: Option<i32>) returns (r: ReturnedValue)
      modifies this
      ensures r == Ok(Value)
      ensures log == old(log) + [EndpointCall(name, opt1, opt2)]
    {
      r := ActualEndpoint(name, opt1, opt2);
    }

    /**
     * `approach_b`: converts each argument into an option first, so bare
     * values arrive as `Some` and options arrive unchanged.
     */
    method ApproachB(name: string, opt1: IntoOption<u32>, opt2: IntoOption<i32>) returns (r: ReturnedValue)
      modifies this
      ensures r == Ok(Value)
      ensures log == old(log) + [EndpointCall(name, opt1.Into(), opt2.Into())]
    {
      r := ActualEndpoint(name, opt1.Into(), opt2.Into());
    }

    /** `approach_c`: forwards the borrowed record's fields; the record is a value and stays as it was. */
    method ApproachC(data: Params.ApproachC) returns (r: ReturnedValue)
      modifies this
      ensures r == Ok(Value)
      ensures log == old(log) + [EndpointCall(data.name, data.opt1, data.opt2)]
    {
      r := ActualEndpoint(data.name, data.opt1, data.opt2);
    }

    /** `approach_d`: forwards the borrowed built record's fields. */
    method ApproachD(data: Params.ApproachD) returns (r: ReturnedValue)
      modifies this
      ensures r == Ok(Value)
      ensures log == old(log) + [EndpointCall(data.name, data.opt1, data.opt2)]
    {
      r := ActualEndpoint(data.name, data.opt1, data.opt2);
    }

    /**
     * `approach_f`: a bound builder with this client and the name already set,
     * so building it straight away succeeds with both options `None`.
     */
    function ApproachF(name: string): (b: ApproachFBuilder)
      ensures b.Build() == Ok(ApproachFFields(Some(this), name, None, None))
    {
      ApproachFBuilder(None, None, None, None).Set(SetClient(this)).Set(SetName(name))
    }

    /** `group`: a group builder with this client set and no shared option set. */
    function Group(): (b: GroupBuilder)
      ensures b.Build() == Ok(GroupFields(Some(this), None, None))
    {
      GroupBuilder(None, None, None).Set(GroupClient(this))
    }
  }

  // ---------------------------------------------------------------------------
  // Approach E: a fallible builder whose `call` builds and calls in one step.
  // ---------------------------------------------------------------------------

  /** `ApproachE`, the struct `ApproachEBuilder` builds (privately). */
  datatype ApproachE = ApproachE(name: string, opt1: Option<u32>, opt2: Option<i32>)

  /** `ApproachEBuilder`, generated with the default (mutable) pattern and a private `build`. */
  class ApproachEBuilder {
    /** `setter(into)`, no default: required. */
    var name: Option<string>
    /** `setter(strip_option), default`. */
    var opt1: Option<Option<u32>>
    /** `setter(strip_option), default`. */
    var opt2: Option<Option<i32>>

    /** `ApproachEBuilder::default()`: nothing set, so building fails on the name. */
    constructor ()
      ensures name.None? && opt1.None? && opt2.None?
      ensures Build() == Err(UninitializedField("name"))
    {
      name, opt1, opt2 := None, None, None;
    }

    /** The `name` setter. Once it has run, building succeeds with that name. */
    method SetName(value: string)
      modifies this
      ensures name == Some(value) && opt1 == old(opt1) && opt2 == old(opt2)
      ensures Build().Ok? && Build().value.name == value
    {
      name := Some(value);
    }

    /** The `opt1` setter: takes a bare `u32` and makes the built `opt1` be `Some` of it. */
    method SetOpt1(value: u32)
      modifies this
      ensures name == old(name) && opt1 == Some(Some(value)) && opt2 == old(opt2)
      ensures Build().Ok? ==> Build().value.opt1 == Some(value)
    {
      opt1 := Some(Some(value));
    }

    /** The `opt2` setter: takes a bare `i32` and makes the built `opt2` be `Some` of it. */
    method SetOpt2(value: i32)
      modifies this
      ensures name == old(name) && opt1 == old(opt1) && opt2 == Some(Some(value))
      ensures Build().Ok? ==> Build().value.opt2 == Some(value)
    {
      opt2 := Some(Some(value));
    }

    /**
     * The private `build`: fails exactly when the name was never set;
     * otherwise each option is what its setter stored or `None`.
     */
    function Build(): (r: Result<ApproachE, BuildError>)
      reads this
      ensures r.Ok? <==> name.Some?
      ensures r.Err? ==> r.error == UninitializedField("name")
      ensures r.Ok? ==> Some(r.value.name) == name
      ensures r.Ok? ==> (r.value.opt1.Some? <==> opt1.Some? && opt1.value.Some?)
      ensures r.Ok? && r.value.opt1.Some? ==> opt1 == Some(r.value.opt1)
      ensures r.Ok? ==> (r.value.opt2.Some? <==> opt2.Some? && opt2.value.Some?)
      ensures r.Ok? && r.value.opt2.Some? ==> opt2 == Some(r.value.opt2)
    {
      match Required(name, "name")
      case Err(e) => Err(e)
      case Ok(n) => Ok(ApproachE(n, Defaulted(opt1), Defaulted(opt2)))
    }

    /**
     * `call`: a build error is returned before any endpoint call, leaving the
     * log as it was; otherwise the built record is delivered. The builder is
     * only read, so it can be called again.
     */
    method Call(client: APIClient) returns (r: ReturnedValue)
      modifies client
      ensures Build().Err? ==> r == Err(Build().error) && client.log == old(client.log)
      ensures Build().Ok? ==> r == Ok(Value)
      ensures Build().Ok? ==>
        var data := Build().value;
        client.log == old(client.log) + [EndpointCall(data.name, data.opt1, data.opt2)]
    {
      var built := Build();
      if built.Err? {
        return Err(built.error);
      }
      var data := built.value;
      r := client.ActualEndpoint(data.name, data.opt1, data.opt2);
    }
  }

  // ---------------------------------------------------------------------------
  // Approach F: a bound builder, owned pattern, with the client and name preset.
  // ---------------------------------------------------------------------------

  /** The struct `ApproachF` that `ApproachFBuilder` builds. */
  datatype ApproachFFields = ApproachFFields(client: Option<APIClient>, name: string, opt1: Option<u32>, opt2: Option<i32>)

  /** One call of a generated setter of `ApproachFBuilder`. */
  datatype BoundSetter =
    | SetClient(client: APIClient)
    | SetName(name: string)
    | SetOpt1(opt1: u32)
    | SetOpt2(opt2: i32)

  /**
   * `ApproachFBuilder`, generated with `pattern = "owned"`: each setter
   * consumes the builder and returns the updated one, and `call` consumes it.
   */
  datatype ApproachFBuilder = ApproachFBuilder(
    client: Option<Option<APIClient>>,
    name: Option<string>,
    opt1: Option<Option<u32>>,
    opt2: Option<Option<i32>>)
  {
    /** One setter call: stores its field (wrapped once more by `strip_option`) and keeps the others. */
    function Set(s: BoundSetter): (b: ApproachFBuilder)
      ensures s.SetClient? ==> b == this.(client := Some(Some(s.client)))
      ensures s.SetName? ==> b == this.(name := Some(s.name))
      ensures s.SetOpt1? ==> b == this.(opt1 := Some(Some(s.opt1)))
      ensures s.SetOpt2? ==> b == this.(opt2 := Some(Some(s.opt2)))
    {
      match s
      case SetClient(c) => this.(client := Some(Some(c)))
      case SetName(n) => this.(name := Some(n))
      case SetOpt1(v) => this.(opt1 := Some(Some(v)))
      case SetOpt2(v) => this.(opt2 := Some(Some(v)))
    }

    /** A chain of setter calls, applied left to right. */
    function ThenAll(chain: seq<BoundSetter>): (b: ApproachFBuilder)
      ensures chain == [] ==> b == this
      ensures |chain| == 1 ==> b == Set(chain[0])
      decreases |chain|
    {
      if chain == [] then this else Set(chain[0]).ThenAll(chain[1..])
    }

    /** The private `build`: fails exactly when the name was never set. */
    function Build(): (r: Result<ApproachFFields, BuildError>)
      ensures r.Ok? <==> name.Some?
      ensures r.Err? ==> r.error == UninitializedField("name")
      ensures r.Ok? ==> Some(r.value.name) == name
      ensures r.Ok? ==> r.value.client == Defaulted(client)
      ensures r.Ok? ==> r.value.opt1 == Defaulted(opt1) && r.value.opt2 == Defaulted(opt2)
    {
      match Required(name, "name")
      case Err(e) => Err(e)
      case Ok(n) => Ok(ApproachFFields(Defaulted(client), n, Defaulted(opt1), Defaulted(opt2)))
    }

    /**
     * `call`: a build error is returned without a call; otherwise the built
     * record goes to its client's endpoint. A built record without a client
     * would make `unwrap` panic, so callers must not reach that.
     */
    method Call() returns (r: ReturnedValue)
      requires Build().Ok? ==> Build().value.client.Some?
      modifies if Build().Ok? then {Build().value.client.value} else {}
      ensures Build().Err? ==> r == Err(Build().error)
      ensures Build().Ok? ==> r == Ok(Value)
      ensures Build().Ok? ==>
        var data := Build().value;
        data.client.value.log == old(data.client.value.log) + [EndpointCall(data.name, data.opt1, data.opt2)]
    {
      var built := Build();
      if built.Err? {
        return Err(built.error);
      }
      var data := built.value;
      r := data.client.value.ActualEndpoint(data.name, data.opt1, data.opt2);
    }
  }

  /** Setters never unset a field, so a builder with client and name keeps both through any chain. */
  lemma {:induction false} BoundChainKeepsClientAndName(b: ApproachFBuilder, chain: seq<BoundSetter>)
    requires b.client.Some? && b.client.value.Some? && b.name.Some?
    ensures var e := b.ThenAll(chain); e.client.Some? && e.client.value.Some? && e.name.Some?
    decreases |chain|
  {
    if chain != [] {
      BoundChainKeepsClientAndName(b.Set(chain[0]), chain[1..]);
    }
  }

  /** Appending a setter call to a chain applies it last. */
  lemma {:induction false} BoundChainSnoc(b: ApproachFBuilder, chain: seq<BoundSetter>, s: BoundSetter)
    ensures b.ThenAll(chain + [s]) == b.ThenAll(chain).Set(s)
    decreases |chain|
  {
    if chain == [] {
      assert [] + [s] == [s];
    } else {
      assert (chain + [s])[0] == chain[0];
      assert (chain + [s])[1..] == chain[1..] + [s];
      BoundChainSnoc(b.Set(chain[0]), chain[1..], s);
    }
  }

  /**
   * After `approach_f(name)` and any chain of setters, `call` never fails to
   * build and never finds the client missing: it always reaches the endpoint.
   */
  lemma BoundCallAlwaysReachesEndpoint(api: APIClient, name: string, chain: seq<BoundSetter>)
    ensures var r := api.ApproachF(name).ThenAll(chain).Build(); r.Ok? && r.value.client.Some?
  {
    BoundChainKeepsClientAndName(api.ApproachF(name), chain);
  }

  /** The last `opt1(v)` setter of a chain after `approach_f` decides the delivered `opt1`: `Some(v)`. */
  lemma BoundLastOpt1Wins(api: APIClient, name: string, chain: seq<BoundSetter>, v: u32)
    ensures var r := api.ApproachF(name).ThenAll(chain + [SetOpt1(v)]).Build(); r.Ok? && r.value.opt1 == Some(v)
  {
    BoundChainSnoc(api.ApproachF(name), chain, SetOpt1(v));
    BoundChainKeepsClientAndName(api.ApproachF(name), chain);
  }

  /** The `opt2` counterpart: a chain after `approach_f` that ends in `opt2(v)` builds with `opt2 == Some(v)`. */
  lemma BoundLastOpt2Wins(api: APIClient, name: string, chain: seq<BoundSetter>, v: i32)
    ensures var r := api.ApproachF(name).ThenAll(chain + [SetOpt2(v)]).Build(); r.Ok? && r.value.opt2 == Some(v)
  {
    BoundChainSnoc(api.ApproachF(name), chain, SetOpt2(v));
    BoundChainKeepsClientAndName(api.ApproachF(name), chain);
  }

  /** Whether every call of a chain is an `opt1` or `opt2` setter. */
  predicate OnlyOptionSetters(chain: seq<BoundSetter>)
  {
    forall i :: 0 <= i < |chain| ==> chain[i].SetOpt1? || chain[i].SetOpt2?
  }

  /** A chain of option setters leaves the stored client and name as they were. */
  lemma {:induction false} OptionChainKeepsNameAndClient(b: ApproachFBuilder, chain: seq<BoundSetter>)
    requires OnlyOptionSetters(chain)
    ensures b.ThenAll(chain).name == b.name && b.ThenAll(chain).client == b.client
    decreases |chain|
  {
    if chain != [] {
      assert chain[0].SetOpt1? || chain[0].SetOpt2?;
      assert forall i :: 0 <= i < |chain[1..]| ==> chain[1..][i] == chain[i + 1];
      OptionChainKeepsNameAndClient(b.Set(chain[0]), chain[1..]);
    }
  }

  /**
   * After `approach_f(name)` and any chain of option setters, `call` builds
   * and delivers the original name to the original client.
   */
  lemma BoundOptionChainDelivers(api: APIClient, name: string, chain: seq<BoundSetter>)
    requires OnlyOptionSetters(chain)
    ensures var r := api.ApproachF(name).ThenAll(chain).Build(); r.Ok? && r.value.name == name && r.value.client == Some(api)
  {
    OptionChainKeepsNameAndClient(api.ApproachF(name), chain);
  }

  // ---------------------------------------------------------------------------
  // Approaches G and H: a group builder, owned pattern, holding shared options.
  // ---------------------------------------------------------------------------

  /** The struct `Group` that `GroupBuilder` builds. */
  datatype GroupFields = GroupFields(client: Option<APIClient>, opt1: Option<u32>, opt2: Option<i32>)

  /** One call of a generated setter of `GroupBuilder`. */
  datatype GroupSetter =
    | GroupClient(client: APIClient)
    | GroupOpt1(opt1: u32)
    | GroupOpt2(opt2: i32)

  /**
   * `GroupBuilder`, generated with `pattern = "owned"`: the setters consume
   * and return it, and each terminal consumes it, so it serves one call.
   */
  datatype GroupBuilder = GroupBuilder(
    client: Option<Option<APIClient>>,
    opt1: Option<Option<u32>>,
    opt2: Option<Option<i32>>)
  {
    /** One setter call: stores its field (wrapped once more by `strip_option`) and keeps the others. */
    function Set(s: GroupSetter): (b: GroupBuilder)
      ensures s.GroupClient? ==> b == this.(client := Some(Some(s.client)))
      ensures s.GroupOpt1? ==> b == this.(opt1 := Some(Some(s.opt1)))
      ensures s.GroupOpt2? ==> b == this.(opt2 := Some(Some(s.opt2)))
    {
      match s
      case GroupClient(c) => this.(client := Some(Some(c)))
      case GroupOpt1(v) => this.(opt1 := Some(Some(v)))
      case GroupOpt2(v) => this.(opt2 := Some(Some(v)))
    }

    /** A chain of setter calls, applied left to right. */
    function ThenAll(chain: seq<GroupSetter>): (b: GroupBuilder)
      ensures chain == [] ==> b == this
      ensures |chain| == 1 ==> b == Set(chain[0])
      decreases |chain|
    {
      if chain == [] then this else Set(chain[0]).ThenAll(chain[1..])
    }

    /** The private `build`: every field has a default, so it never fails. */
    function Build(): (r: Result<GroupFields, BuildError>)
      ensures r.Ok?
      ensures r.value.client == Defaulted(client)
      ensures r.value.opt1 == Defaulted(opt1) && r.value.opt2 == Defaulted(opt2)
    {
      Ok(GroupFields(Defaulted(client), Defaulted(opt1), Defaulted(opt2)))
    }

    /** `approach_g`: delivers the name and both shared options. */
    method ApproachG(name: string) returns (r: ReturnedValue)
      requires Build().value.client.Some?
      modifies Build().value.client.value
      ensures r == Ok(Value)
      ensures
        var data := Build().value;
        data.client.value.log == old(data.client.value.log) + [EndpointCall(name, data.opt1, data.opt2)]
    {
      var data := Build().value;
      r := data.client.value.ActualEndpoint(name, data.opt1, data.opt2);
    }

    /**
     * `approach_h`: this endpoint takes no `opt1`, and a set `opt1` is a
     * panic, not something silently ignored; otherwise it delivers the name,
     * no `opt1`, and the shared `opt2`.
     */
    method ApproachH(name: string) returns (r: ReturnedValue)
      requires Build().value.opt1.None?
      requires Build().value.client.Some?
      modifies Build().value.client.value
      ensures r == Ok(Value)
      ensures
        var data := Build().value;
        data.client.value.log == old(data.client.value.log) + [EndpointCall(name, None, data.opt2)]
    {
      var data := Build().value;
      r := data.client.value.ActualEndpoint(name, None, data.opt2);
    }
  }

  /** No setter unsets the client, so a group builder with a client keeps one through any chain. */
  lemma {:induction false} GroupChainKeepsClient(b: GroupBuilder, chain: seq<GroupSetter>)
    requires b.client.Some? && b.client.value.Some?
    ensures b.ThenAll(chain).client.Some? && b.ThenAll(chain).client.value.Some?
    decreases |chain|
  {
    if chain != [] {
      GroupChainKeepsClient(b.Set(chain[0]), chain[1..]);
    }
  }

  /** Whether a chain of group setters contains an `opt1` setter call. */
  predicate SetsOpt1(chain: seq<GroupSetter>)
  {
    exists i :: 0 <= i < |chain| && chain[i].GroupOpt1?
  }

  /**
   * The built `opt1` is `None` after a chain exactly when it was `None`
   * before and the chain contains no `opt1` setter: a set `opt1` can never
   * be unset again.
   */
  lemma {:induction false} GroupChainOpt1(b: GroupBuilder, chain: seq<GroupSetter>)
    ensures b.ThenAll(chain).Build().value.opt1.None? <==> b.Build().value.opt1.None? && !SetsOpt1(chain)
    decreases |chain|
  {
    if chain != [] {
      GroupChainOpt1(b.Set(chain[0]), chain[1..]);
      if SetsOpt1(chain[1..]) {
        var i :| 0 <= i < |chain[1..]| && chain[1..][i].GroupOpt1?;
        assert chain[i + 1].GroupOpt1?;
      }
      if SetsOpt1(chain) && !chain[0].GroupOpt1? {
        var i :| 0 <= i < |chain| && chain[i].GroupOpt1?;
        assert chain[1..][i - 1].GroupOpt1?;
      }
      if chain[0].GroupOpt1? {
        assert SetsOpt1(chain);
      }
    }
  }

  /**
   * After `group()` and any chain of setters, `approach_g` can always be
   * called, and `approach_h` can be called (does not panic) exactly when the
   * chain never set `opt1`.
   */
  lemma GroupTerminalsCallable(api: APIClient, chain: seq<GroupSetter>)
    ensures api.Group().ThenAll(chain).Build().value.client.Some?
    ensures api.Group().ThenAll(chain).Build().value.opt1.None? <==> !SetsOpt1(chain)
  {
    GroupChainKeepsClient(api.Group(), chain);
    GroupChainOpt1(api.Group(), chain);
  }
}
