/**
 * Callers of the API: the demonstration driver's calls, and one call in
 * every style with the same arguments.
 */
module Scenarios {
  import opened Wrappers
  import opened Ints
  import opened DeriveBuilder
  import opened Api
  import Params

  /**
   * The demonstration driver's plain calls (styles A to C): the endpoint sees
   * exactly these seven argument triples, in this order.
   */
  method DemoDirect(api: APIClient)
    modifies api
    ensures api.log == old(api.log) + [
      EndpointCall("option", Some(324), Some(1234)),
      EndpointCall("option", None, None),
      EndpointCall("into_option", Some(324), Some(1234)),
      EndpointCall("into_option", Some(324), Some(123)),
      EndpointCall("into_option", None, None),
      EndpointCall("builder", Some(324), Some(123)),
      EndpointCall("builder", None, None)]
  {
    var param2: u32 := 324;
    var v: ReturnedValue;

    // A) plain options
    v := api.ApproachA("option", Some(param2), Some(1234));
    v := api.ApproachA("option", None, None);

    // B) arguments converted into options
    v := api.ApproachB("into_option", Bare(param2), Bare(1234));
    v := api.ApproachB("into_option", Optional(Some(param2)), Optional(Some(123)));
    v := api.ApproachB("into_option", Optional(None), Optional(None));

    // C) a record built by the caller; the second one spells out the defaults
    v := api.ApproachC(Params.ApproachC("builder", Some(param2), Some(123)));
    v := api.ApproachC(Params.ApproachC("builder", None, None));
  }

  /**
   * The demonstration driver's records built by `ApproachDBuilder` (style D):
   * both builds succeed, and the endpoint sees exactly these two triples.
   */
  method DemoBuiltRecords(api: APIClient)
    modifies api
    ensures api.log == old(api.log) + [
      EndpointCall("builder", Some(324), Some(2134)),
      EndpointCall("builder", None, None)]
  {
    var param2: u32 := 324;
    var v: ReturnedValue;

    var d1 := new Params.ApproachDBuilder();
    d1.SetName("builder");
    d1.SetOpt1(param2);
    d1.SetOpt2(2134);
    var call1 := d1.Build();
    assert call1.Ok?;  // the `?` never returns early
    assert call1.value == Params.ApproachD("builder", Some(324), Some(2134));
    v := api.ApproachD(call1.value);

    var d2 := new Params.ApproachDBuilder();
    d2.SetName("builder");
    var call2 := d2.Build();
    assert call2.Ok?;  // the `?` never returns early
    assert call2.value == Params.ApproachD("builder", None, None);
    v := api.ApproachD(call2.value);
  }

  /**
   * The demonstration driver's calls through `ApproachEBuilder` (style E):
   * both calls succeed, and the endpoint sees exactly these two triples.
   */
  method DemoFallibleBuilder(api: APIClient)
    modifies api
    ensures api.log == old(api.log) + [
      EndpointCall("endpoint-oriented", Some(324), Some(1111)),
      EndpointCall("endpoint-oriented", None, None)]
  {
    var param2: u32 := 324;
    var v: ReturnedValue;

    var e1 := new ApproachEBuilder();
    e1.SetName("endpoint-oriented");
    e1.SetOpt1(param2);
    e1.SetOpt2(1111);
    assert e1.Build() == Ok(ApproachE("endpoint-oriented", Some(324), Some(1111)));
    v := e1.Call(api);
    assert v.Ok?;  // the `?` never returns early

    var e2 := new ApproachEBuilder();
    e2.SetName("endpoint-oriented");
    assert e2.Build() == Ok(ApproachE("endpoint-oriented", None, None));
    v := e2.Call(api);
    assert v.Ok?;  // the `?` never returns early
  }

  /**
   * The demonstration driver's calls through the owned builders (styles F,
   * G and H): nothing fails or panics, and the endpoint sees exactly these
   * three triples.
   */
  method DemoOwnedBuilders(api: APIClient)
    modifies api
    ensures api.log == old(api.log) + [
      EndpointCall("hybrid-builder-pattern", Some(324), Some(2222)),
      EndpointCall("group-builder-pattern", Some(324), Some(2222)),
      EndpointCall("group-builder-pattern", None, Some(2222))]
  {
    var param2: u32 := 324;
    var v: ReturnedValue;

    // F) the bound builder
    var f := api.ApproachF("hybrid-builder-pattern").Set(SetOpt1(param2)).Set(SetOpt2(2222));
    assert f.Build() == Ok(ApproachFFields(Some(api), "hybrid-builder-pattern", Some(324), Some(2222)));
    v := f.Call();
    assert v.Ok?;  // the `?` never returns early

    // G, H) the group builder
    var g := api.Group().Set(GroupOpt1(param2)).Set(GroupOpt2(2222));
    assert g.Build() == Ok(GroupFields(Some(api), Some(324), Some(2222)));
    v := g.ApproachG("group-builder-pattern");
    var h := api.Group().Set(GroupOpt2(2222));
    assert h.Build() == Ok(GroupFields(Some(api), None, Some(2222)));
    v := h.ApproachH("group-builder-pattern");
  }

  /**
   * The demonstration driver as a whole: every `?` passes, and the endpoint
   * sees exactly these fourteen triples, in this order.
   */
  method Demo(api: APIClient)
    modifies api
    ensures api.log == old(api.log) + [
      EndpointCall("option", Some(324), Some(1234)),
      EndpointCall("option", None, None),
      EndpointCall("into_option", Some(324), Some(1234)),
      EndpointCall("into_option", Some(324), Some(123)),
      EndpointCall("into_option", None, None),
      EndpointCall("builder", Some(324), Some(123)),
      EndpointCall("builder", None, None),
      EndpointCall("builder", Some(324), Some(2134)),
      EndpointCall("builder", None, None),
      EndpointCall("endpoint-oriented", Some(324), Some(1111)),
      EndpointCall("endpoint-oriented", None, None),
      EndpointCall("hybrid-builder-pattern", Some(324), Some(2222)),
      EndpointCall("group-builder-pattern", Some(324), Some(2222)),
      EndpointCall("group-builder-pattern", None, Some(2222))]
  {
    DemoDirect(api);
    DemoBuiltRecords(api);
    DemoFallibleBuilder(api);
    DemoOwnedBuilders(api);
  }

  /** Styles A, B and C, given the same name and options, deliver that triple three times. */
  method SameCallDirect(api: APIClient, name: string, opt1: Option<u32>, opt2: Option<i32>)
    modifies api
    ensures var c := EndpointCall(name, opt1, opt2); api.log == old(api.log) + [c, c, c]
  {
    var v: ReturnedValue;
    v := api.ApproachA(name, opt1, opt2);
    v := api.ApproachB(name, Optional(opt1), Optional(opt2));
    v := api.ApproachC(Params.ApproachC(name, opt1, opt2));
  }

  /**
   * Styles D and E, with the name set and each option's setter called only
   * when the option is present, build and deliver that triple twice.
   */
  method SameCallMutableBuilders(api: APIClient, name: string, opt1: Option<u32>, opt2: Option<i32>)
    modifies api
    ensures var c := EndpointCall(name, opt1, opt2); api.log == old(api.log) + [c, c]
  {
    var d := new Params.ApproachDBuilder();
    var e := new ApproachEBuilder();
    d.SetName(name);
    e.SetName(name);
    if opt1.Some? {
      d.SetOpt1(opt1.value);
      e.SetOpt1(opt1.value);
    }
    if opt2.Some? {
      d.SetOpt2(opt2.value);
      e.SetOpt2(opt2.value);
    }
    var built := d.Build();
    assert built == Ok(Params.ApproachD(name, opt1, opt2));
    assert e.Build() == Ok(ApproachE(name, opt1, opt2));
    var v := api.ApproachD(built.value);
    v := e.Call(api);
    assert v.Ok?;
  }

  /**
   * Styles F and G, with each option's setter called only when the option is
   * present, deliver that triple twice, and so does H when `opt1` is absent.
   */
  method SameCallOwnedBuilders(api: APIClient, name: string, opt1: Option<u32>, opt2: Option<i32>)
    modifies api
    ensures
      var c := EndpointCall(name, opt1, opt2);
      api.log == old(api.log) + if opt1.None? then [c, c, c] else [c, c]
  {
    var f := api.ApproachF(name);
    var g := api.Group();
    if opt1.Some? {
      f := f.Set(SetOpt1(opt1.value));
      g := g.Set(GroupOpt1(opt1.value));
    }
    if opt2.Some? {
      f := f.Set(SetOpt2(opt2.value));
      g := g.Set(GroupOpt2(opt2.value));
    }
    assert f.Build() == Ok(ApproachFFields(Some(api), name, opt1, opt2));
    assert g.Build() == Ok(GroupFields(Some(api), opt1, opt2));
    var v := f.Call();
    assert v.Ok?;
    v := g.ApproachG(name);
    if opt1.None? {
      v := g.ApproachH(name);
    }
  }

  /**
   * Every calling style, given the same name and options, delivers that
   * same triple to the endpoint; `approach_h` joins in when `opt1` is
   * absent, the only case in which it may be called.
   */
  method EveryStyleDeliversSameCall(api: APIClient, name: string, opt1: Option<u32>, opt2: Option<i32>)
    modifies api
    ensures
      var c := EndpointCall(name, opt1, opt2);
      api.log == old(api.log) + if opt1.None? then [c, c, c, c, c, c, c, c] else [c, c, c, c, c, c, c]
  {
    SameCallDirect(api, name, opt1, opt2);
    SameCallMutableBuilders(api, name, opt1, opt2);
    SameCallOwnedBuilders(api, name, opt1, opt2);
  }
}
