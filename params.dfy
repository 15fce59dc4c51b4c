/**
 * The parameter records of `api::params`: `ApproachC`, built directly by the
 * caller, and `ApproachD`, built through its generated `ApproachDBuilder`.
 */
module Params {
  import opened Wrappers
  import opened Ints
  import opened DeriveBuilder

  /** `params::ApproachC`: any combination of fields, the empty name included. */
  datatype ApproachC = ApproachC(name: string, opt1: Option<u32>, opt2: Option<i32>)

  /** `params::ApproachD`, the struct `ApproachDBuilder` builds. */
  datatype ApproachD = ApproachD(name: string, opt1: Option<u32>, opt2: Option<i32>)

  /**
   * `params::ApproachDBuilder`, generated with the default (mutable) pattern:
   * setters update the builder in place, and `build` reads it without
   * consuming it.
   */
  class ApproachDBuilder {
    /** `setter(into)`, no default: required. */
    var name: Option<string>
    /** `setter(strip_option), default`. */
    var opt1: Option<Option<u32>>
    /** `setter(strip_option), default`. */
    var opt2: Option<Option<i32>>

    /** `ApproachDBuilder::default()`: nothing set, so building fails on the name. */
    constructor ()
      ensures name.None? && opt1.None? && opt2.None?
      ensures Build() == Err(UninitializedField("name"))
    {
      name, opt1, opt2 := None, None, None;
    }

    /** The `name` setter. Once it has run, building succeeds with that name. */
    method SetName(value: string)
      modifies this
      ensures name == Some(value) && opt1 == old(opt1) && opt2 == old(opt2)
      ensures Build().Ok? && Build().value.name == value
    {
      name := Some(value);
    }

    /** The `opt1` setter: takes a bare `u32` and makes the built `opt1` be `Some` of it. */
    method SetOpt1(value: u32)
      modifies this
      ensures name == old(name) && opt1 == Some(Some(value)) && opt2 == old(opt2)
      ensures Build().Ok? ==> Build().value.opt1 == Some(value)
    {
      opt1 := Some(Some(value));
    }

    /** The `opt2` setter: takes a bare `i32` and makes the built `opt2` be `Some` of it. */
    method SetOpt2(value: i32)
      modifies this
      ensures name == old(name) && opt1 == old(opt1) && opt2 == Some(Some(value))
      ensures Build().Ok? ==> Build().value.opt2 == Some(value)
    {
      opt2 := Some(Some(value));
    }

    /**
     * `build`: fails exactly when the name was never set; otherwise the record
     * carries the name, and each option is what its setter stored or `None`.
     */
    function Build(): (r: Result<ApproachD, BuildError>)
      reads this
      ensures r.Ok? <==> name.Some?
      ensures r.Err? ==> r.error == UninitializedField("name")
      ensures r.Ok? ==> Some(r.value.name) == name
      ensures r.Ok? ==> (r.value.opt1.Some? <==> opt1.Some? && opt1.value.Some?)
      ensures r.Ok? && r.value.opt1.Some? ==> opt1 == Some(r.value.opt1)
      ensures r.Ok? ==> (r.value.opt2.Some? <==> opt2.Some? && opt2.value.Some?)
      ensures r.Ok? && r.value.opt2.Some? ==> opt2 == Some(r.value.opt2)
    {
      match Required(name, "name")
      case Err(e) => Err(e)
      case Ok(n) => Ok(ApproachD(n, Defaulted(opt1), Defaulted(opt2)))
    }
  }
}
