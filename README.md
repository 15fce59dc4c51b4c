# Optional parameters of one API endpoint, modelled in Dafny

The Rust crate `rust-optional-params` shows eight ways of calling one API
endpoint that takes a required `name: &str` and two optional parameters,
`opt1: Option<u32>` and `opt2: Option<i32>`. Every style funnels into
`APIClient::actual_endpoint`, which prints its three arguments and always
returns `Ok`. This project models that parameter-binding layer (`src/api.rs`)
and proves that each style delivers the intended `(name, opt1, opt2)` to the
endpoint. It also proves when a style can fail (a builder whose name was
never set) and when it may not be called (the panics).

Files and modules:

- `wrappers.dfy` (`Wrappers`): Rust's `Option` and `Result`.
- `ints.dfy` (`Ints`): `u32` and `i32` as bounded newtypes.
- `derive_builder.dfy` (`DeriveBuilder`): what the `derive_builder` field
  attributes mean.
  - A generated builder stores each field as an `Option`, `None` until set.
  - `build` fails with `UninitializedField(field)` on a required field that was
    never set (`Required`).
  - `build` falls back to `None` on an `Option` field marked `default`
    (`Defaulted`).
  - A `strip_option` setter takes a bare value and stores `Some(Some(v))`.
- `params.dfy` (`Params`): the records `params::ApproachC` and
  `params::ApproachD`, and `ApproachDBuilder`. The builder is a class because
  the generated builder uses the mutable pattern: setters update it in place,
  and `build(&self)` only reads it.
- `api.dfy` (`Api`): the client and the other styles.
  - `APIClient` is a class with a ghost `log` of the argument triples its
    endpoint received. The log stands for the diagnostic line the endpoint
    prints.
  - `ApproachEBuilder` is a class (mutable pattern); its `Call` builds, then calls.
  - `ApproachFBuilder` and `GroupBuilder` use `pattern = "owned"`, so they are
    datatypes. Each setter call `Set(s)` returns a new builder. Each terminal
    consumes its builder.
  - `ThenAll(chain)` applies any chain of setter calls. It is the basis of the
    lemmas about "any chain of setters".
- `scenarios.dfy` (`Scenarios`): the demonstration driver `src/main.rs` as
  verified scenarios, and one call in every style with the same arguments.

Panics are preconditions:

- `ApproachFBuilder.Call` requires a client whenever the build succeeds. This
  is the `unwrap` at `src/api.rs:113`.
- `GroupBuilder.ApproachG` and `ApproachH` require the built client. These are
  the `unwrap`s at lines 133 and 146.
- `ApproachH` also requires the built `opt1` to be `None`. This is the `panic!`
  at line 143.
- The `build().unwrap()` calls at lines 131 and 138 need no precondition.
  `GroupBuilder.Build` is proved never to fail, because every field has a
  default.

Two promises in the code are weaker than they look, and the model follows
what the code does:

- The comment at `src/api.rs:111` says the build "should never fail". But
  `ApproachFBuilder::default()` is public, and `call` uses `?` on `build()`.
  So a bound builder made without `approach_f` and without a name returns the
  builder error instead of panicking.
  - `ApproachFBuilder.Call` models that path.
  - `BoundCallAlwaysReachesEndpoint` proves that `approach_f` never reaches it.
- `ReturnedValue`'s boxed error could hold any error. But `actual_endpoint`
  always returns `Ok`, so the only error any call can return is a builder's
  `UninitializedField("name")`.

## Model

| member | source | states |
|---|---|---|
| `DeriveBuilder.Required` | src/api.rs:69-70 | A field without `default` builds to its stored value when set. Otherwise it builds to the error naming the field. |
| `DeriveBuilder.Defaulted` | src/api.rs:71-74 | A `default` option field builds to `Some(v)` exactly when the setter stored `Some(Some(v))`. Otherwise it builds to `None`. |
| `Params.ApproachDBuilder.constructor` | src/api.rs:67-75 | `ApproachDBuilder::default()` has no field set. Building it fails on the missing name. |
| `Params.ApproachDBuilder.SetName` | src/api.rs:69-70 | Stores the name and leaves the options alone. Afterwards `build` succeeds with that name. |
| `Params.ApproachDBuilder.SetOpt1` | src/api.rs:71-72 | Takes a bare `u32` and stores it. The built `opt1` is then `Some(v)`; the other fields are unchanged. |
| `Params.ApproachDBuilder.SetOpt2` | src/api.rs:73-74 | Takes a bare `i32` and stores it. The built `opt2` is then `Some(v)`; the other fields are unchanged. |
| `Params.ApproachDBuilder.Build` | src/api.rs:67-75 | Fails exactly when the name was never set, with `UninitializedField("name")`. Otherwise it carries the name, and each option is what its setter stored or `None`. |
| `Api.IntoOption.Into` | src/api.rs:34-39 | `Into<Option<T>>`: a bare value becomes `Some(v)`, and an `Option` passes through unchanged. |
| `Api.BareAgreesWithSome` | src/api.rs:34-40 | `approach_b` gives the same option for a bare `v` as for `Some(v)`. |
| `Api.APIClient.constructor` | src/api.rs:1-3 | A fresh client has made no endpoint call. |
| `Api.APIClient.ActualEndpoint` | src/api.rs:19-28 | Always returns `Ok`. It appends exactly one entry to the log, holding exactly the given name and options. |
| `Api.APIClient.ApproachA` | src/api.rs:30-32 | Succeeds and delivers `(name, opt1, opt2)` unchanged. |
| `Api.APIClient.ApproachB` | src/api.rs:34-40 | Succeeds and delivers the name with each argument converted by `Into`. Bare values arrive as `Some`, and options arrive unchanged. |
| `Api.APIClient.ApproachC` | src/api.rs:42-44 | Succeeds and delivers the borrowed record's `name`, `opt1` and `opt2` unchanged. |
| `Api.APIClient.ApproachD` | src/api.rs:46-48 | Succeeds and delivers the built record's `name`, `opt1` and `opt2` unchanged. |
| `Api.APIClient.ApproachF` | src/api.rs:50-52 | Returns a bound builder with this client and the name set. Building it straight away gives `(this client, name, None, None)`. |
| `Api.APIClient.Group` | src/api.rs:54-56 | Returns a group builder with this client set. Building it straight away gives `(this client, None, None)`. |
| `Api.ApproachEBuilder.constructor` | src/api.rs:78-87 | `ApproachEBuilder::default()` has no field set. Building it fails on the missing name. |
| `Api.ApproachEBuilder.SetName` | src/api.rs:81-82 | Stores the name and leaves the options alone. Afterwards the build succeeds with that name. |
| `Api.ApproachEBuilder.SetOpt1` | src/api.rs:83-84 | Takes a bare `u32` and stores it. The built `opt1` is then `Some(v)`. |
| `Api.ApproachEBuilder.SetOpt2` | src/api.rs:85-86 | Takes a bare `i32` and stores it. The built `opt2` is then `Some(v)`. |
| `Api.ApproachEBuilder.Build` | src/api.rs:78-87 | The private `build` fails exactly when the name was never set. Otherwise each option is what its setter stored or `None`. |
| `Api.ApproachEBuilder.Call` | src/api.rs:89-94 | If the build fails, it returns that error and leaves the log unchanged. Otherwise it returns `Ok` and delivers exactly the built `(name, opt1, opt2)`. It leaves the builder as it was. |
| `Api.ApproachFBuilder.Set` | src/api.rs:96-107 | An owned setter call returns the builder with that one field stored and the others unchanged. |
| `Api.ApproachFBuilder.Build` | src/api.rs:96-107 | Fails exactly when the name was never set. Otherwise it carries the stored client, the name and the defaulted options. |
| `Api.ApproachFBuilder.Call` | src/api.rs:109-116 | Returns the build error with no call. Otherwise it returns `Ok` and delivers the built `(name, opt1, opt2)` to the built client. Requires the client; `unwrap` panics without it. |
| `Api.BoundChainKeepsClientAndName` | src/api.rs:96-107 | After any chain of setters, a bound builder that has a client and a name still has both. |
| `Api.BoundChainSnoc` | src/api.rs:96-107 | Appending a setter call to a chain applies that call last. |
| `Api.BoundCallAlwaysReachesEndpoint` | src/api.rs:109-115 | After `approach_f(name)` and any chain of setters, the build succeeds and has a client. So `call` neither returns a build error nor panics. |
| `Api.BoundLastOpt1Wins` | src/api.rs:103-104 | After `approach_f(name)`, a chain that ends in `opt1(v)` builds with `opt1 == Some(v)`. |
| `Api.BoundLastOpt2Wins` | src/api.rs:105-106 | After `approach_f(name)`, a chain that ends in `opt2(v)` builds with `opt2 == Some(v)`. |
| `Api.OptionChainKeepsNameAndClient` | src/api.rs:96-107 | A chain made only of `opt1`/`opt2` setter calls leaves the stored client and name unchanged. |
| `Api.BoundOptionChainDelivers` | src/api.rs:50-52 | After `approach_f(name)` and any chain of option setters, the build succeeds with that `name` and this client, so `call` delivers the original name to the original client. |
| `Api.GroupBuilder.Set` | src/api.rs:118-127 | An owned setter call returns the builder with that one field stored and the others unchanged. |
| `Api.GroupBuilder.Build` | src/api.rs:118-127 | Never fails, because every field has a default. It carries the stored client and the defaulted options. |
| `Api.GroupBuilder.ApproachG` | src/api.rs:130-135 | Returns `Ok` and delivers `(name, opt1, opt2)` from the shared options to the built client. Requires the client, for the `unwrap` at line 133. |
| `Api.GroupBuilder.ApproachH` | src/api.rs:137-147 | Requires `opt1` to be unset, because a set `opt1` panics rather than being ignored. Returns `Ok` and delivers `(name, None, opt2)`. |
| `Api.GroupChainKeepsClient` | src/api.rs:118-127 | After any chain of setters, a group builder that has a client still has one. |
| `Api.GroupChainOpt1` | src/api.rs:123-124 | The built `opt1` is `None` after a chain iff it was `None` before and the chain has no `opt1` setter. Once set, `opt1` cannot be unset. |
| `Api.GroupTerminalsCallable` | src/api.rs:129-147 | After `group()` and any chain of setters, `approach_g` may always be called. `approach_h` may be called, without panicking, iff the chain never called `opt1`. |
| `Scenarios.DemoDirect` | src/main.rs:12-33 | The driver's calls in styles A, B and C deliver exactly their seven triples, in order. |
| `Scenarios.DemoBuiltRecords` | src/main.rs:35-45 | Both `ApproachDBuilder` builds in the driver succeed, and the endpoint receives their two triples. |
| `Scenarios.DemoFallibleBuilder` | src/main.rs:47-55 | Both `ApproachEBuilder` calls in the driver succeed and deliver their two triples. |
| `Scenarios.DemoOwnedBuilders` | src/main.rs:57-68 | The driver's F, G and H calls build, do not panic, and deliver their three triples. |
| `Scenarios.Demo` | src/main.rs:8-71 | The whole driver delivers exactly its fourteen triples to the endpoint, in order. |
| `Scenarios.SameCallDirect` | src/api.rs:30-48 | Styles A, B and C, given the same arguments, each deliver the same triple. |
| `Scenarios.SameCallMutableBuilders` | src/api.rs:67-93 | Styles D and E deliver that same triple when the name is set and each present option's setter is called. |
| `Scenarios.SameCallOwnedBuilders` | src/api.rs:96-147 | Styles F and G deliver that same triple. H delivers it too when `opt1` is absent. |
| `Scenarios.EveryStyleDeliversSameCall` | src/api.rs:19-147 | All eight styles deliver the same triple for the same arguments; `approach_h` only when `opt1` is absent. |

## Left out

- The `println!` in `actual_endpoint` (src/api.rs:25). It is output only. The ghost `log` records the same three arguments instead.
- Lifetimes and borrowing: the `&'a APIClient` handle is a plain object reference. The `Clone` and `Default` derivations of `APIClient` and `Value` are left out.
- The `Box<dyn Error>` payloads. The error channel carries only `DeriveBuilder.BuildError`, because no other error can arise in this code.
- The internals of `derive_builder`, such as the builder clone that `build` makes. Each builder is modelled only through the meaning of its attributes.
- `build_fn(private)`: the model's `Build` functions are visible to every caller. In Rust only the terminals (`call`, `approach_g`, `approach_h`) may use them.
- The `&mut Self` that the mutable-pattern setters return for chaining. The model calls the setters as separate statements on the same builder.
- `#[derive(Default)]` on `params::ApproachC`. The driver's `..Default::default()` is written out as `("builder", None, None)`.
- `IntoOption` covers only the two standard-library conversions into `Option<T>`: a bare `T`, and `Option<T>` itself. A caller's own `impl From<X> for Option<u32>` also satisfies the bound of `approach_b` (src/api.rs:36-37) but is not modelled.
- Panics as runtime events. Each panic site is a precondition of the operation that contains it.
- Reuse of an owned builder after its terminal. In Rust the move prevents it. The model's builders are immutable values, so reuse cannot change what an earlier call delivered.
