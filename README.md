# BlurFilter: a Dafny model of the AVM1 `flash.filters.BlurFilter` built-in

This project models the native side of ActionScript 1/2's `BlurFilter` class
in the Ruffle Flash player. A BlurFilter object is a script object that also
holds three integer fields: `blurX`, `blurY` and `quality`.

- The native constructor reads up to three arguments, which default to 4, 4 and 1.
  It coerces each one to `i32` and clamps it: the two radii into `[0, 255]` and the
  quality into `[0, 15]`. If any coercion fails, the error is returned before any
  field is written. Otherwise the three fields are stored and `undefined` is returned.
- Each field has a getter that returns it as a number. Each field also has a
  setter that coerces and clamps its first argument (`undefined` when there is
  none) and writes that field only.
- `clone` reads the three accessors and passes them to the canonical
  BlurFilter constructor. The copy is a new object with the same fields.
- `create_proto` builds the prototype: a BlurFilter object with a `clone`
  method and one getter/setter accessor property per field, all with an
  empty attribute set.

Files:

- `value.dfy` (module `Avm1Value`): runtime values, the error type, a
  `Result` usable with `:-` in place of Rust's `?`, and the activation. The
  activation carries the outcome of coercing any value to `i32` as a function
  value, together with the canonical BlurFilter prototype.
- `blur_filter.dfy` (module `BlurFilter`):
  - the clamp;
  - the specification functions `ConstructorOutcome` and `SetterOutcome`;
  - `Apply` and `Run`, which give the fields after one call or after a
    sequence of calls;
  - the class `BlurFilterObject`. Its members `Constructor`, `GetBlurX`,
    `SetBlurX`, `GetBlurY`, `SetBlurY`, `GetQuality`, `SetQuality` and `Clone`
    are the native functions (the getters as functions, the others as methods).
    `ForceSetFunction` and `AddProperty` are operations on the object's property table that `create_proto` calls;
  - `CreateProto`;
  - the lemmas.

The constructor and the three setters are tied to the specification
functions. The `ensures` of each of them gives the new fields as
`Apply(old(Params()), act, call)` and the returned value as `Returned(...)`.
`Clone` instead promises a fresh object whose fields equal those of `this`.
The setters' `modifies` clauses name only their own field, so Dafny checks
the frame condition. The constructor's and setters'
`ensures` also say that a failed coercion leaves every field as it was.

## Model

| member | source | states |
|---|---|---|
| `BlurFilter.Clamp` | core/src/avm1/globals/blur_filter.rs:22 | `x.max(lo).min(hi)` lies in `[lo, hi]`. It is `x` when `x` is already in range, `lo` below it and `hi` above it. |
| `BlurFilter.ClampIdempotent` | core/src/avm1/globals/blur_filter.rs:82 | Clamping an already clamped value changes nothing. |
| `BlurFilter.ArgOr` | core/src/avm1/globals/blur_filter.rs:18-20 | `args.get(i).unwrap_or(default)` gives the i-th argument when there is one and the default otherwise. |
| `BlurFilter.CoerceClamped` | core/src/avm1/globals/blur_filter.rs:78-82 | Coerce-then-clamp succeeds exactly when the `i32` coercion succeeds. Its value lies in `[0, max]` and is the clamped coercion. On failure it returns the coercion's error unchanged. |
| `BlurFilter.ConstructorOutcome` | core/src/avm1/globals/blur_filter.rs:18-34 | On success all three stored fields are in range. Otherwise the result is the error of the first argument whose coercion fails, in the order blurX, blurY, quality. |
| `BlurFilter.ConstructorDefaults` | core/src/avm1/globals/blur_filter.rs:18-34 | With no arguments the constructor stores blurX = 4, blurY = 4, quality = 1. |
| `BlurFilter.ConstructorClamps` | core/src/avm1/globals/blur_filter.rs:18-34 | For coerced arguments `(x, y, q)` the stored fields are `Clamp(x,0,255)`, `Clamp(y,0,255)` and `Clamp(q,0,15)`. |
| `BlurFilter.SetterOutcome` | core/src/avm1/globals/blur_filter.rs:73-89 | A setter succeeds exactly when coercing its first argument succeeds, or `undefined` when there is none. It then sets its own field to the clamped value and leaves the other two fields unchanged. It keeps the range invariant. On failure it returns the coercion's error. |
| `BlurFilter.Returned` | core/src/avm1/globals/blur_filter.rs:46 | A constructor or setter call returns `undefined` exactly when it succeeds. When it fails, it returns the error of the failed coercion unchanged. |
| `BlurFilter.Apply` | core/src/avm1/globals/blur_filter.rs:13-141 | After a failed coercion the fields are exactly as before. Every call keeps the range invariant. A successful constructor call establishes it from any state. |
| `BlurFilter.RunKeepsRange` | core/src/avm1/globals/blur_filter.rs:13-141 | Any sequence of constructor and setter calls, each with its own activation (so the same value may coerce differently at different calls), keeps `0 <= blurX, blurY <= 255` and `0 <= quality <= 15`. |
| `Avm1Value.FromInt` | core/src/avm1/globals/blur_filter.rs:20 | `i32`-to-`Value` conversion (`.into()`, also at lines 26, 32, 70, 96 and 122): the result is a whole number equal to the integer converted, since `i32` to `f64` is exact. |
| `BlurFilter.BlurParams.AsArguments` | core/src/avm1/globals/blur_filter.rs:56-60 | The argument list `&[blur_x, blur_y, quality]` that `clone` passes to the constructor: exactly three numbers, holding blurX, blurY and quality in that order, each at the position the constructor reads it from. |
| `BlurFilter.ReconstructIsIdentity` | core/src/avm1/globals/blur_filter.rs:49-62 | Suppose the fields are in range and the `i32` coercion is well formed. Then constructing from the three getter results reproduces exactly the same fields. |
| `BlurFilter.BlurFilterObject.EmptyObject` | core/src/avm1/globals/blur_filter.rs:148 | A new BlurFilter object has the given prototype and no own properties, and its fields are in range. |
| `BlurFilter.BlurFilterObject.Constructor` | core/src/avm1/globals/blur_filter.rs:13-47 | The new fields are `ConstructorOutcome`'s on success and the old ones on failure. The call returns `undefined` or the coercion error. On success the invariant holds. |
| `BlurFilter.BlurFilterObject.GetBlurX` | core/src/avm1/globals/blur_filter.rs:64-71 | Always succeeds with the stored blurX as a number. Under the invariant that number is in `[0, 255]`. |
| `BlurFilter.BlurFilterObject.GetBlurY` | core/src/avm1/globals/blur_filter.rs:91-97 | Always succeeds with the stored blurY as a number. Under the invariant that number is in `[0, 255]`. |
| `BlurFilter.BlurFilterObject.GetQuality` | core/src/avm1/globals/blur_filter.rs:117-123 | Always succeeds with the stored quality as a number. Under the invariant that number is in `[0, 15]`. |
| `BlurFilter.BlurFilterObject.SetBlurX` | core/src/avm1/globals/blur_filter.rs:73-89 | Modifies only blurX. On success `GetBlurX` then returns the clamped coerced argument, in `[0, 255]`. On failure blurX is unchanged and the error is returned. The invariant is preserved. |
| `BlurFilter.BlurFilterObject.SetBlurY` | core/src/avm1/globals/blur_filter.rs:99-115 | Modifies only blurY. On success `GetBlurY` then returns the clamped coerced argument, in `[0, 255]`. On failure blurY is unchanged and the error is returned. The invariant is preserved. |
| `BlurFilter.BlurFilterObject.SetQuality` | core/src/avm1/globals/blur_filter.rs:125-141 | Modifies only quality, although the source names its local `blur_y`. On success `GetQuality` then returns the clamped coerced argument, in `[0, 15]`. On failure quality is unchanged. The invariant is preserved. |
| `BlurFilter.BlurFilterObject.Clone` | core/src/avm1/globals/blur_filter.rs:49-62 | Given a well-formed coercion and fields in range, clone always succeeds. It returns a freshly allocated object, distinct from `this`, with the canonical BlurFilter prototype and fields equal to those of `this`. `this` is not modified. |
| `BlurFilter.BlurFilterObject.ForceSetFunction` | core/src/avm1/globals/blur_filter.rs:151 | Installs the `clone` function value under its name with the given attributes, whatever was there before. |
| `BlurFilter.BlurFilterObject.AddProperty` | core/src/avm1/globals/blur_filter.rs:154-170 | Installs a getter/setter accessor property under its name with the given attributes. |
| `BlurFilter.CreateProto` | core/src/avm1/globals/blur_filter.rs:143-209 | Returns a fresh BlurFilter object with the given prototype and exactly four own properties. `clone` is a function over the `clone` native. `blurX`, `blurY` and `quality` are each an accessor with that field's native getter and setter. All four have an empty attribute set. |

## Left out

- The body of `coerce_to_i32` is not part of this model; its outcome on each value is a parameter (`Activation.coerceToI32`). `CoercionWellFormed` states what the model relies on: results lie in the `i32` range, and a number that already holds an `i32` value converts to itself. The outcome for `undefined` (a setter called without an argument) is left to that parameter.
- Re-entrancy: a `valueOf` hook run during coercion could itself modify the object being constructed or set; the model treats coercion as free of side effects.
- Numbers are exact reals: `NaN`, the infinities and `f64` rounding are not represented (only the abstract coercion consumes numbers here).
- `Error` has a single variant, the value thrown by script code; the other variants of the runtime's error type are not part of this model.
- `BlurFilter.BlurFilterObject.Clone`: reads the fields through the getters directly instead of dispatching `this.get("blurX")` through the prototype chain, assuming the accessors installed by `create_proto` are in effect. It also assumes `prototypes.blur_filter_constructor` is still the native BlurFilter constructor, which allocates an empty BlurFilter object with the canonical prototype and runs `Constructor` on it.
- `BlurFilter.BlurFilterObject.EmptyObject`: the initial field values of an empty BlurFilter object are set in object/blur_filter.rs, which is not part of this model; the contract promises only that they are in range.
- The panic of `as_blur_filter_object().unwrap()` when `this` is not a BlurFilter: the native functions are methods of `BlurFilterObject`, so `this` is always one.
- Function objects are represented by their native executable and their `__proto__` (`fn_proto`); the separate `prototype` argument of `FunctionObject::function` and the ordering of the property table are not modelled.
- `ForceSetFunction` and `AddProperty` model the script object's property table as a map update. The rest of the object model, prototype-chain dispatch and the garbage-collected arena (`gc_context`) are not part of this model; allocation is Dafny's `new`.
- The `println!` debug output and the unused `Attributes` import have no effect on behaviour.
