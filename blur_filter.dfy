/**
 * The ActionScript `flash.filters.BlurFilter` built-in: a native object
 * holding two blur radii and a quality level, its constructor, its clamping
 * accessors, `clone`, and the prototype that installs them.
 */
module BlurFilter {
  import opened Avm1Value

  /** `x.max(lo).min(hi)`: the nearest point of `[lo, hi]` to `x`. */
  function Clamp(x: int, lo: int, hi: int): (r: int)
    requires lo <= hi
    ensures lo <= r <= hi
    ensures lo <= x <= hi ==> r == x
    ensures x < lo ==> r == lo
    ensures hi < x ==> r == hi
  {
    var atLeast := if x < lo then lo else x;
    if atLeast > hi then hi else atLeast
  }

  /** Clamping a clamped value changes nothing. */
  lemma ClampIdempotent(x: int, lo: int, hi: int)
    requires lo <= hi
    ensures Clamp(Clamp(x, lo, hi), lo, hi) == Clamp(x, lo, hi)
  {
  }

  /** The three numeric fields of a BlurFilter. */
  datatype Field = BlurX | BlurY | Quality {
    /** The largest value the field may hold; the smallest is 0. */
    function Max(): int
    {
      match this
      case BlurX => 255
      case BlurY => 255
      case Quality => 15
    }

    /** The name of the accessor property that exposes the field. */
    function Name(): string
    {
      match this
      case BlurX => "blurX"
      case BlurY => "blurY"
      case Quality => "quality"
    }

    /** The field's position in the constructor's argument list. */
    function Position(): nat
    {
      match this
      case BlurX => 0
      case BlurY => 1
      case Quality => 2
    }

    function GetterFn(): NativeFunction
    {
      match this
      case BlurX => GetBlurXFn
      case BlurY => GetBlurYFn
      case Quality => GetQualityFn
    }

    function SetterFn(): NativeFunction
    {
      match this
      case BlurX => SetBlurXFn
      case BlurY => SetBlurYFn
      case Quality => SetQualityFn
    }
  }

  /** The values of the three fields of one BlurFilter object. */
  datatype BlurParams = BlurParams(blurX: int, blurY: int, quality: int) {
    function Get(field: Field): int
    {
      match field
      case BlurX => blurX
      case BlurY => blurY
      case Quality => quality
    }

    /** These parameters with `field` replaced by `n` and nothing else changed. */
    function With(field: Field, n: int): (p: BlurParams)
      ensures p.Get(field) == n
      ensures forall other: Field :: other != field ==> p.Get(other) == Get(other)
    {
      match field
      case BlurX => this.(blurX := n)
      case BlurY => this.(blurY := n)
      case Quality => this.(quality := n)
    }

    /** The object invariant: each field lies in `[0, Max()]`. */
    predicate InRange()
    {
      forall field: Field :: 0 <= Get(field) <= field.Max()
    }

    /** The getters' results, in the order `clone` passes them to the constructor. */
    function AsArguments(): (args: seq<Value>)
      ensures |args| == 3
      ensures forall i :: 0 <= i < 3 ==> args[i].Number?
      ensures forall field: Field :: field.Position() < |args| && args[field.Position()] == FromInt(Get(field))
    {
      [FromInt(blurX), FromInt(blurY), FromInt(quality)]
    }
  }

  /** `args.get(i).unwrap_or(default)`. */
  function ArgOr(args: seq<Value>, i: nat, default: Value): (v: Value)
    ensures i < |args| ==> v == args[i]
    ensures |args| <= i ==> v == default
  {
    if i < |args| then args[i] else default
  }

  /**
   * `v.coerce_to_i32(activation).map(|x| x.max(0).min(max))?`: the coercion's
   * error passes through unchanged, its value is clamped into `[0, max]`.
   */
  function CoerceClamped(act: Activation, v: Value, max: nat): (r: Result<int>)
    ensures r.Ok? <==> act.coerceToI32(v).Ok?
    ensures r.Ok? ==> 0 <= r.value <= max
    ensures r.Ok? ==> r.value == Clamp(act.coerceToI32(v).value, 0, max)
    ensures r.Err? ==> r.error == act.coerceToI32(v).error
  {
    var x :- act.coerceToI32(v);
    Ok(Clamp(x, 0, max))
  }

  /**
   * The fields that the native constructor stores, or the error of the first
   * argument whose coercion fails. Missing arguments default to 4, 4 and 1.
   */
  function ConstructorOutcome(act: Activation, args: seq<Value>): (r: Result<BlurParams>)
    ensures r.Ok? ==> r.value.InRange()
    ensures act.coerceToI32(ArgOr(args, 0, FromInt(4))).Err? ==>
      r == Err(act.coerceToI32(ArgOr(args, 0, FromInt(4))).error)
    ensures act.coerceToI32(ArgOr(args, 0, FromInt(4))).Ok? &&
            act.coerceToI32(ArgOr(args, 1, FromInt(4))).Err? ==>
      r == Err(act.coerceToI32(ArgOr(args, 1, FromInt(4))).error)
    ensures act.coerceToI32(ArgOr(args, 0, FromInt(4))).Ok? &&
            act.coerceToI32(ArgOr(args, 1, FromInt(4))).Ok? &&
            act.coerceToI32(ArgOr(args, 2, FromInt(1))).Err? ==>
      r == Err(act.coerceToI32(ArgOr(args, 2, FromInt(1))).error)
  {
    var blurX :- CoerceClamped(act, ArgOr(args, 0, FromInt(4)), 255);
    var blurY :- CoerceClamped(act, ArgOr(args, 1, FromInt(4)), 255);
    var quality :- CoerceClamped(act, ArgOr(args, 2, FromInt(1)), 15);
    Ok(BlurParams(blurX, blurY, quality))
  }

  /**
   * The fields after the setter of `field` runs on `args`, or the error of
   * coercing its first argument (`Undefined` when there is none).
   */
  function SetterOutcome(p: BlurParams, act: Activation, field: Field, args: seq<Value>): (r: Result<BlurParams>)
    ensures r.Ok? <==> act.coerceToI32(ArgOr(args, 0, Undefined)).Ok?
    ensures r.Ok? ==> r.value.Get(field) == Clamp(act.coerceToI32(ArgOr(args, 0, Undefined)).value, 0, field.Max())
    ensures r.Ok? ==> forall other: Field :: other != field ==> r.value.Get(other) == p.Get(other)
    ensures r.Ok? && p.InRange() ==> r.value.InRange()
    ensures r.Err? ==> r.error == act.coerceToI32(ArgOr(args, 0, Undefined)).error
  {
    var n :- CoerceClamped(act, ArgOr(args, 0, Undefined), field.Max());
    Ok(p.With(field, n))
  }

  /** A call of the constructor or of one setter on a BlurFilter object. */
  datatype Call = Construct(args: seq<Value>) | Set(field: Field, args: seq<Value>)

  function Outcome(p: BlurParams, act: Activation, call: Call): Result<BlurParams>
  {
    match call
    case Construct(args) => ConstructorOutcome(act, args)
    case Set(field, args) => SetterOutcome(p, act, field, args)
  }

  /** The value a call returns: `Undefined` on success, else the coercion's error. */
  function Returned(p: BlurParams, act: Activation, call: Call): (r: Result<Value>)
    ensures r.Ok? <==> Outcome(p, act, call).Ok?
    ensures r.Ok? ==> r.value == Undefined
    ensures r.Err? ==> r.error == Outcome(p, act, call).error
  {
    var _ :- Outcome(p, act, call);
    Ok(Undefined)
  }

  /** The fields after a call: a failed coercion leaves all three as they were. */
  function Apply(p: BlurParams, act: Activation, call: Call): (q: BlurParams)
    ensures Outcome(p, act, call).Err? ==> q == p
    ensures p.InRange() ==> q.InRange()
    ensures call.Construct? && Outcome(p, act, call).Ok? ==> q.InRange()
  {
    match Outcome(p, act, call)
    case Ok(next) => next
    case Err(_) => p
  }

  /**
   * The fields after a sequence of calls, in order. Each call carries its own
   * activation, since a value may coerce differently from one call to the next.
   */
  function Run(p: BlurParams, calls: seq<(Activation, Call)>): BlurParams
    decreases |calls|
  {
    if calls == [] then p else Run(Apply(p, calls[0].0, calls[0].1), calls[1..])
  }

  /** Any sequence of constructor and setter calls keeps every field in range. */
  lemma {:induction false} RunKeepsRange(p: BlurParams, calls: seq<(Activation, Call)>)
    requires p.InRange()
    ensures Run(p, calls).InRange()
    decreases |calls|
  {
    if calls != [] {
      RunKeepsRange(Apply(p, calls[0].0, calls[0].1), calls[1..]);
    }
  }

  /** With no arguments the constructor stores 4, 4 and 1. */
  lemma ConstructorDefaults(act: Activation)
    requires CoercionWellFormed(act.coerceToI32)
    ensures ConstructorOutcome(act, []) == Ok(BlurParams(4, 4, 1))
  {
    assert act.coerceToI32(FromInt(4)) == Ok(4);
    assert act.coerceToI32(FromInt(1)) == Ok(1);
  }

  /** The constructor stores each coerced argument clamped into its field's range. */
  lemma ConstructorClamps(act: Activation, args: seq<Value>, x: int, y: int, q: int)
    requires act.coerceToI32(ArgOr(args, 0, FromInt(4))) == Ok(x)
    requires act.coerceToI32(ArgOr(args, 1, FromInt(4))) == Ok(y)
    requires act.coerceToI32(ArgOr(args, 2, FromInt(1))) == Ok(q)
    ensures ConstructorOutcome(act, args) == Ok(BlurParams(Clamp(x, 0, 255), Clamp(y, 0, 255), Clamp(q, 0, 15)))
  {
  }

  /**
   * Constructing from the getters' results reproduces in-range fields: the
   * coercion gives back each stored integer and clamping leaves it alone.
   */
  lemma ReconstructIsIdentity(act: Activation, p: BlurParams)
    requires CoercionWellFormed(act.coerceToI32)
    requires p.InRange()
    ensures ConstructorOutcome(act, p.AsArguments()) == Ok(p)
  {
    var args := p.AsArguments();
    assert 0 <= p.Get(BlurX) <= BlurX.Max() && 0 <= p.Get(BlurY) <= BlurY.Max();
    assert 0 <= p.Get(Quality) <= Quality.Max();
    assert act.coerceToI32(ArgOr(args, 0, FromInt(4))) == Ok(p.blurX);
    assert act.coerceToI32(ArgOr(args, 1, FromInt(4))) == Ok(p.blurY);
    assert act.coerceToI32(ArgOr(args, 2, FromInt(1))) == Ok(p.quality);
  }

  /** The natives that `create_proto` wraps in function objects. */
  datatype NativeFunction =
    | CloneFn
    | GetBlurXFn | SetBlurXFn
    | GetBlurYFn | SetBlurYFn
    | GetQualityFn | SetQualityFn

  /** A function object: a native executable and the function prototype it links to. */
  datatype FunctionObject = FunctionObject(exec: NativeFunction, proto: object?)

  datatype Attribute = DontEnum | DontDelete | ReadOnly

  /** A property slot: a stored function value, or a getter with an optional setter. */
  datatype Property =
    | Method(fn: FunctionObject, attributes: set<Attribute>)
    | Accessor(getter: FunctionObject, setter: Option<FunctionObject>, attributes: set<Attribute>)

  /** A BlurFilter object: its own script-object part and its three fields. */
  class BlurFilterObject {
    var blurX: int
    var blurY: int
    var quality: int
    var prototype: object?
    var properties: map<string, Property>

    function Params(): BlurParams
      reads this
    {
      BlurParams(blurX, blurY, quality)
    }

    ghost predicate Valid()
      reads this
    {
      Params().InRange()
    }

    /** `BlurFilterObject::empty_object`: no own properties, fields in range. */
    constructor EmptyObject(proto: object?)
      ensures Valid()
      ensures prototype == proto && properties == map[]
    {
      blurX, blurY, quality := 4, 4, 1;
      prototype := proto;
      properties := map[];
    }

    /** The native constructor, run on an object that `construct` allocated. */
    method Constructor(act: Activation, args: seq<Value>) returns (r: Result<Value>)
      modifies this`blurX, this`blurY, this`quality
      ensures r == Returned(old(Params()), act, Construct(args))
      ensures Params() == Apply(old(Params()), act, Construct(args))
      ensures r.Ok? ==> Valid() && Params() == ConstructorOutcome(act, args).value
      ensures r.Err? ==> Params() == old(Params())
    {
      var x :- CoerceClamped(act, ArgOr(args, 0, FromInt(4)), 255);
      var y :- CoerceClamped(act, ArgOr(args, 1, FromInt(4)), 255);
      var q :- CoerceClamped(act, ArgOr(args, 2, FromInt(1)), 15);
      blurX := x;
      blurY := y;
      quality := q;
      r := Ok(Undefined);
    }

    function GetBlurX(): (r: Result<Value>)
      reads this
      ensures r.Ok? && r.value == FromInt(Params().Get(BlurX))
      ensures Valid() ==> 0.0 <= r.value.n <= 255.0
    {
      Ok(FromInt(blurX))
    }

    function GetBlurY(): (r: Result<Value>)
      reads this
      ensures r.Ok? && r.value == FromInt(Params().Get(BlurY))
      ensures Valid() ==> 0.0 <= r.value.n <= 255.0
    {
      Ok(FromInt(blurY))
    }

    function GetQuality(): (r: Result<Value>)
      reads this
      ensures r.Ok? && r.value == FromInt(Params().Get(Quality))
      ensures Valid() ==> 0.0 <= r.value.n <= 15.0
    {
      Ok(FromInt(quality))
    }

    method SetBlurX(act: Activation, args: seq<Value>) returns (r: Result<Value>)
      modifies this`blurX
      ensures r == Returned(old(Params()), act, Set(BlurX, args))
      ensures Params() == Apply(old(Params()), act, Set(BlurX, args))
      ensures r.Ok? ==> GetBlurX() == Ok(FromInt(Clamp(act.coerceToI32(ArgOr(args, 0, Undefined)).value, 0, 255)))
      ensures r.Err? ==> blurX == old(blurX)
      ensures old(Valid()) ==> Valid()
    {
      var n :- CoerceClamped(act, ArgOr(args, 0, Undefined), 255);
      blurX := n;
      r := Ok(Undefined);
    }

    method SetBlurY(act: Activation, args: seq<Value>) returns (r: Result<Value>)
      modifies this`blurY
      ensures r == Returned(old(Params()), act, Set(BlurY, args))
      ensures Params() == Apply(old(Params()), act, Set(BlurY, args))
      ensures r.Ok? ==> GetBlurY() == Ok(FromInt(Clamp(act.coerceToI32(ArgOr(args, 0, Undefined)).value, 0, 255)))
      ensures r.Err? ==> blurY == old(blurY)
      ensures old(Valid()) ==> Valid()
    {
      var n :- CoerceClamped(act, ArgOr(args, 0, Undefined), 255);
      blurY := n;
      r := Ok(Undefined);
    }

    method SetQuality(act: Activation, args: seq<Value>) returns (r: Result<Value>)
      modifies this`quality
      ensures r == Returned(old(Params()), act, Set(Quality, args))
      ensures Params() == Apply(old(Params()), act, Set(Quality, args))
      ensures r.Ok? ==> GetQuality() == Ok(FromInt(Clamp(act.coerceToI32(ArgOr(args, 0, Undefined)).value, 0, 15)))
      ensures r.Err? ==> quality == old(quality)
      ensures old(Valid()) ==> Valid()
    {
      var n :- CoerceClamped(act, ArgOr(args, 0, Undefined), 15);
      quality := n;
      r := Ok(Undefined);
    }

    /**
     * `clone`: reads the three accessors and runs the canonical constructor on
     * them, so the copy is a new object with the same fields.
     */
    method Clone(act: Activation) returns (r: Result<BlurFilterObject>)
      requires Valid()
      requires CoercionWellFormed(act.coerceToI32)
      ensures r.Ok?
      ensures fresh(r.value) && r.value != this
      ensures r.value.Params() == Params() && r.value.Valid()
      ensures r.value.prototype == act.blurFilterPrototype && r.value.properties == map[]
    {
      var x, y, q := GetBlurX().value, GetBlurY().value, GetQuality().value;
      var cloned := new BlurFilterObject.EmptyObject(act.blurFilterPrototype);
      ReconstructIsIdentity(act, Params());
      assert [x, y, q] == Params().AsArguments();
      var constructed := cloned.Constructor(act, [x, y, q]);
      match constructed
      case Ok(_) => r := Ok(cloned);
      case Err(e) => r := Err(e);
    }

    /** `force_set_function`: installs a function value under `name`, whatever was there. */
    method ForceSetFunction(name: string, exec: NativeFunction, attributes: set<Attribute>, fnProto: object?)
      modifies this`properties
      ensures properties == old(properties)[name := Method(FunctionObject(exec, fnProto), attributes)]
    {
      properties := properties[name := Method(FunctionObject(exec, fnProto), attributes)];
    }

    /** `add_property`: installs an accessor under `name`. */
    method AddProperty(name: string, getter: FunctionObject, setter: Option<FunctionObject>, attributes: set<Attribute>)
      modifies this`properties
      ensures properties == old(properties)[name := Accessor(getter, setter, attributes)]
    {
      properties := properties[name := Accessor(getter, setter, attributes)];
    }
  }

  /**
   * `create_proto`: a fresh BlurFilter object whose own properties are the
   * `clone` method and one getter/setter accessor per field, all with an
   * empty attribute set.
   */
  method CreateProto(proto: object?, fnProto: object?) returns (o: BlurFilterObject)
    ensures fresh(o) && o.Valid() && o.prototype == proto
    ensures o.properties.Keys == {"clone", "blurX", "blurY", "quality"}
    ensures o.properties["clone"] == Method(FunctionObject(CloneFn, fnProto), {})
    ensures forall field: Field :: (o.properties[field.Name()] ==
      Accessor(FunctionObject(field.GetterFn(), fnProto), Some(FunctionObject(field.SetterFn(), fnProto)), {}))
  {
    o := new BlurFilterObject.EmptyObject(proto);
    o.ForceSetFunction("clone", CloneFn, {}, fnProto);
    o.AddProperty("blurX", FunctionObject(GetBlurXFn, fnProto), Some(FunctionObject(SetBlurXFn, fnProto)), {});
    o.AddProperty("blurY", FunctionObject(GetBlurYFn, fnProto), Some(FunctionObject(SetBlurYFn, fnProto)), {});
    o.AddProperty("quality", FunctionObject(GetQualityFn, fnProto), Some(FunctionObject(SetQualityFn, fnProto)), {});
  }
}
