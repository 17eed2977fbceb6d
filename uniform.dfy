// Uniform values (lib/Uniform.js): a uniform keeps one validated value; each
// subclass validates with its own `normalize`, and `assign` flattens its
// arguments first.  The GL calls (`apply`, `applyType`) are not modelled.

module Uniforms {
  import opened Wrappers

  /** The JavaScript values a uniform can be given. */
  datatype JsValue =
    | Num(x: real)         // a number other than NaN
    | NaN
    | Undefined
    | Other                // a string, object, boolean, ...
    | Arr(items: seq<JsValue>)
    | Hole                 // an empty slot of a sparse array; read, it is undefined

  /** What `normalize` throws. */
  datatype UniformError =
    | TypeError
    | SyntaxError          // the abstract base class has no `normalize`
    | NotInstantiated      // `Vec4` has no `NUM_VALUES`

  /** The subclass a uniform was constructed as. */
  datatype UniformKind = Base | Float | Vec2 | Vec3 | Vec4

  /**
   * `!s.some(x => typeof x !== 'number' || Number.isNaN(x))`: every element
   * that is present is a number other than NaN; `some` skips empty slots.
   */
  predicate PresentNumbers(s: seq<JsValue>)
  {
    forall i :: 0 <= i < |s| ==> s[i].Num? || s[i].Hole?
  }

  function MinNat(a: nat, b: nat): nat { if a <= b then a else b }

  /** `Vec.normalize` for `NUM_VALUES == n`: slice to n, then check the length and every element. */
  function NormalizeVec(n: nat, v: JsValue): Result<JsValue, UniformError>
  {
    if !v.Arr? then Failure(TypeError)
    else
      var vec := v.items[..MinNat(n, |v.items|)];
      if |vec| != n then Failure(TypeError)
      else if !PresentNumbers(vec) then Failure(TypeError)
      else Success(Arr(vec))
  }

  /** `[val] = val` on an array: its first element, or undefined when it is empty or starts with a hole. */
  function FirstOf(v: JsValue): JsValue
  {
    if !v.Arr? then v
    else if |v.items| == 0 || v.items[0].Hole? then Undefined
    else v.items[0]
  }

  /** `Float.normalize`: unwrap an array, then accept only a number that is not NaN. */
  function NormalizeFloat(v: JsValue): Result<JsValue, UniformError>
  {
    var val := FirstOf(v);
    if !(val.Num? || val.NaN?) then Failure(TypeError)
    else if val.NaN? then Failure(TypeError)
    else Success(val)
  }

  function Arity(kind: UniformKind): nat
    requires kind.Vec2? || kind.Vec3?
  {
    if kind.Vec2? then 2 else 3
  }

  /** The `normalize` a uniform of the given kind runs. */
  function Normalize(kind: UniformKind, v: JsValue): Result<JsValue, UniformError>
  {
    match kind
    case Base => Failure(SyntaxError)
    case Vec4 => Failure(NotInstantiated)
    case Float => NormalizeFloat(v)
    case Vec2 => NormalizeVec(2, v)
    case Vec3 => NormalizeVec(3, v)
  }

  /** The values a uniform of each kind can hold once a value has been accepted. */
  predicate Accepted(kind: UniformKind, w: JsValue)
  {
    match kind
    case Float => w.Num?
    case Vec2 => w.Arr? && |w.items| == 2 && PresentNumbers(w.items)
    case Vec3 => w.Arr? && |w.items| == 3 && PresentNumbers(w.items)
    case _ => false
  }

  /**
   * A vector value is accepted exactly when it is an array with at least n
   * slots whose first n are numbers or empty, and what is kept is those n,
   * holes included.
   */
  lemma NormalizeVecAccepts(n: nat, v: JsValue)
    ensures NormalizeVec(n, v).Success? <==> v.Arr? && |v.items| >= n && PresentNumbers(v.items[..n])
    ensures NormalizeVec(n, v).Success? ==> NormalizeVec(n, v).value == Arr(v.items[..n])
    ensures NormalizeVec(n, v).Failure? ==> NormalizeVec(n, v).error == TypeError
  {
  }

  /**
   * A float value is accepted exactly when it, or the first element of the
   * array it is, is a number other than NaN; that number is what is kept.
   */
  lemma NormalizeFloatAccepts(v: JsValue)
    ensures NormalizeFloat(v).Success? <==> FirstOf(v).Num?
    ensures NormalizeFloat(v).Success? ==> NormalizeFloat(v).value == FirstOf(v)
    ensures NormalizeFloat(Arr([])).Failure? && NormalizeFloat(NaN).Failure?
    ensures NormalizeFloat(Arr([NaN])).Failure? && NormalizeFloat(Other).Failure?
  {
  }

  /** Whatever `normalize` accepts has the shape of its kind: one number, or exactly 2 or 3 slots, each a number or empty. */
  lemma NormalizeShape(kind: UniformKind, v: JsValue)
    ensures Normalize(kind, v).Success? ==> Accepted(kind, Normalize(kind, v).value)
    ensures (kind.Base? || kind.Vec4?) ==> Normalize(kind, v).Failure?
  {
    if kind.Vec2? || kind.Vec3? {
      NormalizeVecAccepts(Arity(kind), v);
    }
  }

  /** An accepted value passes `normalize` again unchanged. */
  lemma NormalizeAcceptedIsIdentity(kind: UniformKind, w: JsValue)
    requires Accepted(kind, w)
    ensures Normalize(kind, w) == Success(w)
  {
    if kind.Vec2? || kind.Vec3? {
      assert w.items[..MinNat(Arity(kind), |w.items|)] == w.items;
    }
  }

  /** Normalising is idempotent. */
  lemma NormalizeIdempotent(kind: UniformKind, v: JsValue)
    requires Normalize(kind, v).Success?
    ensures Normalize(kind, Normalize(kind, v).value) == Normalize(kind, v)
  {
    NormalizeShape(kind, v);
    NormalizeAcceptedIsIdentity(kind, Normalize(kind, v).value);
  }

  /** `values.flat(Infinity)`: every nested array spliced in place, recursively; empty slots are skipped. */
  function Flatten(values: seq<JsValue>): (r: seq<JsValue>)
    ensures forall i :: 0 <= i < |r| ==> !r[i].Arr? && !r[i].Hole?
    decreases values
  {
    if |values| == 0 then []
    else
      var head :=
        if values[0].Arr? then Flatten(values[0].items)
        else if values[0].Hole? then []
        else [values[0]];
      head + Flatten(values[1..])
  }

  /** Flattening distributes over concatenation. */
  lemma {:induction false} FlattenAppend(a: seq<JsValue>, b: seq<JsValue>)
    ensures Flatten(a + b) == Flatten(a) + Flatten(b)
    decreases |a|
  {
    if |a| > 0 {
      assert (a + b)[0] == a[0];
      assert (a + b)[1..] == a[1..] + b;
      FlattenAppend(a[1..], b);
    } else {
      assert a + b == b;
    }
  }

  /**
   * A nested array is spliced in place as its own flattening, and a hole
   * contributes nothing; with FlattenAppend and FlattenFlat this fixes
   * `Flatten` on every input, order included.
   */
  lemma FlattenNested(items: seq<JsValue>)
    ensures Flatten([Arr(items)]) == Flatten(items)
    ensures Flatten([Hole]) == []
  {
    assert [Arr(items)][1..] == [];
    assert [Hole][1..] == [];
  }

  /** A sequence with no arrays and no holes in it is left as it is. */
  lemma {:induction false} FlattenFlat(values: seq<JsValue>)
    requires forall i :: 0 <= i < |values| ==> !values[i].Arr? && !values[i].Hole?
    ensures Flatten(values) == values
    decreases |values|
  {
    if |values| > 0 {
      FlattenFlat(values[1..]);
    }
  }

  /** Flattening twice is flattening once. */
  lemma FlattenTwice(values: seq<JsValue>)
    ensures Flatten(Flatten(values)) == Flatten(values)
  {
    FlattenFlat(Flatten(values));
  }

  /** A uniform: a fixed name and kind, and the last accepted value. */
  class Uniform {
    const name: string
    const kind: UniformKind
    var value: JsValue

    /** `new Vec2(name)` and the like: the value starts out undefined. */
    constructor(name: string, kind: UniformKind)
      ensures this.name == name && this.kind == kind && value == Undefined
    {
      this.name := name;
      this.kind := kind;
      value := Undefined;
    }

    /** The `value` setter: store the normalised value, or throw and keep the old one. */
    method SetValue(v: JsValue) returns (r: Outcome<UniformError>)
      modifies this
      ensures Normalize(kind, v).Success? ==> r == Pass && value == Normalize(kind, v).value
      ensures Normalize(kind, v).Failure? ==> r == Fail(Normalize(kind, v).error) && value == old(value)
      ensures r.Pass? ==> Accepted(kind, value)
    {
      var n := Normalize(kind, v);
      NormalizeShape(kind, v);
      if n.Failure? {
        return Fail(n.error);
      }
      value := n.value;
      return Pass;
    }

    /** `assign(...values)`: flatten the arguments, set them as the value, and return the uniform itself. */
    method Assign(values: seq<JsValue>) returns (r: Outcome<UniformError>, self: Uniform)
      modifies this
      ensures self == this
      ensures Normalize(kind, Arr(Flatten(values))).Success? ==>
        r == Pass && value == Normalize(kind, Arr(Flatten(values))).value
      ensures Normalize(kind, Arr(Flatten(values))).Failure? ==>
        r == Fail(Normalize(kind, Arr(Flatten(values))).error) && value == old(value)
      ensures r.Pass? ==> Accepted(kind, value)
    {
      r := SetValue(Arr(Flatten(values)));
      self := this;
    }
  }

  /** `assign(1, [2, [3]])` on a Vec2 keeps 1 and 2; on a Float, 1; `assign()` on a Float fails. */
  lemma AssignExamples()
    ensures var args := [Num(1.0), Arr([Num(2.0), Arr([Num(3.0)])])];
      && Flatten(args) == [Num(1.0), Num(2.0), Num(3.0)]
      && Normalize(Vec2, Arr(Flatten(args))) == Success(Arr([Num(1.0), Num(2.0)]))
      && Normalize(Float, Arr(Flatten(args))) == Success(Num(1.0))
      && Normalize(Vec3, Arr(Flatten([Num(1.0), NaN, Num(3.0)]))).Failure?
      && Normalize(Float, Arr(Flatten([]))).Failure?
  {
    var args := [Num(1.0), Arr([Num(2.0), Arr([Num(3.0)])])];
    assert Flatten([Num(3.0)]) == [Num(3.0)];
    assert Flatten([Arr([Num(3.0)])]) == [Num(3.0)];
    assert Flatten([Num(2.0), Arr([Num(3.0)])]) == [Num(2.0), Num(3.0)];
    assert Flatten(args[1..]) == [Num(2.0), Num(3.0)];
    assert Flatten([Num(1.0), NaN, Num(3.0)]) == [Num(1.0), NaN, Num(3.0)] by {
      FlattenFlat([Num(1.0), NaN, Num(3.0)]);
    }
    var three := [Num(1.0), Num(2.0), Num(3.0)];
    assert three[..2] == [Num(1.0), Num(2.0)];
  }

  /**
   * A hole passes the setter of a vector, since `some` skips it, and is
   * stored; `assign` never passes one on, since `flat` skips it too.
   */
  lemma HoleExamples()
    ensures Normalize(Vec3, Arr([Num(1.0), Hole, Num(3.0)])) == Success(Arr([Num(1.0), Hole, Num(3.0)]))
    ensures Flatten([Num(1.0), Arr([Hole, Num(3.0)])]) == [Num(1.0), Num(3.0)]
    ensures Normalize(Vec3, Arr(Flatten([Num(1.0), Arr([Hole, Num(3.0)])]))).Failure?
    ensures Normalize(Float, Arr([Hole, Num(1.0)])).Failure?
  {
    var v := [Num(1.0), Hole, Num(3.0)];
    assert v[..MinNat(3, |v|)] == v;
    assert Flatten([Num(3.0)]) == [Num(3.0)];
    assert [Hole, Num(3.0)][1..] == [Num(3.0)];
    assert Flatten([Hole, Num(3.0)]) == [Num(3.0)];
    assert [Num(1.0), Arr([Hole, Num(3.0)])][1..] == [Arr([Hole, Num(3.0)])];
    assert Flatten([Arr([Hole, Num(3.0)])]) == [Num(3.0)];
  }
}
