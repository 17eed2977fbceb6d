/**
 * Vertex attribute metadata and buffer packing (lib/Attribute.js).
 *
 * An `Attribute` is created once from a (type, name, meta) triple, validated
 * by `ParseConfig`, and then `assign`ed whole data buffers.  `Synthesis`
 * packs the byte buffers of several attributes into one buffer at running
 * offsets and returns, instead of calling the rendering context, the bytes to
 * upload, one vertex pointer per attribute and the shared vertex count.
 */
module Attributes {
  import opened Wrappers

  /** The errors the source throws: `new TypeError`, `new Error(message)`, and the RangeError of `TypedArray.prototype.set`. */
  datatype AttrError = TypeError | Error(message: string) | RangeError

  /** `PANIC` message for reading `data` before any `assign`. */
  const DataNotInitialized := Error("data not initialized")
  /** `throw new Error` of the abstract `unitSize` getter of the base class. */
  const NoUnitSize := Error("")

  /**
   * One byte of a buffer.  Bytes given directly are `Bits`; a 32-bit float
   * element is four `Float32Part` bytes, part p standing for byte p of the
   * element's IEEE-754 encoding, which is not computed here.
   */
  datatype Byte = Bits(b: bv8) | Float32Part(value: real, part: nat)

  /** A fresh `Uint8Array` is filled with zero bytes. */
  const Zero := Bits(0)

  datatype ElemType = INT | BOOL | FLOAT

  /** The `type` argument: omitted (its default 'FLOAT' applies), a string, or any other value. */
  datatype TypeArg = TypeOmitted | TypeText(text: string) | TypeNonString

  /** The `name` argument: a string, or any other value. */
  datatype NameArg = NameText(text: string) | NameNonString

  /**
   * The `meta` argument: a number (meaning `{size: meta}`), an object whose
   * fields may each be missing (null or undefined), or any other value, whose
   * fields are all missing.
   */
  datatype MetaArg =
    | MetaNumber(n: int)
    | MetaRecord(size: Option<int>, normalize: Option<bool>, stride: Option<int>, offset: Option<int>)
    | MetaOther

  /** The validated, private fields the constructor sets. */
  datatype Config = Config(name: string, elemType: ElemType, size: int, normalize: bool,
                           stride: Option<int>, offset: int)

  /** Which class the object was constructed as: the base `Attribute` or `Float32Attribute`. */
  datatype Kind = Base | Float32

  function UpperChar(c: char): char
  {
    if 'a' <= c <= 'z' then (c as int - 32) as char else c
  }

  /** `String.prototype.toUpperCase` on ASCII letters. */
  function Upper(s: string): string
  {
    seq(|s|, i requires 0 <= i < |s| => UpperChar(s[i]))
  }

  /** The accepted type names. */
  function ElemTypeOf(t: string): Option<ElemType>
  {
    if t == "INT" then Some(INT)
    else if t == "BOOL" then Some(BOOL)
    else if t == "FLOAT" then Some(FLOAT)
    else None
  }

  /** The type string after the default and upper-casing, when the argument is a string. */
  function TypeName(typeArg: TypeArg): Option<string>
  {
    match typeArg
    case TypeOmitted => Some("FLOAT")
    case TypeText(t) => Some(Upper(t))
    case TypeNonString => None
  }

  /** The fields `meta` destructures into; a number means `{size: meta}`. */
  function MetaFields(meta: MetaArg): (Option<int>, Option<bool>, Option<int>, Option<int>)
  {
    match meta
    case MetaNumber(n) => (Some(n), None, None, None)
    case MetaRecord(size, normalize, stride, offset) => (size, normalize, stride, offset)
    case MetaOther => (None, None, None, None)
  }

  /** The constructor's checks, in the source's order, and the defaults it fills. */
  function ParseConfig(typeArg: TypeArg, nameArg: NameArg, meta: MetaArg): Result<Config, AttrError>
  {
    if !nameArg.NameText? || nameArg.text == "" then Failure(TypeError)
    else if TypeName(typeArg).None? then Failure(TypeError)
    else
      var t := TypeName(typeArg).value;
      if ElemTypeOf(t).None? then Failure(Error("Unsupported type: " + t))
      else
        var (size, normalize, stride, offset) := MetaFields(meta);
        if size.None? then Failure(Error("Attribute size not defined"))
        else Success(Config(nameArg.text, ElemTypeOf(t).value, size.value,
                            if normalize.Some? then normalize.value else false,
                            stride,
                            if offset.Some? then offset.value else 0))
  }

  /**
   * Construction succeeds exactly when the name is a non-empty string, the
   * upper-cased type is INT, BOOL or FLOAT, and a size is given.
   */
  lemma ParseConfigAccepts(typeArg: TypeArg, nameArg: NameArg, meta: MetaArg)
    ensures ParseConfig(typeArg, nameArg, meta).Success?
        <==> && nameArg.NameText? && nameArg.text != ""
             && TypeName(typeArg).Some? && TypeName(typeArg).value in {"INT", "BOOL", "FLOAT"}
             && MetaFields(meta).0.Some?
  {
  }

  /** A bad name is reported before a bad type, and a bad type before a missing size. */
  lemma ParseConfigErrorOrder(typeArg: TypeArg, nameArg: NameArg, meta: MetaArg)
    ensures !nameArg.NameText? || nameArg.text == "" ==> ParseConfig(typeArg, nameArg, meta) == Failure(TypeError)
    ensures nameArg.NameText? && nameArg.text != "" && typeArg.TypeNonString?
            ==> ParseConfig(typeArg, nameArg, meta) == Failure(TypeError)
    ensures nameArg.NameText? && nameArg.text != "" && typeArg.TypeText?
            && Upper(typeArg.text) !in {"INT", "BOOL", "FLOAT"}
            ==> ParseConfig(typeArg, nameArg, meta) == Failure(Error("Unsupported type: " + Upper(typeArg.text)))
  {
  }

  /**
   * On success the name is kept, the type is the upper-cased one, a numeric
   * meta is the size, `normalize` defaults to false and `offset` to 0.
   */
  lemma ParseConfigDefaults(typeArg: TypeArg, name: string, meta: MetaArg)
    requires ParseConfig(typeArg, NameText(name), meta).Success?
    ensures var c := ParseConfig(typeArg, NameText(name), meta).value;
      && c.name == name
      && Some(c.elemType) == ElemTypeOf(TypeName(typeArg).value)
      && (meta.MetaNumber? ==> c.size == meta.n && !c.normalize && c.stride.None? && c.offset == 0)
      && (meta.MetaRecord? ==> c.size == meta.size.value
                               && c.normalize == (meta.normalize == Some(true))
                               && c.stride == meta.stride
                               && c.offset == (if meta.offset.Some? then meta.offset.value else 0))
  {
  }

  lemma {:induction false} UpperIdempotent(s: string)
    ensures Upper(Upper(s)) == Upper(s)
  {
    forall i | 0 <= i < |s| ensures UpperChar(UpperChar(s[i])) == UpperChar(s[i]) {
    }
  }

  /** The type name is matched case-insensitively: "float" and "FLOAT" configure the same attribute. */
  lemma ParseConfigCaseInsensitive(t: string, nameArg: NameArg, meta: MetaArg)
    ensures ParseConfig(TypeText(t), nameArg, meta) == ParseConfig(TypeText(Upper(t)), nameArg, meta)
  {
    UpperIdempotent(t);
  }

  /** `x | 0`: ECMAScript ToInt32 of an integral value. */
  function ToInt32(x: int): (r: int)
    ensures -0x8000_0000 <= r < 0x8000_0000
    ensures (r - x) % 0x1_0000_0000 == 0
  {
    var m := x % 0x1_0000_0000;
    if m >= 0x8000_0000 then m - 0x1_0000_0000 else m
  }

  /**
   * `(byteLength / stride) | 0`: the quotient truncated toward zero, then
   * wrapped to 32 bits; division by 0 gives Infinity or NaN, both 0 here.
   */
  function CountOf(byteLength: nat, stride: int): int
  {
    if stride == 0 then 0
    else if stride > 0 then ToInt32(byteLength / stride)
    else ToInt32(-(byteLength / -stride))
  }

  /** A snapshot of an attribute object: its class, its fixed fields and its data. */
  datatype AttrState = AttrState(kind: Kind, config: Config, data: Option<seq<Byte>>)
  {
    /** `unitSize`: 4 bytes for `Float32Attribute`; the base class throws. */
    function UnitSize(): Result<int, AttrError>
    {
      if kind == Float32 then Success(4) else Failure(NoUnitSize)
    }

    /** `stride`: the declared stride when it is set and non-zero, otherwise `size * unitSize`. */
    function Stride(): Result<int, AttrError>
    {
      if config.stride.Some? && config.stride.value != 0 then Success(config.stride.value)
      else match UnitSize()
        case Success(u) => Success(config.size * u)
        case Failure(e) => Failure(e)
    }

    /** `data`: throws until data has been assigned. */
    function Data(): Result<seq<Byte>, AttrError>
    {
      if data.Some? then Success(data.value) else Failure(DataNotInitialized)
    }

    /** `count`: reads the buffer first, then the stride. */
    function Count(): Result<int, AttrError>
    {
      match Data()
      case Failure(e) => Failure(e)
      case Success(bytes) =>
        match Stride()
        case Failure(e) => Failure(e)
        case Success(stride) => Success(CountOf(|bytes|, stride))
    }
  }

  /** The effective stride of a `Float32Attribute` without a declared stride is four bytes per component. */
  lemma Float32Stride(st: AttrState)
    requires st.kind == Float32
    ensures st.Stride().Success?
    ensures st.config.stride.None? || st.config.stride == Some(0) ==> st.Stride().value == 4 * st.config.size
    ensures st.config.stride.Some? && st.config.stride.value != 0 ==> st.Stride().value == st.config.stride.value
  {
  }

  /** Reading `count` before any `assign` throws; so does a base-class attribute without a declared stride. */
  lemma CountErrors(st: AttrState)
    ensures st.data.None? ==> st.Count() == Failure(DataNotInitialized)
    ensures st.data.Some? && st.kind == Base && (st.config.stride.None? || st.config.stride == Some(0))
            ==> st.Count() == Failure(NoUnitSize)
  {
  }

  /** For a buffer under 2 GiB and a positive stride, `count` is the floor of byteLength / stride. */
  lemma CountIsQuotient(byteLength: nat, stride: int)
    requires 0 < stride && byteLength < 0x8000_0000
    ensures CountOf(byteLength, stride) == byteLength / stride
    ensures CountOf(byteLength, stride) * stride <= byteLength < (CountOf(byteLength, stride) + 1) * stride
  {
    DivBound(byteLength, stride);
  }

  lemma DivBound(a: nat, b: int)
    requires 0 < b
    ensures 0 <= a / b <= a
    ensures (a / b) * b <= a < (a / b + 1) * b
  {
    var q, r := a / b, a % b;
    assert a == q * b + r && 0 <= r < b;
    if q < 0 {
      MulLe(q, -1, b);
    }
    MulLe(1, b, q);
    assert (q + 1) * b == q * b + b;
  }

  lemma MulLe(x: int, y: int, c: int)
    requires x <= y && 0 <= c
    ensures x * c <= y * c
  {
    assert y * c - x * c == (y - x) * c;
  }

  /** The bytes of `new Float32Array(values)`: four per element, in order. */
  function Float32Bytes(values: seq<real>): (bytes: seq<Byte>)
    ensures |bytes| == 4 * |values|
  {
    seq(4 * |values|, i requires 0 <= i < 4 * |values| => Float32Part(values[i / 4], i % 4))
  }

  /** Reading the elements back from their bytes. */
  function Float32Values(bytes: seq<Byte>): seq<real>
  {
    seq(|bytes| / 4, k requires 0 <= k < |bytes| / 4 =>
      match bytes[4 * k]
      case Float32Part(v, _) => v
      case Bits(_) => 0.0)
  }

  /** The stored bytes give back the assigned values. */
  lemma Float32RoundTrip(values: seq<real>)
    ensures Float32Values(Float32Bytes(values)) == values
  {
    var bytes := Float32Bytes(values);
    assert |bytes| / 4 == |values|;
    forall k | 0 <= k < |values| ensures Float32Values(bytes)[k] == values[k] {
      assert (4 * k) / 4 == k;
    }
  }

  /**
   * A `Float32Attribute` without a declared stride, holding n values of size
   * `size`, counts n / size vertices.
   */
  lemma Float32Count(st: AttrState, values: seq<real>)
    requires st.kind == Float32 && st.config.stride.None? && st.config.size > 0
    requires st.data == Some(Float32Bytes(values)) && 4 * |values| < 0x8000_0000
    ensures st.Count() == Success(|values| / st.config.size)
  {
    var n, s := |values|, st.config.size;
    CountIsQuotient(4 * n, 4 * s);
    QuotientScale(n, s);
  }

  lemma QuotientScale(n: nat, s: int)
    requires s > 0
    ensures (4 * n) / (4 * s) == n / s
  {
    var q, r := n / s, n % s;
    assert n == q * s + r && 0 <= r < s;
    assert 4 * n == q * (4 * s) + 4 * r;
    assert 0 <= 4 * r < 4 * s;
    DivUnique(4 * n, 4 * s, q, 4 * r);
  }

  lemma DivUnique(a: int, b: int, q: int, r: int)
    requires b > 0 && a == q * b + r && 0 <= r < b
    ensures a / b == q
  {
    var q', r' := a / b, a % b;
    assert a == q' * b + r' && 0 <= r' < b;
    if q' < q {
      assert (q - 1) * b == q * b - b;
      MulLe(q', q - 1, b);
    } else if q' > q {
      assert (q + 1) * b == q * b + b;
      MulLe(q + 1, q', b);
    }
  }

  /** The argument of `Float32Attribute.assign`: any iterable of numbers, or a value that is not iterable. */
  datatype Float32Input = Iterable(values: seq<real>) | NotIterable

  /** An attribute object; only `data` changes after construction. */
  class Attribute {
    const kind: Kind
    const config: Config
    var data: Option<seq<Byte>>

    function State(): AttrState
      reads this
    {
      AttrState(kind, config, data)
    }

    constructor (kind: Kind, config: Config)
      ensures this.kind == kind && this.config == config && data.None?
    {
      this.kind := kind;
      this.config := config;
      data := None;
    }

    /** `assign(data)`: replaces the whole data reference, even with nothing, and returns the attribute itself. */
    method Assign(newData: Option<seq<Byte>>) returns (self: Attribute)
      modifies this
      ensures data == newData
      ensures self == this
    {
      data := newData;
      self := this;
    }

    /** `Float32Attribute.assign(data)`: rejects a non-iterable, otherwise stores the values as 32-bit floats. */
    method AssignFloat32(input: Float32Input) returns (r: Outcome<AttrError>)
      requires kind == Float32
      modifies this
      ensures input.NotIterable? ==> r == Fail(TypeError) && data == old(data)
      ensures input.Iterable? ==> r == Pass && data == Some(Float32Bytes(input.values))
    {
      if input.NotIterable? {
        return Fail(TypeError);
      }
      var _ := Assign(Some(Float32Bytes(input.values)));
      r := Pass;
    }
  }

  /** `new Attribute(type, name, meta)`. */
  method NewAttribute(typeArg: TypeArg, nameArg: NameArg, meta: MetaArg) returns (r: Result<Attribute, AttrError>)
    ensures ParseConfig(typeArg, nameArg, meta).Failure? ==> r == Failure(ParseConfig(typeArg, nameArg, meta).error)
    ensures ParseConfig(typeArg, nameArg, meta).Success? ==>
      && r.Success? && fresh(r.value)
      && r.value.State() == AttrState(Base, ParseConfig(typeArg, nameArg, meta).value, None)
  {
    match ParseConfig(typeArg, nameArg, meta)
    case Failure(e) =>
      r := Failure(e);
    case Success(config) =>
      var a := new Attribute(Base, config);
      r := Success(a);
  }

  /** `new Float32Attribute(name, meta)`: the base constructor with type 'FLOAT'. */
  method NewFloat32Attribute(nameArg: NameArg, meta: MetaArg) returns (r: Result<Attribute, AttrError>)
    ensures ParseConfig(TypeText("FLOAT"), nameArg, meta).Failure? ==> r == Failure(ParseConfig(TypeText("FLOAT"), nameArg, meta).error)
    ensures ParseConfig(TypeText("FLOAT"), nameArg, meta).Success? ==>
      && r.Success? && fresh(r.value)
      && r.value.State() == AttrState(Float32, ParseConfig(TypeText("FLOAT"), nameArg, meta).value, None)
  {
    match ParseConfig(TypeText("FLOAT"), nameArg, meta)
    case Failure(e) =>
      r := Failure(e);
    case Success(config) =>
      var a := new Attribute(Float32, config);
      r := Success(a);
  }

  /** One element of the array given to `synthesis`. */
  datatype Entry = AttributeEntry(attr: Attribute) | OtherEntry

  /** The argument of `synthesis`: an array, or any other value. */
  datatype Params = ArrayParams(entries: seq<Entry>) | NonArrayParams

  /** `params.filter(el => el instanceof Attribute)`: the attributes, in their order. */
  function AttributesOf(entries: seq<Entry>): (attrs: seq<Attribute>)
    ensures |attrs| <= |entries|
    ensures forall i :: 0 <= i < |attrs| ==> AttributeEntry(attrs[i]) in entries
    ensures forall i :: 0 <= i < |entries| && entries[i].AttributeEntry? ==> entries[i].attr in attrs
  {
    if |entries| == 0 then []
    else (if entries[0].AttributeEntry? then [entries[0].attr] else []) + AttributesOf(entries[1..])
  }

  /**
   * The filter keeps order and multiplicity: filtering two arrays one after
   * the other is filtering each and concatenating.
   */
  lemma {:induction false} AttributesAppend(x: seq<Entry>, y: seq<Entry>)
    ensures AttributesOf(x + y) == AttributesOf(x) + AttributesOf(y)
    decreases |x|
  {
    if |x| == 0 {
      assert x + y == y;
    } else {
      assert (x + y)[0] == x[0];
      assert (x + y)[1..] == x[1..] + y;
      AttributesAppend(x[1..], y);
    }
  }

  /** One attribute entry is kept as itself, any other entry is dropped. */
  lemma AttributesSingle(a: Attribute)
    ensures AttributesOf([AttributeEntry(a)]) == [a]
    ensures AttributesOf([OtherEntry]) == []
  {
    assert [AttributeEntry(a)][1..] == [];
    assert [OtherEntry][1..] == [];
  }

  function Objects(attrs: seq<Attribute>): set<Attribute>
  {
    set i | 0 <= i < |attrs| :: attrs[i]
  }

  function States(attrs: seq<Attribute>): (states: seq<AttrState>)
    reads Objects(attrs)
    ensures |states| == |attrs|
    ensures forall i :: 0 <= i < |attrs| ==> states[i] == attrs[i].State()
  {
    if |attrs| == 0 then [] else States(attrs[..|attrs| - 1]) + [attrs[|attrs| - 1].State()]
  }

  /** What `synthesis` sees of its argument: not an array, or the states of its attributes. */
  datatype ParamView = NonArray | AttrStates(states: seq<AttrState>)

  function AttributeObjects(params: Params): set<Attribute>
  {
    if params.ArrayParams? then Objects(AttributesOf(params.entries)) else {}
  }

  function View(params: Params): ParamView
    reads AttributeObjects(params)
  {
    if params.NonArrayParams? then NonArray else AttrStates(States(AttributesOf(params.entries)))
  }

  /** The arguments `setupPointer` passes to `vertexAttribPointer`; the location lookup is left to the context. */
  datatype Pointer = Pointer(name: string, size: int, elemType: ElemType, normalize: bool, stride: int, offset: int)

  /** What `synthesis` hands to the context: the buffer it uploads (if any), the pointers and the vertex count. */
  datatype Upload = Upload(buffer: Option<seq<Byte>>, pointers: seq<Pointer>, count: int)

  function PointerAt(st: AttrState, globalOffset: int): Pointer
    requires st.Stride().Success?
  {
    Pointer(st.config.name, st.config.size, st.config.elemType, st.config.normalize,
            st.Stride().value, st.config.offset + globalOffset)
  }

  /** `apply`: upload the attribute's own buffer, point at global offset 0, return its count. */
  function Apply(st: AttrState): Result<Upload, AttrError>
  {
    if st.data.None? then Failure(DataNotInitialized)
    else if st.Stride().Failure? then Failure(st.Stride().error)
    else Success(Upload(Some(st.data.value), [PointerAt(st, 0)], st.Count().value))
  }

  predicate AllInitialized(states: seq<AttrState>)
  {
    forall i :: 0 <= i < |states| ==> states[i].data.Some?
  }

  predicate AllReady(states: seq<AttrState>)
  {
    forall i :: 0 <= i < |states| ==> states[i].data.Some? && states[i].Stride().Success?
  }

  /** The running offset after the given attributes: the sum of their byte lengths. */
  function SumLengths(states: seq<AttrState>): nat
    requires AllInitialized(states)
  {
    if |states| == 0 then 0
    else SumLengths(states[..|states| - 1]) + |states[|states| - 1].data.value|
  }

  /** The attributes' bytes one after the other. */
  function Packed(states: seq<AttrState>): seq<Byte>
    requires AllInitialized(states)
  {
    if |states| == 0 then []
    else Packed(states[..|states| - 1]) + states[|states| - 1].data.value
  }

  /** Each attribute's pointer, offset by the bytes packed before it. */
  function Pointers(states: seq<AttrState>): seq<Pointer>
    requires AllReady(states)
  {
    if |states| == 0 then []
    else Pointers(states[..|states| - 1]) + [PointerAt(states[|states| - 1], SumLengths(states[..|states| - 1]))]
  }

  function Min(a: int, b: int): int { if a <= b then a else b }

  /** `Math.min` over the attributes' counts. */
  function MinCount(states: seq<AttrState>): int
    requires |states| > 0 && AllReady(states)
  {
    var c := states[|states| - 1].Count().value;
    if |states| == 1 then c else Min(MinCount(states[..|states| - 1]), c)
  }

  /**
   * `synthesis(ctx, program, params)`, with the uploaded bytes and pointers
   * returned instead of passed to the context.
   */
  function Synthesize(p: ParamView): Result<Upload, AttrError>
  {
    match p
    case NonArray => Failure(TypeError)
    case AttrStates(states) =>
      if |states| == 0 then Success(Upload(None, [], 0))
      else if |states| == 1 then Apply(states[0])
      else if !AllInitialized(states) then Failure(DataNotInitialized)
      else if !AllReady(states) then Failure(NoUnitSize)
      else Success(Upload(Some(Packed(states)), Pointers(states), MinCount(states)))
  }

  /**
   * A non-array is rejected, no attributes count 0 vertices and upload
   * nothing, and a single attribute is used as it is: its own buffer, its own
   * offset and its own count.
   */
  lemma SynthesisEdgeCases(st: AttrState)
    ensures Synthesize(NonArray) == Failure(TypeError)
    ensures Synthesize(AttrStates([])) == Success(Upload(None, [], 0))
    ensures st.data.Some? && st.Stride().Success? ==>
      && Synthesize(AttrStates([st])).Success?
      && Synthesize(AttrStates([st])).value.buffer == st.data
      && |Synthesize(AttrStates([st])).value.pointers| == 1
      && Synthesize(AttrStates([st])).value.pointers[0].offset == st.config.offset
      && Success(Synthesize(AttrStates([st])).value.count) == st.Count()
    ensures st.data.None? ==> Synthesize(AttrStates([st])) == Failure(DataNotInitialized)
  {
  }

  lemma {:induction false} SumLengthsPrefix(states: seq<AttrState>, k: nat)
    requires AllInitialized(states) && k <= |states|
    ensures AllInitialized(states[..k])
    ensures SumLengths(states[..k]) <= SumLengths(states)
  {
    if k < |states| {
      assert states[..|states| - 1][..k] == states[..k];
      SumLengthsPrefix(states[..|states| - 1], k);
    } else {
      assert states[..k] == states;
    }
  }

  /**
   * The packed buffer is as long as all the attributes' buffers together, and
   * attribute k's bytes sit at the sum of the lengths before it.
   */
  lemma {:induction false} PackedLayout(states: seq<AttrState>, k: nat, j: nat)
    requires AllInitialized(states) && k < |states| && j < |states[k].data.value|
    ensures |Packed(states)| == SumLengths(states)
    ensures AllInitialized(states[..k])
    ensures SumLengths(states[..k]) + j < |Packed(states)|
    ensures Packed(states)[SumLengths(states[..k]) + j] == states[k].data.value[j]
  {
    var n := |states|;
    var init := states[..n - 1];
    PackedLength(states);
    PackedLength(init);
    if k < n - 1 {
      assert init[..k] == states[..k];
      PackedLayout(init, k, j);
    } else {
      assert states[..k] == init;
    }
  }

  lemma {:induction false} PackedLength(states: seq<AttrState>)
    requires AllInitialized(states)
    ensures |Packed(states)| == SumLengths(states)
  {
    if |states| > 0 {
      PackedLength(states[..|states| - 1]);
    }
  }

  /**
   * Attribute k gets one pointer, at its own offset plus the bytes packed
   * before it, with its own name, size, type, normalize flag and stride.
   */
  lemma {:induction false} PointerOffsets(states: seq<AttrState>, k: nat)
    requires AllReady(states) && k < |states|
    ensures |Pointers(states)| == |states|
    ensures AllInitialized(states[..k])
    ensures Pointers(states)[k] == PointerAt(states[k], SumLengths(states[..k]))
    ensures Pointers(states)[k].offset == states[k].config.offset + SumLengths(states[..k])
  {
    var n := |states|;
    var init := states[..n - 1];
    PointersLength(init);
    if k < n - 1 {
      assert init[..k] == states[..k];
      PointerOffsets(init, k);
    } else {
      assert states[..k] == init;
    }
  }

  lemma {:induction false} PointersLength(states: seq<AttrState>)
    requires AllReady(states)
    ensures |Pointers(states)| == |states|
  {
    if |states| > 0 {
      PointersLength(states[..|states| - 1]);
    }
  }

  /** The shared count is the smallest of the attributes' counts. */
  lemma {:induction false} MinCountIsMinimum(states: seq<AttrState>)
    requires |states| > 0 && AllReady(states)
    ensures forall k :: 0 <= k < |states| ==> MinCount(states) <= states[k].Count().value
    ensures exists k :: 0 <= k < |states| && MinCount(states) == states[k].Count().value
  {
    var n := |states|;
    if n > 1 {
      var init := states[..n - 1];
      MinCountIsMinimum(init);
      var k0 :| 0 <= k0 < |init| && MinCount(init) == init[k0].Count().value;
      if MinCount(init) <= states[n - 1].Count().value {
        assert MinCount(states) == states[k0].Count().value;
      } else {
        assert MinCount(states) == states[n - 1].Count().value;
      }
      forall k | 0 <= k < n ensures MinCount(states) <= states[k].Count().value {
        if k < n - 1 {
          assert states[k] == init[k];
        }
      }
    } else {
      assert MinCount(states) == states[0].Count().value;
    }
  }

  /** The source argument of `%TypedArray%.prototype.set`: a typed array, or an ArrayBuffer. */
  datatype SetSource = TypedArraySource(bytes: seq<Byte>) | ArrayBufferSource(bytes: seq<Byte>)

  /**
   * How many elements `set` copies: a typed array's length; any other source
   * is read as an array-like through its `length` property, which an
   * ArrayBuffer does not have, so none.
   */
  function SourceLength(src: SetSource): nat
  {
    if src.TypedArraySource? then |src.bytes| else 0
  }

  /** `target.set(source, offset)` on a Uint8Array, as ECMAScript defines it (section 23.2.3.26 of ECMA-262). */
  function TypedArraySet(target: seq<Byte>, src: SetSource, offset: nat): Result<seq<Byte>, AttrError>
  {
    var n := SourceLength(src);
    if offset + n > |target| then Failure(RangeError)
    else Success(target[..offset] + src.bytes[..n] + target[offset + n..])
  }

  /** `buffer.set(bytes, offset)` with a typed-array source, byte by byte. */
  method SetBytes(buffer: array<Byte>, bytes: seq<Byte>, offset: nat)
    requires offset + |bytes| <= buffer.Length
    modifies buffer
    ensures TypedArraySet(old(buffer[..]), TypedArraySource(bytes), offset) == Success(buffer[..])
  {
    for j := 0 to |bytes|
      invariant forall t :: 0 <= t < buffer.Length ==>
        buffer[t] == if offset <= t < offset + j then bytes[t - offset] else old(buffer[t])
    {
      buffer[offset + j] := bytes[j];
    }
    ghost var target := old(buffer[..]);
    assert buffer[..] == target[..offset] + bytes[..|bytes|] + target[offset + |bytes|..];
  }

  /** The first pass of `synthesis`: every attribute must hold data; sum their byte lengths. */
  method TotalLength(attributes: seq<Attribute>) returns (total: Option<nat>)
    ensures total.Some? <==> AllInitialized(States(attributes))
    ensures total.Some? ==> total.value == SumLengths(States(attributes))
  {
    ghost var states := States(attributes);
    var sum := 0;
    for k := 0 to |attributes|
      invariant AllInitialized(states[..k])
      invariant sum == SumLengths(states[..k])
    {
      if attributes[k].data.None? {
        assert !states[k].data.Some?;
        return None;
      }
      assert states[..k + 1][..k] == states[..k];
      sum := sum + |attributes[k].data.value|;
    }
    assert states[..|attributes|] == states;
    return Some(sum);
  }

  /** One step of the packing loop, unfolded. */
  lemma PackStep(states: seq<AttrState>, k: nat)
    requires k < |states| && AllInitialized(states)
    ensures AllInitialized(states[..k]) && AllInitialized(states[..k + 1])
    ensures SumLengths(states[..k + 1]) == SumLengths(states[..k]) + |states[k].data.value|
    ensures Packed(states[..k + 1]) == Packed(states[..k]) + states[k].data.value
    ensures AllReady(states[..k]) && states[k].Stride().Success? ==>
      && AllReady(states[..k + 1])
      && Pointers(states[..k + 1]) == Pointers(states[..k]) + [PointerAt(states[k], SumLengths(states[..k]))]
      && MinCount(states[..k + 1]) ==
           if k == 0 then states[k].Count().value else Min(MinCount(states[..k]), states[k].Count().value)
  {
    assert states[..k + 1][..k] == states[..k];
  }

  lemma SetPrefix(before: seq<Byte>, bytes: seq<Byte>, offset: nat, after: seq<Byte>)
    requires TypedArraySet(before, TypedArraySource(bytes), offset) == Success(after)
    ensures offset + |bytes| <= |after| == |before|
    ensures after[..offset + |bytes|] == before[..offset] + bytes
  {
    assert after == before[..offset] + bytes + before[offset + |bytes|..];
  }

  lemma NotAllReady(states: seq<AttrState>, k: nat)
    requires k < |states| && states[k].Stride().Failure?
    ensures !AllReady(states)
    ensures states[k].Stride() == Failure(NoUnitSize)
  {
  }

  lemma SliceAll<T>(s: seq<T>)
    ensures s[..|s|] == s
  {
  }

  /**
   * The second pass of `synthesis`: fill one buffer of `total` bytes in
   * place, recording each pointer at the running offset and the running
   * minimum of the counts.
   */
  method Pack(states: seq<AttrState>, total: nat) returns (r: Result<Upload, AttrError>)
    requires |states| > 0 && AllInitialized(states) && total == SumLengths(states)
    ensures AllReady(states) ==> r == Success(Upload(Some(Packed(states)), Pointers(states), MinCount(states)))
    ensures !AllReady(states) ==> r == Failure(NoUnitSize)
  {
    var buffer := new Byte[total](_ => Zero);
    var offset, count := 0, 0;
    var pointers: seq<Pointer> := [];
    for k := 0 to |states|
      invariant AllReady(states[..k])
      invariant offset == SumLengths(states[..k]) <= total
      invariant buffer[..offset] == Packed(states[..k])
      invariant pointers == Pointers(states[..k])
      invariant 0 < k ==> count == MinCount(states[..k])
    {
      var st := states[k];
      var bytes := st.data.value;
      PackStep(states, k);
      SumLengthsPrefix(states, k + 1);
      ghost var before := buffer[..];
      SetBytes(buffer, bytes, offset);
      SetPrefix(before, bytes, offset, buffer[..]);
      if st.Stride().Failure? {
        NotAllReady(states, k);
        return Failure(st.Stride().error);
      }
      pointers := pointers + [PointerAt(st, offset)];
      offset := offset + |bytes|;
      count := if k == 0 then st.Count().value else Min(count, st.Count().value);
    }
    SliceAll(states);
    assert buffer[..] == buffer[..offset];
    r := Success(Upload(Some(buffer[..]), pointers, count));
  }

  /**
   * `synthesis`: filter the attributes, take the fast path for none or one,
   * otherwise size one buffer by a first pass and fill it by a second.
   */
  method Synthesis(params: Params) returns (r: Result<Upload, AttrError>)
    ensures r == Synthesize(View(params))
  {
    if params.NonArrayParams? {
      return Failure(TypeError);
    }
    var attributes := AttributesOf(params.entries);
    var states := States(attributes);
    assert View(params) == AttrStates(states);
    if |attributes| == 0 {
      return Success(Upload(None, [], 0));
    }
    if |attributes| == 1 {
      return Apply(attributes[0].State());
    }
    var total := TotalLength(attributes);
    assert States(attributes) == states;
    if total.None? {
      return Failure(DataNotInitialized);
    }
    r := Pack(states, total.value);
    assert View(params) == AttrStates(states);
  }

  /**
   * The packing loop as written: `buffer.set(attr.buffer, offset)` passes the
   * ArrayBuffer itself, so each step copies nothing.
   */
  function FillAsWritten(buffer: seq<Byte>, states: seq<AttrState>, offset: nat): Result<seq<Byte>, AttrError>
    requires AllInitialized(states)
    decreases |states|
  {
    if |states| == 0 then Success(buffer)
    else
      assert AllInitialized(states[1..]) by {
        forall i | 0 <= i < |states| - 1 ensures states[1..][i].data.Some? {
          assert states[1..][i] == states[i + 1];
        }
      }
      match TypedArraySet(buffer, ArrayBufferSource(states[0].data.value), offset)
      case Failure(e) => Failure(e)
      case Success(next) => FillAsWritten(next, states[1..], offset + |states[0].data.value|)
  }

  function Zeros(n: nat): seq<Byte>
  {
    seq(n, _ => Zero)
  }

  lemma {:induction false} SumLengthsFront(states: seq<AttrState>)
    requires AllInitialized(states) && |states| > 0
    ensures AllInitialized(states[1..])
    ensures SumLengths(states) == |states[0].data.value| + SumLengths(states[1..])
  {
    assert AllInitialized(states[1..]) by {
      forall i | 0 <= i < |states| - 1 ensures states[1..][i].data.Some? {
        assert states[1..][i] == states[i + 1];
      }
    }
    var n := |states|;
    if n > 1 {
      var init := states[..n - 1];
      SumLengthsFront(init);
      assert init[1..] == states[1..][..n - 2];
      assert init[0] == states[0];
    }
  }

  /** However the offsets run, the as-written packing leaves the buffer exactly as it was. */
  lemma {:induction false} FillAsWrittenKeeps(buffer: seq<Byte>, states: seq<AttrState>, offset: nat)
    requires AllInitialized(states) && offset + SumLengths(states) <= |buffer|
    ensures FillAsWritten(buffer, states, offset) == Success(buffer)
    decreases |states|
  {
    if |states| > 0 {
      SumLengthsFront(states);
      assert buffer[..offset] + [] + buffer[offset..] == buffer;
      FillAsWrittenKeeps(buffer, states[1..], offset + |states[0].data.value|);
    }
  }

  /** As written, the packed buffer of any attributes stays all zero bytes. */
  lemma AsWrittenPackIsBlank(states: seq<AttrState>)
    requires AllInitialized(states)
    ensures FillAsWritten(Zeros(SumLengths(states)), states, 0) == Success(Zeros(SumLengths(states)))
  {
    FillAsWrittenKeeps(Zeros(SumLengths(states)), states, 0);
  }

  /** Two attributes of one byte each: the intended buffer holds their bytes, the as-written one only zeros. */
  lemma AsWrittenLosesBytes()
    ensures var c := Config("a", INT, 1, false, Some(1), 0);
      var states := [AttrState(Base, c, Some([Bits(1)])), AttrState(Base, c, Some([Bits(2)]))];
      && AllInitialized(states)
      && Packed(states) == [Bits(1), Bits(2)]
      && FillAsWritten(Zeros(2), states, 0) == Success([Zero, Zero])
      && Packed(states) != Zeros(2)
  {
    var c := Config("a", INT, 1, false, Some(1), 0);
    var states := [AttrState(Base, c, Some([Bits(1)])), AttrState(Base, c, Some([Bits(2)]))];
    assert states[..1] == [states[0]];
    assert states[..1][..0] == [];
    assert SumLengths(states[..1]) == 1;
    assert SumLengths(states) == 2;
    assert Packed(states[..1]) == [Bits(1)];
    AsWrittenPackIsBlank(states);
    assert Zeros(2) == [Zero, Zero];
    assert Packed(states)[0] == Bits(1);
  }
}
