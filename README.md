# WebGL-Playground core, modelled in Dafny

WebGL-Playground draws 2-D shapes with WebGL. Under its WebGL glue sit
five small pieces of logic, and this project models each one and proves
what the code promises about it:

- **Shape streams** (`lib/shapes.js`, module `Shapes` in `shapes.dfy`).
  - `rectangle` and `box` are fixed coordinate sequences (x, y, x, y, …).
  - `close` repeats a shape's first point and its last one, so the triangle strip does not join the next shape. It is a loop over a two-slot buffer, modelled as a method over a Dafny array.
  - `array` repeats the closed shape on an i × j grid. It is nested loops, modelled as a method.
  - `combine` concatenates closed shapes.
- **Vertex attributes** (`lib/Attribute.js`, module `Attributes` in `attribute.dfy`).
  - Construction validates the name, type and size, and fills in defaults.
  - The `stride` and `count` getters are derived values.
  - `assign` replaces the data.
  - `synthesis` packs several attributes' bytes into one byte array at running offsets. It returns the bytes to upload, one vertex pointer per attribute and the shared vertex count, rather than calling the rendering context. The copy of lib/Attribute.js:157 is modelled as corrected (see "## Findings"): as written it copies nothing, and the buffer it uploads is the all-zero one `FillAsWritten` describes.
  - The attribute object is a class. Its `data` field is the only field that changes.
- **Uniform values** (`lib/Uniform.js`, module `Uniforms` in `uniform.dfy`).
  - A uniform stores the value its subclass's `normalize` accepts, and keeps the old value when `normalize` throws.
  - `assign` flattens nested arguments first, which drops the holes of sparse arrays; the setter alone lets a vector with holes through.
- **Wheel gestures** (`lib/gesture.js`, module `Gesture` in `gesture.dfy`).
  - `normalizeScale` maps the unbounded raw scale to a positive zoom factor.
  - `handleGesture` updates a `{x, y, scale}` object in place: it pans without ctrl and zooms about the cursor with it.
  - `Math.exp` is a parameter, constrained to be 1 at 0, positive and strictly increasing.
- **HTML tags** (`lib/tag.js`, module `Tag` in `tag.dfy`). `TAG(type)` is a template-literal tag. It interleaves strings and arguments and wraps the result in `<type>…</type>`.

`wrappers.dfy` holds the `Option`, `Result` and `Outcome` datatypes. A
thrown exception is a `Failure`/`Fail` carrying the error the code throws.

## Model

| member | source | states |
|---|---|---|
| Shapes.Rectangle | lib/shapes.js:12-17 | exactly 8 numbers: the corners (X1,Y1), (X2,Y1), (X1,Y2), (X2,Y2) in that order |
| Shapes.Box | lib/shapes.js:26-63 | exactly 20 numbers (10 points); the first point is (min(X1,X2) + W/2, min(Y1,Y2) + W/2); the last two points repeat the first two |
| Shapes.BoxBorderWidth | lib/shapes.js:38-62 | each of the five inner (B) / outer (A) point pairs is centred on its corner of the normalised rectangle, with the outer point exactly W further out on both axes: X1B−X1A = W, X2A−X2B = W, Y1B−Y1A = W, Y2A−Y2B = W |
| Shapes.BoxSwapInvariant | lib/shapes.js:38-39 | swapping X1 with X2, Y1 with Y2, or both, gives the same output, because the corners are put in order first |
| Shapes.LastOfParity | lib/shapes.js:70-73 | buffer slot 0 (slot 1) holds the last input value at an even (odd) index, or 0 when there is none |
| Shapes.Closed | lib/shapes.js:69-82 | `close(shape)` as a value: the first pair repeated, the shape, then the two buffer slots; what it guarantees is stated by ClosePoints, CloseEnds and CloseEmpty |
| Shapes.Close | lib/shapes.js:69-82 | the loop over the two-slot buffer and the counter produces exactly `Closed(shape)` |
| Shapes.ClosePoints | lib/shapes.js:72-81 | for an even-length input of at least one point: the first pair is repeated right after itself and the last pair once more at the end; the length grows by 4 |
| Shapes.CloseEnds | lib/shapes.js:80-81 | the output always ends with the last even-indexed and the last odd-indexed input values (0 when there is none); length +4, or +2 for fewer than 2 values |
| Shapes.CloseEmpty | lib/shapes.js:69-82 | an empty shape closes to exactly [0, 0] |
| Shapes.EmitCell | lib/shapes.js:106-108 | one cell is the closed shape with the cell offset's x added at even indices and y at odd ones |
| Shapes.Grid | lib/shapes.js:98-110 | the cells of an m × n grid as a value, i outer and j inner; GridLength and GridCell state its length and every element |
| Shapes.Array | lib/shapes.js:91-111 | the nested loops emit `Grid(Closed(shape), …)`: i outer, j inner, nothing for a non-positive count |
| Shapes.GridLength | lib/shapes.js:98-110 | m × n cells emit m·n·\|close(shape)\| numbers, so nothing when m or n is 0 |
| Shapes.GridCell | lib/shapes.js:100-108 | element k of cell (i, j) sits at index (i·n + j)·\|closed\| + k and equals closed[k] plus origin.x + step.x·i (k even) or origin.y + step.y·j (k odd) |
| Shapes.Combine | lib/shapes.js:116-120 | `combine(...shapes)`: the closed shapes one after the other; CombineLength, CombinePiece and CombineAppend state its length, where each shape sits, and its splitting |
| Shapes.CombineLength | lib/shapes.js:116-120 | the output length is the sum of the closed shapes' lengths |
| Shapes.CombinePiece | lib/shapes.js:116-120 | shape k's closed form sits between the combination of the shapes before it and of those after it, in argument order |
| Shapes.CombineAppend | lib/shapes.js:116-120 | combining two argument lists one after the other gives the concatenation of the two combinations |
| Shapes.Examples | lib/shapes.js:12-53 | rectangle(0,0,1,1) is [0,0,1,0,0,1,1,1]; box(0,0,1,1,0.1) starts 0.05, 0.05, -0.05, -0.05, 0.95, 0.05, 1.05, -0.05 |
| Attributes.ParseConfig | lib/Attribute.js:77-100 | the constructor's validation and defaults as a value; ParseConfigAccepts, ParseConfigErrorOrder, ParseConfigDefaults and ParseConfigCaseInsensitive state its behaviour |
| Attributes.ParseConfigAccepts | lib/Attribute.js:77-100 | construction succeeds if and only if the name is a non-empty string, the upper-cased type is INT, BOOL or FLOAT, and a size is given |
| Attributes.ParseConfigErrorOrder | lib/Attribute.js:79-92 | a bad name throws TypeError before the type is examined; a non-string type throws TypeError; an unknown type throws "Unsupported type: T" |
| Attributes.ParseConfigDefaults | lib/Attribute.js:94-99 | a numeric meta is the size; normalize defaults to false and offset to 0; the stride is kept as given |
| Attributes.ParseConfigCaseInsensitive | lib/Attribute.js:82-83 | a type and its upper-cased form configure the same attribute |
| Attributes.NewAttribute | lib/Attribute.js:77-100 | `new Attribute(type, name, meta)` fails with the validation's error, or yields a fresh base attribute with that configuration and no data |
| Attributes.NewFloat32Attribute | lib/Attribute.js:176-178 | `new Float32Attribute(name, meta)` is the base constructor with type 'FLOAT' |
| Attributes.Attribute.constructor | lib/Attribute.js:77-100 | a new attribute has no data |
| Attributes.AttrState.UnitSize | lib/Attribute.js:25 | the base class's `unitSize` throws; a Float32Attribute's is 4 (lib/Attribute.js:177) |
| Attributes.AttrState.Stride | lib/Attribute.js:61 | the declared stride when it is truthy, otherwise size × unitSize; Float32Stride and CountErrors state both cases |
| Attributes.AttrState.Data | lib/Attribute.js:35 | the data, or "data not initialized" before any assign |
| Attributes.AttrState.Count | lib/Attribute.js:37 | reads the data before the stride, then divides the byte length by the stride and truncates to 32 bits; CountErrors, CountIsQuotient and Float32Count state it |
| Attributes.CountOf | lib/Attribute.js:37 | `(byteLength / stride) \| 0`, with a zero stride giving 0; CountIsQuotient states it as the floor quotient |
| Attributes.Float32Stride | lib/Attribute.js:61 | a Float32Attribute's stride is the declared stride when set and non-zero, otherwise 4·size |
| Attributes.CountErrors | lib/Attribute.js:35-37 | reading count before any assign throws "data not initialized"; a base attribute without a stride throws on its unit size |
| Attributes.ToInt32 | lib/Attribute.js:37 | `\| 0` gives a 32-bit signed value congruent to its input modulo 2^32 |
| Attributes.CountIsQuotient | lib/Attribute.js:37 | for a positive stride and a buffer under 2 GiB, count is the whole number of strides in the buffer |
| Attributes.Float32RoundTrip | lib/Attribute.js:179-186 | the bytes stored by `Float32Attribute.assign` give back the assigned values, four bytes each |
| Attributes.Float32Count | lib/Attribute.js:37 | a Float32Attribute without a stride holding v values of size s counts v / s vertices |
| Attributes.Attribute.Assign | lib/Attribute.js:106-109 | the data is replaced whole, even by nothing, and the attribute itself is returned |
| Attributes.Attribute.AssignFloat32 | lib/Attribute.js:179-186 | a non-iterable throws TypeError and leaves the data alone; otherwise the data becomes the values as 32-bit floats |
| Attributes.AttributesOf | lib/Attribute.js:146 | every attribute kept comes from an attribute entry and every attribute entry is kept; AttributesAppend and AttributesSingle add order and multiplicity |
| Attributes.AttributesAppend | lib/Attribute.js:146 | the filter distributes over concatenation, so it keeps the entries' order and multiplicity |
| Attributes.AttributesSingle | lib/Attribute.js:146 | one attribute entry is kept as itself; any other entry is dropped |
| Attributes.PointerAt | lib/Attribute.js:126-134 | `setupPointer`'s arguments as a value: the attribute's name, size, type, normalize flag and stride, at offset + globalOffset; PointerOffsets states them for every packed attribute |
| Attributes.Apply | lib/Attribute.js:115-119 | `apply` as a value: the attribute's own buffer, one pointer at global offset 0, and its count; SynthesisEdgeCases states the one-attribute case through it |
| Attributes.Synthesize | lib/Attribute.js:142-173 | `synthesis` with the line-157 copy corrected, as a value; SynthesisEdgeCases, PackedLayout, PointerOffsets and MinCountIsMinimum state its results |
| Attributes.SynthesisEdgeCases | lib/Attribute.js:144-148 | a non-array throws TypeError; no attributes counts 0 and uploads nothing; one attribute is applied alone: its own buffer, its own offset, its own count |
| Attributes.PackedLayout | lib/Attribute.js:150-161 | the packed buffer is as long as all the attributes' buffers together, and attribute k's bytes start at the sum of the lengths before it |
| Attributes.PointerOffsets | lib/Attribute.js:126-161 | attribute k's pointer carries its own name, size, type, normalize flag and stride, at offset attr.offset plus the bytes before it |
| Attributes.MinCountIsMinimum | lib/Attribute.js:163 | the shared count is the smallest of the attributes' counts |
| Attributes.TotalLength | lib/Attribute.js:151-153 | the first pass fails if and only if some attribute has no data, and otherwise sums the byte lengths |
| Attributes.TypedArraySet | lib/Attribute.js:157 | `%TypedArray%.prototype.set` at an offset: a RangeError when the source does not fit, otherwise the source's elements (none for an ArrayBuffer, which has no length) over the target at the offset |
| Attributes.SetBytes | lib/Attribute.js:157 | copying a typed array into the buffer at an offset writes exactly those bytes there and leaves the rest |
| Attributes.Pack | lib/Attribute.js:154-168 | with the line-157 copy corrected, the second pass fills the buffer in place with the packed bytes and yields the pointers and the minimum count, or fails on the first attribute without a unit size; as written the buffer stays as `FillAsWritten` leaves it, all zeros |
| Attributes.Synthesis | lib/Attribute.js:142-173 | with the line-157 copy corrected, the whole operation equals `Synthesize` of the attributes' current states; as written, the packed buffer is the all-zero one of `FillAsWritten` |
| Attributes.FillAsWritten | lib/Attribute.js:154-161 | the second pass as written: each attribute's ArrayBuffer is given to `set`, which copies nothing from it; AsWrittenPackIsBlank and AsWrittenLosesBytes state the consequence |
| Attributes.AsWrittenPackIsBlank | lib/Attribute.js:157 | as written, the packed buffer of any attributes stays all zeros |
| Attributes.AsWrittenLosesBytes | lib/Attribute.js:157 | two one-byte attributes [1] and [2] should pack to [1, 2] but, as written, pack to [0, 0] |
| Uniforms.NormalizeVec | lib/Uniform.js:83-97 | `Vec.normalize` as a value; NormalizeVecAccepts states when it accepts and what it keeps |
| Uniforms.NormalizeFloat | lib/Uniform.js:128-136 | `Float.normalize` as a value; NormalizeFloatAccepts states when it accepts and what it keeps |
| Uniforms.Normalize | lib/Uniform.js:53-57 | the `normalize` each subclass runs: SyntaxError for the abstract base, an error for Vec4's missing NUM_VALUES, otherwise Float's or Vec's; NormalizeShape and NormalizeIdempotent state its results |
| Uniforms.NormalizeVecAccepts | lib/Uniform.js:83-97 | a vector is accepted if and only if it is an array with at least NUM_VALUES slots whose first NUM_VALUES are numbers other than NaN or holes (`some` skips holes); those slots are what is kept |
| Uniforms.NormalizeFloatAccepts | lib/Uniform.js:128-136 | a float is accepted if and only if it, or an array's first element, is a number other than NaN; the empty array, NaN and non-numbers are rejected |
| Uniforms.NormalizeShape | lib/Uniform.js:100-124 | an accepted Float is one number, an accepted Vec2 exactly 2 slots and an accepted Vec3 exactly 3, each a number or a hole; the abstract base and Vec4 accept nothing |
| Uniforms.NormalizeAcceptedIsIdentity | lib/Uniform.js:88-96 | an accepted value passes normalize unchanged |
| Uniforms.NormalizeIdempotent | lib/Uniform.js:83-136 | normalizing a normalized value gives it back |
| Uniforms.Flatten | lib/Uniform.js:21 | `flat(Infinity)` leaves no arrays and no holes in its result; FlattenNested, FlattenAppend and FlattenFlat fix what it keeps and in which order |
| Uniforms.FlattenNested | lib/Uniform.js:21 | a nested array is spliced in place as its own flattening, and a hole contributes nothing |
| Uniforms.FlattenAppend | lib/Uniform.js:21 | flattening distributes over concatenation, so the pieces stay in argument order |
| Uniforms.FlattenFlat | lib/Uniform.js:21 | a sequence without arrays and holes is left exactly as it is |
| Uniforms.FlattenTwice | lib/Uniform.js:21 | flattening twice is flattening once |
| Uniforms.Uniform.constructor | lib/Uniform.js:13-15 | a new uniform has its name and kind, and an undefined value |
| Uniforms.Uniform.SetValue | lib/Uniform.js:9-11 | the setter stores the normalized value, or throws and keeps the old value; a stored value always has its kind's shape |
| Uniforms.Uniform.Assign | lib/Uniform.js:20-23 | assign sets the flattened arguments as the value, with the setter's outcome, and returns the uniform itself |
| Uniforms.HoleExamples | lib/Uniform.js:9-23 | a Vec3 set directly to [1, hole, 3] stores the hole; assign(1, [hole, 3]) flattens to [1, 3] and fails; a Float given [hole, 1] fails |
| Uniforms.AssignExamples | lib/Uniform.js:20-23 | assign(1, [2, [3]]) keeps [1, 2] for a Vec2 and 1 for a Float; a NaN in a Vec3 or an empty Float assignment fails |
| Gesture.NormalizeScale | lib/gesture.js:1-5 | `normalizeScale` as a value: val² + val + 1 above 0, exp(val) otherwise; NormalizeScaleRange and NormalizeScaleIncreasing state its range and monotonicity |
| Gesture.NormalizeScaleRange | lib/gesture.js:1-5 | the zoom factor is positive, 1 at raw scale 0, above 1 for positive raw scales and at most 1 otherwise |
| Gesture.NormalizeScaleIncreasing | lib/gesture.js:1-5 | normalizeScale is strictly increasing on all reals, across the switch of branch at 0 |
| Gesture.ExpLikeSatisfiable | lib/gesture.js:4 | the properties assumed of `Math.exp` are consistent |
| Gesture.State.constructor | index.js:74 | the gesture state starts at x = y = scale = 0 |
| Gesture.Step | lib/gesture.js:15-41 | the state `handleGesture` leaves, as a value; PanShift, ZoomScale, ZoomShift, ZoomAnchorsCursor and ZoomStill state what it does |
| Gesture.HandleGesture | lib/gesture.js:15-41 | the in-place update leaves the state `Step` describes |
| Gesture.PanShift | lib/gesture.js:21-24 | without ctrl the scale is kept, and the offset change times canvas size times zoom is deltaX (deltaY, inverted); so, with the scene drawn at (p + offset)·zoom, the drawn shift in device units is deltaX/clientWidth (deltaY/clientHeight, upwards) at any zoom |
| Gesture.ZoomScale | lib/gesture.js:28-36 | with ctrl the raw scale moves by wheelDelta/10000 with alt, else by wheelDelta/4000; a positive wheelDelta zooms in and a negative one zooms out |
| Gesture.ZoomShift | lib/gesture.js:31-39 | dS is 1/current − 1/target, and x, y move by mX·dS and mY·dS |
| Gesture.ZoomAnchorsCursor | lib/gesture.js:27-39 | if the scene is drawn at (p + offset)·zoom, the point under the cursor stays under it |
| Gesture.ZoomStill | lib/gesture.js:28-39 | a zoom with wheelDelta 0 changes nothing, and a zoom at the canvas centre does not move the offset |
| Gesture.MouseBounds | lib/gesture.js:31-32 | on the canvas, mX and mY lie in [-1, 1], and both are 0 at its centre |
| Tag.Content | lib/tag.js:3-6 | the `reduce` over the strings as a left fold; ContentIsInterleave, ContentIgnoresExtraArgs and ContentWithoutArgs state what it yields |
| Tag.Tag | lib/tag.js:1-10 | `TAG(type)(strings, ...args)`: the content between `<type>` and `</type>`; TagWraps and TagExamples state it |
| Tag.TagWraps | lib/tag.js:7-8 | the output starts with `<type>`, ends with `</type>`, and holds the content in between |
| Tag.ContentIsInterleave | lib/tag.js:3-6 | the reduce equals strings[0] + a0 + strings[1] + a1 + …, where a missing or null argument contributes "" |
| Tag.ContentIgnoresExtraArgs | lib/tag.js:3-5 | arguments beyond the strings are never read |
| Tag.ContentWithoutArgs | lib/tag.js:3-6 | with no arguments, or only null ones, the content is the strings joined |
| Tag.TagExamples | lib/tag.js:1-10 | TAG('h2') on `Hello ${name}!` gives `<h2>Hello World!</h2>` for "World" and `<h2>Hello !</h2>` for null |

## Left out

- WebGL calls are not modelled. This covers `bufferData`, `getAttribLocation`, `vertexAttribPointer`, `enableVertexAttribArray` and `uniform*`. `apply`, `setupPointer` and `synthesis` return the bytes, pointers and count as data. `Uniform.apply`, `applyType` and the static `Uniform.apply` only call the context, so they are left out.
- lib/WebGL.js, lib/error.js and index.js are not part of this model. They hold context creation, shaders, drawing, the DOM overlay, event listeners and animation. The reset action in index.js is one of these.
- The empty `quadrilateral` stub (lib/shapes.js:1-3) is left out: it yields nothing.
- Generators are modelled as finite sequences. Lazy, single-use iteration and infinite shapes are not modelled.
- Shapes.Array: the default arguments of `array` are not modelled; callers pass origin, step and dup. A dup count is an integer; a fractional count, which the loop would round up, is not modelled.
- Numbers are exact reals. Floating-point rounding is not modelled, including the rounding of `new Float32Array(data)`.
- A float element's four bytes are symbolic parts; its IEEE-754 encoding is not computed.
- `toUpperCase` is modelled on ASCII letters only.
- Attribute meta fields are modelled as integers and booleans. A meta field of another JavaScript type is not modelled.
- An attribute's buffer is its data's bytes. A view onto part of a larger ArrayBuffer (where `data.buffer` is larger than the view) is not modelled.
- Attributes.Attribute.AssignFloat32: the return value (`undefined`, not the attribute) is not modelled.
- Attributes.Attribute.AssignFloat32: a `Float32Array` argument is kept by reference in the source; the model stores its values, so aliasing is not captured.
- Attributes.CountIsQuotient: stated for buffers under 2 GiB. Larger ones wrap to 32 bits, which `ToInt32` models.
- Thrown error messages that include a value are not modelled, e.g. "Vector contains NaN: …". Only the error kind is kept.
- `Mat` is left out: it refers to an undefined `NUM_VALUES` (lib/Uniform.js:156). The base `applyType` is left out: it refers to an undefined `value` (lib/Uniform.js:46).
- Gesture.HandleGesture: the canvas must have a positive width and height. For a zero size the source divides by zero and stores Infinity or NaN, which the real-number model cannot express.
- `Math.exp` is a parameter constrained by `ExpLike`, not the real exponential.
- Tag.Tag: an argument's `toString()` is given as an optional string, so a custom `toString` is not modelled.
- Tag.Tag: the curried `TAG(type)(strings, ...args)` is one function of three arguments.

## Findings

| source | as written | input that shows it | evidently intended | confidence | as-written member | corrected member |
|---|---|---|---|---|---|---|
| lib/Attribute.js:157 | `buffer.set(attr.buffer, offset)` passes the attribute's ArrayBuffer. `%TypedArray%.prototype.set` reads any non-typed-array source as an array-like through its `length`, which an ArrayBuffer lacks, so no bytes are copied. With two or more attributes the uploaded buffer is all zeros. | two attributes holding the bytes [1] and [2] | copy each attribute's bytes at the running offset, e.g. `buffer.set(new Uint8Array(attr.buffer), offset)` | high; not executed | Attributes.AsWrittenLosesBytes | Attributes.Synthesis |
