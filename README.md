# obj.GL drawable state, modelled in Dafny

This project models the per-drawable state container of obj.GL, a small
WebGL helper library. A drawable keeps named vertex buffers and named shader
uniforms. It validates the buffers, and it submits them to the rendering
library when asked to draw.

- `DrawItem` (src/DrawItem/index.ts) holds a compiled buffer resource and a
  uniform map. Every buffer array must be rectangular: all of its tuples have
  the same arity. Every setter validates before it assigns, so a rejected call
  leaves the state as it was. `draw` follows a gated protocol. With no data it
  logs one warning and returns. Otherwise it resizes, sets the viewport,
  binds buffers if there are any, binds uniforms if there are any, and
  issues one draw call.
- `Shape` (src/Shape/index.ts) specialises `DrawItem` for one position
  attribute. That attribute holds at least three 2-D points, which are sorted
  in place by y and then by x. The generic setters warn when they are aimed
  at the position attribute, but they still make the change. Draws always use
  `TRIANGLE_STRIP`.
- `DrawObject` (src/DrawObject/index.ts) is the earlier version of the store.
  It keeps plain maps and applies the same rectangularity rule.
- The legacy `Shape` (src/Shape.ts) is the same specialisation without the
  cardinality check and without the sort.

Modules, one per file:

| file | module | contents |
|---|---|---|
| outcomes.dfy | `Outcomes` | optional arguments; thrown `TypeError`/`ReferenceError` as results |
| buffer_arrays.dfy | `BufferArrays` | tuples, rectangularity, `flat()`, reading flat data back as tuples |
| gl.dfy | `GL` | the shared `GLInfo` binding object, primitive modes, opaque uniform values |
| draw_item.dfy | `DrawItems` | the compiled buffer resource, each setter as a function from old to new state, the draw events, class `DrawItem` |
| shape.dfy | `Shapes` | the sort comparator, the in-place sort, class `Shape` |
| draw_object.dfy | `DrawObjects` | class `DrawObject`; the as-written `concat(...data)` |
| legacy_shape.dfy | `LegacyShapes` | the legacy class `Shape` |

Abstractions:

- The rendering library (twgl.js) is not part of this model. Its buffer
  resource is a map from attribute name to an `Attrib`, which holds the arity
  and the flattened data. Compiling one entry against a previous resource
  merges that entry into the map. Compiling a whole set of buffers replaces
  the map.
- `numElements` is the number of attributes, so it is 0 exactly when there
  are no buffers. The test mock at src/DrawItem/draw.test.ts:11 counts the
  keys of the map passed to that one call, not the merged map. The two
  counts can differ after a single-entry update, but they agree on whether
  the count is 0, which is all `draw` looks at.
- `console.warn` and the rendering-context calls that `draw` makes are
  appended as events to the drawable's `trace`. The events are `Warning`,
  `Resize`, `Viewport`, `BindBuffers`, `BindUniforms` and `DrawCall`. Each
  event records the context, program and data it was given. The canvas size
  and the device pixel ratio are not recorded.
- A thrown error is an `Err`/`Failed` result that carries the source's error
  class and message. On that path the state is unchanged.
- The subclasses are modelled by composition. A `Shape` owns the `DrawItem`
  it specialises and calls it where the source calls `super`.
- Numbers are integers. Uniform values are an opaque union that is never
  examined.

## Model

| member | source | states |
|---|---|---|
| `BufferArrays.Unflatten` | src/DrawItem/index.ts:158-161 | reading flat whole-tuple data back with a nonzero arity gives tuples of exactly that arity |
| `BufferArrays.UnflattenFlattens` | src/DrawItem/index.ts:158-161 | the tuples read back flatten to the same data, so reading back loses nothing |
| `BufferArrays.FlattenRoundTrip` | src/DrawItem/index.ts:158-161 | flattening tuples of one nonzero arity gives whole tuples that read back as the original array |
| `BufferArrays.Flatten` | src/DrawItem/index.ts:160 | `flat()` begins with the first tuple, keeps every component of every tuple, and is empty exactly when every tuple is empty |
| `BufferArrays.ChunkedConcat` | src/DrawItem/index.ts:65-68 | appending whole-tuple data to whole-tuple data gives whole tuples |
| `BufferArrays.UnflattenConcat` | src/DrawItem/index.ts:65-68 | with a nonzero arity, the appended data reads back as the old tuples followed by the new ones |
| `DrawItems.CheckBufferArray` | src/DrawItem/index.ts:170-174 | an empty array is accepted; with a nonzero expected length, accepted iff every tuple has that length; with length 0 (falsy), accepted iff the array is rectangular |
| `DrawItems.ToAttrib` | src/DrawItem/index.ts:158-161 | an empty array gives arity 0 and no data; a non-empty array takes the arity of its first tuple; a rectangular array is stored as whole tuples that read back as the array, or as empty data when its arity is 0 |
| `DrawItems.CheckBuffers` | src/DrawItem/index.ts:155-163 | succeeds iff every entry is rectangular, else a TypeError with the source's message; on success the same keys, each compiled from its own array |
| `DrawItems.SetBuffersResult` | src/DrawItem/index.ts:91-93 | an omitted or empty map resets to an empty resource without validation; otherwise succeeds iff every entry is rectangular and then replaces the resource with exactly those entries |
| `DrawItems.InitialBufferInfo` | src/DrawItem/index.ts:124 | the constructor's path, which sends `{}` through `checkBuffers`, gives the same result as `setBuffers` on every input |
| `DrawItems.SetBufferArrayResult` | src/DrawItem/index.ts:78-86 | an empty array throws a TypeError (from `data[0].length`); otherwise succeeds iff rectangular; on success only entry `id` changes, and it is compiled as `checkBuffers` compiles it |
| `DrawItems.AddBufferArrayResult` | src/DrawItem/index.ts:57-71 | a missing `id` throws a ReferenceError; the new tuples are checked against the stored arity, and against their own first tuple when that arity is 0; on success the arity is kept, the data is the old data followed by the new tuples flattened, and the other entries are unchanged |
| `DrawItems.AddBufferArrayKeepsTuples` | src/DrawItem/index.ts:60-69 | a successful append keeps every attribute made of whole tuples; with a nonzero arity the attribute reads back as its old tuples followed by the new ones |
| `DrawItems.AddBufferArrayAsWritten` | src/DrawItem/index.ts:57-71 | as written: the ReferenceError and the shape check agree with the intended append; after them, a resource without an attribute `"id"` throws a TypeError, and one with it appends to that attribute's data and stores the result under `id` |
| `DrawItems.AddBufferArrayAsWrittenThrows` | src/DrawItem/index.ts:66 | as written, every append that passes the shape check throws when no attribute is named `"id"` |
| `DrawItems.AddBufferArrayAsWrittenAtId` | src/DrawItem/index.ts:66 | for the attribute named `"id"` itself, the as-written append equals the intended one |
| `DrawItems.AddBufferArrayCounterexample` | src/DrawItem/index.ts:66 | appending `[[6, 7]]` to positions `[[0, 1], [2, 3], [4, 5]]` throws as written, while the intended append stores `[0, 1, …, 7]` with arity 2 |
| `DrawItems.DrawEvents` | src/DrawItem/index.ts:131-147 | no buffers and no uniforms: exactly one warning. Otherwise resize first, viewport second, draw call with the given mode last; buffer bind iff there are buffers; uniform bind iff there are uniforms; each event at most once, in protocol order |
| `DrawItems.DrawItem.Init` | src/DrawItem/index.ts:123-125 | stores the binding, the resource and the uniforms; the trace starts empty |
| `DrawItems.DrawItem.Create` | src/DrawItem/index.ts:122-126 | throws exactly when the initial buffers are rejected; otherwise holds the checked buffers and the uniforms, which default to `{}` |
| `DrawItems.DrawItem.SetGlContext` | src/DrawItem/index.ts:27-29 | updates the context of the shared binding object and keeps its program |
| `DrawItems.DrawItem.SetProgramInfo` | src/DrawItem/index.ts:34-36 | updates the program of the shared binding object and keeps its context |
| `DrawItems.DrawItem.SetGlInfo` | src/DrawItem/index.ts:41-43 | replaces the binding and nothing else |
| `DrawItems.DrawItem.AddBufferArray` | src/DrawItem/index.ts:57-71 | outcome and new resource as `AddBufferArrayResult`; unchanged on error; uniforms, trace and binding unchanged |
| `DrawItems.DrawItem.SetBufferArray` | src/DrawItem/index.ts:78-86 | outcome and new resource as `SetBufferArrayResult`; unchanged on error; nothing else changes |
| `DrawItems.DrawItem.SetBuffers` | src/DrawItem/index.ts:91-93 | outcome and new resource as `SetBuffersResult`; unchanged on error; nothing else changes |
| `DrawItems.DrawItem.SetUniform` | src/DrawItem/index.ts:105-107 | only the key `id` of the uniforms changes |
| `DrawItems.DrawItem.SetUniforms` | src/DrawItem/index.ts:112-114 | replaces the uniforms; an omitted map resets them to empty |
| `DrawItems.DrawItem.Warn` | src/DrawItem/index.ts:136 | appends one warning to the trace and changes nothing else |
| `DrawItems.DrawItem.Draw` | src/DrawItem/index.ts:131-147 | appends exactly `DrawEvents` for the current binding, resource, uniforms and mode; the state is unchanged |
| `Shapes.Compare` | src/Shape/index.ts:86-92 | the comparator is negative exactly when the first point has the smaller y, or the same y and the smaller x, and 0 exactly when the points are equal |
| `Shapes.InOrder` | src/Shape/index.ts:86-92 | the comparator orders two 2-D points ascending by the second coordinate, with ties broken by ascending first coordinate |
| `Shapes.InOrderTotal` | src/Shape/index.ts:86-92 | any two 2-D points are ordered one way or the other |
| `Shapes.InOrderTransitive` | src/Shape/index.ts:86-92 | the order is transitive |
| `Shapes.InOrderAntisymmetric` | src/Shape/index.ts:86-92 | two points ordered both ways are the same point |
| `Shapes.SortedTail` | src/Shape/index.ts:86-92 | dropping the first point of a sorted arrangement leaves it sorted |
| `Shapes.SortedHeadsEqual` | src/Shape/index.ts:86-92 | two sorted arrangements of the same non-empty points begin with the same point |
| `Shapes.SortedPositionsUnique` | src/Shape/index.ts:86-92 | two sorted arrangements of the same points are equal: the stored order depends only on the points given |
| `Shapes.InsertPosition` | src/Shape/index.ts:86-92 | one insertion step: a sorted prefix of length i becomes a sorted prefix of length i + 1, the points after position i are untouched, and the points are only permuted |
| `Shapes.SortPositions` | src/Shape/index.ts:86-92 | sorts the array in place; the result is sorted and is a permutation of the input |
| `Shapes.WithPositions` | src/Shape/index.ts:31 | the positions replace a same-named entry; every other given buffer is kept |
| `Shapes.Shape.Init` | src/Shape/index.ts:31-32 | stores the DrawItem and the attribute name |
| `Shapes.Shape.CheckPositionArray` | src/Shape/index.ts:83-93 | fewer than 3 points: ReferenceError, before any arity check; a point without 2 components: TypeError; both leave the array untouched; otherwise returns the caller's own array, sorted and permuted in place |
| `Shapes.Shape.Create` | src/Shape/index.ts:29-33 | position errors as `CheckPositionArray`; otherwise the positions are sorted in place, the call fails iff another buffer is not rectangular, and on success the sorted positions are stored under the attribute name (default `"a_position"`) |
| `Shapes.Shape.AddDataToBufferArray` | src/Shape/index.ts:43-46 | logs a warning iff `id` is the position attribute, then appends exactly as `DrawItem.addBufferArray` |
| `Shapes.Shape.SetBufferArray` | src/Shape/index.ts:55-58 | logs a warning iff `id` is the position attribute, then sets exactly as `DrawItem.setBufferArray` |
| `Shapes.Shape.SetPositionArray` | src/Shape/index.ts:66-68 | the position errors leave both the array and the buffers unchanged; on success writes the sorted array through the base setter, with no warning |
| `Shapes.Shape.Draw` | src/Shape/index.ts:73-75 | draws as `DrawItem.draw` with mode `TRIANGLE_STRIP` |
| `Shapes.Shape.SetPositionAttributeName` | src/Shape/index.ts:17-19 | replaces the position attribute name |
| `DrawObjects.CheckBufferArray` | src/DrawObject/index.ts:111-115 | accepted iff the array is rectangular (the empty array included) |
| `DrawObjects.CheckBufferArrays` | src/DrawObject/index.ts:67-69 | succeeds iff every entry is rectangular; otherwise the checker's TypeError |
| `DrawObjects.AddBufferDataResult` | src/DrawObject/index.ts:42-50 | a missing `id` throws a ReferenceError; otherwise succeeds iff the stored tuples followed by the new ones are rectangular, and the result is exactly that concatenation |
| `DrawObjects.AppendKeepsRectangular` | src/DrawObject/index.ts:47-48 | appending to a non-empty rectangular array passes the check iff every new tuple has the stored arity |
| `DrawObjects.SpreadConcat` | src/DrawObject/index.ts:47 | `concat(...data)` keeps the stored tuples nested, then lists every component of the new tuples as a bare number, in order |
| `DrawObjects.CheckElements` | src/DrawObject/index.ts:111-115 | the check on the concatenation passes exactly when every element is a bare number or every element is a tuple of the first tuple's length |
| `DrawObjects.AddBufferDataAsWritten` | src/DrawObject/index.ts:42-50 | as written: a missing entry throws the ReferenceError; with nothing to append the stored array is checked on its own; an empty stored array accepts any data and holds it as bare numbers |
| `DrawObjects.DrawObject.constructor` | src/DrawObject/index.ts:100-104 | stores its arguments unchecked; both maps default to empty |
| `DrawObjects.DrawObject.SetGlContext` | src/DrawObject/index.ts:20-22 | updates the context of the shared binding object |
| `DrawObjects.DrawObject.SetProgramInfo` | src/DrawObject/index.ts:27-29 | updates the program of the shared binding object |
| `DrawObjects.DrawObject.AddBufferData` | src/DrawObject/index.ts:42-50 | outcome as `AddBufferDataResult`; assigns only entry `id` and only on success; keeps every stored array rectangular |
| `DrawObjects.DrawObject.SetBufferData` | src/DrawObject/index.ts:57-60 | succeeds iff `data` is rectangular, then changes only entry `id`; unchanged on failure |
| `DrawObjects.DrawObject.SetBuffers` | src/DrawObject/index.ts:66-71 | replaces the map iff every entry is rectangular; on failure the old map is kept |
| `DrawObjects.DrawObject.SetUniform` | src/DrawObject/index.ts:83-85 | only the key `id` changes |
| `DrawObjects.DrawObject.SetUniforms` | src/DrawObject/index.ts:90-92 | replaces the whole uniform map |
| `DrawObjects.AddBufferDataAsWrittenRejectsAppends` | src/DrawObject/index.ts:47-48 | as written, appending at least one number to a non-empty buffer always throws the TypeError |
| `DrawObjects.AddBufferDataCounterexample` | src/DrawObject/index.ts:47-49 | appending `[[2, 3]]` to `[[0, 1]]` throws as written, while the intended append gives `[[0, 1], [2, 3]]` |
| `DrawObjects.AddBufferDataAsWrittenStoresNumbers` | src/DrawObject/index.ts:47-49 | as written, appending `[[1, 2]]` to an empty buffer passes the check and stores the bare numbers 1 and 2 |
| `LegacyShapes.Shape.Init` | src/Shape.ts:18-19 | stores the DrawItem and the read-only attribute name |
| `LegacyShapes.Shape.Create` | src/Shape.ts:17-20 | no cardinality check and no sort; fails iff some merged buffer, the positions included, is not rectangular; on success the positions are stored unsorted under the attribute name |
| `LegacyShapes.Shape.AddDataToBufferArray` | src/Shape.ts:29-32 | logs a warning iff `id` is the position attribute, then appends exactly as `DrawItem.addBufferArray` |
| `LegacyShapes.Shape.SetBufferArray` | src/Shape.ts:40-43 | logs a warning iff `id` is the position attribute, then sets exactly as `DrawItem.setBufferArray` |
| `LegacyShapes.Shape.Draw` | src/Shape.ts:48-50 | draws as `DrawItem.draw` with mode `TRIANGLE_STRIP` |
| `GL.GLInfo.constructor` | index.ts:3-6 | a binding holds a context and a program |

## Left out

- The rendering library's internals are not modelled: `createBufferInfoFromArrays`, `setBuffersAndAttributes`, `setUniforms`, `drawBufferInfo` and `resizeCanvasToDisplaySize`. They are foreign code. They appear only as the abstract buffer map and the trace events.
- `getGLInfo` (index.ts:15-23) is not modelled. It creates the context and the program in foreign code, so the WebGL2 guard has nothing to act on here.
- The canvas, `window.devicePixelRatio` and the viewport dimensions are DOM state. They are not modelled; only the `Resize` and `Viewport` events remain.
- Floating-point numbers, NaN and the comparator's behaviour on them are not modelled. Coordinates are integers.
- `JSON.stringify` emptiness is modelled as "the map has no keys". So a uniform whose value is `undefined` counts as present.
- Aliasing of the caller's arrays and maps is not modelled. The source stores the caller's own objects, so the caller can change them after the call. The model stores values.
- `DrawItems.AddBufferArrayResult`: models the intended append, which reads the previous data from the entry `id`. As written, the source reads `this.bufferInfo.attribs.id.value` (src/DrawItem/index.ts:66). Unless an attribute is literally named `"id"`, `attribs.id` is undefined, so reading `.value` throws a TypeError after the shape check has passed, and the state is unchanged. That behaviour is `DrawItems.AddBufferArrayAsWritten`, listed under Findings. Both halves read an attribute's `value` as its stored data, since the rendering library's attribute objects are not modelled.
- `Shapes.Shape.AddDataToBufferArray`: delegates to `DrawItem.addBufferArray`. The source calls `super.addDataToBufferArray` (src/Shape/index.ts:45), which `DrawItem` does not define.
- `LegacyShapes.Shape.AddDataToBufferArray`: delegates to `DrawItem.addBufferArray`. The source calls `super.addDataToBufferArray` (src/Shape.ts:31), which `DrawItem` does not define.
- `DrawItems.InitialBufferInfo`: the constructor passes `{}` through `checkBuffers`, while `setBuffers` skips the check for `{}`. In this model both give the same empty resource. The only difference is whether the rendering library is called, and the model does not record that call.
- `DrawItems.DrawItem.Draw`: the events record the context, the program and the data, not the numbers passed to `viewport`.

## Findings

| source | as written | input that shows it | evidently intended | confidence | as-written member | corrected member |
|---|---|---|---|---|---|---|
| src/DrawObject/index.ts:47 | `this.buffers[id].concat(...data)` spreads each new tuple into bare numbers. The check then compares a number's undefined `length` with the first tuple's length and throws. Onto an empty stored buffer, every element is a bare number, so the check passes and bare numbers are stored (`DrawObjects.AddBufferDataAsWrittenStoresNumbers`). | a `DrawObject` with buffer `a_test = [[0, 1]]`, then `addBufferData("a_test", [[2, 3]])` | append the tuples (`concat(data)`), store `[[0, 1], [2, 3]]`, and reject only tuples of another arity | high; not executed | `DrawObjects.AddBufferDataAsWrittenRejectsAppends` | `DrawObjects.AddBufferDataResult` |
| src/DrawItem/index.ts:66 | the previous data is read from `this.bufferInfo.attribs.id`, the attribute literally named `"id"`. Without such an attribute this is undefined, and reading `.value` throws a TypeError after the shape check has passed. | a `DrawItem` with positions `[[0, 1], [2, 3], [4, 5]]` under `a_position`, then `addBufferArray("a_position", [[6, 7]])` | read `this.bufferInfo.attribs[id]`, so the data becomes `[0, 1, …, 7]` with arity 2 | high; not executed | `DrawItems.AddBufferArrayCounterexample` | `DrawItems.AddBufferArrayResult` |
