/**
 * The drawable state container (src/DrawItem/index.ts): named vertex buffers,
 * compiled into the rendering library's buffer resource, and named uniforms,
 * plus the draw protocol that submits them.
 *
 * The rendering library (twgl.js) is not modelled: its buffer resource is a map
 * from attribute name to (arity, flat data), its `numElements` is the number of
 * attributes, and every call into it or into `console.warn` during a draw is an
 * event appended to the item's trace.
 */
module DrawItems {
  import opened Outcomes
  import opened BufferArrays
  import opened GL

  /** One compiled attribute: the tuple arity and the tuples flattened. */
  datatype Attrib = Attrib(numComponents: nat, data: seq<Number>) {
    /** The flat data still consists of whole tuples. */
    ghost predicate WellFormed() {
      Chunked(data, numComponents)
    }
  }

  /** The compiled buffer resource: every attribute by name. */
  datatype BufferInfo = BufferInfo(attribs: map<string, Attrib>) {
    /** The resource's element count, zero exactly when there are no buffers. */
    function NumElements(): (n: nat)
      ensures n == 0 <==> attribs == map[]
    {
      |attribs|
    }

    ghost predicate WellFormed() {
      forall id :: id in attribs ==> attribs[id].WellFormed()
    }
  }

  /** An observable effect of a drawable: a console warning or a rendering-context call. */
  datatype Event =
    | Warning(message: string)
    | Resize(gl: Handle)
    | Viewport(gl: Handle)
    | BindBuffers(gl: Handle, program: Handle, info: BufferInfo)
    | BindUniforms(program: Handle, uniforms: map<string, Uniform>)
    | DrawCall(gl: Handle, info: BufferInfo, mode: Option<Mode>)

  /** The position of an event in the draw protocol. */
  function Stage(e: Event): (n: nat) {
    match e
    case Warning(_) => 0
    case Resize(_) => 1
    case Viewport(_) => 2
    case BindBuffers(_, _, _) => 3
    case BindUniforms(_, _) => 4
    case DrawCall(_, _, _) => 5
  }

  const NoDataWarning := "DrawItem.draw() called without any draw data"

  /** What reading `length` of `data[0]` throws when `data` is empty. */
  const UndefinedLengthMessage := "Cannot read properties of undefined (reading 'length')"

  /** What reading `value` of `attribs.id` throws when there is no attribute named `"id"`. */
  const UndefinedValueMessage := "Cannot read properties of undefined (reading 'value')"

  /**
   * `checkBufferArray(data, length)`: every tuple has `length` components, or,
   * when `length` is 0 or omitted (both falsy), as many as the first tuple.
   */
  predicate CheckBufferArray(data: BufferArray, length: nat): (ok: bool)
    ensures data == [] ==> ok
    ensures length != 0 ==> (ok <==> AllOfArity(data, length))
    ensures length == 0 ==> (ok <==> Rectangular(data))
  {
    forall i :: 0 <= i < |data| ==> |data[i]| == (if length != 0 then length else |data[0]|)
  }

  /**
   * One entry of `checkBuffers`: arity `bufferArray[0]?.length || 0` and the
   * flattened data. A rectangular array is stored as whole tuples that read
   * back as the array itself.
   */
  function ToAttrib(bufferArray: BufferArray): (a: Attrib)
    ensures bufferArray == [] ==> a == Attrib(0, [])
    ensures bufferArray != [] ==> a.numComponents == |bufferArray[0]|
    ensures Rectangular(bufferArray) ==> a.WellFormed() && (a.numComponents > 0 ==> Unflatten(a.data, a.numComponents) == bufferArray)
    ensures Rectangular(bufferArray) && a.numComponents == 0 ==> a.data == []
  {
    var n := if bufferArray == [] then 0 else |bufferArray[0]|;
    assert Rectangular(bufferArray) ==> Chunked(Flatten(bufferArray), n) && (n > 0 ==> Unflatten(Flatten(bufferArray), n) == bufferArray) && (n == 0 ==> Flatten(bufferArray) == []) by {
      if Rectangular(bufferArray) {
        assert AllOfArity(bufferArray, n);
        if n > 0 {
          FlattenRoundTrip(bufferArray, n);
        }
      }
    }
    Attrib(n, Flatten(bufferArray))
  }

  /**
   * `checkBuffers`: validates every entry, then compiles all of them into a
   * fresh attribute map; one non-rectangular entry rejects the whole map.
   */
  function CheckBuffers(buffers: map<string, BufferArray>): (r: Result<map<string, Attrib>>)
    ensures r.Ok? <==> forall id :: id in buffers ==> Rectangular(buffers[id])
    ensures r.Err? ==> r.error == TypeError(BufferShapeMessage)
    ensures r.Ok? ==> r.value.Keys == buffers.Keys && forall id :: id in buffers ==> r.value[id] == ToAttrib(buffers[id])
    ensures r.Ok? ==> BufferInfo(r.value).WellFormed()
  {
    if forall id :: id in buffers ==> CheckBufferArray(buffers[id], 0) then
      Ok(map id | id in buffers :: ToAttrib(buffers[id]))
    else
      Err(TypeError(BufferShapeMessage))
  }

  /**
   * `setBuffers(buffers?)`: an omitted or empty map resets to an empty resource
   * without validation; otherwise every entry is validated and compiled, and the
   * result replaces (is not merged into) the previous resource.
   */
  function SetBuffersResult(buffers: Option<map<string, BufferArray>>): (r: Result<BufferInfo>)
    ensures buffers.None? || buffers.value == map[] ==> r == Ok(BufferInfo(map[]))
    ensures buffers.Some? ==> (r.Ok? <==> forall id :: id in buffers.value ==> Rectangular(buffers.value[id]))
    ensures r.Err? ==> r.error == TypeError(BufferShapeMessage)
    ensures r.Ok? ==> r.value.WellFormed()
    ensures r.Ok? && buffers.Some? ==> r.value.attribs.Keys == buffers.value.Keys && forall id :: id in buffers.value ==> r.value.attribs[id] == ToAttrib(buffers.value[id])
  {
    if buffers.None? || buffers.value == map[] then Ok(BufferInfo(map[]))
    else
      match CheckBuffers(buffers.value)
      case Ok(attribs) => Ok(BufferInfo(attribs))
      case Err(e) => Err(e)
  }

  /**
   * The constructor's buffers: an omitted map gives an empty resource, any
   * other map, `{}` included, goes through `checkBuffers`. The two paths give
   * the same resource as `setBuffers` on every input.
   */
  function InitialBufferInfo(buffers: Option<map<string, BufferArray>>): (r: Result<BufferInfo>)
    ensures r == SetBuffersResult(buffers)
  {
    if buffers.None? then Ok(BufferInfo(map[]))
    else
      match CheckBuffers(buffers.value)
      case Ok(attribs) => Ok(BufferInfo(attribs))
      case Err(e) => Err(e)
  }

  /**
   * `setBufferArray(id, data)`: validates `data` on its own, reads the arity
   * from `data[0]` (which throws when `data` is empty) and merges the one
   * compiled entry into the previous resource.
   */
  function SetBufferArrayResult(info: BufferInfo, id: string, data: BufferArray): (r: Result<BufferInfo>)
    ensures data == [] ==> r == Err(TypeError(UndefinedLengthMessage))
    ensures data != [] ==> (r.Ok? <==> Rectangular(data))
    ensures data != [] && r.Err? ==> r.error == TypeError(BufferShapeMessage)
    ensures r.Ok? ==> r.value.attribs.Keys == info.attribs.Keys + {id} && r.value.attribs[id] == ToAttrib(data)
    ensures r.Ok? ==> forall other :: other in info.attribs && other != id ==> r.value.attribs[other] == info.attribs[other]
    ensures r.Ok? && info.WellFormed() ==> r.value.WellFormed()
  {
    if !CheckBufferArray(data, 0) then Err(TypeError(BufferShapeMessage))
    else if data == [] then Err(TypeError(UndefinedLengthMessage))
    else Ok(BufferInfo(info.attribs[id := Attrib(|data[0]|, Flatten(data))]))
  }

  /**
   * `addBufferArray(id, data)`: the attribute must exist; the new tuples are
   * validated against the stored arity (0 falls back to `data[0]`'s length),
   * and the stored flat data is extended by the flattened tuples.
   * The source reads the previous data from the key `"id"` rather than `id`;
   * this is the intended reading of the entry `id` (see
   * `AddBufferArrayAsWritten`).
   */
  function AddBufferArrayResult(info: BufferInfo, id: string, data: BufferArray): (r: Result<BufferInfo>)
    ensures id !in info.attribs ==> r == Err(ReferenceError(NoBufferMessage(id)))
    ensures id in info.attribs && info.attribs[id].numComponents != 0 ==> (r.Ok? <==> AllOfArity(data, info.attribs[id].numComponents))
    ensures id in info.attribs && info.attribs[id].numComponents == 0 ==> (r.Ok? <==> Rectangular(data))
    ensures id in info.attribs && r.Err? ==> r.error == TypeError(BufferShapeMessage)
    ensures r.Ok? ==> r.value.attribs.Keys == info.attribs.Keys
    ensures r.Ok? ==> r.value.attribs[id] == Attrib(info.attribs[id].numComponents, info.attribs[id].data + Flatten(data))
    ensures r.Ok? ==> forall other :: other in info.attribs && other != id ==> r.value.attribs[other] == info.attribs[other]
  {
    if id !in info.attribs then Err(ReferenceError(NoBufferMessage(id)))
    else
      var numComponents := info.attribs[id].numComponents;
      if !CheckBufferArray(data, numComponents) then Err(TypeError(BufferShapeMessage))
      else Ok(BufferInfo(info.attribs[id := Attrib(numComponents, info.attribs[id].data + Flatten(data))]))
  }

  /*
   * As written, the previous data is `this.bufferInfo.attribs.id.value`: the
   * attribute literally named `"id"`, whatever `id` is. The model reads an
   * attribute's `value` as its stored data, as `AddBufferArrayResult` does.
   */

  /**
   * `addBufferArray(id, data)` as written. The ReferenceError and the shape
   * check come first and agree with the intended append; after them, a
   * resource without an attribute `"id"` throws a TypeError, and one with such
   * an attribute appends the new tuples to that attribute's data.
   */
  function AddBufferArrayAsWritten(info: BufferInfo, id: string, data: BufferArray): (r: Result<BufferInfo>)
    ensures AddBufferArrayResult(info, id, data).Err? ==> r == AddBufferArrayResult(info, id, data)
    ensures AddBufferArrayResult(info, id, data).Ok? ==> (r.Ok? <==> "id" in info.attribs)
    ensures r.Err? && id in info.attribs && "id" !in info.attribs && AddBufferArrayResult(info, id, data).Ok? ==> r.error == TypeError(UndefinedValueMessage)
    ensures r.Ok? ==> r.value.attribs.Keys == info.attribs.Keys
    ensures r.Ok? ==> r.value.attribs[id] == Attrib(info.attribs[id].numComponents, info.attribs["id"].data + Flatten(data))
    ensures r.Ok? ==> forall other :: other in info.attribs && other != id ==> r.value.attribs[other] == info.attribs[other]
  {
    if id !in info.attribs then Err(ReferenceError(NoBufferMessage(id)))
    else
      var numComponents := info.attribs[id].numComponents;
      if !CheckBufferArray(data, numComponents) then Err(TypeError(BufferShapeMessage))
      else if "id" !in info.attribs then Err(TypeError(UndefinedValueMessage))
      else Ok(BufferInfo(info.attribs[id := Attrib(numComponents, info.attribs["id"].data + Flatten(data))]))
  }

  /**
   * As written, every append that the shape check accepts throws, unless the
   * resource has an attribute named `"id"`; the intended append succeeds.
   */
  lemma AddBufferArrayAsWrittenThrows(info: BufferInfo, id: string, data: BufferArray)
    requires id in info.attribs && "id" !in info.attribs
    requires AddBufferArrayResult(info, id, data).Ok?
    ensures AddBufferArrayAsWritten(info, id, data) == Err(TypeError(UndefinedValueMessage))
  {
  }

  /** For the attribute named `"id"` itself, the source reads the right entry. */
  lemma AddBufferArrayAsWrittenAtId(info: BufferInfo, data: BufferArray)
    ensures AddBufferArrayAsWritten(info, "id", data) == AddBufferArrayResult(info, "id", data)
  {
  }

  /** The input that shows it: appending `[[6, 7]]` to the positions `[[0, 1], [2, 3], [4, 5]]`. */
  lemma AddBufferArrayCounterexample()
    ensures AddBufferArrayAsWritten(BufferInfo(map["a_position" := Attrib(2, [0, 1, 2, 3, 4, 5])]), "a_position", [[6, 7]])
      == Err(TypeError(UndefinedValueMessage))
    ensures AddBufferArrayResult(BufferInfo(map["a_position" := Attrib(2, [0, 1, 2, 3, 4, 5])]), "a_position", [[6, 7]])
      == Ok(BufferInfo(map["a_position" := Attrib(2, [0, 1, 2, 3, 4, 5, 6, 7])]))
  {
    var data: BufferArray := [[6, 7]];
    assert Flatten(data) == [6, 7];
    assert AllOfArity(data, 2);
    var before := map["a_position" := Attrib(2, [0, 1, 2, 3, 4, 5])];
    assert [0, 1, 2, 3, 4, 5] + [6, 7] == [0, 1, 2, 3, 4, 5, 6, 7];
    assert before["a_position" := Attrib(2, [0, 1, 2, 3, 4, 5, 6, 7])] == map["a_position" := Attrib(2, [0, 1, 2, 3, 4, 5, 6, 7])];
  }

  /**
   * Appending keeps the resource made of whole tuples, and an attribute with a
   * nonzero arity then reads back as its old tuples followed by the new ones.
   */
  lemma {:induction false} AddBufferArrayKeepsTuples(info: BufferInfo, id: string, data: BufferArray)
    requires info.WellFormed() && AddBufferArrayResult(info, id, data).Ok?
    ensures AddBufferArrayResult(info, id, data).value.WellFormed()
    ensures info.attribs[id].numComponents > 0 ==>
      var after := AddBufferArrayResult(info, id, data).value.attribs[id];
      after.WellFormed() && Unflatten(after.data, after.numComponents) == Unflatten(info.attribs[id].data, after.numComponents) + data
  {
    var before := info.attribs[id];
    var n := before.numComponents;
    if n > 0 {
      FlattenRoundTrip(data, n);
      UnflattenConcat(before.data, Flatten(data), n);
    }
  }

  /**
   * The events of one `draw(mode)`. With no buffers and no uniforms it is one
   * warning and nothing else; otherwise resize, viewport, the buffer bind when
   * there are buffers, the uniform bind when there are uniforms, and one draw
   * call, each at most once and in that order.
   */
  function DrawEvents(gl: Handle, program: Handle, info: BufferInfo, uniforms: map<string, Uniform>, mode: Option<Mode>): (events: seq<Event>)
    ensures info.NumElements() == 0 && uniforms == map[] ==> events == [Warning(NoDataWarning)]
    ensures info.NumElements() != 0 || uniforms != map[] ==>
      && |events| == 3 + (if info.NumElements() != 0 then 1 else 0) + (if uniforms != map[] then 1 else 0)
      && events[0] == Resize(gl) && events[1] == Viewport(gl)
      && events[|events| - 1] == DrawCall(gl, info, mode)
      && (BindBuffers(gl, program, info) in events <==> info.NumElements() != 0)
      && (BindUniforms(program, uniforms) in events <==> uniforms != map[])
      && forall i, j :: 0 <= i < j < |events| ==> Stage(events[i]) < Stage(events[j])
  {
    var buffersEmpty := info.NumElements() == 0;
    var uniformsEmpty := uniforms == map[];
    if buffersEmpty && uniformsEmpty then [Warning(NoDataWarning)]
    else
      [Resize(gl), Viewport(gl)]
      + (if !buffersEmpty then [BindBuffers(gl, program, info)] else [])
      + (if !uniformsEmpty then [BindUniforms(program, uniforms)] else [])
      + [DrawCall(gl, info, mode)]
  }

  /** A drawable: a binding, a compiled buffer resource and uniforms. */
  class DrawItem {
    var glInfo: GLInfo
    var bufferInfo: BufferInfo
    var uniforms: map<string, Uniform>
    /** Console warnings and rendering-context calls, oldest first. */
    var trace: seq<Event>

    ghost predicate Valid()
      reads this
    {
      bufferInfo.WellFormed()
    }

    constructor Init(glInfo: GLInfo, bufferInfo: BufferInfo, uniforms: map<string, Uniform>)
      requires bufferInfo.WellFormed()
      ensures Valid()
      ensures this.glInfo == glInfo && this.bufferInfo == bufferInfo && this.uniforms == uniforms && trace == []
    {
      this.glInfo := glInfo;
      this.bufferInfo := bufferInfo;
      this.uniforms := uniforms;
      trace := [];
    }

    /**
     * `new DrawItem(glInfo, buffers?, uniforms = {})`: throws what
     * `checkBuffers` throws, and otherwise starts from the checked buffers.
     */
    static method Create(glInfo: GLInfo, buffers: Option<map<string, BufferArray>>, uniforms: Option<map<string, Uniform>>) returns (r: Result<DrawItem>)
      ensures r.Err? <==> InitialBufferInfo(buffers).Err?
      ensures r.Err? ==> r.error == InitialBufferInfo(buffers).error
      ensures r.Ok? ==> fresh(r.value) && r.value.Valid() && r.value.glInfo == glInfo
      ensures r.Ok? ==> r.value.bufferInfo == InitialBufferInfo(buffers).value && r.value.uniforms == uniforms.GetOr(map[]) && r.value.trace == []
    {
      var info := InitialBufferInfo(buffers);
      if info.Err? {
        return Err(info.error);
      }
      var item := new DrawItem.Init(glInfo, info.value, uniforms.GetOr(map[]));
      return Ok(item);
    }

    /** `set glContext`: updates the shared binding object in place. */
    method SetGlContext(context: Handle)
      modifies glInfo
      ensures glInfo.gl == context && glInfo.programInfo == old(glInfo.programInfo)
    {
      glInfo.gl := context;
    }

    /** `set programInfo`: updates the shared binding object in place. */
    method SetProgramInfo(programInfo: Handle)
      modifies glInfo
      ensures glInfo.programInfo == programInfo && glInfo.gl == old(glInfo.gl)
    {
      glInfo.programInfo := programInfo;
    }

    /** `set glInfo`: replaces the binding. */
    method SetGlInfo(glInfo: GLInfo)
      requires Valid()
      modifies this
      ensures Valid()
      ensures this.glInfo == glInfo
      ensures bufferInfo == old(bufferInfo) && uniforms == old(uniforms) && trace == old(trace)
    {
      this.glInfo := glInfo;
    }

    method AddBufferArray(id: string, data: BufferArray) returns (r: Outcome)
      requires Valid()
      modifies this
      ensures Valid()
      ensures r == OutcomeOf(AddBufferArrayResult(old(bufferInfo), id, data))
      ensures bufferInfo == if r.Done? then AddBufferArrayResult(old(bufferInfo), id, data).value else old(bufferInfo)
      ensures uniforms == old(uniforms) && trace == old(trace) && glInfo == old(glInfo)
    {
      var next := AddBufferArrayResult(bufferInfo, id, data);
      if next.Err? {
        return Failed(next.error);
      }
      AddBufferArrayKeepsTuples(bufferInfo, id, data);
      bufferInfo := next.value;
      return Done;
    }

    method SetBufferArray(id: string, data: BufferArray) returns (r: Outcome)
      requires Valid()
      modifies this
      ensures Valid()
      ensures r == OutcomeOf(SetBufferArrayResult(old(bufferInfo), id, data))
      ensures bufferInfo == if r.Done? then SetBufferArrayResult(old(bufferInfo), id, data).value else old(bufferInfo)
      ensures uniforms == old(uniforms) && trace == old(trace) && glInfo == old(glInfo)
    {
      var next := SetBufferArrayResult(bufferInfo, id, data);
      if next.Err? {
        return Failed(next.error);
      }
      bufferInfo := next.value;
      return Done;
    }

    method SetBuffers(buffers: Option<map<string, BufferArray>>) returns (r: Outcome)
      requires Valid()
      modifies this
      ensures Valid()
      ensures r == OutcomeOf(SetBuffersResult(buffers))
      ensures bufferInfo == if r.Done? then SetBuffersResult(buffers).value else old(bufferInfo)
      ensures uniforms == old(uniforms) && trace == old(trace) && glInfo == old(glInfo)
    {
      var next := SetBuffersResult(buffers);
      if next.Err? {
        return Failed(next.error);
      }
      bufferInfo := next.value;
      return Done;
    }

    /** `setUniform(id, data)`: changes the one key. */
    method SetUniform(id: string, data: Uniform)
      requires Valid()
      modifies this
      ensures Valid()
      ensures uniforms.Keys == old(uniforms).Keys + {id} && uniforms[id] == data
      ensures forall other :: other in old(uniforms) && other != id ==> uniforms[other] == old(uniforms)[other]
      ensures bufferInfo == old(bufferInfo) && trace == old(trace) && glInfo == old(glInfo)
    {
      uniforms := uniforms[id := data];
    }

    /** `setUniforms(uniforms?)`: replaces the map; an omitted map resets it. */
    method SetUniforms(uniforms: Option<map<string, Uniform>>)
      requires Valid()
      modifies this
      ensures Valid()
      ensures this.uniforms == uniforms.GetOr(map[])
      ensures bufferInfo == old(bufferInfo) && trace == old(trace) && glInfo == old(glInfo)
    {
      this.uniforms := uniforms.GetOr(map[]);
    }

    /** `console.warn(message)`. */
    method Warn(message: string)
      requires Valid()
      modifies this
      ensures Valid()
      ensures trace == old(trace) + [Warning(message)]
      ensures bufferInfo == old(bufferInfo) && uniforms == old(uniforms) && glInfo == old(glInfo)
    {
      trace := trace + [Warning(message)];
    }

    /** `draw(mode?)`: the gated protocol, with its early return when there is no data. */
    method Draw(mode: Option<Mode>)
      requires Valid()
      modifies this
      ensures Valid()
      ensures trace == old(trace) + DrawEvents(glInfo.gl, glInfo.programInfo, bufferInfo, uniforms, mode)
      ensures bufferInfo == old(bufferInfo) && uniforms == old(uniforms) && glInfo == old(glInfo)
    {
      var buffersEmpty := bufferInfo.NumElements() == 0;
      var uniformsEmpty := uniforms == map[];
      if buffersEmpty && uniformsEmpty {
        Warn(NoDataWarning);
        return;
      }
      var calls := [Resize(glInfo.gl), Viewport(glInfo.gl)];
      if !buffersEmpty {
        calls := calls + [BindBuffers(glInfo.gl, glInfo.programInfo, bufferInfo)];
      }
      if !uniformsEmpty {
        calls := calls + [BindUniforms(glInfo.programInfo, uniforms)];
      }
      calls := calls + [DrawCall(glInfo.gl, bufferInfo, mode)];
      trace := trace + calls;
    }
  }
}
