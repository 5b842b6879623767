/**
 * The earlier, self-contained drawable store (src/DrawObject/index.ts): buffer
 * arrays and uniforms kept in plain maps that the setters update in place,
 * with the same rectangularity rule and no call into the rendering library.
 */
module DrawObjects {
  import opened Outcomes
  import opened BufferArrays
  import opened GL

  /** `checkBufferArray(bufferArray)`: every tuple has the first tuple's length. */
  predicate CheckBufferArray(bufferArray: BufferArray): (ok: bool)
    ensures ok <==> Rectangular(bufferArray)
  {
    forall i :: 0 <= i < |bufferArray| ==> |bufferArray[i]| == |bufferArray[0]|
  }

  /** The `forEach` of `setBuffers`: each entry is checked and the first failure throws. */
  method CheckBufferArrays(buffers: map<string, BufferArray>) returns (r: Outcome)
    ensures r.Done? <==> forall id :: id in buffers ==> Rectangular(buffers[id])
    ensures r.Failed? ==> r.error == TypeError(BufferShapeMessage)
  {
    var pending := buffers.Keys;
    while pending != {}
      invariant pending <= buffers.Keys
      invariant forall id :: id in buffers && id !in pending ==> Rectangular(buffers[id])
      decreases pending
    {
      var id :| id in pending;
      if !CheckBufferArray(buffers[id]) {
        return Failed(TypeError(BufferShapeMessage));
      }
      pending := pending - {id};
    }
    return Done;
  }

  /**
   * `addBufferData(id, data)` as intended: the entry must exist, the new tuples
   * are appended to the stored ones, and the combined array must be
   * rectangular. (The source spreads the tuples into `concat`; see
   * `AddBufferDataAsWritten`.)
   */
  function AddBufferDataResult(buffers: map<string, BufferArray>, id: string, data: BufferArray): (r: Result<BufferArray>)
    ensures id !in buffers ==> r == Err(ReferenceError(NoBufferMessage(id)))
    ensures id in buffers ==> (r.Ok? <==> Rectangular(buffers[id] + data))
    ensures id in buffers && r.Err? ==> r.error == TypeError(BufferShapeMessage)
    ensures r.Ok? ==> |r.value| == |buffers[id]| + |data| && r.value[..|buffers[id]|] == buffers[id] && r.value[|buffers[id]|..] == data
  {
    if id !in buffers then Err(ReferenceError(NoBufferMessage(id)))
    else
      var check := buffers[id] + data;
      if !CheckBufferArray(check) then Err(TypeError(BufferShapeMessage))
      else Ok(check)
  }

  /** Appending to a non-empty rectangular array succeeds exactly when every new tuple has its arity. */
  lemma AppendKeepsRectangular(stored: BufferArray, data: BufferArray)
    requires Rectangular(stored) && stored != []
    ensures Rectangular(stored + data) <==> AllOfArity(data, |stored[0]|)
  {
    var n := |stored[0]|;
    if AllOfArity(data, n) {
      forall i, j | 0 <= i < |stored + data| && 0 <= j < |stored + data|
        ensures |(stored + data)[i]| == |(stored + data)[j]|
      {
        assert |(stored + data)[i]| == n && |(stored + data)[j]| == n;
      }
    }
    if Rectangular(stored + data) {
      forall i | 0 <= i < |data| ensures |data[i]| == n {
        assert (stored + data)[|stored| + i] == data[i];
        assert (stored + data)[0] == stored[0];
      }
    }
  }

  class DrawObject {
    var glInfo: GLInfo
    var buffers: map<string, BufferArray>
    var uniforms: map<string, Uniform>

    /** Every stored array is rectangular. The constructor does not check it; the setters keep it. */
    ghost predicate AllRectangular()
      reads this
    {
      forall id :: id in buffers ==> Rectangular(buffers[id])
    }

    /** `new DrawObject(glInfo, buffers = {}, uniforms = {})`: stores its arguments unchecked. */
    constructor (glInfo: GLInfo, buffers: Option<map<string, BufferArray>>, uniforms: Option<map<string, Uniform>>)
      ensures this.glInfo == glInfo && this.buffers == buffers.GetOr(map[]) && this.uniforms == uniforms.GetOr(map[])
    {
      this.glInfo := glInfo;
      this.buffers := buffers.GetOr(map[]);
      this.uniforms := uniforms.GetOr(map[]);
    }

    /** `set glContext`: updates the shared binding object in place. */
    method SetGlContext(context: Handle)
      modifies glInfo
      ensures glInfo.gl == context && glInfo.programInfo == old(glInfo.programInfo)
    {
      glInfo.gl := context;
    }

    /** `set programInfo`: updates the shared binding object in place. */
    method SetProgramInfo(programInfo: Handle)
      modifies glInfo
      ensures glInfo.programInfo == programInfo && glInfo.gl == old(glInfo.gl)
    {
      glInfo.programInfo := programInfo;
    }

    /** `addBufferData(id, data)`: assigns the combined array only when it passes the check. */
    method AddBufferData(id: string, data: BufferArray) returns (r: Outcome)
      modifies this
      ensures r == OutcomeOf(AddBufferDataResult(old(buffers), id, data))
      ensures buffers == if r.Done? then old(buffers)[id := AddBufferDataResult(old(buffers), id, data).value] else old(buffers)
      ensures old(AllRectangular()) ==> AllRectangular()
      ensures uniforms == old(uniforms) && glInfo == old(glInfo)
    {
      var check := AddBufferDataResult(buffers, id, data);
      if check.Err? {
        return Failed(check.error);
      }
      buffers := buffers[id := check.value];
      return Done;
    }

    /** `setBufferData(id, data)`: checks `data`, then changes only the entry `id`. */
    method SetBufferData(id: string, data: BufferArray) returns (r: Outcome)
      modifies this
      ensures r.Done? <==> Rectangular(data)
      ensures r.Failed? ==> r.error == TypeError(BufferShapeMessage)
      ensures buffers == if r.Done? then old(buffers)[id := data] else old(buffers)
      ensures old(AllRectangular()) ==> AllRectangular()
      ensures uniforms == old(uniforms) && glInfo == old(glInfo)
    {
      if !CheckBufferArray(data) {
        return Failed(TypeError(BufferShapeMessage));
      }
      buffers := buffers[id := data];
      return Done;
    }

    /** `setBuffers(buffers)`: checks every entry before replacing the map; on failure the old map stays. */
    method SetBuffers(buffers: map<string, BufferArray>) returns (r: Outcome)
      modifies this
      ensures r.Done? <==> forall id :: id in buffers ==> Rectangular(buffers[id])
      ensures r.Failed? ==> r.error == TypeError(BufferShapeMessage)
      ensures this.buffers == if r.Done? then buffers else old(this.buffers)
      ensures r.Done? ==> AllRectangular()
      ensures uniforms == old(uniforms) && glInfo == old(glInfo)
    {
      r := CheckBufferArrays(buffers);
      if r.Done? {
        this.buffers := buffers;
      }
    }

    /** `setUniform(id, data)`: changes the one key. */
    method SetUniform(id: string, data: Uniform)
      modifies this
      ensures uniforms.Keys == old(uniforms).Keys + {id} && uniforms[id] == data
      ensures forall other :: other in old(uniforms) && other != id ==> uniforms[other] == old(uniforms)[other]
      ensures buffers == old(buffers) && glInfo == old(glInfo)
    {
      uniforms := uniforms[id := data];
    }

    /** `setUniforms(uniforms)`: replaces the whole map. */
    method SetUniforms(uniforms: map<string, Uniform>)
      modifies this
      ensures this.uniforms == uniforms
      ensures buffers == old(buffers) && glInfo == old(glInfo)
    {
      this.uniforms := uniforms;
    }
  }

  /*
   * As written, `addBufferData` builds `this.buffers[id].concat(...data)`.
   * `concat` spreads each array argument one level, so the new tuples arrive
   * as bare numbers, whose `length` is undefined, next to the stored tuples.
   */

  /** An element of the concatenated array: a stored tuple or a bare number from a spread tuple. */
  datatype Element = Nested(items: Tuple) | Bare(x: Number)

  /** `v.length`: undefined (`None`) for a number. */
  function ElementLength(e: Element): (n: Option<nat>) {
    if e.Nested? then Some(|e.items|) else None
  }

  /**
   * `stored.concat(...data)`: the stored tuples stay nested, and after them
   * come the new tuples' components as bare numbers, in order.
   */
  function SpreadConcat(stored: BufferArray, data: BufferArray): (r: seq<Element>)
    ensures |r| == |stored| + |Flatten(data)|
    ensures forall i :: 0 <= i < |r| ==> (r[i].Nested? <==> i < |stored|)
    ensures forall i :: 0 <= i < |stored| ==> r[i].items == stored[i]
    ensures forall k :: 0 <= k < |Flatten(data)| ==> r[|stored| + k].x == Flatten(data)[k]
  {
    seq(|stored|, i requires 0 <= i < |stored| => Nested(stored[i]))
    + seq(|Flatten(data)|, i requires 0 <= i < |Flatten(data)| => Bare(Flatten(data)[i]))
  }

  /**
   * `checkBufferArray` applied to the concatenation: `v.length === a[0].length`
   * for every element. It holds exactly when every element is a bare number
   * (`undefined === undefined`) or every element is a tuple of the first
   * tuple's length.
   */
  predicate CheckElements(a: seq<Element>): (ok: bool)
    ensures ok <==>
      || (forall i :: 0 <= i < |a| ==> a[i].Bare?)
      || (forall i :: 0 <= i < |a| ==> a[i].Nested? && a[0].Nested? && |a[i].items| == |a[0].items|)
  {
    forall i :: 0 <= i < |a| ==> ElementLength(a[i]) == ElementLength(a[0])
  }

  /**
   * `addBufferData(id, data)` as written. A missing entry throws the
   * ReferenceError; with nothing new to append the stored array is checked on
   * its own; and an empty stored array accepts any data, stored as bare numbers.
   */
  function AddBufferDataAsWritten(buffers: map<string, BufferArray>, id: string, data: BufferArray): (r: Result<seq<Element>>)
    ensures id !in buffers ==> r == Err(ReferenceError(NoBufferMessage(id)))
    ensures id in buffers && r.Err? ==> r.error == TypeError(BufferShapeMessage)
    ensures id in buffers && Flatten(data) == [] ==> (r.Ok? <==> Rectangular(buffers[id]))
    ensures id in buffers && buffers[id] == [] ==>
      r.Ok? && |r.value| == |Flatten(data)| && forall k :: 0 <= k < |r.value| ==> r.value[k] == Bare(Flatten(data)[k])
  {
    if id !in buffers then Err(ReferenceError(NoBufferMessage(id)))
    else
      var check := SpreadConcat(buffers[id], data);
      if !CheckElements(check) then Err(TypeError(BufferShapeMessage))
      else Ok(check)
  }

  /**
   * As written, every append of at least one number to a non-empty buffer is
   * rejected, however well its tuples match the stored arity.
   */
  lemma AddBufferDataAsWrittenRejectsAppends(buffers: map<string, BufferArray>, id: string, data: BufferArray)
    requires id in buffers && buffers[id] != [] && Flatten(data) != []
    ensures AddBufferDataAsWritten(buffers, id, data) == Err(TypeError(BufferShapeMessage))
  {
    var check := SpreadConcat(buffers[id], data);
    assert check[0] == Nested(buffers[id][0]);
    assert check[|buffers[id]|] == Bare(Flatten(data)[0]);
  }

  /** As written, appending `[[1, 2]]` to an empty buffer stores the bare numbers 1 and 2. */
  lemma AddBufferDataAsWrittenStoresNumbers()
    ensures AddBufferDataAsWritten(map["a" := []], "a", [[1, 2]]) == Ok([Bare(1), Bare(2)])
  {
    var data: BufferArray := [[1, 2]];
    assert Flatten(data) == [1, 2];
    var r := AddBufferDataAsWritten(map["a" := []], "a", data);
    assert r.Ok? && |r.value| == 2;
    assert r.value[0] == Bare(1) && r.value[1] == Bare(2);
    assert r.value == [Bare(1), Bare(2)];
  }

  /** The input that shows it: appending `[[2, 3]]` to `[[0, 1]]`. */
  lemma AddBufferDataCounterexample()
    ensures AddBufferDataAsWritten(map["a_test" := [[0, 1]]], "a_test", [[2, 3]]) == Err(TypeError(BufferShapeMessage))
    ensures AddBufferDataResult(map["a_test" := [[0, 1]]], "a_test", [[2, 3]]) == Ok([[0, 1], [2, 3]])
  {
    var stored: BufferArray := [[0, 1]];
    var data: BufferArray := [[2, 3]];
    assert Flatten(data) == [2, 3];
    AddBufferDataAsWrittenRejectsAppends(map["a_test" := stored], "a_test", data);
    assert stored + data == [[0, 1], [2, 3]];
    assert Rectangular(stored + data);
  }
}
