/**
 * The legacy triangle-strip shape (src/Shape.ts): the same specialisation of
 * DrawItem with a fixed position attribute name, but with no cardinality
 * check and no sorting of the positions.
 */
module LegacyShapes {
  import opened Outcomes
  import opened BufferArrays
  import opened GL
  import opened DrawItems
  import Shapes

  const AddPositionWarning := "shape position was changed through Shape.addDataToBufferArray instead of Shape.setPosition, position data may be invalid"

  const SetPositionWarning := "shape position was changed through Shape.setBufferArray instead of Shape.setPosition, position data may be invalid"

  class Shape {
    const item: DrawItem
    /** Read-only: fixed at construction. */
    const positionAttribName: string

    ghost predicate Valid()
      reads this, item
    {
      item.Valid()
    }

    constructor Init(item: DrawItem, positionAttribName: string)
      ensures this.item == item && this.positionAttribName == positionAttribName
    {
      this.item := item;
      this.positionAttribName := positionAttribName;
    }

    /**
     * `new Shape(glInfo, positions, positionAttribName = "a_position", buffers?, uniforms?)`:
     * the positions replace a same-named entry of the buffers and go, unsorted,
     * through the DrawItem's rectangularity check with the rest.
     */
    static method Create(glInfo: GLInfo, positions: BufferArray, positionAttribName: Option<string>,
                         buffers: Option<map<string, BufferArray>>, uniforms: Option<map<string, Uniform>>)
      returns (r: Result<Shape>)
      ensures var merged := Shapes.WithPositions(buffers, Shapes.AttribName(positionAttribName), positions);
        r.Ok? <==> forall id :: id in merged ==> Rectangular(merged[id])
      ensures !Rectangular(positions) ==> r == Err(TypeError(BufferShapeMessage))
      ensures r.Err? ==> r.error == TypeError(BufferShapeMessage)
      ensures r.Ok? ==> fresh(r.value) && fresh(r.value.item) && r.value.Valid()
      ensures r.Ok? ==> r.value.positionAttribName == Shapes.AttribName(positionAttribName)
      ensures r.Ok? ==> r.value.item.bufferInfo == InitialBufferInfo(Some(Shapes.WithPositions(buffers, Shapes.AttribName(positionAttribName), positions))).value
      ensures r.Ok? ==> r.value.item.bufferInfo.attribs[Shapes.AttribName(positionAttribName)] == ToAttrib(positions)
      ensures r.Ok? ==> r.value.item.uniforms == uniforms.GetOr(map[]) && r.value.item.glInfo == glInfo && r.value.item.trace == []
    {
      var name := Shapes.AttribName(positionAttribName);
      var merged := Shapes.WithPositions(buffers, name, positions);
      var item := DrawItem.Create(glInfo, Some(merged), uniforms);
      if item.Err? {
        return Err(item.error);
      }
      var shape := new Shape.Init(item.value, name);
      return Ok(shape);
    }

    /** `addDataToBufferArray`: warns when the position attribute is targeted, then appends anyway. */
    method AddDataToBufferArray(id: string, data: BufferArray) returns (r: Outcome)
      requires Valid()
      modifies item
      ensures Valid()
      ensures item.trace == old(item.trace) + if id == positionAttribName then [Warning(AddPositionWarning)] else []
      ensures r == OutcomeOf(AddBufferArrayResult(old(item.bufferInfo), id, data))
      ensures item.bufferInfo == if r.Done? then AddBufferArrayResult(old(item.bufferInfo), id, data).value else old(item.bufferInfo)
      ensures item.uniforms == old(item.uniforms) && item.glInfo == old(item.glInfo)
    {
      if id == positionAttribName {
        item.Warn(AddPositionWarning);
      }
      r := item.AddBufferArray(id, data);
    }

    /** `setBufferArray`: warns when the position attribute is targeted, then sets anyway. */
    method SetBufferArray(id: string, data: BufferArray) returns (r: Outcome)
      requires Valid()
      modifies item
      ensures Valid()
      ensures item.trace == old(item.trace) + if id == positionAttribName then [Warning(SetPositionWarning)] else []
      ensures r == OutcomeOf(SetBufferArrayResult(old(item.bufferInfo), id, data))
      ensures item.bufferInfo == if r.Done? then SetBufferArrayResult(old(item.bufferInfo), id, data).value else old(item.bufferInfo)
      ensures item.uniforms == old(item.uniforms) && item.glInfo == old(item.glInfo)
    {
      if id == positionAttribName {
        item.Warn(SetPositionWarning);
      }
      r := item.SetBufferArray(id, data);
    }

    /** `draw()`: always a triangle strip. */
    method Draw()
      requires Valid()
      modifies item
      ensures Valid()
      ensures item.trace == old(item.trace) + DrawEvents(item.glInfo.gl, item.glInfo.programInfo, item.bufferInfo, item.uniforms, Some(TRIANGLE_STRIP))
      ensures item.bufferInfo == old(item.bufferInfo) && item.uniforms == old(item.uniforms) && item.glInfo == old(item.glInfo)
    {
      item.Draw(Some(TRIANGLE_STRIP));
    }
  }
}
