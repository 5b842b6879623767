/**
 * The triangle-strip shape (src/Shape/index.ts): a drawable whose position
 * attribute holds at least three 2-D points, validated and sorted in place
 * whenever it is set through the dedicated path. The subclass is modelled by
 * composition: a Shape owns the DrawItem it specialises and delegates to it.
 */
module Shapes {
  import opened Outcomes
  import opened BufferArrays
  import opened GL
  import opened DrawItems

  const DefaultPositionAttribName := "a_position"

  const CardinalityMessage := "Position array must have a length of at least 3. If you'd like to draw a point or a line, use a DrawItem and configure the draw mode in the draw method call."

  const AddPositionWarning := "shape position was changed through Shape.addDataToBufferArray instead of Shape.setPositionArray, position data may be invalid"

  const SetPositionWarning := "shape position was changed through Shape.setBufferArray instead of Shape.setPositionArray, position data may be invalid"

  /** The comparator handed to `Array.sort`: by the second coordinate, then by the first. */
  function Compare(a: Tuple, b: Tuple): (r: int)
    requires |a| == 2 && |b| == 2
    ensures r < 0 <==> a[1] < b[1] || (a[1] == b[1] && a[0] < b[0])
    ensures r == 0 <==> a == b
  {
    assert a == [a[0], a[1]] && b == [b[0], b[1]];
    var zero := a[0] - b[0];
    var one := a[1] - b[1];
    if one != 0 then one else zero
  }

  /** `a` may precede `b` in the sorted order: ascending y, ties by ascending x. */
  predicate InOrder(a: Tuple, b: Tuple): (r: bool)
    ensures r <==> |a| == 2 && |b| == 2 && (a[1] < b[1] || (a[1] == b[1] && a[0] <= b[0]))
  {
    |a| == 2 && |b| == 2 && Compare(a, b) <= 0
  }

  ghost predicate SortedPositions(s: seq<Tuple>) {
    forall i, j :: 0 <= i < j < |s| ==> InOrder(s[i], s[j])
  }

  lemma InOrderTotal(a: Tuple, b: Tuple)
    requires |a| == 2 && |b| == 2
    ensures InOrder(a, b) || InOrder(b, a)
  {
  }

  lemma InOrderTransitive(a: Tuple, b: Tuple, c: Tuple)
    requires InOrder(a, b) && InOrder(b, c)
    ensures InOrder(a, c)
  {
  }

  /** Points that may precede each other are the same point: the order has no ties. */
  lemma InOrderAntisymmetric(a: Tuple, b: Tuple)
    requires InOrder(a, b) && InOrder(b, a)
    ensures a == b
  {
    assert a == [a[0], a[1]] && b == [b[0], b[1]];
  }

  /** Dropping the first point keeps an arrangement sorted. */
  lemma SortedTail(s: seq<Tuple>)
    requires SortedPositions(s) && s != []
    ensures SortedPositions(s[1..])
  {
    forall i, j | 0 <= i < j < |s[1..]| ensures InOrder(s[1..][i], s[1..][j]) {
      assert s[1..][i] == s[i + 1] && s[1..][j] == s[j + 1];
    }
  }

  /** Two sorted arrangements of the same points start with the same point. */
  lemma SortedHeadsEqual(s: seq<Tuple>, t: seq<Tuple>)
    requires SortedPositions(s) && SortedPositions(t)
    requires multiset(s) == multiset(t) && s != []
    ensures t != [] && s[0] == t[0]
  {
    assert |t| == |multiset(t)| == |multiset(s)| == |s|;
    assert s[0] in multiset(t);
    var k :| 0 <= k < |t| && t[k] == s[0];
    assert t[0] in multiset(s);
    var m :| 0 <= m < |s| && s[m] == t[0];
    if k != 0 && m != 0 {
      assert InOrder(t[0], t[k]) && InOrder(s[0], s[m]);
      InOrderAntisymmetric(s[0], t[0]);
    }
  }

  /**
   * The sorted order is canonical: two sorted arrangements of the same points
   * are equal, so the stored order depends only on the points given.
   */
  lemma {:induction false} SortedPositionsUnique(s: seq<Tuple>, t: seq<Tuple>)
    requires SortedPositions(s) && SortedPositions(t)
    requires multiset(s) == multiset(t)
    ensures s == t
    decreases |s|
  {
    if s == [] {
      assert |t| == |multiset(t)| == 0;
    } else {
      SortedHeadsEqual(s, t);
      assert s == [s[0]] + s[1..] && t == [t[0]] + t[1..];
      assert multiset(s[1..]) == multiset(s) - multiset{s[0]};
      assert multiset(t[1..]) == multiset(t) - multiset{t[0]};
      SortedTail(s);
      SortedTail(t);
      SortedPositionsUnique(s[1..], t[1..]);
    }
  }

  method Swap(a: array<Tuple>, i: nat, j: nat)
    requires i < a.Length && j < a.Length
    modifies a
    ensures a[..] == old(a[..])[i := old(a[j])][j := old(a[i])]
    ensures multiset(a[..]) == old(multiset(a[..]))
  {
    a[i], a[j] := a[j], a[i];
  }

  /** One insertion step: moves `a[i]` left into the sorted prefix `a[..i]`. */
  method InsertPosition(a: array<Tuple>, i: nat)
    requires 0 < i < a.Length
    requires AllOfArity(a[..], 2) && SortedPositions(a[..i])
    modifies a
    ensures AllOfArity(a[..], 2) && SortedPositions(a[..i + 1])
    ensures a[i + 1..] == old(a[i + 1..])
    ensures multiset(a[..]) == old(multiset(a[..]))
  {
    var j := i;
    while j > 0 && !InOrder(a[j - 1], a[j])
      invariant 0 <= j <= i
      invariant AllOfArity(a[..], 2)
      invariant forall x, y :: 0 <= x < y <= i && x != j && y != j ==> InOrder(a[x], a[y])
      invariant forall y :: j < y <= i ==> InOrder(a[j], a[y])
      invariant a[i + 1..] == old(a[i + 1..])
      invariant multiset(a[..]) == old(multiset(a[..]))
    {
      InOrderTotal(a[j - 1], a[j]);
      Swap(a, j - 1, j);
      j := j - 1;
    }
    forall x | 0 <= x < j
      ensures InOrder(a[x], a[j])
    {
      if x < j - 1 {
        InOrderTransitive(a[x], a[j - 1], a[j]);
      }
    }
  }

  /** `Array.sort` with the comparator above, on an array of 2-D points. */
  method SortPositions(a: array<Tuple>)
    requires AllOfArity(a[..], 2)
    modifies a
    ensures AllOfArity(a[..], 2) && SortedPositions(a[..])
    ensures multiset(a[..]) == old(multiset(a[..]))
  {
    if a.Length == 0 {
      return;
    }
    var i := 1;
    while i < a.Length
      invariant 1 <= i <= a.Length
      invariant AllOfArity(a[..], 2)
      invariant SortedPositions(a[..i])
      invariant multiset(a[..]) == old(multiset(a[..]))
    {
      InsertPosition(a, i);
      i := i + 1;
    }
    assert a[..] == a[..a.Length];
  }

  /** The position attribute's name: the argument, or `"a_position"` when it is omitted. */
  function AttribName(positionAttribName: Option<string>): (name: string) {
    positionAttribName.GetOr(DefaultPositionAttribName)
  }

  /** `{...buffers, [positionAttribName]: positions}`: the positions replace a same-named entry. */
  function WithPositions(buffers: Option<map<string, BufferArray>>, positionAttribName: string, positions: BufferArray): (m: map<string, BufferArray>)
    ensures m.Keys == buffers.GetOr(map[]).Keys + {positionAttribName} && m[positionAttribName] == positions
    ensures forall id :: id in buffers.GetOr(map[]) && id != positionAttribName ==> m[id] == buffers.GetOr(map[])[id]
  {
    buffers.GetOr(map[])[positionAttribName := positions]
  }

  /** A shape: the DrawItem it specialises plus the name of its position attribute. */
  class Shape {
    const item: DrawItem
    var positionAttribName: string

    ghost predicate Valid()
      reads this, item
    {
      item.Valid()
    }

    constructor Init(item: DrawItem, positionAttribName: string)
      ensures this.item == item && this.positionAttribName == positionAttribName
    {
      this.item := item;
      this.positionAttribName := positionAttribName;
    }

    /**
     * `checkPositionArray(data)`: fewer than three points throw a
     * ReferenceError before any arity check; a point without exactly two
     * components throws a TypeError; otherwise the caller's array is sorted in
     * place and is itself the result.
     */
    static method CheckPositionArray(data: array<Tuple>) returns (r: Result<array<Tuple>>)
      modifies data
      ensures data.Length < 3 ==> r == Err(ReferenceError(CardinalityMessage))
      ensures data.Length >= 3 && !AllOfArity(old(data[..]), 2) ==> r == Err(TypeError(BufferShapeMessage))
      ensures r.Ok? <==> data.Length >= 3 && AllOfArity(old(data[..]), 2)
      ensures r.Err? ==> data[..] == old(data[..])
      ensures r.Ok? ==> r.value == data && AllOfArity(data[..], 2) && SortedPositions(data[..])
      ensures r.Ok? ==> multiset(data[..]) == multiset(old(data[..]))
    {
      if data.Length < 3 {
        return Err(ReferenceError(CardinalityMessage));
      }
      if !CheckBufferArray(data[..], 2) {
        return Err(TypeError(BufferShapeMessage));
      }
      SortPositions(data);
      return Ok(data);
    }

    /**
     * `new Shape(glInfo, positions, positionAttribName = "a_position", buffers?, uniforms?)`:
     * checks and sorts the positions, then builds the DrawItem from the other
     * buffers with the positions stored under the attribute name, replacing a
     * same-named entry. The other buffers may still be rejected by the
     * DrawItem's own check, after the positions were sorted.
     */
    static method Create(glInfo: GLInfo, positions: array<Tuple>, positionAttribName: Option<string>,
                         buffers: Option<map<string, BufferArray>>, uniforms: Option<map<string, Uniform>>)
      returns (r: Result<Shape>)
      modifies positions
      ensures positions.Length < 3 ==> r == Err(ReferenceError(CardinalityMessage))
      ensures positions.Length >= 3 && !AllOfArity(old(positions[..]), 2) ==> r == Err(TypeError(BufferShapeMessage))
      ensures positions.Length < 3 || !AllOfArity(old(positions[..]), 2) ==> positions[..] == old(positions[..])
      ensures positions.Length >= 3 && AllOfArity(old(positions[..]), 2) ==>
        && SortedPositions(positions[..]) && multiset(positions[..]) == multiset(old(positions[..]))
        && (r.Ok? <==> forall id :: id in buffers.GetOr(map[]) && id != AttribName(positionAttribName) ==> Rectangular(buffers.GetOr(map[])[id]))
        && (r.Err? ==> r.error == TypeError(BufferShapeMessage))
      ensures r.Ok? ==> fresh(r.value) && fresh(r.value.item) && r.value.Valid()
      ensures r.Ok? ==> r.value.positionAttribName == AttribName(positionAttribName)
      ensures r.Ok? ==> r.value.item.bufferInfo == InitialBufferInfo(Some(WithPositions(buffers, AttribName(positionAttribName), positions[..]))).value
      ensures r.Ok? ==> r.value.item.bufferInfo.attribs[AttribName(positionAttribName)] == ToAttrib(positions[..])
      ensures r.Ok? ==> r.value.item.uniforms == uniforms.GetOr(map[]) && r.value.item.glInfo == glInfo && r.value.item.trace == []
    {
      var name := AttribName(positionAttribName);
      var checked := CheckPositionArray(positions);
      if checked.Err? {
        return Err(checked.error);
      }
      var merged := WithPositions(buffers, name, checked.value[..]);
      assert Rectangular(merged[name]);
      var item := DrawItem.Create(glInfo, Some(merged), uniforms);
      if item.Err? {
        return Err(item.error);
      }
      assert forall id :: id in merged ==> Rectangular(merged[id]);
      forall id | id in buffers.GetOr(map[]) && id != name
        ensures Rectangular(buffers.GetOr(map[])[id])
      {
        assert merged[id] == buffers.GetOr(map[])[id];
      }
      var shape := new Shape.Init(item.value, name);
      return Ok(shape);
    }

    /** `addDataToBufferArray`: warns when the position attribute is targeted, then appends anyway. */
    method AddDataToBufferArray(id: string, data: BufferArray) returns (r: Outcome)
      requires Valid()
      modifies item
      ensures Valid()
      ensures item.trace == old(item.trace) + if id == positionAttribName then [Warning(AddPositionWarning)] else []
      ensures r == OutcomeOf(AddBufferArrayResult(old(item.bufferInfo), id, data))
      ensures item.bufferInfo == if r.Done? then AddBufferArrayResult(old(item.bufferInfo), id, data).value else old(item.bufferInfo)
      ensures item.uniforms == old(item.uniforms) && item.glInfo == old(item.glInfo)
    {
      if id == positionAttribName {
        item.Warn(AddPositionWarning);
      }
      r := item.AddBufferArray(id, data);
    }

    /** `setBufferArray`: warns when the position attribute is targeted, then sets anyway. */
    method SetBufferArray(id: string, data: BufferArray) returns (r: Outcome)
      requires Valid()
      modifies item
      ensures Valid()
      ensures item.trace == old(item.trace) + if id == positionAttribName then [Warning(SetPositionWarning)] else []
      ensures r == OutcomeOf(SetBufferArrayResult(old(item.bufferInfo), id, data))
      ensures item.bufferInfo == if r.Done? then SetBufferArrayResult(old(item.bufferInfo), id, data).value else old(item.bufferInfo)
      ensures item.uniforms == old(item.uniforms) && item.glInfo == old(item.glInfo)
    {
      if id == positionAttribName {
        item.Warn(SetPositionWarning);
      }
      r := item.SetBufferArray(id, data);
    }

    /**
     * `setPositionArray(data)`: checks and sorts `data` in place, then writes it
     * through the base setter, so no warning is logged.
     */
    method SetPositionArray(data: array<Tuple>) returns (r: Outcome)
      requires Valid()
      modifies item, data
      ensures Valid()
      ensures data.Length < 3 ==> r == Failed(ReferenceError(CardinalityMessage))
      ensures data.Length >= 3 && !AllOfArity(old(data[..]), 2) ==> r == Failed(TypeError(BufferShapeMessage))
      ensures r.Done? <==> data.Length >= 3 && AllOfArity(old(data[..]), 2)
      ensures r.Failed? ==> data[..] == old(data[..]) && item.bufferInfo == old(item.bufferInfo)
      ensures r.Done? ==> SortedPositions(data[..]) && multiset(data[..]) == multiset(old(data[..]))
      ensures r.Done? ==> item.bufferInfo == SetBufferArrayResult(old(item.bufferInfo), positionAttribName, data[..]).value
      ensures r.Done? ==> item.bufferInfo.attribs[positionAttribName] == ToAttrib(data[..])
      ensures item.trace == old(item.trace) && item.uniforms == old(item.uniforms) && item.glInfo == old(item.glInfo)
    {
      var checked := CheckPositionArray(data);
      if checked.Err? {
        return Failed(checked.error);
      }
      r := item.SetBufferArray(positionAttribName, checked.value[..]);
    }

    /** `draw()`: always a triangle strip. */
    method Draw()
      requires Valid()
      modifies item
      ensures Valid()
      ensures item.trace == old(item.trace) + DrawEvents(item.glInfo.gl, item.glInfo.programInfo, item.bufferInfo, item.uniforms, Some(TRIANGLE_STRIP))
      ensures item.bufferInfo == old(item.bufferInfo) && item.uniforms == old(item.uniforms) && item.glInfo == old(item.glInfo)
    {
      item.Draw(Some(TRIANGLE_STRIP));
    }

    /** `set positionAttributeName`. */
    method SetPositionAttributeName(positionAttribName: string)
      requires Valid()
      modifies this
      ensures Valid()
      ensures this.positionAttribName == positionAttribName
    {
      this.positionAttribName := positionAttribName;
    }
  }
}
