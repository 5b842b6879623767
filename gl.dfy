/** The rendering-context binding and the values handed to it unexamined. */
module GL {

  /** An opaque handle to a WebGL context or to a compiled program. */
  type Handle = nat

  /** A WebGL primitive mode. */
  type Mode = nat

  /** WebGL's TRIANGLE_STRIP constant (0x0005). */
  const TRIANGLE_STRIP: Mode := 5

  /**
   * The pair (context, program) a drawable is bound to. It is an object
   * shared by reference: the drawables' setters update its fields in place.
   */
  class GLInfo {
    var gl: Handle
    var programInfo: Handle

    constructor (gl: Handle, programInfo: Handle)
      ensures this.gl == gl && this.programInfo == programInfo
    {
      this.gl := gl;
      this.programInfo := programInfo;
    }
  }

  /**
   * A uniform value. The core never looks inside one; this closed union
   * stands in for the `any` the drawables accept and pass on.
   */
  datatype Uniform = Scalar(x: real) | Vector(xs: seq<real>) | Text(s: string)
}
