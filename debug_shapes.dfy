/** Debug line drawing: a polyline is flattened into an interleaved x, y float
    buffer and drawn as one line strip with the solid-colour "Debug" shader,
    which is loaded the first time it is needed. */
module DebugShapes {
  import opened Vectors
  import opened Resources

  const DebugShaderName: string := "Debug"
  const DebugVertexPath: string := "res/shaders/debug/solid_color.vert"
  const DebugFragmentPath: string := "res/shaders/debug/solid_color.frag"

  /** Every debug line is drawn green. */
  const LineColor: Vec3 := Vec3(0.0, 1.0, 0.0)

  /** One line-strip draw: the shader used, the vertex buffer, the vertex
      count handed to the draw call and the colour uniform. */
  datatype LineDraw = LineDraw(shader: Shader?, data: seq<real>, count: nat, color: Vec3)

  /** The interleaved buffer x0, y0, x1, y1, ... of a polyline. */
  function Flatten(vertices: seq<Vec2>): (data: seq<real>)
    ensures |data| == 2 * |vertices|
  {
    if vertices == [] then [] else Flatten(vertices[..|vertices| - 1]) + [vertices[|vertices| - 1].x, vertices[|vertices| - 1].y]
  }

  /** Entry 2k of the buffer is x of vertex k and entry 2k+1 its y: the input
      order is preserved. */
  lemma {:induction false} FlattenEntries(vertices: seq<Vec2>, k: nat)
    requires k < |vertices|
    ensures Flatten(vertices)[2 * k] == vertices[k].x
    ensures Flatten(vertices)[2 * k + 1] == vertices[k].y
  {
    var init := vertices[..|vertices| - 1];
    if k < |init| {
      FlattenEntries(init, k);
      assert vertices[k] == init[k];
    }
  }

  /** Flattening distributes over concatenation of polylines. */
  lemma {:induction false} FlattenAppend(a: seq<Vec2>, b: seq<Vec2>)
    ensures Flatten(a + b) == Flatten(a) + Flatten(b)
  {
    if b == [] {
      assert a + b == a;
    } else {
      var b' := b[..|b| - 1];
      assert (a + b)[..|a + b| - 1] == a + b';
      FlattenAppend(a, b');
    }
  }

  /** The flattening loop: two floats appended per vertex. */
  method FlattenVertices(vertices: seq<Vec2>) returns (vertData: seq<real>)
    ensures vertData == Flatten(vertices)
  {
    vertData := [];
    var k := 0;
    while k < |vertices|
      invariant 0 <= k <= |vertices|
      invariant vertData == Flatten(vertices[..k])
    {
      var vert := vertices[k];
      assert vertices[..k + 1][..k] == vertices[..k];
      vertData := vertData + [vert.x];
      vertData := vertData + [vert.y];
      k := k + 1;
    }
    assert vertices[..k] == vertices;
  }

  /** `DebugShapes::DrawLine`: loads the "Debug" shader only when no shader
      of that name is cached, then draws the flattened polyline as a line
      strip of one vertex per input point, in green. A "Debug" entry holding
      no shader (left by an earlier lookup) would be dereferenced, so the
      entry is required to be absent or non-null. */
  method DrawLine(rm: ResourceManager, vertices: seq<Vec2>) returns (line: LineDraw)
    requires DebugShaderName in rm.shaders ==> rm.shaders[DebugShaderName] != null
    modifies rm`shaders
    ensures DebugShaderName in old(rm.shaders) ==> rm.shaders == old(rm.shaders)
    ensures DebugShaderName !in old(rm.shaders) ==>
      && line.shader != null && fresh(line.shader)
      && line.shader.vertexPath == DebugVertexPath && line.shader.fragmentPath == DebugFragmentPath
      && rm.shaders == old(rm.shaders)[DebugShaderName := line.shader]
    ensures DebugShaderName in rm.shaders && rm.shaders[DebugShaderName] == line.shader && line.shader != null
    ensures GainedAtMost(old(rm.shaders), rm.shaders, DebugShaderName)
    ensures line.data == Flatten(vertices) && line.count == |vertices| && line.color == LineColor
  {
    if !rm.HasShader(DebugShaderName) {
      var _ := rm.LoadShader(DebugVertexPath, DebugFragmentPath, DebugShaderName);
    }
    var shader := rm.GetShader(DebugShaderName);
    var vertData := FlattenVertices(vertices);
    line := LineDraw(shader, vertData, |vertData| / 2, Vec3(0.0, 1.0, 0.0));
  }
}
