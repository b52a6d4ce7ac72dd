/** The sprite pass of the entity renderer. Every entity that has both a
    Transform and a SpriteRenderer is drawn as one textured quad; before the
    draw the sprite shader's atlas uniforms are set from the entity's
    Flipbook or Tile component (or reset), and an entity whose box collider
    asks for it also gets its collider outline drawn as a debug line. An
    entity carrying both a Flipbook and a Tile is a fatal error that ends the
    program. Matrices and the GL calls are not modelled; the quad draw and
    the outline draw are recorded in a draw log. */
module RenderSystem {
  import opened Vectors
  import opened Resources
  import opened Components
  import opened SceneStore
  import opened Colliders
  import opened DebugShapes

  function Abs(n: int): int
  {
    if n < 0 then -n else n
  }

  /** The C cast `(int)x` of a float: rounds toward zero. */
  function Trunc(x: real): (n: int)
    ensures 0.0 <= x ==> n as real <= x < n as real + 1.0
    ensures x < 0.0 ==> n as real - 1.0 < x <= n as real
  {
    if 0.0 <= x then x.Floor else -((-x).Floor)
  }

  /** The C `%` on int, as repeated subtraction of the divisor's magnitude
      toward zero: the remainder keeps the sign of the dividend and is
      smaller than the divisor in magnitude. */
  function CRem(a: int, b: int): (r: int)
    requires b != 0
    ensures 0 <= a ==> 0 <= r < Abs(b)
    ensures a < 0 ==> -Abs(b) < r <= 0
    decreases Abs(a)
  {
    if -Abs(b) < a < Abs(b) then a
    else if 0 <= a then CRem(a - Abs(b), b)
    else CRem(a + Abs(b), b)
  }

  /** How many times CRem steps the dividend toward zero by the divisor's
      magnitude, counted with the dividend's sign. */
  function CSteps(a: int, b: int): int
    requires b != 0
    decreases Abs(a)
  {
    if -Abs(b) < a < Abs(b) then 0
    else if 0 <= a then CSteps(a - Abs(b), b) + 1
    else CSteps(a + Abs(b), b) - 1
  }

  lemma StepDistributes(q: int, m: int)
    ensures (q + 1) * m == q * m + m && (q - 1) * m == q * m - m
  {
  }

  /** The dividend is the remainder plus a whole number of divisors. */
  lemma {:induction false} CRemSteps(a: int, b: int)
    requires b != 0
    ensures a - CRem(a, b) == CSteps(a, b) * Abs(b)
    decreases Abs(a)
  {
    var m := Abs(b);
    if -m < a < m {
      assert CRem(a, b) == a && CSteps(a, b) == 0;
    } else if 0 <= a {
      CRemSteps(a - m, b);
      var q, r := CSteps(a - m, b), CRem(a - m, b);
      assert CRem(a, b) == r && CSteps(a, b) == q + 1;
      StepDistributes(q, m);
      assert a - r == (q + 1) * m;
    } else {
      CRemSteps(a + m, b);
      var q, r := CSteps(a + m, b), CRem(a + m, b);
      assert CRem(a, b) == r && CSteps(a, b) == q - 1;
      StepDistributes(q, m);
      assert a - r == (q - 1) * m;
    }
  }

  /** The C remainder differs from the dividend by a whole multiple of the
      divisor. */
  lemma CRemCongruent(a: int, b: int)
    requires b != 0
    ensures (a - CRem(a, b)) % Abs(b) == 0
  {
    CRemSteps(a, b);
    ModUnique(a - CRem(a, b), Abs(b), CSteps(a, b), 0);
  }

  lemma MulAtLeast(k: int, m: int)
    requires 1 <= k && 0 < m
    ensures m <= k * m
  {
    assert k * m == (k - 1) * m + m;
  }

  /** The remainder is determined: any split x = q * m + r with
      0 <= r < m has r == x % m. */
  lemma ModUnique(x: int, m: int, q: int, r: int)
    requires 0 < m && x == q * m + r && 0 <= r < m
    ensures x % m == r
  {
    var q2, r2 := x / m, x % m;
    assert x == q2 * m + r2;
    assert (q - q2) * m == r2 - r;
    if q > q2 {
      MulAtLeast(q - q2, m);
    } else if q < q2 {
      MulAtLeast(q2 - q, m);
    }
  }

  /** For a non-negative dividend and a positive divisor, C's `%` and the
      mathematical remainder agree. */
  lemma CRemIsMod(a: int, b: int)
    requires 0 <= a && 0 < b
    ensures CRem(a, b) == a % b
  {
    var r := CRem(a, b);
    CRemCongruent(a, b);
    var q := (a - r) / b;
    assert a - r == q * b + (a - r) % b;
    assert a == q * b + r;
    ModUnique(a, b, q, r);
  }

  lemma PeriodStep(k: nat, b: int)
    requires 0 < k
    ensures k * b == (k - 1) * b + b
  {
  }

  /** Adding whole periods of a positive divisor to a non-negative dividend
      does not change the remainder. */
  lemma {:induction false} CRemPeriodic(a: nat, b: int, k: nat)
    requires 0 < b
    ensures 0 <= a + k * b
    ensures CRem(a + k * b, b) == CRem(a, b)
    decreases k
  {
    if k == 0 {
      assert a + k * b == a;
    } else {
      CRemPeriodic(a, b, k - 1);
      PeriodStep(k, b);
      var m := a + (k - 1) * b;
      assert a + k * b == m + b;
      assert CRem(m + b, b) == CRem(m, b);
    }
  }

  /** A flipbook the pass can divide by: frame duration and division count
      are non-zero (otherwise the float-to-int cast or the `%` is undefined). */
  predicate FlipbookDefined(f: FlipbookComponent)
  {
    f.Divisions != 0 && f.FrameDuration != 0.0
  }

  /** `(int)(GetCurrentTime() / FrameDuration) % Divisions`: for a running
      clock and positive parameters the frame indexes one of the strip's
      cells. */
  function FlipbookFrame(f: FlipbookComponent): (frame: int)
    requires FlipbookDefined(f)
    ensures 0.0 <= f.CurrentTime && 0.0 < f.FrameDuration && 0 < f.Divisions ==> 0 <= frame < f.Divisions
  {
    assert 0.0 <= f.CurrentTime && 0.0 < f.FrameDuration ==> 0.0 <= f.CurrentTime / f.FrameDuration;
    CRem(Trunc(f.CurrentTime / f.FrameDuration), f.Divisions)
  }

  /** With a running clock and positive parameters the frame is the
      elapsed frame count modulo the strip length. */
  lemma FlipbookFrameIsMod(f: FlipbookComponent)
    requires 0.0 <= f.CurrentTime && 0.0 < f.FrameDuration && 0 < f.Divisions
    ensures 0 <= Trunc(f.CurrentTime / f.FrameDuration)
    ensures FlipbookFrame(f) == Trunc(f.CurrentTime / f.FrameDuration) % f.Divisions
  {
    NonNegativeQuotient(f.CurrentTime, f.FrameDuration);
    CRemIsMod(Trunc(f.CurrentTime / f.FrameDuration), f.Divisions);
  }

  lemma QuotientShift(t: real, d: real, k: nat)
    requires 0.0 < d
    ensures (t + (k as real) * d) / d == t / d + k as real
  {
  }

  lemma TruncShift(x: real, k: nat)
    requires 0.0 <= x
    ensures Trunc(x + k as real) == Trunc(x) + k
  {
  }

  /** The same flipbook `cycles` whole loops later on its clock: Divisions
      frames of FrameDuration each per loop. */
  function LoopsLater(f: FlipbookComponent, cycles: nat): (g: FlipbookComponent)
    ensures g.Divisions == f.Divisions && g.FrameDuration == f.FrameDuration
  {
    f.(CurrentTime := f.CurrentTime + ((cycles * f.Divisions) as real) * f.FrameDuration)
  }

  /** Whole loops later, the truncated frame count has grown by exactly
      cycles * Divisions. */
  lemma ElapsedFramesShift(f: FlipbookComponent, cycles: nat)
    requires 0.0 <= f.CurrentTime && 0.0 < f.FrameDuration && 0 < f.Divisions
    ensures 0.0 <= f.CurrentTime / f.FrameDuration
    ensures Trunc(LoopsLater(f, cycles).CurrentTime / f.FrameDuration)
         == Trunc(f.CurrentTime / f.FrameDuration) + cycles * f.Divisions
  {
    var k: nat := cycles * f.Divisions;
    var q := f.CurrentTime / f.FrameDuration;
    var later := LoopsLater(f, cycles).CurrentTime;
    assert later == f.CurrentTime + (k as real) * f.FrameDuration;
    QuotientShift(f.CurrentTime, f.FrameDuration, k);
    assert later / f.FrameDuration == q + k as real;
    assert 0.0 <= q by {
      NonNegativeQuotient(f.CurrentTime, f.FrameDuration);
    }
    TruncShift(q, k);
  }

  lemma NonNegativeQuotient(t: real, d: real)
    requires 0.0 <= t && 0.0 < d
    ensures 0.0 <= t / d
  {
  }

  /** The animation loops: whole loops later the same frame is shown. */
  lemma {:induction false} FlipbookLoops(f: FlipbookComponent, cycles: nat)
    requires 0.0 <= f.CurrentTime && 0.0 < f.FrameDuration && 0 < f.Divisions
    ensures FlipbookFrame(LoopsLater(f, cycles)) == FlipbookFrame(f)
  {
    ElapsedFramesShift(f, cycles);
    var n: nat := Trunc(f.CurrentTime / f.FrameDuration);
    CRemPeriodic(n, f.Divisions, cycles);
  }

  /** The atlas uniforms of one entity, written as the loop body writes
      them. */
  function AtlasUniforms(u: map<string, int>, cs: map<Kind, Component>): map<string, int>
    requires WellKinded(cs)
    requires FlipbookKind in cs ==> FlipbookDefined(cs[FlipbookKind].flipbook)
  {
    if FlipbookKind in cs then
      var f := cs[FlipbookKind].flipbook;
      u[XDivisions := f.Divisions][FrameUniform := FlipbookFrame(f)]
    else if TileKind in cs then
      var t := cs[TileKind].tile;
      u[XDivisions := t.Divisions.x][YDivisions := t.Divisions.y][FrameUniform := t.TileIndex]
    else
      u[XDivisions := 1][YDivisions := 1][FrameUniform := 0]
  }

  /** A flipbook writes the strip width and the current frame and leaves
      "yDivisions" at whatever the previous draw set; a tile writes the atlas
      shape and its cell; an entity with neither resets the shader to the
      single-cell atlas 1 x 1, cell 0. No other uniform changes. */
  lemma AtlasUniformsSpec(u: map<string, int>, cs: map<Kind, Component>)
    requires WellKinded(cs)
    requires FlipbookKind in cs ==> FlipbookDefined(cs[FlipbookKind].flipbook)
    ensures var r := AtlasUniforms(u, cs);
      && (FlipbookKind in cs ==>
        && Agrees(u, r, {XDivisions, FrameUniform})
        && r[XDivisions] == cs[FlipbookKind].flipbook.Divisions
        && r[FrameUniform] == FlipbookFrame(cs[FlipbookKind].flipbook))
      && (FlipbookKind !in cs && TileKind in cs ==>
        && Agrees(u, r, {XDivisions, YDivisions, FrameUniform})
        && r[XDivisions] == cs[TileKind].tile.Divisions.x
        && r[YDivisions] == cs[TileKind].tile.Divisions.y
        && r[FrameUniform] == cs[TileKind].tile.TileIndex)
      && (FlipbookKind !in cs && TileKind !in cs ==>
        && Agrees(u, r, {XDivisions, YDivisions, FrameUniform})
        && r[XDivisions] == 1 && r[YDivisions] == 1 && r[FrameUniform] == 0)
  {
  }

  /** What the pass leaves behind for one entity: a quad drawn with the
      shader's integer uniforms as they stand, the tint and the bound texture
      (null when the sprite has none), or the outline of a collision box. */
  datatype Draw =
    | Quad(entity: nat, uniforms: map<string, int>, tint: Vec4, texture: Texture?)
    | Outline(points: seq<Vec2>)

  /** The sprite shader's integer uniforms, the draws so far, and whether a
      fatal error has ended the program. */
  datatype PassState = PassState(uniforms: map<string, int>, draws: seq<Draw>, halted: bool)

  /** An entity the view yields and the pass can process. */
  ghost predicate Drawable(cs: map<Kind, Component>)
  {
    && WellKinded(cs)
    && TransformKind in cs && SpriteRendererKind in cs
    && (FlipbookKind in cs ==> FlipbookDefined(cs[FlipbookKind].flipbook))
  }

  /** Both animation sources at once: `Log::Critical`, which exits. */
  predicate Conflict(cs: map<Kind, Component>)
  {
    FlipbookKind in cs && TileKind in cs
  }

  /** The outline drawn for an entity whose collider has debug drawing on,
      and nothing otherwise. */
  function ColliderDraws(cs: map<Kind, Component>): (ds: seq<Draw>)
    requires Drawable(cs)
    ensures |ds| <= 1
    ensures |ds| == 1 <==> BoxColliderKind in cs && cs[BoxColliderKind].boxCollider.DrawDebugCollision
    ensures forall i :: 0 <= i < |ds| ==> ds[i].Outline?
  {
    if BoxColliderKind in cs && cs[BoxColliderKind].boxCollider.DrawDebugCollision then
      var t := cs[TransformKind].transform;
      var c := cs[BoxColliderKind].boxCollider;
      [Outline(BoxOutline(WorldCollider(t.Position, t.Size, t.Pivot, c.Position, c.Size)))]
    else
      []
  }

  /** The uniforms a quad is drawn with: the atlas uniforms, then the
      texture unit of a textured sprite. */
  function EntityUniforms(u: map<string, int>, cs: map<Kind, Component>): map<string, int>
    requires Drawable(cs)
  {
    var atlas := AtlasUniforms(u, cs);
    if cs[SpriteRendererKind].spriteRenderer.Texture != null then atlas[ImageUniform := 0] else atlas
  }

  /** "image" is set to texture unit 0 exactly for a sprite with a texture;
      an untextured sprite leaves it at whatever an earlier draw set. */
  lemma EntityUniformsSpec(u: map<string, int>, cs: map<Kind, Component>)
    requires Drawable(cs)
    ensures var r := EntityUniforms(u, cs);
      && (cs[SpriteRendererKind].spriteRenderer.Texture != null ==>
          Agrees(AtlasUniforms(u, cs), r, {ImageUniform}) && r[ImageUniform] == 0)
      && (cs[SpriteRendererKind].spriteRenderer.Texture == null ==> r == AtlasUniforms(u, cs))
  {
  }

  /** The quad drawn for entity `id`. */
  function QuadOf(u: map<string, int>, id: nat, cs: map<Kind, Component>): (d: Draw)
    requires Drawable(cs)
    ensures d.Quad? && d.entity == id && d.uniforms == EntityUniforms(u, cs)
    ensures d.tint == cs[SpriteRendererKind].spriteRenderer.ColorTint
    ensures d.texture == cs[SpriteRendererKind].spriteRenderer.Texture
  {
    var sprite := cs[SpriteRendererKind].spriteRenderer;
    Quad(id, EntityUniforms(u, cs), sprite.ColorTint, sprite.Texture)
  }

  /** What one entity adds to the draw log: its quad, then its collider
      outline if any. */
  function EntityDraws(u: map<string, int>, id: nat, cs: map<Kind, Component>): (ds: seq<Draw>)
    requires Drawable(cs)
    ensures 1 <= |ds| && ds[0] == QuadOf(u, id, cs) && ds[1..] == ColliderDraws(cs)
  {
    [QuadOf(u, id, cs)] + ColliderDraws(cs)
  }

  /** One iteration of the view loop. */
  function StepEntity(s: PassState, id: nat, cs: map<Kind, Component>): (r: PassState)
    requires Drawable(cs)
    ensures r.halted == (s.halted || Conflict(cs))
    ensures r.halted ==> r.uniforms == s.uniforms && r.draws == s.draws
    ensures !r.halted ==>
      r.uniforms == EntityUniforms(s.uniforms, cs) && r.draws == s.draws + EntityDraws(s.uniforms, id, cs)
  {
    if s.halted then s
    else if Conflict(cs) then s.(halted := true)
    else PassState(EntityUniforms(s.uniforms, cs), s.draws + EntityDraws(s.uniforms, id, cs), false)
  }

  /** Extending the view by one entity is one more step. */
  lemma PassSnoc(store: map<nat, map<Kind, Component>>, order: seq<nat>, u0: map<string, int>, k: nat)
    requires PassInput(store, order) && k < |order|
    ensures PassInput(store, order[..k]) && PassInput(store, order[..k + 1])
    ensures Pass(store, order[..k + 1], u0) == StepEntity(Pass(store, order[..k], u0), order[k], store[order[k]])
  {
    assert order[..k + 1][..k] == order[..k];
  }

  ghost predicate PassInput(store: map<nat, map<Kind, Component>>, order: seq<nat>)
  {
    forall i :: 0 <= i < |order| ==> order[i] in store && Drawable(store[order[i]])
  }

  /** The whole pass over the entities in view order, starting from the
      shader's uniforms `u0`. */
  ghost function Pass(store: map<nat, map<Kind, Component>>, order: seq<nat>, u0: map<string, int>): PassState
    requires PassInput(store, order)
    decreases |order|
  {
    if order == [] then PassState(u0, [], false)
    else
      var last := order[|order| - 1];
      StepEntity(Pass(store, order[..|order| - 1], u0), last, store[last])
  }

  /** The entity ids of the quads in a draw log, in order. */
  function QuadIds(ds: seq<Draw>): seq<nat>
  {
    if ds == [] then []
    else QuadIds(ds[..|ds| - 1]) + (if ds[|ds| - 1].Quad? then [ds[|ds| - 1].entity] else [])
  }

  lemma {:induction false} QuadIdsAppend(a: seq<Draw>, b: seq<Draw>)
    ensures QuadIds(a + b) == QuadIds(a) + QuadIds(b)
    decreases |b|
  {
    if b != [] {
      var b' := b[..|b| - 1];
      assert (a + b)[..|a + b| - 1] == a + b';
      QuadIdsAppend(a, b');
    } else {
      assert a + b == a;
    }
  }

  lemma {:induction false} QuadIdsOutlines(ds: seq<Draw>)
    requires forall i :: 0 <= i < |ds| ==> ds[i].Outline?
    ensures QuadIds(ds) == []
    decreases |ds|
  {
    if ds != [] {
      QuadIdsOutlines(ds[..|ds| - 1]);
    }
  }

  /** The pass ends the program exactly when some entity in view carries
      both a Flipbook and a Tile. */
  lemma {:induction false} PassHaltsIffConflict(store: map<nat, map<Kind, Component>>, order: seq<nat>, u0: map<string, int>)
    requires PassInput(store, order)
    ensures Pass(store, order, u0).halted <==> exists i :: 0 <= i < |order| && Conflict(store[order[i]])
    decreases |order|
  {
    if order != [] {
      var init := order[..|order| - 1];
      var last := order[|order| - 1];
      var p := Pass(store, init, u0);
      PassHaltsIffConflict(store, init, u0);
      assert Pass(store, order, u0) == StepEntity(p, last, store[last]);
      if p.halted {
        var i :| 0 <= i < |init| && Conflict(store[init[i]]);
        assert order[i] == init[i];
        assert Conflict(store[order[i]]);
      } else if Conflict(store[last]) {
        assert Conflict(store[order[|init|]]);
      } else {
        forall i | 0 <= i < |order|
          ensures !Conflict(store[order[i]])
        {
          if i < |init| {
            assert init[i] == order[i];
          }
        }
      }
    }
  }

  /** A step that draws adds exactly one quad, for its own entity. */
  lemma StepQuadIds(s: PassState, id: nat, cs: map<Kind, Component>)
    requires Drawable(cs) && !s.halted && !Conflict(cs)
    ensures QuadIds(StepEntity(s, id, cs).draws) == QuadIds(s.draws) + [id]
  {
    var quad := [QuadOf(s.uniforms, id, cs)];
    QuadIdsAppend(quad, ColliderDraws(cs));
    QuadIdsAppend(s.draws, EntityDraws(s.uniforms, id, cs));
    QuadIdsOutlines(ColliderDraws(cs));
    assert QuadIds(quad) == [id] by {
      assert quad[..0] == [];
    }
  }

  /** The first k entities of the view, drawn without a conflict, leave one
      quad each, in view order. */
  lemma {:induction false} PassPrefixQuads(store: map<nat, map<Kind, Component>>, order: seq<nat>, u0: map<string, int>, k: nat)
    requires PassInput(store, order) && k <= |order|
    requires PassInput(store, order[..k]) && !Pass(store, order[..k], u0).halted
    ensures QuadIds(Pass(store, order[..k], u0).draws) == order[..k]
    decreases k
  {
    if k == 0 {
      assert order[..0] == [];
    } else {
      PassSnoc(store, order, u0, k - 1);
      var p := Pass(store, order[..k - 1], u0);
      PassPrefixQuads(store, order, u0, k - 1);
      StepQuadIds(p, order[k - 1], store[order[k - 1]]);
      PrefixSnoc(order, k);
    }
  }

  lemma PrefixSnoc(s: seq<nat>, k: nat)
    requires 0 < k <= |s|
    ensures s[..k - 1] + [s[k - 1]] == s[..k]
  {
  }

  /** A pass that runs to completion draws one quad per entity in view, in
      view order; outlines come in between. */
  lemma PassDrawsEveryEntity(store: map<nat, map<Kind, Component>>, order: seq<nat>, u0: map<string, int>)
    requires PassInput(store, order)
    requires !Pass(store, order, u0).halted
    ensures QuadIds(Pass(store, order, u0).draws) == order
  {
    assert order[..|order|] == order;
    PassPrefixQuads(store, order, u0, |order|);
  }

  /** The first conflicting entity stops the pass: nothing it or any later
      entity would have drawn or set is produced. */
  lemma {:induction false} PassStopsAtConflict(store: map<nat, map<Kind, Component>>, order: seq<nat>, u0: map<string, int>, k: nat)
    requires PassInput(store, order)
    requires k < |order| && Conflict(store[order[k]])
    ensures Pass(store, order, u0).halted
    ensures Pass(store, order, u0).draws == Pass(store, order[..k], u0).draws
    ensures Pass(store, order, u0).uniforms == Pass(store, order[..k], u0).uniforms
    decreases |order|
  {
    var init := order[..|order| - 1];
    if k < |init| {
      assert init[k] == order[k];
      PassStopsAtConflict(store, init, u0, k);
      assert init[..k] == order[..k];
    } else {
      assert init == order[..k];
    }
  }

  /** `order` lists, once each, exactly the entities holding both a
      Transform and a SpriteRenderer: the registry view the pass walks. */
  ghost predicate IsView(store: map<nat, map<Kind, Component>>, order: seq<nat>)
  {
    && (forall i, j :: 0 <= i < j < |order| ==> order[i] != order[j])
    && (forall id :: id in order <==>
          id in store && TransformKind in store[id] && SpriteRendererKind in store[id])
  }

  /** Every flipbook in the registry can be divided by. */
  ghost predicate FlipbooksDefined(store: map<nat, map<Kind, Component>>)
  {
    forall id :: id in store && FlipbookKind in store[id] && KindOf(store[id][FlipbookKind]) == FlipbookKind ==>
      FlipbookDefined(store[id][FlipbookKind].flipbook)
  }

  lemma ViewIsPassInput(scene: Scene, order: seq<nat>)
    requires scene.Valid() && IsView(scene.entities, order) && FlipbooksDefined(scene.entities)
    ensures PassInput(scene.entities, order)
  {
    forall i | 0 <= i < |order|
      ensures order[i] in scene.entities && Drawable(scene.entities[order[i]])
    {
      assert order[i] in order;
    }
  }

  /** The pass with the sprite shader the renderer holds. */
  class Renderer {
    const scene: Scene
    const spriteShader: Shader

    /** `Renderer(scene)`: keeps the scene and loads (or reuses) the shader
        cached as "SpriteShader". */
    constructor(scene: Scene, rm: ResourceManager)
      requires SpriteShaderName in rm.shaders ==> rm.shaders[SpriteShaderName] != null
      modifies rm`shaders
      ensures this.scene == scene
      ensures SpriteShaderName in old(rm.shaders) ==>
        rm.shaders == old(rm.shaders) && spriteShader == old(rm.shaders)[SpriteShaderName]
      ensures SpriteShaderName !in old(rm.shaders) ==>
        && fresh(spriteShader) && spriteShader.ints == map[]
        && spriteShader.vertexPath == SpriteVertexPath && spriteShader.fragmentPath == SpriteFragmentPath
        && rm.shaders == old(rm.shaders)[SpriteShaderName := spriteShader]
    {
      this.scene := scene;
      var s := rm.LoadShader(SpriteVertexPath, SpriteFragmentPath, SpriteShaderName);
      spriteShader := s;
    }

    /** Sets the atlas uniforms of one entity through the entity's component
        queries, as the loop body does. */
    method SetAtlas(e: Entity)
      requires e.Bound() && e.scene.Valid() && Drawable(e.scene.entities[e.handle.id])
      requires !Conflict(e.scene.entities[e.handle.id])
      modifies spriteShader`ints
      ensures spriteShader.ints == AtlasUniforms(old(spriteShader.ints), e.scene.entities[e.handle.id])
    {
      var hasFlipbook := e.HasComponent(FlipbookKind);
      if hasFlipbook {
        var c := e.GetComponent(FlipbookKind);
        var f := c.flipbook;
        var frame := CRem(Trunc(f.CurrentTime / f.FrameDuration), f.Divisions);
        spriteShader.SetInt(XDivisions, f.Divisions);
        spriteShader.SetInt(FrameUniform, frame);
        return;
      }
      var hasTile := e.HasComponent(TileKind);
      if hasTile {
        var c := e.GetComponent(TileKind);
        var t := c.tile;
        spriteShader.SetInt(XDivisions, t.Divisions.x);
        spriteShader.SetInt(YDivisions, t.Divisions.y);
        spriteShader.SetInt(FrameUniform, t.TileIndex);
      } else {
        spriteShader.SetInt(XDivisions, 1);
        spriteShader.SetInt(YDivisions, 1);
        spriteShader.SetInt(FrameUniform, 0);
      }
    }

    /** Draws the collider outline of one entity when its collider asks for
        it, loading the debug shader on first use. */
    method DrawCollider(rm: ResourceManager, e: Entity) returns (ds: seq<Draw>)
      requires e.Bound() && e.scene.Valid() && Drawable(e.scene.entities[e.handle.id])
      requires DebugShaderName in rm.shaders ==> rm.shaders[DebugShaderName] != null
      modifies rm`shaders
      ensures ds == ColliderDraws(e.scene.entities[e.handle.id])
      ensures DebugShaderName in rm.shaders ==> rm.shaders[DebugShaderName] != null
      ensures ds == [] ==> rm.shaders == old(rm.shaders)
      ensures GainedAtMost(old(rm.shaders), rm.shaders, DebugShaderName)
    {
      ds := [];
      var hasCollider := e.HasComponent(BoxColliderKind);
      if hasCollider {
        var c := e.GetComponent(BoxColliderKind);
        var collider := c.boxCollider;
        if collider.DrawDebugCollision {
          var tc := e.GetComponent(TransformKind);
          var transform := tc.transform;
          var box := WorldCollider(transform.Position, transform.Size, transform.Pivot, collider.Position, collider.Size);
          var points := BoxOutline(box);
          var _ := DrawLine(rm, points);
          ds := [Outline(points)];
        }
      }
    }

    /** The loop body for an entity without a Flipbook/Tile conflict: the
        atlas uniforms, the texture unit, the quad, then the collider
        outline. */
    method RenderEntity(rm: ResourceManager, e: Entity) returns (ds: seq<Draw>)
      requires e.Bound() && e.scene.Valid() && Drawable(e.scene.entities[e.handle.id])
      requires !Conflict(e.scene.entities[e.handle.id])
      requires DebugShaderName in rm.shaders ==> rm.shaders[DebugShaderName] != null
      modifies spriteShader`ints, rm`shaders
      ensures spriteShader.ints == EntityUniforms(old(spriteShader.ints), e.scene.entities[e.handle.id])
      ensures ds == EntityDraws(old(spriteShader.ints), e.handle.id, e.scene.entities[e.handle.id])
      ensures DebugShaderName in rm.shaders ==> rm.shaders[DebugShaderName] != null
      ensures GainedAtMost(old(rm.shaders), rm.shaders, DebugShaderName)
    {
      SetAtlas(e);
      var c := e.GetComponent(SpriteRendererKind);
      var sprite := c.spriteRenderer;
      if sprite.Texture != null {
        spriteShader.SetInt(ImageUniform, 0);
      }
      var outline := DrawCollider(rm, e);
      ds := [Quad(e.handle.id, spriteShader.ints, sprite.ColorTint, sprite.Texture)] + outline;
    }

    /** One iteration of the view loop, for the k-th entity of the view:
        either the conflict that ends the program (nothing is set or drawn),
        or the pass extended by that entity. */
    method Advance(rm: ResourceManager, order: seq<nat>, k: nat, ghost u0: map<string, int>)
      returns (more: seq<Draw>, conflict: bool)
      requires scene.Valid() && PassInput(scene.entities, order) && k < |order|
      requires spriteShader.ints == Pass(scene.entities, order[..k], u0).uniforms
      requires !Pass(scene.entities, order[..k], u0).halted
      requires DebugShaderName in rm.shaders ==> rm.shaders[DebugShaderName] != null
      modifies spriteShader`ints, rm`shaders
      ensures conflict <==> Conflict(scene.entities[order[k]])
      ensures conflict ==> spriteShader.ints == old(spriteShader.ints) && rm.shaders == old(rm.shaders)
      ensures !conflict ==>
        && !Pass(scene.entities, order[..k + 1], u0).halted
        && spriteShader.ints == Pass(scene.entities, order[..k + 1], u0).uniforms
        && Pass(scene.entities, order[..k + 1], u0).draws == Pass(scene.entities, order[..k], u0).draws + more
      ensures DebugShaderName in rm.shaders ==> rm.shaders[DebugShaderName] != null
      ensures GainedAtMost(old(rm.shaders), rm.shaders, DebugShaderName)
    {
      var id := order[k];
      PassSnoc(scene.entities, order, u0, k);
      var e := Entity(Live(id), scene);
      var hasFlipbook := e.HasComponent(FlipbookKind);
      var hasTile := e.HasComponent(TileKind);
      conflict := hasFlipbook && hasTile;
      more := [];
      if !conflict {
        more := RenderEntity(rm, e);
      }
    }

    /** `RenderSprites`: walks the (Transform, SpriteRenderer) view in the
        registry's iteration order `order`. The result is the specified pass:
        the shader's uniforms, the draw log and whether the program ended.
        No component of any entity changes. */
    method RenderSprites(rm: ResourceManager, order: seq<nat>) returns (draws: seq<Draw>, halted: bool)
      requires scene.Valid() && IsView(scene.entities, order) && FlipbooksDefined(scene.entities)
      requires DebugShaderName in rm.shaders ==> rm.shaders[DebugShaderName] != null
      modifies spriteShader`ints, rm`shaders
      ensures PassInput(scene.entities, order)
      ensures var p := Pass(scene.entities, order, old(spriteShader.ints));
        spriteShader.ints == p.uniforms && draws == p.draws && halted == p.halted
      ensures GainedAtMost(old(rm.shaders), rm.shaders, DebugShaderName)
    {
      ViewIsPassInput(scene, order);
      ghost var u0 := spriteShader.ints;
      draws, halted := [], false;
      var k := 0;
      while k < |order|
        invariant 0 <= k <= |order|
        invariant spriteShader.ints == Pass(scene.entities, order[..k], u0).uniforms
        invariant draws == Pass(scene.entities, order[..k], u0).draws
        invariant !Pass(scene.entities, order[..k], u0).halted
        invariant DebugShaderName in rm.shaders ==> rm.shaders[DebugShaderName] != null
        invariant GainedAtMost(old(rm.shaders), rm.shaders, DebugShaderName)
      {
        ghost var before := rm.shaders;
        var more, conflict := Advance(rm, order, k, u0);
        GainedAtMostTrans(old(rm.shaders), before, rm.shaders, DebugShaderName);
        if conflict {
          PassStopsAtConflict(scene.entities, order, u0, k);
          halted := true;
          return;
        }
        draws := draws + more;
        k := k + 1;
      }
      assert order[..k] == order;
    }
  }
}
