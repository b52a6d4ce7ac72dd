/** Stand-alone sprites: a textured or plain quad with a transform, three
    flip flags and a fixed box collider, and the tile sprite that draws one
    cell of a texture atlas. Matrices and GL calls are not modelled; a draw is
    seen through the integer uniforms it leaves on the shader. Rotation is
    kept in degrees, the unit the setters take. */
module Sprites {
  import opened Vectors
  import opened Wrappers
  import opened Resources
  import opened Colliders
  import opened DebugShapes

  class Sprite {
    var shader: Shader?
    var texture: Texture?
    var hasTexture: bool

    var position: Vec2
    var rotation: real
    var pivot: Vec2
    var size: Vec2
    var color: Vec3

    var flipHorizontal: bool
    var flipVertical: bool
    var flipDiagonal: bool

    /** The private box collider keeps its member initialisers: no offset,
        the sprite's own size. */
    const colliderOrigin: Vec2 := Zero2
    const colliderSize: Vec2 := Vec2(1.0, 1.0)

    var hasCollision: bool
    var drawCollision: bool

    /** Everything but the shader and the texture as a fresh sprite has it. */
    ghost predicate Initial(position: Vec2, size: Vec2, color: Vec3)
      reads this
    {
      && this.position == position && this.size == size && this.color == color
      && rotation == 0.0 && pivot == Vec2(0.5, 0.5)
      && !flipHorizontal && !flipVertical && !flipDiagonal
      && !hasCollision && !drawCollision
    }

    /** `Sprite(position, size, color)`: takes the cached "SpriteShader" (loading
        it on first use) and keeps the transform; no texture. */
    constructor Plain(rm: ResourceManager, position: Vec2, size: Vec2, color: Vec3)
      modifies rm`shaders
      ensures Initial(position, size, color)
      ensures !hasTexture && texture == null
      ensures SpriteShaderName in rm.shaders && rm.shaders[SpriteShaderName] == shader
      ensures ShaderLoaded(old(rm.shaders), rm.shaders, SpriteShaderName, SpriteVertexPath, SpriteFragmentPath, shader)
      ensures SpriteShaderName !in old(rm.shaders) ==> fresh(shader) && shader.ints == map[]
    {
      var s := rm.LoadShader(SpriteVertexPath, SpriteFragmentPath, SpriteShaderName);
      shader := s;
      texture := null;
      hasTexture := false;
      this.position, this.size, this.color := position, size, color;
      rotation := 0.0;
      pivot := Vec2(0.5, 0.5);
      flipHorizontal, flipVertical, flipDiagonal := false, false, false;
      hasCollision, drawCollision := false, false;
    }

    /** `Sprite(texture, position, size, color)`: as the plain constructor,
        then the texture is kept and marked present. */
    constructor Textured(rm: ResourceManager, texture: Texture?, position: Vec2, size: Vec2, color: Vec3)
      modifies rm`shaders
      ensures Initial(position, size, color)
      ensures hasTexture && this.texture == texture
      ensures SpriteShaderName in rm.shaders && rm.shaders[SpriteShaderName] == shader
      ensures ShaderLoaded(old(rm.shaders), rm.shaders, SpriteShaderName, SpriteVertexPath, SpriteFragmentPath, shader)
      ensures SpriteShaderName !in old(rm.shaders) ==> fresh(shader) && shader.ints == map[]
    {
      var s := rm.LoadShader(SpriteVertexPath, SpriteFragmentPath, SpriteShaderName);
      shader := s;
      this.texture := texture;
      hasTexture := true;
      this.position, this.size, this.color := position, size, color;
      rotation := 0.0;
      pivot := Vec2(0.5, 0.5);
      flipHorizontal, flipVertical, flipDiagonal := false, false, false;
      hasCollision, drawCollision := false, false;
    }

    /** The uniform side of `Draw`: a textured sprite points "image" at
        texture unit 0; no other integer uniform is written. */
    method Draw()
      requires shader != null && (hasTexture ==> texture != null)
      modifies shader`ints
      ensures hasTexture ==> shader.ints == old(shader.ints)[ImageUniform := 0]
      ensures !hasTexture ==> shader.ints == old(shader.ints)
    {
      if hasTexture {
        shader.SetInt(ImageUniform, 0);
      }
    }

    method SetPosition(position: Vec2)
      modifies this`position
      ensures this.position == position
    {
      this.position := position;
    }

    /** Moves the sprite; its collider moves with it by the same offset. */
    method AddPosition(offset: Vec2)
      modifies this`position
      ensures position == Add(old(position), offset)
      ensures GetColliderData().WorldOrigin == Add(old(GetColliderData().WorldOrigin), offset)
      ensures GetColliderData().WorldSize == old(GetColliderData().WorldSize)
    {
      position := Add(position, offset);
    }

    /** Rotation in degrees (the source converts to radians on store). */
    method SetRotation(degrees: real)
      modifies this`rotation
      ensures rotation == degrees
    {
      rotation := degrees;
    }

    method AddRotation(degrees: real)
      modifies this`rotation
      ensures rotation == old(rotation) + degrees
    {
      rotation := rotation + degrees;
    }

    method SetScale(scale: Vec2)
      modifies this`size
      ensures size == scale
    {
      size := scale;
    }

    method SetFlipHorizontal(flip: bool)
      modifies this`flipHorizontal
      ensures flipHorizontal == flip
    {
      flipHorizontal := flip;
    }

    method SetFlipVertical(flip: bool)
      modifies this`flipVertical
      ensures flipVertical == flip
    {
      flipVertical := flip;
    }

    method SetFlipDiagonal(flip: bool)
      modifies this`flipDiagonal
      ensures flipDiagonal == flip
    {
      flipDiagonal := flip;
    }

    /** Back to the identity transform: at the origin, unrotated, unit size,
        no flips. Pivot, colour, texture, shader and collision flags stay. */
    method ResetTransform()
      modifies this`position, this`rotation, this`size, this`flipHorizontal, this`flipVertical, this`flipDiagonal
      ensures position == Zero2 && rotation == 0.0 && size == Vec2(1.0, 1.0)
      ensures !flipHorizontal && !flipVertical && !flipDiagonal
    {
      position := Vec2(0.0, 0.0);
      rotation := 0.0;
      size := Vec2(1.0, 1.0);
      flipHorizontal, flipVertical, flipDiagonal := false, false, false;
    }

    /** Turns collision on whatever the argument says. */
    method SetCollisionEnabled(enable: bool)
      modifies this`hasCollision
      ensures hasCollision
    {
      hasCollision := true;
    }

    /** Turns collision drawing on in a debug build (`debugBuild` stands for
        `_DEBUG`) and does nothing otherwise; the argument is not read. */
    method SetDrawCollision(enable: bool, debugBuild: bool)
      modifies this`drawCollision
      ensures debugBuild ==> drawCollision
      ensures !debugBuild ==> drawCollision == old(drawCollision)
    {
      if debugBuild {
        drawCollision := true;
      }
    }

    /** The collider in world space. With the fixed collider it is centred
        on the pivot point and exactly as large as the sprite; with the
        centred pivot its outline runs along the drawn quad. */
    function GetColliderData(): (d: ColliderData)
      reads this
      ensures d.WorldOrigin == Add(position, Mul(size, pivot))
      ensures d.WorldSize == size
      ensures pivot == Vec2(0.5, 0.5) ==>
        BoxOutline(d)[0] == position && BoxOutline(d)[2] == Add(position, size)
    {
      DefaultOutlineIsQuad(position, size);
      WorldCollider(position, size, pivot, colliderOrigin, colliderSize)
    }

    /** Draws the collider outline, five points closing the box, when
        collision drawing is on; otherwise nothing happens. */
    method DrawCollision(rm: ResourceManager) returns (line: Option<LineDraw>)
      requires DebugShaderName in rm.shaders ==> rm.shaders[DebugShaderName] != null
      modifies rm`shaders
      ensures !drawCollision ==> line == None && rm.shaders == old(rm.shaders)
      ensures drawCollision ==>
        && line.Some? && line.value.data == Flatten(BoxOutline(GetColliderData()))
        && line.value.count == 5 && line.value.color == LineColor
      ensures GainedAtMost(old(rm.shaders), rm.shaders, DebugShaderName)
    {
      if !drawCollision {
        return None;
      }
      var colData := GetColliderData();
      var boxPoints := BoxOutline(colData);
      var l := DrawLine(rm, boxPoints);
      line := Some(l);
    }
  }

  /** `SetCurrentTileIndex`'s rule: an index above the cell count `max` is
      pulled down to `max`; anything else, negative values included, is kept. */
  function ClampTileIndex(index: int, max: int): (r: int)
    ensures r <= max
    ensures index <= max ==> r == index
    ensures index > max ==> r == max
  {
    if index > max then max else index
  }

  /** Clamping twice is clamping once. */
  lemma ClampIdempotent(index: int, max: int)
    ensures ClampTileIndex(ClampTileIndex(index, max), max) == ClampTileIndex(index, max)
  {
  }

  /** The uniforms a tile sprite draws with: the atlas shape and cell
      written over `u`, and the texture unit for a textured sprite. */
  function TileUniforms(u: map<string, int>, divisions: IVec2, index: int, textured: bool): (d: map<string, int>)
    ensures Agrees(u, d, {XDivisions, YDivisions, FrameUniform} + (if textured then {ImageUniform} else {}))
    ensures d[XDivisions] == divisions.x && d[YDivisions] == divisions.y && d[FrameUniform] == index
    ensures textured ==> d[ImageUniform] == 0
  {
    var atlas := u[XDivisions := divisions.x][YDivisions := divisions.y][FrameUniform := index];
    if textured then atlas[ImageUniform := 0] else atlas
  }

  /** A sprite that draws one cell of an atlas of `divisions.x` by
      `divisions.y` cells; `sprite` is its Sprite part. */
  class TileSprite {
    const sprite: Sprite
    var divisions: IVec2
    var tileIndex: int

    /** Builds the textured sprite, keeps the atlas shape, starts at cell 0. */
    constructor(rm: ResourceManager, divisions: IVec2, texture: Texture?, position: Vec2, size: Vec2, color: Vec3)
      modifies rm`shaders
      ensures fresh(sprite) && sprite.Initial(position, size, color)
      ensures sprite.hasTexture && sprite.texture == texture
      ensures ShaderLoaded(old(rm.shaders), rm.shaders, SpriteShaderName, SpriteVertexPath, SpriteFragmentPath, sprite.shader)
      ensures SpriteShaderName !in old(rm.shaders) ==> fresh(sprite.shader) && sprite.shader.ints == map[]
      ensures this.divisions == divisions && tileIndex == 0
    {
      sprite := new Sprite.Textured(rm, texture, position, size, color);
      this.divisions := divisions;
      tileIndex := 0;
    }

    method SetCurrentTileIndex(index: int)
      modifies this`tileIndex
      ensures tileIndex == ClampTileIndex(index, divisions.x * divisions.y)
    {
      var maxPossible := divisions.x * divisions.y;
      if index > maxPossible {
        tileIndex := maxPossible;
        return;
      }
      tileIndex := index;
    }

    /** Draws the current cell: the atlas uniforms hold this sprite's shape
        and cell while the sprite draws (`during`), and are reset to the
        single-cell atlas 1 x 1, cell 0 afterwards. */
    method Draw() returns (ghost during: map<string, int>)
      requires sprite.shader != null && (sprite.hasTexture ==> sprite.texture != null)
      modifies sprite.shader`ints
      ensures Agrees(old(sprite.shader.ints), during,
        {XDivisions, YDivisions, FrameUniform} + (if sprite.hasTexture then {ImageUniform} else {}))
      ensures during[XDivisions] == divisions.x && during[YDivisions] == divisions.y
      ensures during[FrameUniform] == tileIndex
      ensures sprite.hasTexture ==> during[ImageUniform] == 0
      ensures sprite.shader.ints == during[XDivisions := 1][YDivisions := 1][FrameUniform := 0]
    {
      var shader := sprite.shader;
      ghost var u0 := shader.ints;
      shader.SetInt(XDivisions, divisions.x);
      shader.SetInt(YDivisions, divisions.y);
      shader.SetInt(FrameUniform, tileIndex);
      sprite.Draw();
      during := shader.ints;
      assert during == TileUniforms(u0, divisions, tileIndex, sprite.hasTexture);
      shader.SetInt(XDivisions, 1);
      shader.SetInt(YDivisions, 1);
      shader.SetInt(FrameUniform, 0);
    }

    /** The sum of the two division counts (not the cell count, which is
        their product). */
    function GetTileAmount(): (n: int)
      reads this
      ensures n == divisions.x + divisions.y
    {
      divisions.x + divisions.y
    }
  }
}
