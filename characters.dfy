/** The keyboard-driven characters: a key press picks a unit movement
    direction (and, for Pacman, the matching facing), and each update moves
    the character's sprite at a fixed speed along that direction. Screen
    coordinates grow downwards, so "up" is y = -1. */
module Characters {
  import opened Vectors
  import opened Wrappers
  import opened Resources
  import opened Sprites

  /** GLFW key codes of the arrow keys and of W, A, S, D. */
  const KeyRight: int := 262
  const KeyLeft: int := 263
  const KeyDown: int := 264
  const KeyUp: int := 265
  const KeyA: int := 65
  const KeyD: int := 68
  const KeyS: int := 83
  const KeyW: int := 87

  /** Movement speed in pixels per second. */
  const MoveSpeed: real := 150.0

  /** One of the four unit vectors along the axes. */
  predicate IsUnitAxis(v: Vec2)
  {
    || (v.x == 0.0 && (v.y == 1.0 || v.y == -1.0))
    || (v.y == 0.0 && (v.x == 1.0 || v.x == -1.0))
  }

  predicate IsMovementKey(key: int)
  {
    key in {KeyUp, KeyW, KeyDown, KeyS, KeyLeft, KeyA, KeyRight, KeyD}
  }

  /** The input a key press selects: each arrow key and its letter twin pick
      the same unit direction; any other key selects nothing. */
  function KeyDirection(key: int): (d: Option<Vec2>)
    ensures d.Some? <==> IsMovementKey(key)
    ensures d.Some? ==> IsUnitAxis(d.value)
  {
    if key == KeyUp || key == KeyW then Some(Vec2(0.0, -1.0))
    else if key == KeyDown || key == KeyS then Some(Vec2(0.0, 1.0))
    else if key == KeyLeft || key == KeyA then Some(Vec2(-1.0, 0.0))
    else if key == KeyRight || key == KeyD then Some(Vec2(1.0, 0.0))
    else None
  }

  /** Pacman's facing in degrees for a key press, on exactly the keys that
      select a direction. */
  function KeyRotation(key: int): (r: Option<real>)
    ensures r.Some? <==> KeyDirection(key).Some?
    ensures r.Some? ==> -180.0 <= r.value <= 90.0
  {
    if key == KeyUp || key == KeyW then Some(-90.0)
    else if key == KeyDown || key == KeyS then Some(90.0)
    else if key == KeyLeft || key == KeyA then Some(-180.0)
    else if key == KeyRight || key == KeyD then Some(0.0)
    else None
  }

  /** Reference: the unit vector a sprite drawn facing +x points along after
      a rotation by a multiple of 90 degrees (cosine and sine of the angle). */
  function Heading(degrees: real): (h: Option<Vec2>)
    ensures h.Some? ==> IsUnitAxis(h.value)
  {
    if degrees == 0.0 then Some(Vec2(1.0, 0.0))
    else if degrees == 90.0 || degrees == -270.0 then Some(Vec2(0.0, 1.0))
    else if degrees == 180.0 || degrees == -180.0 then Some(Vec2(-1.0, 0.0))
    else if degrees == -90.0 || degrees == 270.0 then Some(Vec2(0.0, -1.0))
    else None
  }

  /** Pacman faces the way it moves: for every key, the rotation it sets
      turns the sprite onto the direction it sets. */
  lemma FacingMatchesDirection(key: int)
    ensures KeyRotation(key).Some? ==> Heading(KeyRotation(key).value) == KeyDirection(key)
  {
  }

  /** Opposite keys select opposite directions and facings half a turn
      apart. */
  lemma OppositeKeys()
    ensures KeyDirection(KeyUp).Some? && KeyDirection(KeyDown).Some?
    ensures KeyDirection(KeyLeft).Some? && KeyDirection(KeyRight).Some?
    ensures KeyDirection(KeyUp).value == Scale(KeyDirection(KeyDown).value, -1.0)
    ensures KeyDirection(KeyLeft).value == Scale(KeyDirection(KeyRight).value, -1.0)
    ensures KeyRotation(KeyDown).Some? && KeyRotation(KeyUp).Some?
    ensures KeyRotation(KeyRight).Some? && KeyRotation(KeyLeft).Some?
    ensures KeyRotation(KeyDown).value - KeyRotation(KeyUp).value == 180.0
    ensures KeyRotation(KeyRight).value - KeyRotation(KeyLeft).value == 180.0
  {
  }

  /** The input after a key press: the key's direction, or the old input
      when the key selects none. */
  function InputAfter(key: int, input: Vec2): (r: Vec2)
    ensures IsMovementKey(key) ==> IsUnitAxis(r)
    ensures !IsMovementKey(key) ==> r == input
  {
    match KeyDirection(key)
    case Some(d) => d
    case None => input
  }

  function AbsR(x: real): real
  {
    if x < 0.0 then -x else x
  }

  /** Displacement over `dt` seconds: input times speed times time. Along a
      unit axis it covers exactly `MoveSpeed * |dt|`, on one axis only. */
  function Velocity(input: Vec2, dt: real): (v: Vec2)
    ensures input == Zero2 ==> v == Zero2
    ensures IsUnitAxis(input) ==> (v.x == 0.0 || v.y == 0.0) && AbsR(v.x) + AbsR(v.y) == MoveSpeed * AbsR(dt)
  {
    Scale(Scale(input, MoveSpeed), dt)
  }

  /** A character that only walks. Its animated-sprite base is `body`. */
  class PlayableCharacter {
    const body: Sprite
    const divisions: int
    const frameDuration: real
    var input: Vec2

    constructor(rm: ResourceManager, divisions: int, frameDuration: real, texture: Texture?, position: Vec2, size: Vec2, color: Vec3)
      modifies rm`shaders
      ensures fresh(body) && body.Initial(position, size, color)
      ensures body.hasTexture && body.texture == texture
      ensures ShaderLoaded(old(rm.shaders), rm.shaders, SpriteShaderName, SpriteVertexPath, SpriteFragmentPath, body.shader)
      ensures SpriteShaderName !in old(rm.shaders) ==> fresh(body.shader) && body.shader.ints == map[]
      ensures this.divisions == divisions && this.frameDuration == frameDuration
      ensures input == Zero2
    {
      body := new Sprite.Textured(rm, texture, position, size, color);
      this.divisions := divisions;
      this.frameDuration := frameDuration;
      input := Zero2;
    }

    /** The last movement key pressed sets the input; other keys and the
        facing are left alone. */
    method OnKeyPressed(key: int)
      modifies this`input
      ensures input == InputAfter(key, old(input))
    {
      if key == KeyUp || key == KeyW {
        input := Vec2(0.0, -1.0);
      }
      if key == KeyDown || key == KeyS {
        input := Vec2(0.0, 1.0);
      }
      if key == KeyLeft || key == KeyA {
        input := Vec2(-1.0, 0.0);
      }
      if key == KeyRight || key == KeyD {
        input := Vec2(1.0, 0.0);
      }
    }

    /** Releasing a key does nothing. */
    method OnKeyReleased(key: int)
      ensures unchanged(this, body)
    {
    }

    /** Moves the body by the input over `dt` seconds. */
    method Update(dt: real)
      modifies body`position
      ensures body.position == Add(old(body.position), Velocity(input, dt))
    {
      body.AddPosition(Scale(Scale(input, MoveSpeed), dt));
    }
  }

  /** Pacman: walks like a playable character and also turns its sprite to
      face the direction of the last movement key. */
  class Pacman {
    const body: Sprite
    const divisions: int
    const frameDuration: real
    var input: Vec2

    constructor(rm: ResourceManager, divisions: int, frameDuration: real, texture: Texture?, position: Vec2, size: Vec2, color: Vec3)
      modifies rm`shaders
      ensures fresh(body) && body.Initial(position, size, color)
      ensures body.hasTexture && body.texture == texture
      ensures ShaderLoaded(old(rm.shaders), rm.shaders, SpriteShaderName, SpriteVertexPath, SpriteFragmentPath, body.shader)
      ensures SpriteShaderName !in old(rm.shaders) ==> fresh(body.shader) && body.shader.ints == map[]
      ensures this.divisions == divisions && this.frameDuration == frameDuration
      ensures input == Zero2
    {
      body := new Sprite.Textured(rm, texture, position, size, color);
      this.divisions := divisions;
      this.frameDuration := frameDuration;
      input := Zero2;
    }

    method OnKeyPressed(key: int)
      modifies this`input, body`rotation
      ensures input == InputAfter(key, old(input))
      ensures body.rotation == (match KeyRotation(key) case Some(r) => r case None => old(body.rotation))
    {
      if key == KeyUp || key == KeyW {
        input := Vec2(0.0, -1.0);
        body.SetRotation(-90.0);
      }
      if key == KeyDown || key == KeyS {
        input := Vec2(0.0, 1.0);
        body.SetRotation(90.0);
      }
      if key == KeyLeft || key == KeyA {
        input := Vec2(-1.0, 0.0);
        body.SetRotation(-180.0);
      }
      if key == KeyRight || key == KeyD {
        input := Vec2(1.0, 0.0);
        body.SetRotation(0.0);
      }
    }

    method OnKeyReleased(key: int)
      ensures unchanged(this, body)
    {
    }

    method Update(dt: real)
      modifies body`position
      ensures body.position == Add(old(body.position), Velocity(input, dt))
    {
      body.AddPosition(Scale(Scale(input, MoveSpeed), dt));
    }
  }
}
