/** The resource cache: shaders and textures held under logical names.
    GPU work (compiling programs, uploading images, deleting them) is not
    modelled; a shader remembers the files it was built from and the integer
    uniforms last written to it, a texture remembers its file and GL name. */
module Resources {

  /** The shader every sprite draws with, as both sprite paths load it. */
  const SpriteShaderName: string := "SpriteShader"
  const SpriteVertexPath: string := "res/shaders/sprite.vert"
  const SpriteFragmentPath: string := "res/shaders/sprite.frag"

  /** The integer uniforms of the sprite shader: the atlas shape, the atlas
      cell drawn, and the texture unit sampled. */
  const XDivisions: string := "xDivisions"
  const YDivisions: string := "yDivisions"
  const FrameUniform: string := "frame"
  const ImageUniform: string := "image"

  /** `r` is `u` with exactly the uniforms in `written` set (to values the
      caller states) and every other uniform untouched. */
  predicate Agrees(u: map<string, int>, r: map<string, int>, written: set<string>)
  {
    && r.Keys == u.Keys + written
    && forall key :: key in u && key !in written ==> r[key] == u[key]
  }

  class Shader {
    const vertexPath: string
    const fragmentPath: string
    /** The integer uniforms written through SetInt, by uniform name. */
    var ints: map<string, int>
    /** Set once glDeleteProgram has been issued for this program. */
    var released: bool

    /** `std::make_shared<Shader>()` followed by `Load(vertPath, fragPath)`. */
    constructor Load(vertPath: string, fragPath: string)
      ensures vertexPath == vertPath && fragmentPath == fragPath
      ensures ints == map[] && !released
    {
      vertexPath, fragmentPath := vertPath, fragPath;
      ints := map[];
      released := false;
    }

    /** Shader::SetInt: the named uniform takes the value, the others keep theirs. */
    method SetInt(name: string, value: int)
      modifies this`ints
      ensures ints == old(ints)[name := value]
    {
      ints := ints[name := value];
    }
  }

  class Texture {
    const path: string
    /** The GL texture name; it is chosen by the driver, so it is a parameter. */
    const ID: nat
    var released: bool

    constructor Load(path: string, glName: nat)
      ensures this.path == path && ID == glName && !released
    {
      this.path, ID := path, glName;
      released := false;
    }
  }

  /** What `LoadShader(vert, frag, name)` leaves behind, as seen by its
      callers: a cached name gives back the cached entry and leaves the
      cache as it was; a new name gains one non-null shader built from the
      two paths, and every other entry stays as it was. */
  predicate ShaderLoaded(before: map<string, Shader?>, after: map<string, Shader?>,
                         name: string, vert: string, frag: string, s: Shader?)
  {
    && (name in before ==> s == before[name] && after == before)
    && (name !in before ==>
          && s != null && s.vertexPath == vert && s.fragmentPath == frag
          && after == before[name := s])
  }

  /** The cache either did not change or gained a non-null entry under
      `name`, which it did not hold before; no other entry changed. */
  predicate GainedAtMost(before: map<string, Shader?>, after: map<string, Shader?>, name: string)
  {
    || after == before
    || (name !in before && name in after && after[name] != null && after == before[name := after[name]])
  }

  /** Gaining at most one entry, twice in a row, is gaining at most one entry. */
  lemma GainedAtMostTrans(a: map<string, Shader?>, b: map<string, Shader?>, c: map<string, Shader?>, name: string)
    requires GainedAtMost(a, b, name) && GainedAtMost(b, c, name)
    ensures GainedAtMost(a, c, name)
  {
  }

  /** ResourceManager: two name-keyed maps. A stored null stands for the empty
      shared handle that `map::operator[]` inserts for an unknown name. */
  class ResourceManager {
    var shaders: map<string, Shader?>
    var textures: map<string, Texture?>

    constructor()
      ensures shaders == map[] && textures == map[]
    {
      shaders, textures := map[], map[];
    }

    /** `Shaders.contains(name)`; the header declares HasShader, whose body is
        not part of this model, with this meaning. */
    predicate HasShader(name: string)
      reads this
    {
      name in shaders
    }

    /** A name already cached returns the cached shader and ignores the paths;
        a new name gets one freshly built shader. */
    method LoadShader(vertPath: string, fragPath: string, name: string) returns (s: Shader?)
      modifies this`shaders
      ensures name in old(shaders) ==> s == old(shaders)[name] && shaders == old(shaders)
      ensures name !in old(shaders) ==>
        && s != null && fresh(s)
        && s.vertexPath == vertPath && s.fragmentPath == fragPath && s.ints == map[]
        && shaders == old(shaders)[name := s]
      ensures name in shaders && shaders[name] == s
    {
      if name in shaders {
        s := shaders[name];
        return;
      }
      var shader := new Shader.Load(vertPath, fragPath);
      shaders := shaders[name := shader];
      s := shaders[name];
    }

    /** `Shaders[name]`: an unknown name gains a null entry and null is returned. */
    method GetShader(name: string) returns (s: Shader?)
      modifies this`shaders
      ensures name in old(shaders) ==> s == old(shaders)[name] && shaders == old(shaders)
      ensures name !in old(shaders) ==> s == null && shaders == old(shaders)[name := null]
    {
      if name !in shaders {
        shaders := shaders[name := null];
      }
      s := shaders[name];
    }

    /** Always builds a new texture and stores it under the name, replacing
        whatever was there. */
    method LoadTexture(path: string, name: string, glName: nat) returns (t: Texture?)
      modifies this`textures
      ensures t != null && fresh(t) && t.path == path && t.ID == glName
      ensures textures == old(textures)[name := t]
    {
      var texture := new Texture.Load(path, glName);
      textures := textures[name := texture];
      t := textures[name];
    }

    /** `Textures[name]`: an unknown name gains a null entry and null is returned. */
    method GetTexture(name: string) returns (t: Texture?)
      modifies this`textures
      ensures name in old(textures) ==> t == old(textures)[name] && textures == old(textures)
      ensures name !in old(textures) ==> t == null && textures == old(textures)[name := null]
    {
      if name !in textures {
        textures := textures[name := null];
      }
      t := textures[name];
    }

    /** Deletes every stored program and texture on the GPU; the entries stay in
        both maps. The loops dereference every entry, so a null entry (left by
        GetShader or GetTexture on an unknown name) must not be present. */
    method DestroyAll()
      requires null !in shaders.Values && null !in textures.Values
      modifies shaders.Values, textures.Values
      ensures shaders == old(shaders) && textures == old(textures)
      ensures forall n :: n in shaders ==> shaders[n] != null && shaders[n].released
      ensures forall n :: n in textures ==> textures[n] != null && textures[n].released
      ensures forall n :: n in shaders ==> shaders[n].ints == old(shaders[n].ints)
    {
      var pending := shaders.Keys;
      while pending != {}
        invariant pending <= shaders.Keys
        invariant forall n :: n in shaders && n !in pending ==> shaders[n] != null && shaders[n].released
        invariant forall n :: n in shaders ==> shaders[n].ints == old(shaders[n].ints)
        decreases pending
      {
        var n :| n in pending;
        var s := shaders[n];
        assert s in shaders.Values;
        s.released := true;
        pending := pending - {n};
      }
      var left := textures.Keys;
      while left != {}
        invariant left <= textures.Keys
        invariant forall n :: n in shaders ==> shaders[n] != null && shaders[n].released
        invariant forall n :: n in shaders ==> shaders[n].ints == old(shaders[n].ints)
        invariant forall n :: n in textures && n !in left ==> textures[n] != null && textures[n].released
        decreases left
      {
        var n :| n in left;
        var t := textures[n];
        assert t in textures.Values;
        t.released := true;
        left := left - {n};
      }
    }
  }
}
