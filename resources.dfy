/** The Renderer of renderer.hpp: three append-only tables of shaders, textures and
    meshes whose handles are indices, and the index of the current shader. The GL
    objects themselves belong to the driver; their ids, the uniform locations the
    driver reports and the image the loader returns are parameters of the
    operations, and each GL call the Renderer makes is returned as a value. */
module Resources {
  import opened Common
  import opened Scanner
  import opened Formats

  /** `glBindAttribLocation(program, location, name)`. */
  datatype AttribBinding = AttribBinding(location: nat, name: string)

  /** The i-th attribute name is bound to location i. */
  predicate BindsInOrder(attributes: seq<string>, bindings: seq<AttribBinding>) {
    && |bindings| == |attributes|
    && forall i :: 0 <= i < |bindings| ==> bindings[i] == AttribBinding(i, attributes[i])
  }

  /** The binding loop of addShaderFromSource, one call per collected attribute. */
  method BindAttributes(attributes: seq<string>) returns (bindings: seq<AttribBinding>)
    ensures BindsInOrder(attributes, bindings)
  {
    bindings := [];
    for i := 0 to |attributes|
      invariant |bindings| == i
      invariant forall k :: 0 <= k < i ==> bindings[k] == AttribBinding(k, attributes[k])
    {
      bindings := bindings + [AttribBinding(i, attributes[i])];
    }
  }

  /** The locations bound are exactly 0 .. |attributes|-1, each used once. */
  lemma BoundLocationsAreExact(attributes: seq<string>, bindings: seq<AttribBinding>)
    requires BindsInOrder(attributes, bindings)
    ensures forall l :: l in Locations(bindings) <==> 0 <= l < |attributes|
    ensures forall i, j :: 0 <= i < j < |bindings| ==> bindings[i].location != bindings[j].location
  {
    forall l | 0 <= l < |attributes|
      ensures l in Locations(bindings)
    {
      assert bindings[l] in bindings;
    }
  }

  function Locations(bindings: seq<AttribBinding>): set<int> {
    set b | b in bindings :: b.location
  }

  /** The set of names a list holds. */
  function NameSet(names: seq<string>): set<string> {
    set n | n in names
  }

  /** No name occurs twice. */
  predicate Distinct(names: seq<string>) {
    forall i, j :: 0 <= i < j < |names| ==> names[i] != names[j]
  }

  /** The uniform loop of addShaderFromSource: every collected name becomes a key,
      mapped to the location `locate` reports for it in the linked program; a
      location of -1 is an assertion failure. */
  method BuildUniformMap(names: seq<string>, locate: string -> int) returns (uniforms: map<string, int>)
    requires forall n :: n in names ==> locate(n) != -1
    ensures uniforms.Keys == NameSet(names)
    ensures forall n :: n in uniforms ==> uniforms[n] == locate(n) && uniforms[n] != -1
  {
    uniforms := map[];
    for i := 0 to |names|
      invariant uniforms.Keys == NameSet(names[..i])
      invariant forall n :: n in uniforms ==> uniforms[n] == locate(n) && uniforms[n] != -1
    {
      assert names[..i + 1] == names[..i] + [names[i]];
      uniforms := uniforms[names[i] := locate(names[i])];
    }
    assert names[..|names|] == names;
  }

  /** The map has at most one key per collected name, and exactly one per name
      precisely when no name is collected twice (a uniform declared in both shader
      stages is one key). */
  lemma {:induction false} UniformKeyCount(names: seq<string>)
    ensures |NameSet(names)| <= |names|
    ensures |NameSet(names)| == |names| <==> Distinct(names)
  {
    if names != [] {
      var rest := names[1..];
      UniformKeyCount(rest);
      assert NameSet(names) == {names[0]} + NameSet(rest) by {
        forall n ensures n in NameSet(names) <==> n == names[0] || n in NameSet(rest) {
          if n in names && n != names[0] {
            var k :| 0 <= k < |names| && names[k] == n;
            assert rest[k - 1] == n;
          }
        }
      }
      if names[0] in rest {
        var k :| 0 <= k < |rest| && rest[k] == names[0];
        assert names[k + 1] == names[0];
        assert NameSet(names) == NameSet(rest);
      } else {
        assert Distinct(names) <==> Distinct(rest) by {
          if Distinct(rest) {
            forall i, j | 0 <= i < j < |names| ensures names[i] != names[j] {
              if i == 0 {
                assert names[j] == rest[j - 1];
              } else {
                assert names[i] == rest[i - 1] && names[j] == rest[j - 1];
              }
            }
          }
          if Distinct(names) {
            forall i, j | 0 <= i < j < |rest| ensures rest[i] != rest[j] {
              assert rest[i] == names[i + 1] && rest[j] == names[j + 1];
            }
          }
        }
      }
    }
  }

  /** A linked program and its uniform map (struct Shader). */
  datatype ShaderRecord = ShaderRecord(program: int, uniforms: map<string, int>)
  /** struct Texture: the GL texture id. */
  datatype TextureRecord = TextureRecord(glId: int)
  /** struct Mesh: the vertex and index buffer ids and the index count. */
  datatype MeshRecord = MeshRecord(vbid: int, ibid: int, numIndices: int)

  /** Every location in the uniform map is a real one. */
  predicate Located(s: ShaderRecord) {
    forall n :: n in s.uniforms ==> s.uniforms[n] != -1
  }

  /** `glUniform*(location, ...)` with the setter's payload. */
  datatype UniformCall<V> = UniformCall(location: int, value: V)

  /** `glTexImage2D` after `glPixelStorei(GL_UNPACK_ALIGNMENT, alignment)`. */
  datatype TexImage = TexImage(format: TextureFormat, width: nat, height: nat, alignment: nat, data: seq<u8>)

  /** The two `glBufferData` uploads of addMesh. */
  datatype MeshUpload = MeshUpload(vertexData: seq<u8>, indexData: seq<u8>)

  /** The buffer bindings, attribute pointers and `glDrawElements` count of drawMesh. */
  datatype DrawCall = DrawCall(vbid: int, ibid: int, count: int, pointers: seq<AttribPointer>)

  const GL_TEXTURE0: int := 0x84C0

  class Renderer {
    var shaders: seq<ShaderRecord>
    var textures: seq<TextureRecord>
    var meshes: seq<MeshRecord>
    /** Left indeterminate by the constructor, as in the source. */
    var currentShader: int

    ghost predicate Valid()
      reads this
    {
      forall k :: 0 <= k < |shaders| ==> Located(shaders[k])
    }

    constructor ()
      ensures Valid()
      ensures shaders == [] && textures == [] && meshes == []
    {
      shaders, textures, meshes := [], [], [];
    }

    /** Scans both sources, binds the attributes in collection order, builds the
        uniform map from the locations `locate` reports for `program`, and appends
        the shader; its handle is the old table size. Compilation and linking are
        taken to succeed, as the asserts demand. */
    method AddShaderFromSource(vsSource: string, fsSource: string, program: int, locate: string -> int)
      returns (id: int, bindings: seq<AttribBinding>)
      requires Valid()
      requires |vsSource| > 0 && |fsSource| > 0
      requires forall n :: n in ShaderDeclarations(vsSource, fsSource).uniforms ==> locate(n) != -1
      modifies this
      ensures Valid()
      ensures id == |old(shaders)| && |shaders| == id + 1 && shaders[..id] == old(shaders)
      ensures textures == old(textures) && meshes == old(meshes) && currentShader == old(currentShader)
      ensures var d := ShaderDeclarations(vsSource, fsSource);
        && shaders[id].program == program
        && shaders[id].uniforms.Keys == NameSet(d.uniforms)
        && (forall n :: n in shaders[id].uniforms ==> shaders[id].uniforms[n] == locate(n))
        && BindsInOrder(d.attributes, bindings)
    {
      var d := ScanShaderSources(vsSource, fsSource);
      bindings := BindAttributes(d.attributes);
      var uniforms := BuildUniformMap(d.uniforms, locate);
      shaders := shaders + [ShaderRecord(program, uniforms)];
      id := |shaders| - 1;
    }

    /** Makes `shader` current; returns the program given to glUseProgram. */
    method SetShader(shader: int) returns (program: int)
      requires 0 <= shader < |shaders|
      modifies this
      ensures shaders == old(shaders) && textures == old(textures) && meshes == old(meshes)
      ensures currentShader == shader && program == shaders[shader].program
    {
      program := shaders[shader].program;
      currentShader := shader;
    }

    /** setUniform1i, setUniform1f, setUniform2fv, setUniform3fv, setUniform4fv and
        setUniform4x4fv: the current shader must be a valid handle and `name` one of
        its uniforms; the value goes to the location recorded for `name`. */
    method SetUniform<V>(name: string, value: V) returns (call: UniformCall<V>)
      requires 0 <= currentShader < |shaders|
      requires name in shaders[currentShader].uniforms
      ensures call.value == value
      ensures call.location == shaders[currentShader].uniforms[name]
      ensures Valid() ==> call.location != -1
    {
      var shader := shaders[currentShader];
      call := UniformCall(shader.uniforms[name], value);
    }

    /** Binds texture `id` to texture unit `unit`. */
    method SetTexture(unit: int, id: int) returns (activeUnit: int, glId: int)
      requires unit >= 0
      requires 0 <= id < |textures|
      ensures activeUnit == GL_TEXTURE0 + unit && activeUnit >= GL_TEXTURE0
      ensures glId == textures[id].glId
    {
      activeUnit := GL_TEXTURE0 + unit;
      glId := textures[id].glId;
    }

    /** Reads the mesh file `buffer` (laid out as ParseMesh reads it), uploads both
        blocks into the buffers `vbid` and `ibid`, and appends the mesh; its handle
        is the old table size. */
    method AddMesh(buffer: seq<u8>, vbid: int, ibid: int) returns (id: int, upload: MeshUpload)
      requires WellFormedMesh(buffer)
      modifies this
      ensures var m := ParseMesh(buffer);
        && upload == MeshUpload(m.vertexData, m.indexData)
        && meshes == old(meshes) + [MeshRecord(vbid, ibid, m.numIndices)]
      ensures id == |old(meshes)| && 0 <= id < |meshes|
      ensures shaders == old(shaders) && textures == old(textures) && currentShader == old(currentShader)
    {
      var numVertices := IntAt(buffer, 0);
      var numIndices := IntAt(buffer, SIZEOF_INT);
      var vpos := 2 * SIZEOF_INT;
      var ipos := 2 * SIZEOF_INT + numVertices * VERTEX_SIZE;
      upload := MeshUpload(buffer[vpos..vpos + numVertices * VERTEX_SIZE],
                           buffer[ipos..ipos + numIndices * INDEX_SIZE]);
      meshes := meshes + [MeshRecord(vbid, ibid, numIndices)];
      id := |meshes| - 1;
    }

    /** The draw of mesh `id`: its two buffers, the five attribute pointers of
        struct Vertex, and its index count. */
    method DrawMesh(id: int) returns (draw: DrawCall)
      requires 0 <= id < |meshes|
      ensures draw.vbid == meshes[id].vbid && draw.ibid == meshes[id].ibid
      ensures draw.count == meshes[id].numIndices
      ensures |draw.pointers| == |VERTEX_FIELDS|
      ensures forall k :: 0 <= k < |VERTEX_FIELDS| ==>
        draw.pointers[k] == AttribPointer(k, VERTEX_FIELDS[k], VERTEX_SIZE, FieldOffset(VERTEX_FIELDS, k))
    {
      var mesh := meshes[id];
      AttribPointersMatchVertex();
      draw := DrawCall(mesh.vbid, mesh.ibid, mesh.numIndices, MeshAttribPointers());
    }

    /** Uploads a loaded image as texture `glId` and appends it; its handle is the
        old table size. `fileChannels` is the channel count the loader reports,
        which must be the one asked for; `pixels` is the loader's image, of the
        requested component type. The GL reads exactly the bytes of `pixels`. */
    method AddTexture(internal: PixelFormat, input: PixelFormat, pixelType: PixelType, glId: int,
                      width: nat, height: nat, fileChannels: int, pixels: seq<u8>)
      returns (id: int, image: TexImage)
      requires internal == input
      requires fileChannels == TextureFormatOf(internal, input, pixelType).channels
      requires |pixels| == LoaderBytes(pixelType, width, height, fileChannels)
      modifies this
      ensures image.format == TextureFormatOf(internal, input, pixelType)
      ensures image.width == width && image.height == height && image.data == pixels
      ensures image.alignment == PACKED_UNPACK_ALIGNMENT
      ensures UnpackBytes(image.format, width, height, image.alignment) == |image.data|
      ensures textures == old(textures) + [TextureRecord(glId)]
      ensures id == |old(textures)| && 0 <= id < |textures|
      ensures shaders == old(shaders) && meshes == old(meshes) && currentShader == old(currentShader)
    {
      var format := TextureFormatOf(internal, input, pixelType);
      UploadMatchesLoader(internal, pixelType, width, height);
      image := TexImage(format, width, height, PACKED_UNPACK_ALIGNMENT, pixels);
      textures := textures + [TextureRecord(glId)];
      id := |textures| - 1;
    }
  }
}
