/** The pure parts of Renderer::addTexture and Renderer::addMesh: the mapping of a
    texture's PixelFormat and PixelType to OpenGL ES 2.0 enums, the number of bytes
    an upload hands to the driver, and the byte layout of the binary mesh file. */
module Formats {
  import opened Common

  datatype PixelFormat = R | Rgb | Rgba
  datatype PixelType = Ubyte | Float

  // OpenGL ES 2.0 enum values (section 3.7 of the OpenGL ES 2.0 specification)
  const GL_UNSIGNED_BYTE: int := 0x1401
  const GL_FLOAT: int := 0x1406
  const GL_RGB: int := 0x1907
  const GL_RGBA: int := 0x1908
  const GL_LUMINANCE: int := 0x1909

  /** The number of components of a pixel in the external format `glFormat`
      (table 3.3 of the OpenGL ES 2.0 specification), for the formats addTexture
      uses; None for other enums. */
  function ComponentsOf(glFormat: int): Option<nat> {
    if glFormat == GL_LUMINANCE then Some(1)
    else if glFormat == GL_RGB then Some(3)
    else if glFormat == GL_RGBA then Some(4)
    else None
  }

  /** The size in bytes of one component of type `glType` (table 3.4); None for
      types the model does not use. */
  function ComponentBytes(glType: int): Option<nat> {
    if glType == GL_UNSIGNED_BYTE then Some(1)
    else if glType == GL_FLOAT then Some(SIZEOF_FLOAT)
    else None
  }

  /** The arguments addTexture passes to glTexImage2D, and the channel count it
      asks the image loader for. */
  datatype TextureFormat = TextureFormat(channels: nat, glInternal: int, glInput: int, glType: int)

  /** The format mapping of addTexture. The two PixelFormats must agree, the input
      format is the internal one, R, Rgb and Rgba have 1, 3 and 4 channels, and the
      component type is a float of sizeof(float) bytes or one unsigned byte. */
  function TextureFormatOf(internal: PixelFormat, input: PixelFormat, pixelType: PixelType): (f: TextureFormat)
    requires internal == input
    ensures f.glInput == f.glInternal
    ensures ComponentsOf(f.glInternal) == Some(f.channels)
    ensures f.channels == (match internal case R => 1 case Rgb => 3 case Rgba => 4)
    ensures ComponentBytes(f.glType) == Some(if pixelType == Float then SIZEOF_FLOAT else 1)
  {
    var glType := if pixelType == Float then GL_FLOAT else GL_UNSIGNED_BYTE;
    match internal
    case R => TextureFormat(1, GL_LUMINANCE, GL_LUMINANCE, glType)
    case Rgb => TextureFormat(3, GL_RGB, GL_RGB, glType)
    case Rgba => TextureFormat(4, GL_RGBA, GL_RGBA, glType)
  }

  /** Different (PixelFormat, PixelType) choices give different GL arguments. */
  lemma TextureFormatInjective(a: PixelFormat, s: PixelType, b: PixelFormat, t: PixelType)
    ensures TextureFormatOf(a, a, s) == TextureFormatOf(b, b, t) <==> a == b && s == t
  {
  }

  /** The bytes glTexImage2D reads for a width x height image in format `f` under
      the unpack alignment `alignment` (section 3.7.1 of the OpenGL ES 2.0
      specification): each row but the last is padded to a multiple of the
      alignment. */
  function UnpackBytes(f: TextureFormat, width: nat, height: nat, alignment: nat): (n: nat)
    requires ComponentBytes(f.glType).Some? && 0 < alignment
    ensures height == 0 || width == 0 || f.channels == 0 <==> n == 0
  {
    var row := width * f.channels * ComponentBytes(f.glType).value;
    var stride := (row + alignment - 1) / alignment * alignment;
    if height == 0 || row == 0 then 0 else (height - 1) * stride + row
  }

  /** The unpack alignment the GL starts with, which the program never changes. */
  const DEFAULT_UNPACK_ALIGNMENT: nat := 4

  /** The bytes stbi_load returns: width x height pixels of `channels` 8-bit
      components, rows tightly packed, whatever PixelType was asked for. */
  function StbiLoadBytes(width: nat, height: nat, channels: nat): nat {
    width * height * channels
  }

  /** As written, a Float texture makes the GL read four bytes per component of a
      buffer that holds one: it reads past the end of the loaded image. */
  lemma FloatUploadOverreads(format: PixelFormat, width: nat, height: nat)
    requires 0 < width && 0 < height
    ensures var f := TextureFormatOf(format, format, Float);
      UnpackBytes(f, width, height, DEFAULT_UNPACK_ALIGNMENT)
        == SIZEOF_FLOAT * StbiLoadBytes(width, height, f.channels)
         > StbiLoadBytes(width, height, f.channels)
  {
  }

  /** As written, a one-pixel-wide Rgb Ubyte image two rows high is read as two
      rows of four bytes (the last unpadded), seven bytes from a six-byte buffer. */
  lemma RgbRowPaddingOverreads()
    ensures var f := TextureFormatOf(Rgb, Rgb, Ubyte);
      UnpackBytes(f, 1, 2, DEFAULT_UNPACK_ALIGNMENT) == 7 && StbiLoadBytes(1, 2, f.channels) == 6
  {
  }

  /** The bytes the corrected loader delivers: components of the requested type
      (stbi_loadf for Float), rows tightly packed. */
  function LoaderBytes(pixelType: PixelType, width: nat, height: nat, channels: nat): nat {
    width * height * channels * (if pixelType == Float then SIZEOF_FLOAT else 1)
  }

  /** The unpack alignment the corrected upload sets before glTexImage2D. */
  const PACKED_UNPACK_ALIGNMENT: nat := 1

  /** With the corrected loader and packed rows the GL reads exactly the bytes the
      loader delivered, for every format, type and size. */
  lemma UploadMatchesLoader(format: PixelFormat, pixelType: PixelType, width: nat, height: nat)
    ensures var f := TextureFormatOf(format, format, pixelType);
      UnpackBytes(f, width, height, PACKED_UNPACK_ALIGNMENT) == LoaderBytes(pixelType, width, height, f.channels)
  {
  }

  // The binary mesh file of addMesh: two int32 counts, the vertices, the indices.

  /** sizeof(Vertex): 14 floats (position, normal, tangent, bitangent, uv). */
  const VERTEX_SIZE: nat := 14 * SIZEOF_FLOAT
  /** sizeof(Index): a u32. */
  const INDEX_SIZE: nat := SIZEOF_U32
  /** The two int counts in front of the vertices. */
  const MESH_HEADER_SIZE: nat := 2 * SIZEOF_INT

  /** The unsigned value of little-endian bytes. */
  function LeValue(bytes: seq<u8>): (v: nat)
    ensures v < Pow256(|bytes|)
  {
    if bytes == [] then 0 else bytes[0] as nat + 256 * LeValue(bytes[1..])
  }

  function Pow256(n: nat): (p: nat)
    ensures p > 0
  {
    if n == 0 then 1 else 256 * Pow256(n - 1)
  }

  /** The `n` little-endian bytes of `value`. */
  function LeBytes(value: nat, n: nat): (bytes: seq<u8>)
    requires value < Pow256(n)
    ensures |bytes| == n
  {
    if n == 0 then [] else [(value % 256) as u8] + LeBytes(value / 256, n - 1)
  }

  lemma {:induction false} LeValueOfBytes(value: nat, n: nat)
    requires value < Pow256(n)
    ensures LeValue(LeBytes(value, n)) == value
  {
    if n > 0 {
      LeValueOfBytes(value / 256, n - 1);
    }
  }

  lemma {:induction false} LeBytesOfValue(bytes: seq<u8>)
    ensures LeBytes(LeValue(bytes), |bytes|) == bytes
  {
    if bytes != [] {
      LeBytesOfValue(bytes[1..]);
      assert LeValue(bytes) % 256 == bytes[0] as nat;
      assert LeValue(bytes) / 256 == LeValue(bytes[1..]);
    }
  }

  /** The int32 stored in four little-endian bytes, two's complement (x86 and
      WebAssembly byte order). */
  function DecodeInt32(bytes: seq<u8>): (x: int)
    requires |bytes| == SIZEOF_INT
    ensures IsInt32(x)
  {
    var u := LeValue(bytes);
    if u <= INT32_MAX then u else u - 0x1_0000_0000
  }

  function EncodeInt32(x: int): (bytes: seq<u8>)
    requires IsInt32(x)
    ensures |bytes| == SIZEOF_INT
  {
    LeBytes(if x < 0 then x + 0x1_0000_0000 else x, SIZEOF_INT)
  }

  lemma Int32RoundTrip(x: int)
    requires IsInt32(x)
    ensures DecodeInt32(EncodeInt32(x)) == x
  {
    LeValueOfBytes(if x < 0 then x + 0x1_0000_0000 else x, SIZEOF_INT);
  }

  lemma Int32BytesRoundTrip(bytes: seq<u8>)
    requires |bytes| == SIZEOF_INT
    ensures EncodeInt32(DecodeInt32(bytes)) == bytes
  {
    LeBytesOfValue(bytes);
  }

  /** `*reinterpret_cast<int*>(&buffer[at])`: the int32 whose encoding is the four
      bytes at `at`. */
  function IntAt(buffer: seq<u8>, at: nat): (x: int)
    requires at + SIZEOF_INT <= |buffer|
    ensures IsInt32(x)
    ensures EncodeInt32(x) == buffer[at..at + SIZEOF_INT]
  {
    Int32BytesRoundTrip(buffer[at..at + SIZEOF_INT]);
    DecodeInt32(buffer[at..at + SIZEOF_INT])
  }

  /** Where the index block starts: `ipos`. */
  function IndexOffset(numVertices: nat): nat {
    MESH_HEADER_SIZE + numVertices * VERTEX_SIZE
  }

  /** What addMesh needs of the file and never checks: both counts can be read and
      are non-negative, `ipos` fits an int, and both blocks lie inside the file. */
  predicate WellFormedMesh(buffer: seq<u8>) {
    && MESH_HEADER_SIZE <= |buffer|
    && var numVertices, numIndices := IntAt(buffer, 0), IntAt(buffer, SIZEOF_INT);
    && 0 <= numVertices && 0 <= numIndices
    && IndexOffset(numVertices) <= INT32_MAX
    && IndexOffset(numVertices) + numIndices * INDEX_SIZE <= |buffer|
  }

  /** The two blocks addMesh uploads, and the index count it keeps. */
  datatype MeshFile = MeshFile(numVertices: nat, numIndices: nat, vertexData: seq<u8>, indexData: seq<u8>)

  /** A mesh whose blocks have the sizes its counts announce, and that fits the file. */
  predicate ValidMeshFile(m: MeshFile) {
    && |m.vertexData| == m.numVertices * VERTEX_SIZE
    && |m.indexData| == m.numIndices * INDEX_SIZE
    && IndexOffset(m.numVertices) <= INT32_MAX
    && m.numIndices <= INT32_MAX
  }

  /** The reading of addMesh: the vertex block starts at byte 8 (`vpos`) and is
      56 bytes per vertex, the index block follows it at `ipos` and is 4 bytes per
      index; bytes after the index block are ignored. */
  function ParseMesh(buffer: seq<u8>): (m: MeshFile)
    requires WellFormedMesh(buffer)
    ensures ValidMeshFile(m)
    ensures m.numVertices == IntAt(buffer, 0) && m.numIndices == IntAt(buffer, SIZEOF_INT)
  {
    var numVertices, numIndices := IntAt(buffer, 0), IntAt(buffer, SIZEOF_INT);
    var ipos := IndexOffset(numVertices);
    MeshFile(numVertices, numIndices,
             buffer[MESH_HEADER_SIZE..ipos],
             buffer[ipos..ipos + numIndices * INDEX_SIZE])
  }

  /** The file a mesh exporter writes for `m`. */
  function EncodeMesh(m: MeshFile): (buffer: seq<u8>)
    requires ValidMeshFile(m)
    ensures |buffer| == IndexOffset(m.numVertices) + m.numIndices * INDEX_SIZE
  {
    EncodeInt32(m.numVertices) + EncodeInt32(m.numIndices) + m.vertexData + m.indexData
  }

  /** Reading a written mesh gives it back. */
  lemma MeshRoundTrip(m: MeshFile)
    requires ValidMeshFile(m)
    ensures WellFormedMesh(EncodeMesh(m)) && ParseMesh(EncodeMesh(m)) == m
  {
    var b := EncodeMesh(m);
    var ipos := IndexOffset(m.numVertices);
    assert b[0..SIZEOF_INT] == EncodeInt32(m.numVertices);
    assert b[SIZEOF_INT..2 * SIZEOF_INT] == EncodeInt32(m.numIndices);
    Int32RoundTrip(m.numVertices);
    Int32RoundTrip(m.numIndices);
    assert b[MESH_HEADER_SIZE..ipos] == m.vertexData;
    assert b[ipos..ipos + m.numIndices * INDEX_SIZE] == m.indexData;
  }

  /** Writing what was read gives the file back, up to the end of the index block. */
  lemma MeshFileRoundTrip(buffer: seq<u8>)
    requires WellFormedMesh(buffer)
    ensures EncodeMesh(ParseMesh(buffer)) == buffer[..IndexOffset(IntAt(buffer, 0)) + IntAt(buffer, SIZEOF_INT) * INDEX_SIZE]
  {
    var m := ParseMesh(buffer);
    Int32BytesRoundTrip(buffer[0..SIZEOF_INT]);
    Int32BytesRoundTrip(buffer[SIZEOF_INT..2 * SIZEOF_INT]);
    var ipos := IndexOffset(m.numVertices);
    var end := ipos + m.numIndices * INDEX_SIZE;
    assert buffer[..end] == buffer[0..SIZEOF_INT] + buffer[SIZEOF_INT..2 * SIZEOF_INT]
      + buffer[MESH_HEADER_SIZE..ipos] + buffer[ipos..end];
  }

  /** Bytes after the index block do not change what is read. */
  lemma ParseIgnoresTrailingBytes(buffer: seq<u8>, extra: seq<u8>)
    requires WellFormedMesh(buffer)
    ensures WellFormedMesh(buffer + extra) && ParseMesh(buffer + extra) == ParseMesh(buffer)
  {
    var b := buffer + extra;
    assert b[0..SIZEOF_INT] == buffer[0..SIZEOF_INT];
    assert b[SIZEOF_INT..2 * SIZEOF_INT] == buffer[SIZEOF_INT..2 * SIZEOF_INT];
    var ipos := IndexOffset(IntAt(buffer, 0));
    var end := ipos + IntAt(buffer, SIZEOF_INT) * INDEX_SIZE;
    assert b[MESH_HEADER_SIZE..ipos] == buffer[MESH_HEADER_SIZE..ipos];
    assert b[ipos..end] == buffer[ipos..end];
  }

  // The vertex attribute pointers of drawMesh

  /** `glVertexAttribPointer(index, components, GL_FLOAT, GL_FALSE, stride, offset)`. */
  datatype AttribPointer = AttribPointer(index: nat, components: nat, stride: nat, offset: nat)

  /** The float counts of the fields of struct Vertex, in declaration order:
      position, normal, tangent, bitangent, texture coordinates. */
  const VERTEX_FIELDS: seq<nat> := [3, 3, 3, 3, 2]

  /** The byte offset of field `k` of struct Vertex: the sizes of the fields before it. */
  function FieldOffset(fields: seq<nat>, k: nat): nat
    requires k <= |fields|
  {
    if k == 0 then 0 else FieldOffset(fields, k - 1) + fields[k - 1] * SIZEOF_FLOAT
  }

  /** The five pointers drawMesh sets up, as written there. */
  function MeshAttribPointers(): (pointers: seq<AttribPointer>)
    ensures |pointers| == 5
    ensures forall k :: 0 <= k < |pointers| ==> pointers[k].index == k && pointers[k].stride == VERTEX_SIZE
  {
    [ AttribPointer(0, 3, VERTEX_SIZE, 0),
      AttribPointer(1, 3, VERTEX_SIZE, 3 * SIZEOF_FLOAT),
      AttribPointer(2, 3, VERTEX_SIZE, 6 * SIZEOF_FLOAT),
      AttribPointer(3, 3, VERTEX_SIZE, 9 * SIZEOF_FLOAT),
      AttribPointer(4, 2, VERTEX_SIZE, 12 * SIZEOF_FLOAT) ]
  }

  /** Pointer k reads field k of struct Vertex, with the stride of one Vertex, and
      the fields fill the Vertex exactly. */
  lemma AttribPointersMatchVertex()
    ensures |MeshAttribPointers()| == |VERTEX_FIELDS|
    ensures forall k :: 0 <= k < |VERTEX_FIELDS| ==>
      MeshAttribPointers()[k] == AttribPointer(k, VERTEX_FIELDS[k], VERTEX_SIZE, FieldOffset(VERTEX_FIELDS, k))
    ensures FieldOffset(VERTEX_FIELDS, |VERTEX_FIELDS|) == VERTEX_SIZE
  {
  }
}
