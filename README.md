# webgl-precision: a verified model of the harness's own logic

The program is a small OpenGL/WebGL harness that draws a precision test image, and
most of it consists of calls into OpenGL and GLFW. This project models the three parts that are
sequential logic of its own, and proves what they promise:

- **The shader declaration scan** of `Renderer::addShaderFromSource`. Each shader source is
  read word by word with `std::stringstream >> std::string`, up to a word equal to `main`.
  The scan collects the name after every `uniform <type>` and `attribute <type>`, cut at
  the first `[`, space or `;`. This is a crude reading of the storage qualifiers of the
  OpenGL ES Shading Language 1.00 (sections 4.3.3 and 4.3.4). After the scan, the
  attributes are bound to locations 0..n-1 and the uniform names become the keys of the
  shader's uniform map.
  - `Stream` models formatted extraction, including the stream's eof and fail flags.
  - `Scanner` gives the scan as a pure function over the word sequence (`ScanTokens`).
    The `while` loop over a `StringStream` object (`ScanSource`) is proved equal to it.
- **The Renderer's handle tables** (`Resources.Renderer`). The three append-only tables
  are shaders, textures and meshes; handles are indices into them. Each operation
  carries the guard its assertions impose. The pure helpers are in `Formats`:
  - the PixelFormat/PixelType mapping to OpenGL ES 2.0 enums;
  - the number of bytes `glTexImage2D` reads;
  - the binary mesh file layout (two int32 counts, 56-byte vertices, 4-byte indices);
  - the vertex attribute pointers of `drawMesh`.
- **The App's console editor** (`Console.App`). It covers `onChar`, `onKey`, `setValue`
  and the one-shot compute pass of `drawFrame`. The F12 render dump is a Netpbm P6 file
  (`Netpbm`), which has a parser and a round-trip proof.

The model follows the source where the two differ from a cleaner reading. It keeps these
quirks of the scan:
- `uniform highp vec2 x;` yields `vec2`.
- A qualifier whose name is missing yields the empty name.
- When a source does not end in white space, its last word is never examined, because
  reading it sets eof.
- The stop test is equality with the whole word `main`, so `main()` does not stop the scan.

C++ `assert`s and out-of-range vector indexing are preconditions. OpenGL object ids,
uniform locations (`glGetUniformLocation` is the function parameter `locate`), pixels
read back from the GL and images returned by the loader are parameters. GL calls
whose arguments matter are returned as values.

## Model

| member | source | states |
|---|---|---|
| Stream.Extract | renderer.cpp:101 | One `>>` extraction: None exactly when only white space is left. Otherwise the word is the text `s[start..end]` after a run of white space from `pos`. It is non-empty, free of white space, and maximal (it ends at end of text or before white space). |
| Stream.TokensAreWords | renderer.cpp:101-116 | Every word the extractions yield is non-empty and holds no white space. |
| Stream.AtEndAfterWord | renderer.cpp:102 | After a word is extracted, eof is set exactly when no word follows and the text does not end in white space. |
| Stream.StringStream.constructor | renderer.cpp:94-99 | A fresh stream holding the source is good and at position 0. |
| Stream.StringStream.Read | renderer.cpp:101-116 | A read of a good stream with words left returns the next word and advances. Otherwise it sets fail and eof and leaves the target string unchanged. |
| Scanner.CutName | renderer.cpp:106-112 | The name is the longest prefix of the raw word without `[`, space or `;`. It contains none of them, and a word without them is taken whole. |
| Scanner.ReadQualifiedName | renderer.cpp:104-105 | `ss >> type >> name` returns the word two places after the qualifier, or "" when the stream runs out first. |
| Scanner.ReadCursorWord | renderer.cpp:116 | Reading word j leaves `!eof` whenever word j is examined, and only when word j exists (it may be `main`). |
| Scanner.ScanTokens | renderer.cpp:101-116 | The scan over the word sequence, the reference for `ScanSource`. `ScanFollowsTrace`, `TraceShape`, `StopReason`, `IgnoresWordsAfterMain` and `NamesHaveNoDelimiters` describe what it collects. |
| Scanner.NameBudget | renderer.cpp:103-107 | Each name takes up its qualifier and the two words after it, so at most (n + 2) / 3 names come from n words. |
| Scanner.ShaderDeclarations | renderer.cpp:93-118 | The names collected from both sources, the vertex source's first. None contains `[`, space or `;`. |
| Scanner.ScanSource | renderer.cpp:94-117 | The stream loop collects exactly `ScanTokens` of the source's words. |
| Scanner.ScanShaderSources | renderer.cpp:91-118 | Both passes collect the vertex-shader names, followed by the fragment-shader names. |
| Scanner.NamesHaveNoDelimiters | renderer.cpp:106-113 | No collected name contains `[`, space or `;`. |
| Scanner.TraceShape | renderer.cpp:102-116 | The examined cursors increase by the qualifier step and never hold `main`. All of them lie before the cursor where the loop stops. |
| Scanner.StopReason | renderer.cpp:102 | The loop stops at one of three places: at `main`, at the last word of a text without trailing white space, or past the last word. |
| Scanner.ScanFollowsTrace | renderer.cpp:103-114 | The lists are the names of the examined `uniform`/`attribute` cursors in order, one entry per qualifier. |
| Scanner.IgnoresWordsAfterMain | renderer.cpp:102 | Replacing everything after the `main` where the scan stops changes nothing collected. |
| Scanner.PrecisionQualifierQuirk | renderer.cpp:103-107 | `uniform highp vec2 x;` collects `vec2`. |
| Scanner.CutExample | renderer.cpp:104-113 | `pos;` and `s[2];` are collected as `pos` and `s`. |
| Scanner.StopExample | renderer.cpp:102 | `main()` does not stop the scan, and `main` does: the declaration after `main` is not collected. |
| Scanner.LastWordQuirk | renderer.cpp:101-116 | A qualifier without a name collects "", and the last word of a text without trailing white space is never examined. |
| Formats.TextureFormatOf | renderer.cpp:281-309 | The formats must agree, and the input format equals the internal one. R, Rgb and Rgba have 1, 3 and 4 channels, matching the components of GL_LUMINANCE, GL_RGB and GL_RGBA. Float maps to 4-byte and Ubyte to 1-byte components. |
| Formats.TextureFormatInjective | renderer.cpp:286-309 | Distinct format/type choices give distinct GL arguments. |
| Formats.FloatUploadOverreads | renderer.cpp:304-323 | As written, a Float texture makes the GL read four times the bytes `stbi_load` returns. |
| Formats.RgbRowPaddingOverreads | renderer.cpp:313-323 | As written, a 1x2 Rgb Ubyte image is read as 7 bytes from a 6-byte buffer. |
| Formats.UploadMatchesLoader | renderer.cpp:283-323 | With the corrected loader and packed rows, the GL reads exactly the loaded bytes. |
| Formats.DecodeInt32 | renderer.cpp:214-215 | Four little-endian bytes give a value in the int32 range. |
| Formats.Int32RoundTrip | renderer.cpp:214-215 | Decoding the encoding of an int32 gives it back. |
| Formats.Int32BytesRoundTrip | renderer.cpp:214-215 | Encoding the decoding of four bytes gives them back. |
| Formats.IntAt | renderer.cpp:214-215 | The int read at an offset is an int32, and its four-byte little-endian encoding is exactly the bytes there. |
| Formats.ParseMesh | renderer.cpp:213-231 | A well-formed file yields the two counts, with blocks of 56 bytes per vertex and 4 per index. |
| Formats.EncodeMesh | renderer.hpp:9-18 | A mesh file is 8 + 56·vertices + 4·indices bytes long. |
| Formats.MeshRoundTrip | renderer.cpp:213-231 | Reading a written mesh gives it back. Vertices start at byte 8 and indices at 8 + 56·numVertices. |
| Formats.MeshFileRoundTrip | renderer.cpp:213-231 | Writing what was read gives the file back up to the end of the index block. |
| Formats.ParseIgnoresTrailingBytes | renderer.cpp:226-231 | Bytes after the index block do not change the mesh. |
| Formats.MeshAttribPointers | renderer.cpp:250-254 | The five pointers use indices 0..4 and the stride of one `Vertex`. `AttribPointersMatchVertex` gives their field sizes and offsets. |
| Formats.AttribPointersMatchVertex | renderer.cpp:250-254 | Pointer k reads field k of `Vertex` with stride sizeof(Vertex), and the fields fill the 56 bytes exactly. |
| Resources.BindAttributes | renderer.cpp:124-126 | The i-th collected attribute is bound to location i. |
| Resources.BoundLocationsAreExact | renderer.cpp:124-126 | The bound locations are exactly 0..n-1, each used once. |
| Resources.BuildUniformMap | renderer.cpp:131-137 | The key set is the set of collected uniform names, each mapped to its reported location, never -1. |
| Resources.UniformKeyCount | renderer.cpp:131-137 | There are at most as many keys as names, with equality exactly when no name is collected twice. |
| Resources.Renderer.constructor | renderer.cpp:52 | The three tables start empty. |
| Resources.Renderer.AddShaderFromSource | renderer.cpp:69-141 | It appends one shader whose uniform keys are the collected uniforms with their locations, and binds the attributes in order. It returns the old table size, and the other tables are unchanged. |
| Resources.Renderer.SetShader | renderer.cpp:151-156 | The handle must be valid; it becomes current, and the tables are unchanged. |
| Resources.Renderer.SetUniform | renderer.cpp:158-198 | The current shader must be valid and hold the name. The value goes to that name's location, which is not -1. |
| Resources.Renderer.SetTexture | renderer.cpp:200-207 | The unit must be at least 0 and the handle valid. It binds that texture's id on GL_TEXTURE0 + unit. |
| Resources.Renderer.AddMesh | renderer.cpp:209-236 | On a well-formed file it uploads the vertex and index blocks and appends one mesh with its index count. It returns the old table size, and the other tables are unchanged. |
| Resources.Renderer.DrawMesh | renderer.cpp:238-262 | The handle must be valid. The draw uses that mesh's buffers and index count and the five pointers of `Vertex`. |
| Resources.Renderer.AddTexture | renderer.cpp:264-331 | The formats must agree and the loader's channel count must match. It appends one texture and returns the old table size. The GL reads exactly the loaded bytes. |
| Netpbm.Dec | main.cpp:299-300 | `to_string` of a non-negative int: decimal digits with no leading zero. |
| Netpbm.Ascii | main.cpp:302 | The bytes written are the low bytes of the header's characters, one per character. |
| Netpbm.PpmHeader | main.cpp:298-301 | The header text. `HeaderBytes` gives its bytes piece by piece: the magic `P6\n`, the width's digits, a space, the height's digits and `\n255\n`. `PpmRoundTrip` reads width and height back from it, and `CanvasDump` gives the 512x512 header. |
| Netpbm.PpmFile | main.cpp:298-303 | The file is the header followed by the pixels, and its length is the header length plus width·height·3. |
| Netpbm.HeaderBytes | main.cpp:298-302 | The bytes written for the header are those of `P6\n`, the width's digits, byte 32, the height's digits and `\n255\n`, in that order. |
| Netpbm.DecBytes | main.cpp:299-300 | The written decimal digits read back as the number. |
| Netpbm.PpmRoundTrip | main.cpp:298-303 | Parsing the written file gives back width, height and pixels. |
| Netpbm.CanvasDump | main.cpp:289-303 | For the 512x512 canvas the header is `P6\n512 512\n255\n` and the file is 786447 bytes. |
| Console.KeyChar | main.cpp:319 | The appended character is the key code's low byte, and is the code itself for 0..255. |
| Console.CStr | main.cpp:284 | Passing through `c_str()` keeps the text up to the first NUL, and all of it when there is none. |
| Console.FindSpace | main.cpp:279 | `find(' ')` gives the first space, or npos when there is none. |
| Console.SplitCommand | main.cpp:276-286 | The parameter and value handed on hold no NUL, and together with the space they take up no more than the command. `SplitCommandParts` and `NulCutsValue` say which command gives which pair. |
| Console.SplitCommandParts | main.cpp:276-286 | A command is dispatched exactly when it has a space. The parameter has no space, and without NULs, parameter + " " + value is the command. |
| Console.NulCutsValue | main.cpp:284 | A NUL typed into the command ends the dispatched value early. |
| Console.App.constructor | main.cpp:22 | The canvas must be 512x512. The command lines start empty, `displayCpu` and `frameRendered` start false, and no compute pass has run. |
| Console.App.SetValue | main.cpp:69-76 | Only `displayCpu` is a known parameter, and it becomes (value == "true"). Other parameters change nothing. |
| Console.App.OnChar | main.cpp:312-322 | A press of a key below 256 appends exactly that character. Anything else changes nothing. |
| Console.App.OnKey | main.cpp:261-310 | Backspace drops the last character if there is one, and Up recalls the previous command. Enter saves and clears the command and dispatches it exactly when it has a space. F12 produces the P6 file. Releases and other keys change nothing. |
| Console.App.DrawFrame | main.cpp:210-259 | The compute pass runs only on the first frame, so `frameRendered` goes from false to true once. The shown texture is `cpuPrecisionTexture` exactly when `displayCpu` is set. |

## Left out

- OpenGL calls are not modelled: shader compilation and linking, uploads, draws, `glReadPixels`, framebuffer setup and `checkGLError`. Their ids and results are parameters. Compilation and linking are taken to succeed, as the assertions demand.
- File input is not modelled: `getFileContents`, `stbi_load` and the `ofstream` writes. `addShader` only loads two files and calls `addShaderFromSource`, so it is covered by that member. The loaded bytes are parameters.
- The CPU gradient texture of `setup` is not modelled, because it is floating-point numerics. The rest of `setup` and `checkPlatform` only create GL objects and print; the `App` constructor takes their results.
- The assertion of `checkPlatform` that the canvas fits `GL_MAX_RENDERBUFFER_SIZE` (main.cpp:94) is not modelled, because the limit is a driver query. The `App` constructor only requires the 512x512 canvas.
- GLFW window setup, callback chaining, the main loop and the Emscripten bridge are not modelled. The model follows the native build, where `displayCpu` exists.
- The console echo in `onKey` and `onChar` is not modelled; it is output only. The empty mouse callbacks are not modelled either.
- The Renderer destructor is not modelled; it only frees memory.
- Uniform payloads are opaque values of any type. `invCanvasSize` is computed over reals rather than 32-bit floats.
- struct Texture's `width` and `height` are never assigned by the program, so they are not in the model.
- Resources.Renderer.AddShaderFromSource: handles are unbounded integers, so the conversion of a table size beyond INT32_MAX to an int handle is not modelled.
- Formats.ParseMesh: the counts are read little-endian, the byte order of x86 and WebAssembly. The file must satisfy `WellFormedMesh`, because addMesh reads and uploads without checking sizes. The condition also keeps `ipos` within an int.
- Netpbm.Dec: only non-negative values are modelled, because the canvas is asserted to be 512x512.
- Resources.Renderer.AddTexture models the corrected upload described under Findings, not the one as written.

## Findings

| source | as written | input that shows it | evidently intended | confidence | as-written member | corrected member |
|---|---|---|---|---|---|---|
| renderer.cpp:304-323 | A `PixelType::Float` texture is loaded with `stbi_load`, which returns 8-bit samples, and is then uploaded as `GL_FLOAT`. The GL reads four bytes per component from a buffer holding one. | A 1x1 R texture of type Float: the GL reads 4 bytes and the loader returned 1. | Float textures loaded as floats (`stbi_loadf`), so the upload matches the buffer | high; not executed | Formats.FloatUploadOverreads | Formats.UploadMatchesLoader |
| renderer.cpp:313-323 | `stbi_load` returns rows tightly packed, but the upload keeps the default unpack alignment of 4. Rows of 1- or 3-channel byte images whose length is not a multiple of 4 are read with padding. | A 1x2 Rgb Ubyte image: the GL reads 7 bytes and the buffer holds 6. | `GL_UNPACK_ALIGNMENT` set to 1 before the upload | medium; not executed | Formats.RgbRowPaddingOverreads | Formats.UploadMatchesLoader |
