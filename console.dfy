/** The App of main.cpp as far as its own state goes: the one-line console editor
    fed by the GLFW key and character callbacks (`cmd`, `previousCmd`), the
    `displayCpu` switch that a command sets, and the one-shot compute pass of
    drawFrame (`frameRendered`). Pixels read back from the GL and the ids of the
    objects setup creates are parameters. */
module Console {
  import opened Common
  import opened Resources
  import opened Netpbm

  // GLFW 2 constants (glfw.h)
  const GLFW_PRESS: int := 1
  const GLFW_KEY_SPECIAL: int := 256
  const GLFW_KEY_F12: int := GLFW_KEY_SPECIAL + 13
  const GLFW_KEY_UP: int := GLFW_KEY_SPECIAL + 27
  const GLFW_KEY_ENTER: int := GLFW_KEY_SPECIAL + 38
  const GLFW_KEY_BACKSPACE: int := GLFW_KEY_SPECIAL + 39

  /** The char `cmd.append(1, key)` appends: the low byte of the key code. */
  function KeyChar(key: int): (c: char)
    ensures c as int < 256
    ensures 0 <= key < 256 ==> c as int == key
  {
    (key % 256) as char
  }

  /** The string the callee of `s.c_str()` sees: `s` up to its first NUL. */
  function CStr(s: string): (r: string)
    ensures r <= s
    ensures '\0' !in r
    ensures |r| < |s| ==> s[|r|] == '\0'
    ensures '\0' !in s ==> r == s
  {
    if s == [] || s[0] == '\0' then [] else [s[0]] + CStr(s[1..])
  }

  /** `s.find(' ')`: the index of the first space, None for npos. */
  function FindSpace(s: string): (loc: Option<nat>)
    ensures loc.None? <==> ' ' !in s
    ensures loc.Some? ==> loc.value < |s| && s[loc.value] == ' ' && ' ' !in s[..loc.value]
  {
    if s == [] then None
    else if s[0] == ' ' then Some(0)
    else
      var rest := FindSpace(s[1..]);
      if rest.None? then None
      else
        assert s[..rest.value + 1] == [s[0]] + s[1..][..rest.value];
        Some(rest.value + 1)
  }

  /** What Enter hands to setAppValue: the text before the first space and the
      text after it, each cut at its first NUL by the trip through `c_str()`;
      None when the command has no space. */
  function SplitCommand(cmd: string): (r: Option<(string, string)>)
    ensures r.Some? ==> '\0' !in r.value.0 && '\0' !in r.value.1
    ensures r.Some? ==> |r.value.0| + 1 + |r.value.1| <= |cmd|
  {
    match FindSpace(cmd)
    case None => None
    case Some(loc) => Some((CStr(cmd[..loc]), CStr(cmd[loc + 1..])))
  }

  /** A command is dispatched exactly when it holds a space; the parameter then has
      no space, and when the command holds no NUL, parameter, space and value
      spell the command. */
  lemma SplitCommandParts(cmd: string)
    ensures SplitCommand(cmd).None? <==> ' ' !in cmd
    ensures SplitCommand(cmd).Some? ==> ' ' !in SplitCommand(cmd).value.0
    ensures SplitCommand(cmd).Some? && '\0' !in cmd ==>
      SplitCommand(cmd).value.0 + " " + SplitCommand(cmd).value.1 == cmd
  {
  }

  /** The NUL a zero key code appends ends the value early: "a b\0c" sets b. */
  lemma NulCutsValue()
    ensures SplitCommand("a b\0c") == Some(("a", "b"))
  {
    assert FindSpace("a b\0c") == Some(1);
    assert "a b\0c"[..1] == "a" && "a b\0c"[2..] == "b\0c";
    assert CStr("a") == "a";
    assert CStr("b\0c") == "b" by {
      assert CStr("\0c") == [];
    }
  }

  /** What a key press did beyond editing the command line. */
  datatype KeyEffect =
    | NoEffect
    | Dispatched(param: string, value: string)
    | Stored(file: seq<u8>)

  class App {
    const canvasWidth: int
    const canvasHeight: int
    const renderer: Renderer
    const displayShader: int
    const computeShader: int
    const cpuPrecisionTexture: int
    const colorbuffer: int

    var displayCpu: bool
    var frameRendered: bool
    var cmd: string
    var previousCmd: string
    /** How many times the compute pass has drawn into the colour buffer. */
    ghost var computePasses: nat

    ghost predicate Valid()
      reads this
    {
      && canvasWidth == 512 && canvasHeight == 512
      && computePasses == (if frameRendered then 1 else 0)
    }

    /** `App(canvasWidth, canvasHeight)` followed by a successful setup(), which
        creates the renderer, the two shaders and the two textures and asserts a
        512 x 512 canvas. */
    constructor (canvasWidth: int, canvasHeight: int, renderer: Renderer, displayShader: int,
                 computeShader: int, cpuPrecisionTexture: int, colorbuffer: int)
      requires canvasWidth == 512 && canvasHeight == 512
      ensures Valid()
      ensures this.canvasWidth == canvasWidth && this.canvasHeight == canvasHeight
      ensures this.renderer == renderer
      ensures this.displayShader == displayShader && this.computeShader == computeShader
      ensures this.cpuPrecisionTexture == cpuPrecisionTexture && this.colorbuffer == colorbuffer
      ensures !displayCpu && !frameRendered && cmd == [] && previousCmd == [] && computePasses == 0
    {
      this.canvasWidth, this.canvasHeight := canvasWidth, canvasHeight;
      this.renderer := renderer;
      this.displayShader, this.computeShader := displayShader, computeShader;
      this.cpuPrecisionTexture, this.colorbuffer := cpuPrecisionTexture, colorbuffer;
      displayCpu, frameRendered := false, false;
      cmd, previousCmd := [], [];
      computePasses := 0;
    }

    /** The GUI bridge: only `displayCpu` is a known parameter, and it is switched
        on by the value `true` and off by any other value. */
    method SetValue(param: string, value: string)
      modifies this
      ensures displayCpu == if param == "displayCpu" then value == "true" else old(displayCpu)
      ensures cmd == old(cmd) && previousCmd == old(previousCmd)
      ensures frameRendered == old(frameRendered) && computePasses == old(computePasses)
    {
      if param == "displayCpu" {
        displayCpu := value == "true";
      }
    }

    /** The character callback: a press of a key code below 256 appends that one
        character; anything else changes nothing. */
    method OnChar(key: int, action: int)
      modifies this
      ensures cmd == if action == GLFW_PRESS && key < 256 then old(cmd) + [KeyChar(key)] else old(cmd)
      ensures previousCmd == old(previousCmd) && displayCpu == old(displayCpu)
      ensures frameRendered == old(frameRendered) && computePasses == old(computePasses)
    {
      if action == GLFW_PRESS && key < 256 {
        cmd := cmd + [KeyChar(key)];
      }
    }

    /** The key callback. `pixels` stands for what glReadPixels returns for the
        canvas when F12 is pressed. */
    method OnKey(key: int, action: int, pixels: seq<u8>) returns (effect: KeyEffect)
      requires Valid()
      requires action == GLFW_PRESS && key == GLFW_KEY_F12 ==> |pixels| == canvasWidth * canvasHeight * 3
      modifies this
      ensures Valid()
      ensures frameRendered == old(frameRendered)
      // Releases and repeats change nothing.
      ensures action != GLFW_PRESS ==>
        effect == NoEffect && cmd == old(cmd) && previousCmd == old(previousCmd) && displayCpu == old(displayCpu)
      // Backspace drops the last character, if there is one.
      ensures action == GLFW_PRESS && key == GLFW_KEY_BACKSPACE ==>
        && cmd == (if |old(cmd)| > 0 then old(cmd)[..|old(cmd)| - 1] else old(cmd))
        && previousCmd == old(previousCmd) && displayCpu == old(displayCpu) && effect == NoEffect
      // Up recalls the previous command.
      ensures action == GLFW_PRESS && key == GLFW_KEY_UP ==>
        cmd == old(previousCmd) && previousCmd == old(previousCmd) && displayCpu == old(displayCpu) && effect == NoEffect
      // Enter remembers and clears the command, and dispatches it if it has a space.
      ensures action == GLFW_PRESS && key == GLFW_KEY_ENTER ==>
        && previousCmd == old(cmd) && cmd == []
        && effect == (match SplitCommand(old(cmd))
                      case None => NoEffect
                      case Some(pv) => Dispatched(pv.0, pv.1))
        && displayCpu == (match SplitCommand(old(cmd))
                          case Some(pv) => if pv.0 == "displayCpu" then pv.1 == "true" else old(displayCpu)
                          case None => old(displayCpu))
      // F12 writes the canvas out as a P6 file.
      ensures action == GLFW_PRESS && key == GLFW_KEY_F12 ==>
        && effect == Stored(PpmFile(canvasWidth, canvasHeight, pixels))
        && cmd == old(cmd) && previousCmd == old(previousCmd) && displayCpu == old(displayCpu)
      // Other keys change nothing.
      ensures action == GLFW_PRESS && key !in {GLFW_KEY_BACKSPACE, GLFW_KEY_UP, GLFW_KEY_ENTER, GLFW_KEY_F12} ==>
        effect == NoEffect && cmd == old(cmd) && previousCmd == old(previousCmd) && displayCpu == old(displayCpu)
    {
      effect := NoEffect;
      if action == GLFW_PRESS {
        if key == GLFW_KEY_BACKSPACE && |cmd| > 0 {
          cmd := cmd[..|cmd| - 1];
        } else if key == GLFW_KEY_UP {
          cmd := previousCmd;
        } else if key == GLFW_KEY_ENTER {
          previousCmd := cmd;
          var loc := FindSpace(cmd);
          if loc.None? {
            cmd := [];
            return;
          }
          var param, value := CStr(cmd[..loc.value]), CStr(cmd[loc.value + 1..]);
          SetValue(param, value);
          effect := Dispatched(param, value);
          cmd := [];
        } else if key == GLFW_KEY_F12 {
          effect := Stored(PpmFile(canvasWidth, canvasHeight, pixels));
        }
      }
    }

    /** One frame: the first frame runs the compute pass into the colour buffer and
        sets `frameRendered`; every frame then draws with the display shader the
        texture `displayCpu` selects. The shaders must have the uniforms the frame
        sets. */
    method DrawFrame() returns (computed: bool, shown: int)
      requires Valid()
      requires 0 <= computeShader < |renderer.shaders| && 0 <= displayShader < |renderer.shaders|
      requires "invCanvasSize" in renderer.shaders[computeShader].uniforms
      requires "invCanvasSize" in renderer.shaders[displayShader].uniforms
      requires "sam" in renderer.shaders[displayShader].uniforms
      modifies this, renderer
      ensures Valid()
      ensures frameRendered && computePasses == 1
      ensures computed <==> !old(frameRendered)
      ensures shown == if displayCpu then cpuPrecisionTexture else colorbuffer
      ensures displayCpu == old(displayCpu) && cmd == old(cmd) && previousCmd == old(previousCmd)
      ensures renderer.shaders == old(renderer.shaders) && renderer.textures == old(renderer.textures)
      ensures renderer.meshes == old(renderer.meshes) && renderer.currentShader == displayShader
    {
      var invCanvasSize := [1.0 / canvasWidth as real, 1.0 / canvasHeight as real];
      computed := false;
      if !frameRendered {
        var _ := renderer.SetShader(computeShader);
        var _ := renderer.SetUniform("invCanvasSize", invCanvasSize);
        frameRendered := true;
        computePasses := computePasses + 1;
        computed := true;
      }
      var _ := renderer.SetShader(displayShader);
      var _ := renderer.SetUniform("invCanvasSize", invCanvasSize);
      var _ := renderer.SetUniform("sam", 0);
      shown := if displayCpu then cpuPrecisionTexture else colorbuffer;
    }
  }
}
