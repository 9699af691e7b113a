/** The declaration scan of Renderer::addShaderFromSource: the vertex-shader source
    and then the fragment-shader source are read word by word, up to a word equal
    to `main`, and the names that follow each `uniform <type>` and
    `attribute <type>` are collected. It is a crude reading of the storage
    qualifiers of the OpenGL ES Shading Language 1.00 (sections 4.3.3 Attribute
    and 4.3.4 Uniform), and its quirks are kept: the name is always the third word
    of the triple, so `uniform highp vec2 x;` yields `vec2`. */
module Scanner {
  import opened Stream

  /** The characters of `find_first_of("[ ;")`, where a collected name is cut. */
  predicate IsNameDelimiter(c: char) {
    c == '[' || c == ' ' || c == ';'
  }

  /** `raw.substr(0, raw.find_first_of("[ ;"))`: the longest prefix of `raw`
      holding none of the delimiters. */
  function CutName(raw: string): (name: string)
    ensures name <= raw
    ensures forall k :: 0 <= k < |name| ==> !IsNameDelimiter(name[k])
    ensures |name| < |raw| ==> IsNameDelimiter(raw[|name|])
    ensures (forall k :: 0 <= k < |raw| ==> !IsNameDelimiter(raw[k])) ==> name == raw
  {
    if raw == [] || IsNameDelimiter(raw[0]) then [] else [raw[0]] + CutName(raw[1..])
  }

  /** The two name lists the scan fills, in the order names are pushed. */
  datatype Declarations = Declarations(uniforms: seq<string>, attributes: seq<string>)

  /** Whether the loop runs its body for the word at cursor `i`: a word was read,
      it is not `main`, and reading it did not set eof (it is not the last word
      of a text that does not end in white space). */
  predicate Examines(toks: seq<string>, closed: bool, i: nat) {
    i < |toks| && toks[i] != "main" && (i + 1 < |toks| || closed)
  }

  predicate IsQualifier(t: string) {
    t == "uniform" || t == "attribute"
  }

  /** The cursor after the body has run on word `i`: a qualifier also consumes the
      type and the name that follow it. */
  function Next(toks: seq<string>, i: nat): nat
    requires i < |toks|
  {
    if IsQualifier(toks[i]) then i + 3 else i + 1
  }

  /** The word read into `name` after the qualifier at `i`; a failed read leaves the
      fresh `name` empty. */
  function NameSlot(toks: seq<string>, i: nat): string {
    if i + 2 < |toks| then toks[i + 2] else ""
  }

  /** The scan over the words of one source, from cursor `i`; `closed` tells whether
      the source ends in white space. */
  function ScanTokens(toks: seq<string>, closed: bool, i: nat): Declarations
    decreases |toks| - i
  {
    if !Examines(toks, closed, i) then Declarations([], [])
    else
      var rest := ScanTokens(toks, closed, Next(toks, i));
      if toks[i] == "uniform" then
        Declarations([CutName(NameSlot(toks, i))] + rest.uniforms, rest.attributes)
      else if toks[i] == "attribute" then
        Declarations(rest.uniforms, [CutName(NameSlot(toks, i))] + rest.attributes)
      else rest
  }

  /** What the scan collects from one shader source. */
  function SourceDeclarations(src: string): Declarations {
    ScanTokens(Tokens(src), EndsWithSpace(src), 0)
  }

  /** What the scan collects from a vertex and a fragment shader: all vertex-shader
      names before all fragment-shader names. */
  function ShaderDeclarations(vsSource: string, fsSource: string): (d: Declarations)
    ensures forall n :: n in d.uniforms + d.attributes ==> forall k :: 0 <= k < |n| ==> !IsNameDelimiter(n[k])
  {
    var v, f := SourceDeclarations(vsSource), SourceDeclarations(fsSource);
    NamesHaveNoDelimiters(Tokens(vsSource), EndsWithSpace(vsSource), 0);
    NamesHaveNoDelimiters(Tokens(fsSource), EndsWithSpace(fsSource), 0);
    Declarations(v.uniforms + f.uniforms, v.attributes + f.attributes)
  }

  lemma AppendAssociates(a: seq<string>, b: seq<string>, c: seq<string>)
    ensures a + (b + c) == (a + b) + c
  {
  }

  /** One turn of the scan: what the word at cursor `i` adds in front of what the
      rest of the scan collects. */
  lemma ScanStep(toks: seq<string>, closed: bool, i: nat)
    requires Examines(toks, closed, i)
    ensures var here, rest := ScanTokens(toks, closed, i), ScanTokens(toks, closed, Next(toks, i));
      && (toks[i] == "uniform" ==> here.uniforms == [CutName(NameSlot(toks, i))] + rest.uniforms && here.attributes == rest.attributes)
      && (toks[i] == "attribute" ==> here.attributes == [CutName(NameSlot(toks, i))] + rest.attributes && here.uniforms == rest.uniforms)
      && (!IsQualifier(toks[i]) ==> here == rest)
  {
  }

  /** `ss >> type >> name` after a qualifier at word `i`: returns the name, or ""
      when the stream runs out first. */
  method ReadQualifiedName(ss: StringStream, ghost i: nat) returns (name: string)
    requires ss.Valid() && !ss.eof && ss.pos < |ss.text| && ss.consumed == i + 1
    modifies ss
    ensures ss.Valid() && ss.pos > old(ss.pos)
    ensures name == NameSlot(ss.Words(), i)
    ensures ss.consumed == if i + 3 <= |ss.Words()| then i + 3 else |ss.Words()|
    ensures !ss.eof ==> ss.pos < |ss.text| && (ss.consumed < |ss.Words()| || EndsWithSpace(ss.text))
  {
    var ty := ss.Read("");
    name := ss.Read("");
  }

  /** `ss >> token` at the top of the loop, reading word `j`: afterwards the loop
      condition's `!ss.eof` holds exactly when the scan examines word `j`, unless
      that word is `main`. */
  method ReadCursorWord(ss: StringStream, token: string, ghost j: nat) returns (word: string)
    requires ss.Valid()
    requires ss.consumed == if j <= |ss.Words()| then j else |ss.Words()|
    requires !ss.eof ==> ss.pos < |ss.text| && (ss.consumed < |ss.Words()| || EndsWithSpace(ss.text))
    modifies ss
    ensures ss.Valid() && ss.pos >= old(ss.pos) && (!old(ss.eof) ==> ss.pos > old(ss.pos))
    ensures ss.eof ==> !Examines(ss.Words(), EndsWithSpace(ss.text), j)
    ensures !ss.eof ==> ss.consumed == j + 1 && word == ss.Words()[j]
    ensures !ss.eof ==> ss.pos < |ss.text| && (ss.consumed < |ss.Words()| || EndsWithSpace(ss.text))
  {
    word := ss.Read(token);
  }

  /** The `while` loop of addShaderFromSource over one source held in a fresh
      std::stringstream. */
  method ScanSource(src: string) returns (d: Declarations)
    requires |src| > 0
    ensures d == SourceDeclarations(src)
  {
    ghost var toks, closed := Tokens(src), EndsWithSpace(src);
    ghost var spec := ScanTokens(toks, closed, 0);
    var ss := new StringStream(src);
    var token := ss.Read("");
    ghost var i: nat := 0;
    var uniforms: seq<string>, attributes: seq<string> := [], [];
    while token != "main" && !ss.eof
      invariant ss.Valid() && ss.text == src
      invariant ss.eof ==> !Examines(toks, closed, i)
      invariant !ss.eof ==> ss.pos < |src| && (ss.consumed < |toks| || closed)
      invariant !ss.eof ==> ss.consumed == i + 1 && token == toks[i]
      invariant uniforms + ScanTokens(toks, closed, i).uniforms == spec.uniforms
      invariant attributes + ScanTokens(toks, closed, i).attributes == spec.attributes
      decreases |src| - ss.pos
    {
      ghost var rest := ScanTokens(toks, closed, Next(toks, i));
      ScanStep(toks, closed, i);
      if token == "uniform" {
        var name := ReadQualifiedName(ss, i);
        AppendAssociates(uniforms, [CutName(name)], rest.uniforms);
        uniforms := uniforms + [CutName(name)];
      } else if token == "attribute" {
        var name := ReadQualifiedName(ss, i);
        AppendAssociates(attributes, [CutName(name)], rest.attributes);
        attributes := attributes + [CutName(name)];
      }
      token := ReadCursorWord(ss, token, Next(toks, i));
      i := Next(toks, i);
    }
    d := Declarations(uniforms, attributes);
  }

  /** Both passes of addShaderFromSource: the vertex source first, then the
      fragment source, appending to the same two lists. */
  method ScanShaderSources(vsSource: string, fsSource: string) returns (d: Declarations)
    requires |vsSource| > 0 && |fsSource| > 0
    ensures d == ShaderDeclarations(vsSource, fsSource)
  {
    var v := ScanSource(vsSource);
    var f := ScanSource(fsSource);
    d := Declarations(v.uniforms + f.uniforms, v.attributes + f.attributes);
  }

  // Properties of the scan

  /** Every collected name is free of `[`, ` ` and `;`. */
  lemma {:induction false} NamesHaveNoDelimiters(toks: seq<string>, closed: bool, i: nat)
    ensures var d := ScanTokens(toks, closed, i);
      forall n :: n in d.uniforms + d.attributes ==> forall k :: 0 <= k < |n| ==> !IsNameDelimiter(n[k])
    decreases |toks| - i
  {
    if Examines(toks, closed, i) {
      NamesHaveNoDelimiters(toks, closed, Next(toks, i));
    }
  }

  /** Every name takes up its qualifier and the two words after it, of which only
      the last may be missing: from cursor `i` at most (|toks| - i + 2) / 3 names
      are collected. */
  lemma {:induction false} NameBudget(toks: seq<string>, closed: bool, i: nat)
    ensures var d := ScanTokens(toks, closed, i);
      d == Declarations([], []) || 3 * (|d.uniforms| + |d.attributes|) <= |toks| + 2 - i
    decreases |toks| - i
  {
    if Examines(toks, closed, i) {
      NameBudget(toks, closed, Next(toks, i));
    }
  }

  /** The cursors at which the loop body runs, in order. */
  function Trace(toks: seq<string>, closed: bool, i: nat): seq<nat>
    decreases |toks| - i
  {
    if !Examines(toks, closed, i) then [] else [i] + Trace(toks, closed, Next(toks, i))
  }

  /** The cursor at which the loop stops: the first one it does not examine. */
  function Stop(toks: seq<string>, closed: bool, i: nat): (s: nat)
    ensures s >= i
    decreases |toks| - i
  {
    if !Examines(toks, closed, i) then i else Stop(toks, closed, Next(toks, i))
  }

  /** Whether the word at cursor `p` is the qualifier `q`. */
  predicate QualifierAt(toks: seq<string>, p: nat, q: string) {
    p < |toks| && toks[p] == q
  }

  /** The names a qualifier `q` contributes along a trace: one per cursor holding `q`,
      cut from the word two places after it. */
  function NamesAlong(toks: seq<string>, trace: seq<nat>, q: string): seq<string> {
    if trace == [] then []
    else
      (if QualifierAt(toks, trace[0], q) then [CutName(NameSlot(toks, trace[0]))] else [])
      + NamesAlong(toks, trace[1..], q)
  }

  /** How many cursors along a trace hold the qualifier `q`. */
  function CountAlong(toks: seq<string>, trace: seq<nat>, q: string): nat {
    if trace == [] then 0
    else (if QualifierAt(toks, trace[0], q) then 1 else 0) + CountAlong(toks, trace[1..], q)
  }

  lemma {:induction false} NamesAlongCount(toks: seq<string>, trace: seq<nat>, q: string)
    ensures |NamesAlong(toks, trace, q)| == CountAlong(toks, trace, q)
  {
    if trace != [] {
      NamesAlongCount(toks, trace[1..], q);
    }
  }

  /** The loop visits increasing cursors, never one holding `main`, and all of them
      before the cursor where it stops: words after that cursor are never examined. */
  lemma {:induction false} TraceShape(toks: seq<string>, closed: bool, i: nat)
    ensures forall k :: 0 <= k < |Trace(toks, closed, i)| ==>
      var c := Trace(toks, closed, i)[k];
      i <= c < Stop(toks, closed, i) && c < |toks| && toks[c] != "main"
    ensures forall k :: 0 < k < |Trace(toks, closed, i)| ==>
      var c := Trace(toks, closed, i)[k - 1];
      c < |toks| && Trace(toks, closed, i)[k] == Next(toks, c)
    decreases |toks| - i
  {
    if Examines(toks, closed, i) {
      var n := Next(toks, i);
      TraceShape(toks, closed, n);
      assert Trace(toks, closed, i) == [i] + Trace(toks, closed, n);
    }
  }

  /** The scan stops at a cursor holding `main`, at the last word of a text without
      trailing white space, or past the last word. */
  lemma {:induction false} StopReason(toks: seq<string>, closed: bool, i: nat)
    ensures var s := Stop(toks, closed, i);
      s >= |toks| || toks[s] == "main" || (s == |toks| - 1 && !closed)
    decreases |toks| - i
  {
    if Examines(toks, closed, i) {
      StopReason(toks, closed, Next(toks, i));
    }
  }

  /** Each `uniform` the loop examines adds exactly one entry to `uniforms`, and each
      `attribute` exactly one to `attributes`, in the order of the trace. */
  lemma {:induction false} ScanFollowsTrace(toks: seq<string>, closed: bool, i: nat)
    ensures var d, t := ScanTokens(toks, closed, i), Trace(toks, closed, i);
      d.uniforms == NamesAlong(toks, t, "uniform") && d.attributes == NamesAlong(toks, t, "attribute")
    ensures var d, t := ScanTokens(toks, closed, i), Trace(toks, closed, i);
      |d.uniforms| == CountAlong(toks, t, "uniform") && |d.attributes| == CountAlong(toks, t, "attribute")
    decreases |toks| - i
  {
    var t := Trace(toks, closed, i);
    if Examines(toks, closed, i) {
      ScanFollowsTrace(toks, closed, Next(toks, i));
      assert t[1..] == Trace(toks, closed, Next(toks, i));
    }
    NamesAlongCount(toks, t, "uniform");
    NamesAlongCount(toks, t, "attribute");
  }

  /** Replacing everything after the `main` at which the scan stops (and whether the
      text ends in white space) does not change what is collected. */
  lemma {:induction false} IgnoresWordsAfterMain(toks: seq<string>, closed: bool, i: nat, more: seq<string>, closed': bool)
    requires Stop(toks, closed, i) < |toks| && toks[Stop(toks, closed, i)] == "main"
    ensures ScanTokens(toks[..Stop(toks, closed, i) + 1] + more, closed', i) == ScanTokens(toks, closed, i)
    decreases |toks| - i
  {
    var j := Stop(toks, closed, i);
    var toks' := toks[..j + 1] + more;
    if Examines(toks, closed, i) {
      var n := Next(toks, i);
      assert j == Stop(toks, closed, n) && n <= j;
      IgnoresWordsAfterMain(toks, closed, n, more, closed');
      assert toks'[i] == toks[i];
      assert Examines(toks', closed', i) && Next(toks', i) == n;
      if IsQualifier(toks[i]) {
        assert toks'[i + 2] == toks[i + 2];
        assert NameSlot(toks', i) == NameSlot(toks, i);
      }
    } else {
      assert toks'[i] == "main";
    }
  }

  // The scanner's quirks, on concrete word sequences

  /** With a precision qualifier the type is taken for the name. */
  lemma PrecisionQualifierQuirk()
    ensures ScanTokens(["uniform", "highp", "vec2", "x;", "void", "main", "(", ")"], true, 0)
         == Declarations(["vec2"], [])
  {
  }

  /** Array brackets and the semicolon are cut off the name. */
  lemma CutExample()
    ensures ScanTokens(["attribute", "vec3", "pos;", "uniform", "sampler2D", "s[2];", "main"], true, 0)
         == Declarations(["s"], ["pos"])
  {
    var t := ["attribute", "vec3", "pos;", "uniform", "sampler2D", "s[2];", "main"];
    assert ScanTokens(t, true, 6) == Declarations([], []);
    assert CutName("s[2];") == "s";
    assert ScanTokens(t, true, 3) == Declarations(["s"], []);
    assert CutName("pos;") == "pos";
  }

  /** The stop test is word equality: `main()` does not stop the scan, `main` does. */
  lemma StopExample()
    ensures ScanTokens(["main()", "uniform", "float", "a;", "main", "uniform", "float", "b;"], true, 0)
         == Declarations(["a"], [])
  {
    var t := ["main()", "uniform", "float", "a;", "main", "uniform", "float", "b;"];
    assert t[4] == "main";
    assert ScanTokens(t, true, 4) == Declarations([], []);
    assert CutName("a;") == "a";
    assert ScanTokens(t, true, 1) == Declarations(["a"], []);
    assert t[0] != "main";
  }

  /** A qualifier whose type is the last word collects the empty name; when the
      text does not end in white space, its last word is never examined at all. */
  lemma LastWordQuirk()
    ensures ScanTokens(["attribute", "vec3"], false, 0) == Declarations([], [""])
    ensures ScanTokens(["attribute"], false, 0) == Declarations([], [])
    ensures ScanTokens(["attribute"], true, 0) == Declarations([], [""])
  {
  }
}
