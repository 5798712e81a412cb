/** The text the Vulkan GLSL generator appends to a stage, as functions of the
    dialect rules, the current indentation depth and the blocks it reads, with the
    properties of that text: its line structure, the location numbering, the
    symmetry of the two sides of the inter-stage block and the effect of the stage
    kind. */
module VkText {
  import opened Decimal
  import opened Lines
  import opened Shader

  datatype Option<T> = None | Some(value: T)

  /** The GLSL version this generator targets. */
  const Version := "450"
  /** The location of the inter-stage interface block. */
  const VertexDataLocation: nat := 0
  const Semicolon := ";"
  const LocationHead := "layout (location = "
  const InputsBlockComment := "Inputs block: "
  const PixelOutputsComment := "Pixel shader outputs"
  /** Identifiers that Vulkan GLSL reserves beyond the plain GLSL ones. */
  const VulkanReservedWords: set<string> := {"texture2D", "sampler"}

  /** depth copies of one indentation level. */
  function Indentation(unit: string, depth: nat): string {
    if depth == 0 then "" else unit + Indentation(unit, depth - 1)
  }

  /** The location layout qualifier, followed by a space. */
  function LocationQualifier(location: nat): string {
    LocationHead + NatToDecimal(location) + ") "
  }

  /** A variable declaration without initial value: the qualifier and a space
      unless the qualifier is empty, then the type and the identifier. */
  function Declaration(qualifier: string, v: Variable): string {
    (if qualifier == "" then "" else qualifier + " ") + v.typeName + " " + v.name
  }

  /** One location-qualified declaration line per variable, numbered by position. */
  function PositionalLines(indent: string, qualifier: string, vars: seq<Variable>): seq<string> {
    seq(|vars|, i requires 0 <= i < |vars| =>
      indent + LocationQualifier(i) + Declaration(qualifier, vars[i]) + Semicolon)
  }

  /** One separator-terminated declaration line per variable. */
  function DeclarationLines(indent: string, qualifier: string, separator: string, vars: seq<Variable>): seq<string> {
    seq(|vars|, i requires 0 <= i < |vars| => indent + Declaration(qualifier, vars[i]) + separator)
  }

  function CommentLine(rules: SyntaxRules, depth: nat, text: string): string {
    Indentation(rules.indentation, depth) + rules.singleLineComment + text
  }

  /** The version directive and one blank line. */
  function DirectivesText(rules: SyntaxRules, depth: nat): string {
    JoinLines([Indentation(rules.indentation, depth) + "#version " + Version, ""])
  }

  /** The vertex-input section: nothing at all for an empty block. */
  function VertexInputsText(rules: SyntaxRules, depth: nat, vertexInputs: VariableBlock): (text: string)
    ensures text == "" <==> |vertexInputs.variables| == 0
  {
    if |vertexInputs.variables| == 0 then ""
    else
      JoinLines([CommentLine(rules, depth, InputsBlockComment + vertexInputs.name)]
        + PositionalLines(Indentation(rules.indentation, depth), rules.inputQualifier, vertexInputs.variables)
        + [""])
  }

  /** The first line of the inter-stage interface block, the only one that depends
      on the qualifier. */
  function InterStageHeader(qualifier: string, vertexData: VariableBlock): string {
    LocationQualifier(VertexDataLocation) + qualifier + " " + vertexData.name
  }

  /** The lines of the inter-stage interface block after its header: the scope with
      one unqualified member per line, the instance name and a blank line. */
  function InterStageBody(rules: SyntaxRules, depth: nat, vertexData: VariableBlock): seq<string> {
    var indent := Indentation(rules.indentation, depth);
    [indent + "{"]
      + DeclarationLines(Indentation(rules.indentation, depth + 1), "", Semicolon, vertexData.variables)
      + [indent + "} " + vertexData.instance + Semicolon, ""]
  }

  /** The inter-stage interface block with the given qualifier: nothing at all for
      an empty block. */
  function InterStageText(rules: SyntaxRules, depth: nat, qualifier: string, vertexData: VariableBlock): (text: string)
    ensures text == "" <==> |vertexData.variables| == 0
  {
    if |vertexData.variables| == 0 then ""
    else JoinLines([InterStageHeader(qualifier, vertexData)] + InterStageBody(rules, depth, vertexData))
  }

  /** Everything of the inter-stage block that follows its qualifier. */
  function InterStageTail(rules: SyntaxRules, depth: nat, vertexData: VariableBlock): string {
    " " + vertexData.name + [Newline] + JoinLines(InterStageBody(rules, depth, vertexData))
  }

  /** The pixel-output section: framed by its comment and a blank line whatever
      the number of outputs. */
  function PixelOutputsText(rules: SyntaxRules, depth: nat, outputs: VariableBlock): (text: string)
    ensures text != ""
  {
    JoinLines([CommentLine(rules, depth, PixelOutputsComment)]
      + PositionalLines(Indentation(rules.indentation, depth), rules.outputQualifier, outputs.variables)
      + [""])
  }

  /** What emitInputs appends to a stage of the given kind, or the block lookup that fails. */
  function InputsText(rules: SyntaxRules, kind: Stage, inputs: map<string, VariableBlock>, depth: nat): Result<string> {
    match kind
    case Vertex =>
      if VertexInputs in inputs then Ok(VertexInputsText(rules, depth, inputs[VertexInputs]))
      else Err(MissingBlock(VertexInputs))
    case Pixel =>
      if VertexData in inputs then Ok(InterStageText(rules, depth, rules.inputQualifier, inputs[VertexData]))
      else Err(MissingBlock(VertexData))
    case Other => Ok("")
  }

  /** What emitOutputs appends to a stage of the given kind, or the block lookup that fails. */
  function OutputsText(rules: SyntaxRules, kind: Stage, outputs: map<string, VariableBlock>, depth: nat): Result<string> {
    match kind
    case Vertex =>
      if VertexData in outputs then Ok(InterStageText(rules, depth, rules.outputQualifier, outputs[VertexData]))
      else Err(MissingBlock(VertexData))
    case Pixel =>
      if PixelOutputs in outputs then Ok(PixelOutputsText(rules, depth, outputs[PixelOutputs]))
      else Err(MissingBlock(PixelOutputs))
    case Other => Ok("")
  }

  // Reading a location back out of a declaration line

  /** The length of the run of digits that starts s. */
  function LeadingDigits(s: string): (k: nat)
    ensures k <= |s| && AllDigits(s[..k])
    ensures k < |s| ==> !IsDigit(s[k])
  {
    if s == [] || !IsDigit(s[0]) then 0
    else
      var k := 1 + LeadingDigits(s[1..]);
      assert s[..k] == [s[0]] + s[1..][..k - 1];
      k
  }

  /** The location number a line states, when it starts with a location qualifier. */
  function ParseLocation(line: string): Option<nat> {
    if |line| < |LocationHead| || line[..|LocationHead|] != LocationHead then None
    else
      var rest := line[|LocationHead|..];
      var k := LeadingDigits(rest);
      if 0 < k < |rest| && rest[k] == ')' then Some(DecimalValue(rest[..k])) else None
  }

  /** A line that starts with the location qualifier for n states location n. */
  lemma ParseLocationQualifier(location: nat, tail: string)
    ensures ParseLocation(LocationQualifier(location) + tail) == Some(location)
  {
    var digits := NatToDecimal(location);
    var line := LocationQualifier(location) + tail;
    assert line == LocationHead + (digits + (") " + tail));
    var rest := line[|LocationHead|..];
    assert line[..|LocationHead|] == LocationHead;
    assert rest == digits + (") " + tail);
    var k := LeadingDigits(rest);
    assert rest[|digits|] == ')';
    assert forall j :: 0 <= j < |digits| ==> rest[j] == digits[j];
    assert k == |digits|;
    assert rest[..k] == digits;
    DecimalRoundTrip(location);
  }

  /** Declaration i of a positional section states location i, so the locations of
      one block run 0 .. n-1 in block order and are pairwise distinct. */
  lemma PositionalLocations(indent: string, qualifier: string, vars: seq<Variable>)
    ensures forall i :: 0 <= i < |vars| ==>
      ParseLocation(PositionalLines(indent, qualifier, vars)[i][|indent|..]) == Some(i)
  {
    forall i | 0 <= i < |vars|
      ensures ParseLocation(PositionalLines(indent, qualifier, vars)[i][|indent|..]) == Some(i)
    {
      var tail := Declaration(qualifier, vars[i]) + Semicolon;
      assert PositionalLines(indent, qualifier, vars)[i][|indent|..] == LocationQualifier(i) + tail;
      ParseLocationQualifier(i, tail);
    }
  }

  // Line structure of the emitted sections

  predicate SingleLineRules(rules: SyntaxRules) {
    NoNewline(rules.inputQualifier) && NoNewline(rules.outputQualifier)
    && NoNewline(rules.indentation) && NoNewline(rules.singleLineComment)
  }

  predicate SingleLineBlock(block: VariableBlock) {
    NoNewline(block.name) && NoNewline(block.instance)
    && forall i :: 0 <= i < |block.variables| ==>
         NoNewline(block.variables[i].typeName) && NoNewline(block.variables[i].name)
  }

  lemma {:induction false} IndentationSingleLine(unit: string, depth: nat)
    requires NoNewline(unit)
    ensures NoNewline(Indentation(unit, depth))
  {
    if depth > 0 {
      IndentationSingleLine(unit, depth - 1);
    }
  }

  lemma DecimalSingleLine(n: nat)
    ensures NoNewline(NatToDecimal(n))
  {
    var s := NatToDecimal(n);
    assert forall k :: 0 <= k < |s| ==> s[k] != Newline;
  }

  lemma DeclarationSingleLine(qualifier: string, v: Variable)
    requires NoNewline(qualifier) && NoNewline(v.typeName) && NoNewline(v.name)
    ensures NoNewline(Declaration(qualifier, v))
  {
  }

  lemma PositionalLinesSingle(indent: string, qualifier: string, vars: seq<Variable>)
    requires NoNewline(indent) && NoNewline(qualifier)
    requires SingleLineBlock(VariableBlock("", "", vars))
    ensures SingleLines(PositionalLines(indent, qualifier, vars))
  {
    forall i | 0 <= i < |vars| ensures NoNewline(PositionalLines(indent, qualifier, vars)[i]) {
      DecimalSingleLine(i);
      DeclarationSingleLine(qualifier, vars[i]);
    }
  }

  lemma DeclarationLinesSingle(indent: string, qualifier: string, separator: string, vars: seq<Variable>)
    requires NoNewline(indent) && NoNewline(qualifier) && NoNewline(separator)
    requires SingleLineBlock(VariableBlock("", "", vars))
    ensures SingleLines(DeclarationLines(indent, qualifier, separator, vars))
  {
    forall i | 0 <= i < |vars| ensures NoNewline(DeclarationLines(indent, qualifier, separator, vars)[i]) {
      DeclarationSingleLine(qualifier, vars[i]);
    }
  }

  /** The directive section is exactly two lines: the version directive, without a
      statement separator, and a blank line. */
  lemma DirectivesLayout(rules: SyntaxRules, depth: nat)
    requires NoNewline(rules.indentation)
    ensures SplitLines(DirectivesText(rules, depth)) == [Indentation(rules.indentation, depth) + "#version " + Version, ""]
  {
    IndentationSingleLine(rules.indentation, depth);
    SplitJoin([Indentation(rules.indentation, depth) + "#version " + Version, ""]);
  }

  /** A non-empty vertex-input section of n variables is exactly n + 2 lines: the
      comment naming the block, declaration i at location i for every i in block
      order, and one blank line. */
  lemma VertexInputsLayout(rules: SyntaxRules, depth: nat, vertexInputs: VariableBlock)
    requires SingleLineRules(rules) && SingleLineBlock(vertexInputs)
    requires |vertexInputs.variables| > 0
    ensures var indent := Indentation(rules.indentation, depth);
      var ls := SplitLines(VertexInputsText(rules, depth, vertexInputs));
      |ls| == |vertexInputs.variables| + 2
      && ls[0] == CommentLine(rules, depth, InputsBlockComment + vertexInputs.name)
      && ls[1..|ls| - 1] == PositionalLines(indent, rules.inputQualifier, vertexInputs.variables)
      && ls[|ls| - 1] == ""
  {
    var indent := Indentation(rules.indentation, depth);
    IndentationSingleLine(rules.indentation, depth);
    PositionalLinesSingle(indent, rules.inputQualifier, vertexInputs.variables);
    var ls := [CommentLine(rules, depth, InputsBlockComment + vertexInputs.name)]
      + PositionalLines(indent, rules.inputQualifier, vertexInputs.variables) + [""];
    SplitJoin(ls);
  }

  /** A non-empty inter-stage block of n members is exactly n + 4 lines: the header
      with location, qualifier and block name; the opening of the scope; one
      unqualified, separator-terminated member per line in block order; the closing
      of the scope with the instance name; and one blank line. */
  lemma InterStageLayout(rules: SyntaxRules, depth: nat, qualifier: string, vertexData: VariableBlock)
    requires SingleLineRules(rules) && SingleLineBlock(vertexData) && NoNewline(qualifier)
    requires |vertexData.variables| > 0
    ensures var n := |vertexData.variables|;
      var indent := Indentation(rules.indentation, depth);
      var ls := SplitLines(InterStageText(rules, depth, qualifier, vertexData));
      |ls| == n + 4
      && ls[0] == LocationQualifier(VertexDataLocation) + qualifier + " " + vertexData.name
      && ls[1] == indent + "{"
      && ls[2..n + 2] == DeclarationLines(Indentation(rules.indentation, depth + 1), "", Semicolon, vertexData.variables)
      && ls[n + 2] == indent + "} " + vertexData.instance + Semicolon
      && ls[n + 3] == ""
  {
    IndentationSingleLine(rules.indentation, depth);
    IndentationSingleLine(rules.indentation, depth + 1);
    DeclarationLinesSingle(Indentation(rules.indentation, depth + 1), "", Semicolon, vertexData.variables);
    DecimalSingleLine(VertexDataLocation);
    SplitJoin([InterStageHeader(qualifier, vertexData)] + InterStageBody(rules, depth, vertexData));
  }

  /** The pixel-output section of n outputs is exactly n + 2 lines, also for n = 0:
      the comment, declaration i at location i for every i in block order, and one
      blank line. */
  lemma PixelOutputsLayout(rules: SyntaxRules, depth: nat, outputs: VariableBlock)
    requires SingleLineRules(rules) && SingleLineBlock(outputs)
    ensures var indent := Indentation(rules.indentation, depth);
      var ls := SplitLines(PixelOutputsText(rules, depth, outputs));
      |ls| == |outputs.variables| + 2
      && ls[0] == CommentLine(rules, depth, PixelOutputsComment)
      && ls[1..|ls| - 1] == PositionalLines(indent, rules.outputQualifier, outputs.variables)
      && ls[|ls| - 1] == ""
  {
    var indent := Indentation(rules.indentation, depth);
    IndentationSingleLine(rules.indentation, depth);
    PositionalLinesSingle(indent, rules.outputQualifier, outputs.variables);
    var ls := [CommentLine(rules, depth, PixelOutputsComment)]
      + PositionalLines(indent, rules.outputQualifier, outputs.variables) + [""];
    SplitJoin(ls);
  }

  // The two sides of the inter-stage block

  /** The inter-stage block is its location qualifier, the qualifier, and a tail
      that does not depend on the qualifier. */
  lemma InterStageFactors(rules: SyntaxRules, depth: nat, qualifier: string, vertexData: VariableBlock)
    requires |vertexData.variables| > 0
    ensures InterStageText(rules, depth, qualifier, vertexData)
      == LocationQualifier(VertexDataLocation) + qualifier + InterStageTail(rules, depth, vertexData)
  {
    var header := InterStageHeader(qualifier, vertexData);
    var body := InterStageBody(rules, depth, vertexData);
    calc {
      InterStageText(rules, depth, qualifier, vertexData);
      JoinLines([header] + body);
      { assert ([header] + body)[0] == header && ([header] + body)[1..] == body; }
      header + [Newline] + JoinLines(body);
    }
  }

  /** The vertex-stage output and the pixel-stage input of the same block are equal
      exactly when their qualifiers are, or when the block is empty and both are
      omitted. */
  lemma InterStageSidesMatch(rules: SyntaxRules, depth: nat, q1: string, q2: string, vertexData: VariableBlock)
    ensures InterStageText(rules, depth, q1, vertexData) == InterStageText(rules, depth, q2, vertexData)
      <==> q1 == q2 || |vertexData.variables| == 0
  {
    if |vertexData.variables| > 0 {
      InterStageFactors(rules, depth, q1, vertexData);
      InterStageFactors(rules, depth, q2, vertexData);
      var p := LocationQualifier(VertexDataLocation);
      var t := InterStageTail(rules, depth, vertexData);
      var s1 := p + q1 + t;
      var s2 := p + q2 + t;
      if s1 == s2 {
        assert |q1| == |q2|;
        assert s1[|p|..|p| + |q1|] == q1;
        assert s2[|p|..|p| + |q2|] == q2;
      }
    }
  }

  /** The unfolded text of the inter-stage block, in the order it is appended. */
  lemma InterStageTextShape(rules: SyntaxRules, depth: nat, qualifier: string, vertexData: VariableBlock)
    requires |vertexData.variables| > 0
    ensures var indent := Indentation(rules.indentation, depth);
      InterStageText(rules, depth, qualifier, vertexData)
      == InterStageHeader(qualifier, vertexData) + [Newline] + (indent + "{") + [Newline]
        + JoinLines(DeclarationLines(Indentation(rules.indentation, depth + 1), "", Semicolon, vertexData.variables))
        + ((indent + "}") + (" " + vertexData.instance + Semicolon)) + [Newline] + [Newline]
  {
    var indent := Indentation(rules.indentation, depth);
    var header := InterStageHeader(qualifier, vertexData);
    var members := DeclarationLines(Indentation(rules.indentation, depth + 1), "", Semicolon, vertexData.variables);
    var closing := indent + "} " + vertexData.instance + Semicolon;
    assert [header] + InterStageBody(rules, depth, vertexData) == [header, indent + "{"] + members + [closing, ""];
    JoinFramed(header, indent + "{", members, closing);
    assert closing == (indent + "}") + (" " + vertexData.instance + Semicolon);
  }

  // Effects of the stage kind

  predicate SameBlock(a: map<string, VariableBlock>, b: map<string, VariableBlock>, role: string) {
    (role in a <==> role in b) && (role in a ==> a[role] == b[role])
  }

  /** A stage that is neither a vertex nor a pixel stage gets no inputs and no outputs. */
  lemma OtherStageEmitsNothing(rules: SyntaxRules, inputs: map<string, VariableBlock>, outputs: map<string, VariableBlock>, depth: nat)
    ensures InputsText(rules, Other, inputs, depth) == Ok("")
    ensures OutputsText(rules, Other, outputs, depth) == Ok("")
  {
  }

  /** For a vertex stage only the vertex-input block and the vertex-data output block
      matter. */
  lemma VertexStageReadsItsBlocks(rules: SyntaxRules, depth: nat,
                                  in1: map<string, VariableBlock>, in2: map<string, VariableBlock>,
                                  out1: map<string, VariableBlock>, out2: map<string, VariableBlock>)
    requires SameBlock(in1, in2, VertexInputs) && SameBlock(out1, out2, VertexData)
    ensures InputsText(rules, Vertex, in1, depth) == InputsText(rules, Vertex, in2, depth)
    ensures OutputsText(rules, Vertex, out1, depth) == OutputsText(rules, Vertex, out2, depth)
  {
  }

  /** For a pixel stage only the vertex-data input block and the pixel-output block
      matter. */
  lemma PixelStageReadsItsBlocks(rules: SyntaxRules, depth: nat,
                                 in1: map<string, VariableBlock>, in2: map<string, VariableBlock>,
                                 out1: map<string, VariableBlock>, out2: map<string, VariableBlock>)
    requires SameBlock(in1, in2, VertexData) && SameBlock(out1, out2, PixelOutputs)
    ensures InputsText(rules, Pixel, in1, depth) == InputsText(rules, Pixel, in2, depth)
    ensures OutputsText(rules, Pixel, out1, depth) == OutputsText(rules, Pixel, out2, depth)
  {
  }

  /** The vertex-stage output of the inter-stage block and the pixel-stage input of
      the same block differ only in the qualifier that follows the location. */
  lemma StagesShareInterStageBlock(rules: SyntaxRules, depth: nat,
                                   vertexOutputs: map<string, VariableBlock>, pixelInputs: map<string, VariableBlock>)
    requires VertexData in vertexOutputs && VertexData in pixelInputs
    requires vertexOutputs[VertexData] == pixelInputs[VertexData]
    requires |pixelInputs[VertexData].variables| > 0
    ensures var tail := InterStageTail(rules, depth, pixelInputs[VertexData]);
      OutputsText(rules, Vertex, vertexOutputs, depth)
        == Ok(LocationQualifier(VertexDataLocation) + rules.outputQualifier + tail)
      && InputsText(rules, Pixel, pixelInputs, depth)
        == Ok(LocationQualifier(VertexDataLocation) + rules.inputQualifier + tail)
  {
    InterStageFactors(rules, depth, rules.outputQualifier, pixelInputs[VertexData]);
    InterStageFactors(rules, depth, rules.inputQualifier, pixelInputs[VertexData]);
  }

  // End-to-end scenarios

  /** The spellings of the Vulkan GLSL syntax: "in" and "out", four-space
      indentation and line comments. */
  const VkRules := SyntaxRules("in", "out", "    ", "// ")

  const ColorData := VariableBlock("VertexData", "vd", [Variable("vec3", "color")])

  lemma LocationZero()
    ensures LocationQualifier(0) == "layout (location = 0) "
  {
    assert NatToDecimal(0) == "0";
  }

  /** The one declaration line of a single-variable positional block at depth 0. */
  lemma SinglePositionalLine(qualifier: string, v: Variable)
    requires qualifier != ""
    ensures PositionalLines("", qualifier, [v]) == ["layout (location = 0) " + qualifier + " " + v.typeName + " " + v.name + ";"]
  {
    LocationZero();
    var ls := PositionalLines("", qualifier, [v]);
    assert |ls| == 1;
    assert ls[0] == "" + LocationQualifier(0) + Declaration(qualifier, v) + Semicolon;
    assert Declaration(qualifier, v) == qualifier + " " + v.typeName + " " + v.name;
    assert ls[0] == "layout (location = 0) " + qualifier + " " + v.typeName + " " + v.name + ";";
  }

  /** The colour varying as an interface block with the given qualifier. */
  lemma ColorDataLines(qualifier: string)
    ensures InterStageText(VkRules, 0, qualifier, ColorData)
      == JoinLines(["layout (location = 0) " + qualifier + " VertexData", "{", "    vec3 color;", "} vd;", ""])
  {
    LocationZero();
    var unit := VkRules.indentation;
    assert Indentation(unit, 1) == "    " by {
      assert Indentation(unit, 1) == unit + Indentation(unit, 0);
    }
    assert Indentation(unit, 0) == "";
    var members := DeclarationLines(Indentation(unit, 1), "", Semicolon, ColorData.variables);
    assert |members| == 1;
    assert members[0] == "    " + Declaration("", Variable("vec3", "color")) + ";";
    assert Declaration("", Variable("vec3", "color")) == "vec3 color";
    assert members[0] == "    vec3 color;";
    assert members == ["    vec3 color;"];
    assert InterStageHeader(qualifier, ColorData) == "layout (location = 0) " + qualifier + " VertexData";
    assert "" + "{" == "{";
    assert "" + "} " + "vd" + Semicolon == "} vd;";
    var body := InterStageBody(VkRules, 0, ColorData);
    assert body == ["{"] + members + ["} vd;", ""];
    assert [InterStageHeader(qualifier, ColorData)] + body
      == ["layout (location = 0) " + qualifier + " VertexData", "{", "    vec3 color;", "} vd;", ""];
  }

  /** A vertex stage with one position input and one colour varying: the inputs are
      a comment and one location-0 "in" declaration, the outputs the "out" side of
      the interface block. */
  lemma VertexStageScenario()
    ensures InputsText(VkRules, Vertex, map[VertexInputs := VariableBlock("VertexInputs", "", [Variable("vec3", "position")])], 0)
      == Ok(JoinLines(["// Inputs block: VertexInputs", "layout (location = 0) in vec3 position;", ""]))
    ensures OutputsText(VkRules, Vertex, map[VertexData := ColorData], 0)
      == Ok(JoinLines(["layout (location = 0) out VertexData", "{", "    vec3 color;", "} vd;", ""]))
  {
    var position := VariableBlock("VertexInputs", "", [Variable("vec3", "position")]);
    var comment := CommentLine(VkRules, 0, InputsBlockComment + position.name);
    assert comment == "// Inputs block: VertexInputs";
    var line := "layout (location = 0) in vec3 position;";
    assert Indentation(VkRules.indentation, 0) == "";
    SinglePositionalLine("in", Variable("vec3", "position"));
    assert "layout (location = 0) " + "in" + " " + "vec3" + " " + "position" + ";" == line;
    assert PositionalLines("", "in", position.variables) == [line];
    assert [comment] + [line] + [""] == ["// Inputs block: VertexInputs", line, ""];
    ColorDataLines("out");
    assert "layout (location = 0) " + "out" + " VertexData" == "layout (location = 0) out VertexData";
    assert VkRules.outputQualifier == "out";
    assert OutputsText(VkRules, Vertex, map[VertexData := ColorData], 0) == Ok(InterStageText(VkRules, 0, "out", ColorData));
  }

  /** A pixel stage consuming the same colour varying and writing one colour
      output: the "in" side of the interface block, and a comment with one
      location-0 "out" declaration. */
  lemma PixelStageScenario()
    ensures InputsText(VkRules, Pixel, map[VertexData := ColorData], 0)
      == Ok(JoinLines(["layout (location = 0) in VertexData", "{", "    vec3 color;", "} vd;", ""]))
    ensures OutputsText(VkRules, Pixel, map[PixelOutputs := VariableBlock("PixelOutputs", "", [Variable("vec4", "outColor")])], 0)
      == Ok(JoinLines(["// Pixel shader outputs", "layout (location = 0) out vec4 outColor;", ""]))
  {
    var outputs := VariableBlock("PixelOutputs", "", [Variable("vec4", "outColor")]);
    var comment := CommentLine(VkRules, 0, PixelOutputsComment);
    assert comment == "// Pixel shader outputs";
    var line := "layout (location = 0) out vec4 outColor;";
    assert Indentation(VkRules.indentation, 0) == "";
    SinglePositionalLine("out", Variable("vec4", "outColor"));
    assert "layout (location = 0) " + "out" + " " + "vec4" + " " + "outColor" + ";" == line;
    assert PositionalLines("", "out", outputs.variables) == [line];
    assert [comment] + [line] + [""] == ["// Pixel shader outputs", line, ""];
    ColorDataLines("in");
    assert "layout (location = 0) " + "in" + " VertexData" == "layout (location = 0) in VertexData";
    assert VkRules.inputQualifier == "in";
    assert InputsText(VkRules, Pixel, map[VertexData := ColorData], 0) == Ok(InterStageText(VkRules, 0, "in", ColorData));
  }
}
