/** The Vulkan GLSL shader generator: its configuration, the emission primitives it
    inherits, and its per-stage emission of directives, inputs and outputs, each
    proved to append exactly the text VkText specifies. */
module VkGenerator {
  import opened Lines
  import opened Shader
  import opened VkText

  /** An emission step ended as its specification says: on success it appended the
      specified text, on a failed block lookup it appended nothing. */
  ghost predicate EmittedAs(r: Outcome, spec: Result<string>, before: string, after: string) {
    match spec
    case Ok(text) => r == Pass && after == before + text
    case Err(e) => r == Fail(e) && after == before
  }

  class VkShaderGenerator {
    const syntax: Syntax
    const bindingContext: ResourceBindingContext

    /** The binding context of a generator starts at descriptor set 0. */
    ghost predicate Valid() {
      bindingContext.initialDescriptorSet == 0
    }

    /** Takes the dialect syntax, adds the Vulkan reserved words to it and creates
        the binding context at descriptor set 0. */
    constructor (syntax: Syntax)
      modifies syntax
      ensures this.syntax == syntax
      ensures syntax.reservedWords == old(syntax.reservedWords) + VulkanReservedWords
      ensures fresh(bindingContext) && Valid()
    {
      this.syntax := syntax;
      bindingContext := new ResourceBindingContext(0);
      new;
      syntax.RegisterReservedWords(VulkanReservedWords);
    }

    /** The binding context, the same object on every call. */
    function GetResourceBindingContext(): (ctx: ResourceBindingContext)
      requires Valid()
      ensures ctx == bindingContext && ctx.initialDescriptorSet == 0
    {
      bindingContext
    }

    /** The access path prefix of the inter-stage instance: its name and a dot. */
    static function VertexDataPrefix(vertexData: VariableBlock): (prefix: string)
      ensures |prefix| == |vertexData.instance| + 1
      ensures prefix[..|vertexData.instance|] == vertexData.instance
      ensures prefix[|vertexData.instance|] == '.'
    {
      vertexData.instance + "."
    }

    // Emission primitives of the GLSL generator

    method EmitString(s: string, stage: ShaderStage)
      modifies stage
      ensures stage.code == old(stage.code) + s
      ensures stage.indentations == old(stage.indentations)
    {
      stage.code := stage.code + s;
    }

    method EmitLineBegin(stage: ShaderStage)
      modifies stage
      ensures stage.code == old(stage.code) + Indentation(syntax.rules.indentation, stage.indentations)
      ensures stage.indentations == old(stage.indentations)
    {
      stage.code := stage.code + Indentation(syntax.rules.indentation, stage.indentations);
    }

    method EmitLineEnd(stage: ShaderStage, semicolon: bool)
      modifies stage
      ensures stage.code == old(stage.code) + (if semicolon then Semicolon else "") + [Newline]
      ensures stage.indentations == old(stage.indentations)
    {
      if semicolon {
        stage.code := stage.code + Semicolon;
      }
      stage.code := stage.code + [Newline];
    }

    method EmitLineBreak(stage: ShaderStage)
      modifies stage
      ensures stage.code == old(stage.code) + [Newline]
      ensures stage.indentations == old(stage.indentations)
    {
      stage.code := stage.code + [Newline];
    }

    method EmitLine(s: string, stage: ShaderStage, semicolon: bool)
      modifies stage
      ensures stage.code == old(stage.code) + JoinLines([Indentation(syntax.rules.indentation, stage.indentations)
                                                       + s + (if semicolon then Semicolon else "")])
      ensures stage.indentations == old(stage.indentations)
    {
      EmitLineBegin(stage);
      EmitString(s, stage);
      EmitLineEnd(stage, semicolon);
      JoinLinesSnoc([], Indentation(syntax.rules.indentation, stage.indentations) + s + (if semicolon then Semicolon else ""));
    }

    method EmitComment(text: string, stage: ShaderStage)
      modifies stage
      ensures stage.code == old(stage.code) + JoinLines([CommentLine(syntax.rules, stage.indentations, text)])
      ensures stage.indentations == old(stage.indentations)
    {
      EmitLineBegin(stage);
      EmitString(syntax.rules.singleLineComment + text, stage);
      EmitLineEnd(stage, false);
      JoinLinesSnoc([], CommentLine(syntax.rules, stage.indentations, text));
    }

    method EmitScopeBegin(stage: ShaderStage)
      modifies stage
      ensures stage.code == old(stage.code) + Indentation(syntax.rules.indentation, old(stage.indentations)) + "{" + [Newline]
      ensures stage.indentations == old(stage.indentations) + 1
    {
      EmitLineBegin(stage);
      stage.code := stage.code + "{" + [Newline];
      stage.indentations := stage.indentations + 1;
    }

    method EmitScopeEnd(stage: ShaderStage, semicolon: bool, newline: bool)
      requires stage.indentations > 0
      modifies stage
      ensures stage.indentations == old(stage.indentations) - 1
      ensures stage.code == old(stage.code) + Indentation(syntax.rules.indentation, stage.indentations) + "}"
                            + (if semicolon then Semicolon else "") + (if newline then [Newline] else "")
    {
      stage.indentations := stage.indentations - 1;
      EmitLineBegin(stage);
      stage.code := stage.code + "}";
      if semicolon {
        stage.code := stage.code + Semicolon;
      }
      if newline {
        stage.code := stage.code + [Newline];
      }
    }

    method EmitVariableDeclaration(v: Variable, qualifier: string, stage: ShaderStage)
      modifies stage
      ensures stage.code == old(stage.code) + Declaration(qualifier, v)
      ensures stage.indentations == old(stage.indentations)
    {
      EmitString(Declaration(qualifier, v), stage);
    }

    method EmitVariableDeclarations(block: VariableBlock, qualifier: string, separator: string, stage: ShaderStage)
      modifies stage
      ensures stage.code == old(stage.code)
        + JoinLines(DeclarationLines(Indentation(syntax.rules.indentation, stage.indentations), qualifier, separator, block.variables))
      ensures stage.indentations == old(stage.indentations)
    {
      ghost var lines := DeclarationLines(Indentation(syntax.rules.indentation, stage.indentations), qualifier, separator, block.variables);
      for i := 0 to |block.variables|
        invariant stage.indentations == old(stage.indentations)
        invariant stage.code == old(stage.code) + JoinLines(lines[..i])
      {
        ghost var c0 := stage.code;
        EmitLineBegin(stage);
        ghost var c1 := stage.code;
        EmitVariableDeclaration(block.variables[i], qualifier, stage);
        ghost var c2 := stage.code;
        EmitString(separator, stage);
        ghost var c3 := stage.code;
        EmitLineEnd(stage, false);
        AppendFour(c0, c1, c2, c3, c3, Indentation(syntax.rules.indentation, stage.indentations),
                   Declaration(qualifier, block.variables[i]), separator, "");
        assert c3 == c0 + lines[i];
        AppendLine(old(stage.code), lines[..i], lines[i]);
        assert lines[..i + 1] == lines[..i] + [lines[i]];
      }
      assert lines[..|block.variables|] == lines;
    }

    // Per-stage emission

    /** Appends the version directive and a blank line. */
    method EmitDirectives(stage: ShaderStage)
      modifies stage
      ensures stage.code == old(stage.code) + DirectivesText(syntax.rules, stage.indentations)
      ensures stage.indentations == old(stage.indentations)
    {
      EmitLine("#version " + Version, stage, false);
      EmitLineBreak(stage);
      JoinLinesSnoc([Indentation(syntax.rules.indentation, stage.indentations) + "#version " + Version], "");
    }

    /** Appends the location-qualified vertex inputs of a vertex stage, or the
        inter-stage input block of a pixel stage. */
    method EmitInputs(stage: ShaderStage) returns (r: Outcome)
      modifies stage
      ensures stage.indentations == old(stage.indentations)
      ensures EmittedAs(r, InputsText(syntax.rules, stage.kind, stage.inputs, stage.indentations), old(stage.code), stage.code)
    {
      r := Pass;
      match stage.kind
      case Vertex =>
        if VertexInputs !in stage.inputs {
          return Fail(MissingBlock(VertexInputs));
        }
        var vertexInputs := stage.inputs[VertexInputs];
        if |vertexInputs.variables| > 0 {
          EmitVertexInputs(vertexInputs, stage);
        }
      case Pixel =>
        if VertexData !in stage.inputs {
          return Fail(MissingBlock(VertexData));
        }
        var vertexData := stage.inputs[VertexData];
        if |vertexData.variables| > 0 {
          EmitVertexDataInput(vertexData, stage);
        }
      case Other =>
    }

    /** Appends the outputs of a stage: the inter-stage output block of a vertex
        stage, or the location-qualified outputs of a pixel stage. */
    method EmitOutputs(stage: ShaderStage) returns (r: Outcome)
      modifies stage
      ensures stage.indentations == old(stage.indentations)
      ensures EmittedAs(r, OutputsText(syntax.rules, stage.kind, stage.outputs, stage.indentations), old(stage.code), stage.code)
    {
      r := Pass;
      match stage.kind
      case Vertex =>
        if VertexData !in stage.outputs {
          return Fail(MissingBlock(VertexData));
        }
        var vertexData := stage.outputs[VertexData];
        if |vertexData.variables| > 0 {
          EmitVertexDataOutput(vertexData, stage);
        }
      case Pixel =>
        if PixelOutputs !in stage.outputs {
          return Fail(MissingBlock(PixelOutputs));
        }
        var outputs := stage.outputs[PixelOutputs];
        EmitPixelOutputs(outputs, stage);
      case Other =>
    }

    /** One declaration line with the location qualifier of its position i. */
    method EmitLocatedDeclaration(i: nat, v: Variable, qualifier: string, stage: ShaderStage)
      modifies stage
      ensures stage.indentations == old(stage.indentations)
      ensures stage.code == old(stage.code)
        + (Indentation(syntax.rules.indentation, stage.indentations) + LocationQualifier(i) + Declaration(qualifier, v) + Semicolon)
        + [Newline]
    {
      ghost var c0 := stage.code;
      EmitLineBegin(stage);
      ghost var c1 := stage.code;
      EmitString(LocationQualifier(i), stage);
      ghost var c2 := stage.code;
      EmitVariableDeclaration(v, qualifier, stage);
      ghost var c3 := stage.code;
      EmitString(Semicolon, stage);
      ghost var c4 := stage.code;
      EmitLineEnd(stage, false);
      AppendFour(c0, c1, c2, c3, c4, Indentation(syntax.rules.indentation, stage.indentations), LocationQualifier(i),
                 Declaration(qualifier, v), Semicolon);
    }

    /** The declaration loop shared by the vertex inputs and the pixel outputs:
        variable i gets location i, in block order. */
    method EmitLocatedDeclarations(vars: seq<Variable>, qualifier: string, stage: ShaderStage)
      modifies stage
      ensures stage.indentations == old(stage.indentations)
      ensures stage.code == old(stage.code)
        + JoinLines(PositionalLines(Indentation(syntax.rules.indentation, stage.indentations), qualifier, vars))
    {
      ghost var decls := PositionalLines(Indentation(syntax.rules.indentation, stage.indentations), qualifier, vars);
      for i := 0 to |vars|
        invariant stage.indentations == old(stage.indentations)
        invariant stage.code == old(stage.code) + JoinLines(decls[..i])
      {
        EmitLocatedDeclaration(i, vars[i], qualifier, stage);
        AppendLine(old(stage.code), decls[..i], decls[i]);
        assert decls[..i + 1] == decls[..i] + [decls[i]];
      }
      assert decls[..|vars|] == decls;
    }

    /** The vertex-stage branch of emitInputs for a non-empty input block. */
    method EmitVertexInputs(vertexInputs: VariableBlock, stage: ShaderStage)
      requires |vertexInputs.variables| > 0
      modifies stage
      ensures stage.indentations == old(stage.indentations)
      ensures stage.code == old(stage.code) + VertexInputsText(syntax.rules, stage.indentations, vertexInputs)
    {
      ghost var c0 := stage.code;
      EmitComment(InputsBlockComment + vertexInputs.name, stage);
      ghost var c1 := stage.code;
      EmitLocatedDeclarations(vertexInputs.variables, syntax.rules.inputQualifier, stage);
      ghost var c2 := stage.code;
      EmitLineBreak(stage);
      AppendSection(c0, c1, c2, stage.code, CommentLine(syntax.rules, stage.indentations, InputsBlockComment + vertexInputs.name),
                    PositionalLines(Indentation(syntax.rules.indentation, stage.indentations), syntax.rules.inputQualifier, vertexInputs.variables));
    }

    /** The pixel-stage branch of emitInputs for a non-empty inter-stage block. */
    method EmitVertexDataInput(vertexData: VariableBlock, stage: ShaderStage)
      requires |vertexData.variables| > 0
      modifies stage
      ensures stage.indentations == old(stage.indentations)
      ensures stage.code == old(stage.code)
        + InterStageText(syntax.rules, stage.indentations, syntax.rules.inputQualifier, vertexData)
    {
      ghost var indent := Indentation(syntax.rules.indentation, stage.indentations);
      ghost var members := DeclarationLines(Indentation(syntax.rules.indentation, stage.indentations + 1),
                                            "", Semicolon, vertexData.variables);
      ghost var c0 := stage.code;
      EmitString(InterStageHeader(syntax.rules.inputQualifier, vertexData), stage);
      EmitLineBreak(stage);
      ghost var c1 := stage.code;
      EmitScopeBegin(stage);
      ghost var c2 := stage.code;
      EmitVariableDeclarations(vertexData, "", Semicolon, stage);
      ghost var c3 := stage.code;
      EmitScopeEnd(stage, false, false);
      ghost var c4 := stage.code;
      EmitString(" " + vertexData.instance + Semicolon, stage);
      ghost var c5 := stage.code;
      EmitLineBreak(stage);
      ghost var c6 := stage.code;
      EmitLineBreak(stage);
      assert c2 == c1 + (indent + "{") + [Newline];
      assert c4 == c3 + (indent + "}");
      AppendFramed(c0, c1, c2, c3, c4, c5, c6, stage.code, InterStageHeader(syntax.rules.inputQualifier, vertexData),
                   indent + "{", JoinLines(members), indent + "}", " " + vertexData.instance + Semicolon);
      InterStageTextShape(syntax.rules, stage.indentations, syntax.rules.inputQualifier, vertexData);
    }

    /** The vertex-stage branch of emitOutputs for a non-empty inter-stage block. */
    method EmitVertexDataOutput(vertexData: VariableBlock, stage: ShaderStage)
      requires |vertexData.variables| > 0
      modifies stage
      ensures stage.indentations == old(stage.indentations)
      ensures stage.code == old(stage.code)
        + InterStageText(syntax.rules, stage.indentations, syntax.rules.outputQualifier, vertexData)
    {
      ghost var indent := Indentation(syntax.rules.indentation, stage.indentations);
      ghost var members := DeclarationLines(Indentation(syntax.rules.indentation, stage.indentations + 1),
                                            "", Semicolon, vertexData.variables);
      ghost var c0 := stage.code;
      EmitString(InterStageHeader(syntax.rules.outputQualifier, vertexData), stage);
      EmitLineBreak(stage);
      ghost var c1 := stage.code;
      EmitScopeBegin(stage);
      ghost var c2 := stage.code;
      EmitVariableDeclarations(vertexData, "", Semicolon, stage);
      ghost var c3 := stage.code;
      EmitScopeEnd(stage, false, false);
      ghost var c4 := stage.code;
      EmitString(" " + vertexData.instance + Semicolon, stage);
      ghost var c5 := stage.code;
      EmitLineBreak(stage);
      ghost var c6 := stage.code;
      EmitLineBreak(stage);
      assert c2 == c1 + (indent + "{") + [Newline];
      assert c4 == c3 + (indent + "}");
      AppendFramed(c0, c1, c2, c3, c4, c5, c6, stage.code, InterStageHeader(syntax.rules.outputQualifier, vertexData),
                   indent + "{", JoinLines(members), indent + "}", " " + vertexData.instance + Semicolon);
      InterStageTextShape(syntax.rules, stage.indentations, syntax.rules.outputQualifier, vertexData);
    }

    /** The pixel-stage branch of emitOutputs: always framed, even for no outputs. */
    method EmitPixelOutputs(outputs: VariableBlock, stage: ShaderStage)
      modifies stage
      ensures stage.indentations == old(stage.indentations)
      ensures stage.code == old(stage.code) + PixelOutputsText(syntax.rules, stage.indentations, outputs)
    {
      ghost var c0 := stage.code;
      EmitComment(PixelOutputsComment, stage);
      ghost var c1 := stage.code;
      EmitLocatedDeclarations(outputs.variables, syntax.rules.outputQualifier, stage);
      ghost var c2 := stage.code;
      EmitLineBreak(stage);
      AppendSection(c0, c1, c2, stage.code, CommentLine(syntax.rules, stage.indentations, PixelOutputsComment),
                    PositionalLines(Indentation(syntax.rules.indentation, stage.indentations), syntax.rules.outputQualifier, outputs.variables));
    }
  }

  /** The prefix that later stages put before a member name ends in the instance name
      that closes the emitted inter-stage block. */
  lemma VertexDataPrefixNamesInstance(rules: SyntaxRules, depth: nat, qualifier: string, vertexData: VariableBlock)
    requires SingleLineRules(rules) && SingleLineBlock(vertexData) && NoNewline(qualifier)
    requires |vertexData.variables| > 0
    ensures var prefix := VkShaderGenerator.VertexDataPrefix(vertexData);
      var ls := SplitLines(InterStageText(rules, depth, qualifier, vertexData));
      |ls| >= 2 && ls[|ls| - 2] == Indentation(rules.indentation, depth) + "} " + prefix[..|prefix| - 1] + Semicolon
  {
    InterStageLayout(rules, depth, qualifier, vertexData);
  }
}
