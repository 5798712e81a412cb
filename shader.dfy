/** The shader representation the Vulkan GLSL generator reads and writes: variables
    and variable blocks, the pipeline stage with its source buffer, the dialect
    syntax and the resource binding context. */
module Shader {

  /** A declared port of a stage block: its type name in the target syntax and its
      identifier. */
  datatype Variable = Variable(typeName: string, name: string)

  /** An ordered block of variables with a block name and an instance name; the
      instance name is used when the block is emitted as one interface block. */
  datatype VariableBlock = VariableBlock(name: string, instance: string, variables: seq<Variable>)

  /** The pipeline stage a ShaderStage belongs to. */
  datatype Stage = Vertex | Pixel | Other

  /** Roles under which a stage keeps its input and output blocks. */
  const VertexInputs := "VertexInputs"
  const VertexData := "VertexData"
  const PixelOutputs := "PixelOutputs"

  /** The fixed spellings of the dialect: the two transport qualifiers, the text of
      one indentation level and the opener of a single-line comment. */
  datatype SyntaxRules = SyntaxRules(
    inputQualifier: string,
    outputQualifier: string,
    indentation: string,
    singleLineComment: string)

  /** The dialect syntax object: fixed rules and a growing set of reserved words. */
  class Syntax {
    const rules: SyntaxRules
    var reservedWords: set<string>

    constructor (rules: SyntaxRules, reservedWords: set<string>)
      ensures this.rules == rules && this.reservedWords == reservedWords
    {
      this.rules := rules;
      this.reservedWords := reservedWords;
    }

    /** Reserved-word registration is a set union: registering words that are
        already reserved changes nothing. */
    method RegisterReservedWords(words: set<string>)
      modifies this
      ensures reservedWords == old(reservedWords) + words
      ensures words <= old(reservedWords) ==> reservedWords == old(reservedWords)
    {
      reservedWords := reservedWords + words;
    }
  }

  /** The allocator of descriptor-set and binding indices, modelled only by the
      descriptor set it starts from. */
  class ResourceBindingContext {
    const initialDescriptorSet: nat

    constructor (initialDescriptorSet: nat)
      ensures this.initialDescriptorSet == initialDescriptorSet
    {
      this.initialDescriptorSet := initialDescriptorSet;
    }
  }

  datatype Error = MissingBlock(role: string)

  datatype Outcome = Pass | Fail(error: Error)

  datatype Result<T> = Ok(value: T) | Err(error: Error)

  /** One stage of a shader: its kind, its blocks by role, and the source text
      emitted so far together with the current indentation depth. */
  class ShaderStage {
    const kind: Stage
    const inputs: map<string, VariableBlock>
    const outputs: map<string, VariableBlock>
    var code: string
    var indentations: nat

    constructor (kind: Stage, inputs: map<string, VariableBlock>, outputs: map<string, VariableBlock>)
      ensures this.kind == kind && this.inputs == inputs && this.outputs == outputs
      ensures code == "" && indentations == 0
    {
      this.kind := kind;
      this.inputs := inputs;
      this.outputs := outputs;
      code := "";
      indentations := 0;
    }
  }
}
