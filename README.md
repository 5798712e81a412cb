# Vulkan GLSL shader generator

A Dafny model of MaterialX's `VkShaderGenerator`, the GLSL generator variant for
Vulkan. The model covers:

- Its construction. It takes the Vulkan syntax, registers the two extra reserved
  words `texture2D` and `sampler`, and creates a resource binding context that
  starts at descriptor set 0.
- The directives it writes: `#version 450` followed by a blank line.
- The stage interface it writes.
  - A vertex stage gets its vertex inputs, each with an explicit `layout (location = i)` qualifier in block order.
  - A pixel stage gets its outputs, numbered the same way.
  - Vertex and pixel stages are linked by one interface block at the vertex-data location. The vertex stage writes it with the output qualifier and the pixel stage with the input qualifier. The block holds the unqualified members and closes with the instance name.
- The instance-name prefix that later code uses to reach the block's members.
- The accessor for the binding context.

The shader stage is a class, `Shader.ShaderStage`. Its fields are a source buffer
`code` and the current indentation depth `indentations`. The emission primitives
of the GLSL base generator are methods that append to that buffer. Each per-stage
emitter of `VkGenerator.VkShaderGenerator` is proved to append exactly the text
that a pure function in `VkText` specifies. The properties of the emitted code are
lemmas about those functions:

- Exact line structure. `Lines.SplitLines` inverts `Lines.JoinLines` for
  newline-free lines.
- Location numbering. The location written on declaration line `i` reads back
  as `i`. `Decimal.NatToDecimal` models `std::to_string`, and it is proved to be
  a bijection onto canonical digit strings.
- The two sides of the interface block. The vertex-stage output and the
  pixel-stage input of the same block differ only in the qualifier.
- The effect of the stage kind.
- End-to-end examples of a vertex and a pixel stage.

Modules:

- `Decimal` (`decimal.dfy`): decimal rendering of naturals and its inverse.
- `Lines` (`lines.dfy`): text as newline-terminated lines.
- `Shader` (`shader.dfy`): variables, blocks, the stage, the syntax object and the binding context.
- `VkText` (`vk_text.dfy`): the specified texts and their properties.
- `VkGenerator` (`vk_shader_generator.dfy`): the generator class.

## Model

| member | source | states |
|---|---|---|
| VkGenerator.VkShaderGenerator.constructor | source/MaterialXGenGlsl/VkShaderGenerator.cpp:14-24 | keeps the given syntax object, whose reserved words afterwards are the previous ones plus `texture2D` and `sampler`; creates a fresh binding context whose initial descriptor set is 0 |
| Shader.Syntax.RegisterReservedWords | source/MaterialXGenGlsl/VkShaderGenerator.cpp:19-20 | the reserved words become their union with the given words; registering words already reserved leaves the set unchanged |
| VkGenerator.VkShaderGenerator.GetResourceBindingContext | source/MaterialXGenGlsl/VkShaderGenerator.cpp:111-114 | returns the generator's own binding context, the one created at construction, which starts at descriptor set 0 |
| VkGenerator.VkShaderGenerator.EmitDirectives | source/MaterialXGenGlsl/VkShaderGenerator.cpp:26-30 | appends exactly the directive text and leaves the indentation depth unchanged |
| VkText.DirectivesLayout | source/MaterialXGenGlsl/VkShaderGenerator.cpp:12-30 | the directive text is exactly two lines: the indented `#version 450` without a semicolon, then a blank line |
| VkGenerator.VkShaderGenerator.EmitInputs | source/MaterialXGenGlsl/VkShaderGenerator.cpp:32-68 | for a vertex stage it appends the vertex-input text and for a pixel stage the input side of the interface block; for any other stage it appends nothing; a missing block fails with the missing role and appends nothing; the depth is unchanged |
| VkGenerator.VkShaderGenerator.EmitVertexInputs | source/MaterialXGenGlsl/VkShaderGenerator.cpp:37-49 | for a non-empty block, the comment, one location-qualified input declaration per variable and the blank line append exactly the vertex-input text |
| VkGenerator.VkShaderGenerator.EmitLocatedDeclarations | source/MaterialXGenGlsl/VkShaderGenerator.cpp:40-47 | for every variable i in block order, appends one indented line holding location qualifier i, the qualified declaration and a semicolon; the depth is unchanged |
| VkGenerator.VkShaderGenerator.EmitLocatedDeclaration | source/MaterialXGenGlsl/VkShaderGenerator.cpp:42-46 | appends exactly one line: the indentation, the location qualifier of the given position, the qualified declaration and a semicolon |
| VkText.VertexInputsText | source/MaterialXGenGlsl/VkShaderGenerator.cpp:37-49 | the vertex-input text is empty exactly when the block has no variables |
| VkText.VertexInputsLayout | source/MaterialXGenGlsl/VkShaderGenerator.cpp:37-49 | a non-empty block of n variables gives exactly n + 2 lines: the comment naming the block, declaration i with location i and the input qualifier for every i in block order, and a blank line |
| VkText.PositionalLocations | source/MaterialXGenGlsl/VkShaderGenerator.cpp:40-46 | the location read back from declaration line i is i, so the locations of one block run 0 to n-1 in block order |
| VkText.ParseLocationQualifier | source/MaterialXGenGlsl/VkShaderGenerator.cpp:43 | a line that starts with the location qualifier for n reads back as location n |
| Decimal.NatToDecimal | source/MaterialXGenGlsl/VkShaderGenerator.cpp:43 | the decimal text of an index is canonical: non-empty digits with no leading zero, and it starts with '0' exactly for 0 |
| Decimal.DecimalRoundTrip | source/MaterialXGenGlsl/VkShaderGenerator.cpp:43 | reading back the decimal text of n gives n |
| Decimal.DecimalOfValue | source/MaterialXGenGlsl/VkShaderGenerator.cpp:43 | every canonical digit string is the decimal text of its value |
| Decimal.DecimalInjective | source/MaterialXGenGlsl/VkShaderGenerator.cpp:43 | two indices have the same decimal text exactly when they are equal |
| VkGenerator.VkShaderGenerator.EmitVertexDataInput | source/MaterialXGenGlsl/VkShaderGenerator.cpp:54-66 | for a non-empty block, the header, the scope, the member declarations, the closing with the instance name and two line breaks append exactly the interface block with the input qualifier; the depth afterwards is unchanged |
| VkGenerator.VkShaderGenerator.EmitVertexDataOutput | source/MaterialXGenGlsl/VkShaderGenerator.cpp:79-91 | the same as the input side, with the output qualifier |
| VkText.InterStageText | source/MaterialXGenGlsl/VkShaderGenerator.cpp:54-66 | the interface-block text is empty exactly when the block has no variables |
| VkText.InterStageLayout | source/MaterialXGenGlsl/VkShaderGenerator.cpp:57-65 | a non-empty block of n members gives exactly n + 4 lines: the header with the vertex-data location, the qualifier and the block name; the opening brace; one unqualified member per line in block order, each ending in a semicolon and indented one level deeper; the closing brace with the instance name; and a blank line |
| VkText.InterStageTextShape | source/MaterialXGenGlsl/VkShaderGenerator.cpp:57-65 | the interface-block text is the concatenation of the pieces in the order the emitter appends them |
| VkText.InterStageFactors | source/MaterialXGenGlsl/VkShaderGenerator.cpp:57-58 | a non-empty interface block is its location qualifier, then the qualifier, then a tail that does not depend on the qualifier |
| VkText.InterStageSidesMatch | source/MaterialXGenGlsl/VkShaderGenerator.cpp:54-91 | the interface-block texts of one block written with two qualifiers are equal exactly when the qualifiers are equal or the block is empty |
| VkText.StagesShareInterStageBlock | source/MaterialXGenGlsl/VkShaderGenerator.cpp:54-91 | when a vertex stage's vertex-data output and a pixel stage's vertex-data input are the same non-empty block, the two emitted texts are the same location qualifier and tail, with the output and the input qualifier respectively |
| VkGenerator.VkShaderGenerator.EmitOutputs | source/MaterialXGenGlsl/VkShaderGenerator.cpp:75-109 | for a vertex stage it appends the output side of the interface block and for a pixel stage the pixel-output text; for any other stage it appends nothing; a missing block fails with the missing role and appends nothing; the depth is unchanged |
| VkGenerator.VkShaderGenerator.EmitPixelOutputs | source/MaterialXGenGlsl/VkShaderGenerator.cpp:96-107 | the comment, one location-qualified output declaration per variable and the blank line append exactly the pixel-output text, also for an empty block |
| VkText.PixelOutputsText | source/MaterialXGenGlsl/VkShaderGenerator.cpp:96-107 | the pixel-output text is never empty: the comment and the blank line are written whatever the number of outputs |
| VkText.PixelOutputsLayout | source/MaterialXGenGlsl/VkShaderGenerator.cpp:96-107 | n outputs give exactly n + 2 lines, also for n = 0: the comment, declaration i with location i and the output qualifier for every i in block order, and a blank line |
| VkText.OtherStageEmitsNothing | source/MaterialXGenGlsl/VkShaderGenerator.cpp:32-109 | a stage that is neither a vertex nor a pixel stage gets no inputs and no outputs, whatever its blocks |
| VkText.VertexStageReadsItsBlocks | source/MaterialXGenGlsl/VkShaderGenerator.cpp:32-109 | the inputs and outputs of a vertex stage depend only on its vertex-input block and its vertex-data output block |
| VkText.PixelStageReadsItsBlocks | source/MaterialXGenGlsl/VkShaderGenerator.cpp:32-109 | the inputs and outputs of a pixel stage depend only on its vertex-data input block and its pixel-output block |
| VkGenerator.VkShaderGenerator.VertexDataPrefix | source/MaterialXGenGlsl/VkShaderGenerator.cpp:70-73 | the prefix is the instance name followed by one dot and nothing else |
| VkGenerator.VertexDataPrefixNamesInstance | source/MaterialXGenGlsl/VkShaderGenerator.cpp:54-91 | the prefix without its dot is the instance name on the closing line of the emitted interface block, so member accesses through the prefix name the declared instance |
| VkText.VertexStageScenario | source/MaterialXGenGlsl/VkShaderGenerator.cpp:32-92 | with the Vulkan spellings, a vertex stage with input `vec3 position` and vertex data `vd` holding `vec3 color` emits the lines `// Inputs block: VertexInputs`, `layout (location = 0) in vec3 position;` and a blank line as inputs, and `layout (location = 0) out VertexData`, `{`, four-space-indented `vec3 color;`, `} vd;` and a blank line as outputs |
| VkText.PixelStageScenario | source/MaterialXGenGlsl/VkShaderGenerator.cpp:52-108 | the matching pixel stage emits the same interface block with `in`, and the lines `// Pixel shader outputs`, `layout (location = 0) out vec4 outColor;` and a blank line as outputs |
| VkGenerator.VkShaderGenerator.EmitString | source/MaterialXGenGlsl/VkShaderGenerator.cpp:43 | appends the string and leaves the depth unchanged |
| VkGenerator.VkShaderGenerator.EmitLineBegin | source/MaterialXGenGlsl/VkShaderGenerator.cpp:42 | appends one indentation unit per level of the current depth |
| VkGenerator.VkShaderGenerator.EmitLineEnd | source/MaterialXGenGlsl/VkShaderGenerator.cpp:46 | appends a semicolon only when asked, then a newline |
| VkGenerator.VkShaderGenerator.EmitLineBreak | source/MaterialXGenGlsl/VkShaderGenerator.cpp:29 | appends one newline |
| VkGenerator.VkShaderGenerator.EmitLine | source/MaterialXGenGlsl/VkShaderGenerator.cpp:28 | appends one indented line, with a semicolon only when asked |
| VkGenerator.VkShaderGenerator.EmitComment | source/MaterialXGenGlsl/VkShaderGenerator.cpp:39 | appends one indented single-line comment line |
| VkGenerator.VkShaderGenerator.EmitScopeBegin | source/MaterialXGenGlsl/VkShaderGenerator.cpp:60 | appends an indented opening brace line and increases the depth by one |
| VkGenerator.VkShaderGenerator.EmitScopeEnd | source/MaterialXGenGlsl/VkShaderGenerator.cpp:62 | decreases the depth by one and appends the closing brace at the new depth, with a semicolon and a newline only when asked |
| VkGenerator.VkShaderGenerator.EmitVariableDeclaration | source/MaterialXGenGlsl/VkShaderGenerator.cpp:44 | appends the qualifier and a space (omitted for an empty qualifier), the type name, a space and the identifier |
| VkGenerator.VkShaderGenerator.EmitVariableDeclarations | source/MaterialXGenGlsl/VkShaderGenerator.cpp:61 | appends one indented, separator-terminated declaration line per variable of the block, in block order |

## Left out

- The emission primitives (`EmitString` through `EmitVariableDeclarations`) belong to the GLSL and base generators, and those base classes are not part of this model. Their formatting is modelled on the GLSL base generator's plain case. A line begins with one indentation unit per depth level, a comment is the comment opener followed by the text, and a declaration is "qualifier type name".
- EmitVariableDeclaration: the base class's further declaration formatting is left out as base-class formatting. That covers the `flat` prefix on integer varyings, sampler and array suffixes, semantics and initial values. Some of these can occur in the code modelled here: an integer member of the interface block declared at VkShaderGenerator.cpp:61 and :86 gets `flat ` before its type in the base class, and the model does not write it.
- EmitVariableDeclarations: the interface-block members use the same simplified declaration, so the `flat` prefix on integer members is not written.
- EmitScopeEnd: requires a positive depth. The base class's handling of an unbalanced scope end is not modelled, because every caller here opens the scope first.
- VkGenerator.VkShaderGenerator.constructor: the syntax is a parameter that stands for the `VkSyntax` object the source creates at VkShaderGenerator.cpp:17. The constructor adds the reserved words to that object in place, so a syntax object shared with other code changes there too, whereas the source's object is fresh and private to the generator.
- The spellings of the Vulkan syntax are parameters (`Shader.SyntaxRules`), because `VkSyntax` is not part of this model. The scenario lemmas instantiate them as `in`, `out`, four spaces and `// `.
- The vertex-data location is the constant 0, declared in the generator's header, which is not part of this model.
- The block roles are the strings `VertexInputs`, `VertexData` and `PixelOutputs`. The stage's lookup by role is a map lookup. A missing role is the outcome `Fail(MissingBlock(role))` with nothing appended, and this stands for the exception the stage's lookup raises.
- The resource binding context is modelled only by its initial descriptor set. `VkResourceBindingContext` and its allocation of bindings are not part of this model.
- The type system and the generation context are left out. Every declaration's type name comes from the syntax's type lookup, which the calls at VkShaderGenerator.cpp:44, :61, :86 and :103 reach through the variable declaration. In the model, `Variable.typeName` is the type name after that lookup. The `TARGET` constant is used by no modelled operation.
- The `size_t` loop counters are unbounded naturals. A block with more than 2^64 variables is not a case the model distinguishes.
- EmitInputs and EmitOutputs: each branch of a stage kind calls a method of its own (`EmitVertexInputs`, `EmitVertexDataInput`, `EmitVertexDataOutput`, `EmitPixelOutputs`). The location-qualified declaration loop, which the vertex inputs and the pixel outputs share, is one method (`EmitLocatedDeclarations`). These methods append the same texts in the same order as the inline code.
- The vertex-stage inputs start with the comment `Inputs block: <block name>`, which the code writes at VkShaderGenerator.cpp:39.
- Compiling the generated code for the GPU and running it are not modelled.
