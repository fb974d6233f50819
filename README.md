# WGSL front end: a verified model

This project models the front end of WebKit's WGSL (WebGPU Shading Language)
compiler in Dafny:

- the recursive-descent **parser** (`Parser.cpp`, `ParserPrivate.h`), which
  turns the lexer's token stream into a `ShaderModule` AST or a compilation
  error;
- the **type-name** nodes and their queries (`TypeName.h`), and the string
  form of types (`ASTTypeDecl.cpp`);
- the attribute queries of function declarations (`ASTFunctionDecl.cpp`):
  the first semantic attribute, the stage, the return semantic;
- the error-short-circuiting AST **visitor** (`Visitor.cpp`);
- the AST **dumper** (`Dumper.cpp`), a pretty-printer writing into a stream
  with an indentation level;
- the **entry-point gatherer** (`GatherEntryPointItems.cpp`), which collects
  the inputs and outputs of a shader entry point;
- the **mangled names** of the Metal back end (`MetalMangledNames.h`).

Modules and files:

| file | module | what |
|---|---|---|
| wrappers.dfy | Wrappers | `Option`, `Result` (std::optional, nullable pointers, `Expected<T, E>`) |
| tokens.dfy | Tokens | token types and tokens as the lexer hands them out |
| ast.dfy | Ast | the AST: one datatype per node family |
| decimal.dfy | Decimal | decimal digits of an unsigned number (`lengthOfIntegerAsString`, `writeIntegerToBuffer`) |
| type_name.dfy | TypeNames | `TypeName::kind`, `stringViewToKind` |
| ast_type_decl.dfy | TypeDecl | base names, the string adapter, `toString` of types |
| ast_function_decl.dfy | FunctionDecl | `firstSemantic`, `maybeSemantic`, `maybeStage`, `stage`, `maybeReturnSemantic` |
| parser_spec.dfy | ParserSpec | each `parse*` member as a function of the tokens and the lookahead position |
| parser.dfy | Parser | the imperative parser class, proved equal to ParserSpec member by member |
| parser_properties.dfy | ParserProperties | what the grammar accepts and rejects, and the findings |
| parser_round_trip.dfy | ParserRoundTrip | type names and expressions written as tokens are parsed back unchanged |
| visitor.dfy | Visiting | the visitor class and the order in which it visits nodes |
| dumper.dfy | Dumping | the dumper class and the text each `visit` appends |
| gather_entry_point_items.dfy | EntryPoints | the gatherer class and `gatherEntryPointItems` |
| metal_mangled_names.dfy | MetalMangledNames | mangled names and their string adapter |

How the state-changing code is modelled:

- The parser is a class holding the token sequence and the lookahead position
  (`m_current` is the token at that position; past the end the lexer yields
  end-of-file). Each `parse*` method ensures that its result and the new
  position equal those of the function of the same name in ParserSpec. The
  PARSE/CONSUME_TYPE early returns are the error branches of both.
- The visitor is a class with a recorded error and the list of visits made.
  A subclass's overrides are a `hook` that may report an error at a node.
  Every child is visited through checkErrorAndVisit. Each method ensures
  that the new state is a short-circuiting run of the hook over a preorder
  list of nodes (`ModuleOrder`, `FunctionOrder`, ...).
- The dumper is a class with an output string and an indentation. Each
  `visit` method ensures that it appends exactly the text given by a `Dump*`
  function for the indentation in force, and leaves the indentation as it
  found it.
- The gatherer is a class with the current semantic, the path, the items
  gathered and the error. `GatherEntryPointItems` ensures that its result is
  the function `Gathered`. The lemmas then state what `Gathered` means.
- The mangled-name and type-name adapters write into an `array<char>`
  destination at an offset and change nothing outside the written range.

## Model

| member | source | states |
|---|---|---|
| FunctionDecl.FindIf | Source/WebGPU/WGSL/AST/ASTFunctionDecl.cpp:37-39 | `findIf`: no index exactly when no attribute satisfies the predicate; otherwise the index is in range, satisfies it and is the first that does |
| FunctionDecl.FirstSemantic | Source/WebGPU/WGSL/AST/ASTFunctionDecl.cpp:35-43 | the result is absent exactly when no attribute is a builtin or location attribute; otherwise it is the first such attribute of the list |
| FunctionDecl.MaybeSemantic | Source/WebGPU/WGSL/AST/ASTFunctionDecl.cpp:45-48 | a parameter's semantic is the first of its own attributes that is a builtin or location attribute: every attribute before it is neither; absent exactly when it has none |
| FunctionDecl.MaybeStage | Source/WebGPU/WGSL/AST/ASTFunctionDecl.cpp:50-57 | absent exactly when the function has no stage attribute; otherwise the stage of its first stage attribute |
| FunctionDecl.StageOf | Source/WebGPU/WGSL/AST/ASTFunctionDecl.cpp:59-64 | under the source's assertion that a stage exists, the stage is the one `maybeStage` gives and comes from one of the function's attributes |
| FunctionDecl.MaybeReturnSemantic | Source/WebGPU/WGSL/AST/ASTFunctionDecl.cpp:66-69 | the return semantic is taken from the return attributes only: the first of them that is a builtin or location attribute, absent exactly when there is none |
| FunctionDecl.ReturnSemanticIgnoresFunctionAttributes | Source/WebGPU/WGSL/AST/ASTFunctionDecl.cpp:66-69 | replacing the function's own attributes does not change its return semantic |
| FunctionDecl.FindIfAppend | Source/WebGPU/WGSL/AST/ASTFunctionDecl.cpp:37-39 | searching `xs + ys` finds the first match in `xs`, or else the first match in `ys` shifted by `|xs|` |
| FunctionDecl.FirstSemanticAppend | Source/WebGPU/WGSL/AST/ASTFunctionDecl.cpp:35-43 | the first semantic of `xs + ys` is that of `xs` if it has one, else that of `ys` |
| TypeDecl.BaseNameRoundTrip | Source/WebGPU/WGSL/AST/ASTTypeDecl.cpp:33-46 | the table's name for a base is recognised by `stringViewToKind` as that base, and it is the only name that is |
| TypeDecl.AdapterLength | Source/WebGPU/WGSL/AST/ASTTypeDecl.cpp:56-59 | the adapter's length is the length of the base's name, 4 to 6 characters |
| TypeDecl.AdapterWriteTo | Source/WebGPU/WGSL/AST/ASTTypeDecl.cpp:61-64 | the adapter writes exactly the base's name at the destination offset and leaves every other character unchanged |
| TypeDecl.NamedToString | Source/WebGPU/WGSL/AST/ASTTypeDecl.cpp:88-91 | a named type's string is its name |
| TypeDecl.ParameterizedToString | Source/WebGPU/WGSL/AST/ASTTypeDecl.cpp:93-98 | a parameterized type's string is `base<element>`: it starts with the base's name, which `stringViewToKind` maps back to the base, followed by `<`, the element's string and `>` |
| TypeDecl.ArrayToString | Source/WebGPU/WGSL/AST/ASTTypeDecl.cpp:74-86 | an array type's string is `array<>` without an element type, `array<T>` with one and no count, and `array<T,n>` with element type `T` and count `n` |
| TypeDecl.ParameterizedOverF32 | Source/WebGPU/WGSL/AST/ASTTypeDecl.cpp:93-98 | the parameterized type over `f32` prints as the base name followed by `<f32>` |
| TypeDecl.ParameterizedTestCases | Tools/TestWebKitAPI/Tests/WGSL/ASTTypeDeclTests.cpp:45-55 | the vector and 2-column matrix bases over `f32` print as `vec2<f32>` ... `mat2x4<f32>` |
| TypeDecl.ParameterizedMatrixTestCases | Tools/TestWebKitAPI/Tests/WGSL/ASTTypeDeclTests.cpp:56-61 | the remaining matrix bases over `f32` print as `mat3x2<f32>` ... `mat4x4<f32>` |
| TypeNames.KindOf | Source/WebGPU/WGSL/AST/TypeName.h:51-54 | each type-name class reports its own kind: `Array` exactly for arrays, `Named` exactly for named types, `Parameterized` exactly for parameterized ones |
| TypeNames.ExactlyOneKind | Source/WebGPU/WGSL/AST/TypeName.h:52-54 | exactly one of `isArray`, `isNamed`, `isParameterized` holds of every type name |
| TypeNames.AcceptsExactlyTwelveNames | Source/WebGPU/WGSL/AST/TypeName.h:117-144 | `stringViewToKind` gives a base for exactly the twelve vector and matrix names and none for any other string |
| TypeNames.StringViewToKindInjective | Source/WebGPU/WGSL/AST/TypeName.h:117-144 | two names mapped to the same base are the same name |
| Decimal.DigitChar | Source/WebGPU/WGSL/Metal/MetalMangledNames.h:73 | a digit is written as the character `'0' + d` |
| Decimal.DigitCount | Source/WebGPU/WGSL/Metal/MetalMangledNames.h:67 | the number of decimal digits is at least one, and exactly one below ten |
| Decimal.NatToString | Source/WebGPU/WGSL/Metal/MetalMangledNames.h:73 | the decimal form of a number is a non-empty string of digits |
| Decimal.LengthIsDigitCount | Source/WebGPU/WGSL/Metal/MetalMangledNames.h:65-68 | the length `lengthOfIntegerAsString` predicts is the length of what `writeIntegerToBuffer` writes |
| Decimal.NatToStringRoundTrip | Source/WebGPU/WGSL/Metal/MetalMangledNames.h:73 | reading the written digits back gives the number |
| Decimal.NoLeadingZero | Source/WebGPU/WGSL/Metal/MetalMangledNames.h:73 | the written digits start with `0` only for zero |
| Decimal.NatToStringInjective | Source/WebGPU/WGSL/Metal/MetalMangledNames.h:73 | different numbers are written differently |
| MetalMangledNames.Length | Source/WebGPU/WGSL/Metal/MetalMangledNames.h:65-68 | the adapter's length is the length of the mangled name, and more than the prefix |
| MetalMangledNames.MangledIsLatin1 | Source/WebGPU/WGSL/Metal/MetalMangledNames.h:64 | every character of a mangled name fits in 8 bits, as `is8Bit` claims |
| MetalMangledNames.DigitsAfterPrefix | Source/WebGPU/WGSL/Metal/MetalMangledNames.h:70-74 | after the prefix come the value's decimal digits, which read back as the value |
| MetalMangledNames.UnmangleMangled | Source/WebGPU/WGSL/Metal/MetalMangledNames.h:32-50 | a mangled name determines its kind and value: unmangling gives back the name |
| MetalMangledNames.MangledInjective | Source/WebGPU/WGSL/Metal/MetalMangledNames.h:32-50 | two names with the same mangled string are the same kind with the same value |
| MetalMangledNames.WriteString | Source/WebGPU/WGSL/Metal/MetalMangledNames.h:72 | the literal prefix is written at the offset, nothing else changes |
| MetalMangledNames.WriteIntegerToBuffer | Source/WebGPU/WGSL/Metal/MetalMangledNames.h:73 | the value's digits are written at the offset, nothing else changes |
| MetalMangledNames.WriteTo | Source/WebGPU/WGSL/Metal/MetalMangledNames.h:70-74 | `writeTo` writes exactly the mangled name (prefix then digits) and nothing outside it |
| ParserSpec.ConsumeType | Source/WebGPU/WGSL/Parser.cpp:120-128 | succeeds exactly when the lookahead has the expected type, returning that token and advancing by one; otherwise returns the lookahead's type and does not advance |
| ParserSpec.Expect | Source/WebGPU/WGSL/Parser.cpp:89-98 | CONSUME_TYPE: succeeds exactly on the expected type; the error is "expected X, got Y" with the lookahead's type, and the lexer does not advance |
| ParserSpec.ParseGlobalDeclaration | Source/WebGPU/WGSL/Parser.cpp:145-177 | one pass of the shader loop: on success it consumed tokens and only appended to the module's lists |
| ParserSpec.ParseShaderLoop | Source/WebGPU/WGSL/Parser.cpp:144-179 | on success the module extends the one it started from and the lookahead is end-of-file |
| ParserSpec.ParseShaderLoopAsWritten | Source/WebGPU/WGSL/Parser.cpp:144 | the loop as written, stopping on the lexer's end-of-input flag: on success the module extends the initial one |
| ParserSpec.ParseShader | Source/WebGPU/WGSL/Parser.cpp:137-180 | the position stays within the tokens |
| ParserSpec.ParseAttributesLoop | Source/WebGPU/WGSL/Parser.cpp:187-190 | the position stays within the tokens |
| ParserSpec.ParseAttributes | Source/WebGPU/WGSL/Parser.cpp:183-193 | the position stays within the tokens |
| ParserSpec.ParseParenthesizedInteger | Source/WebGPU/WGSL/Parser.cpp:204-207 | the position stays within the tokens |
| ParserSpec.ParseParenthesizedIdentifier | Source/WebGPU/WGSL/Parser.cpp:228-230 | the position stays within the tokens |
| ParserSpec.ParseAttribute | Source/WebGPU/WGSL/Parser.cpp:196-243 | on success at least one token was consumed |
| ParserSpec.ParseStructureDeclaration | Source/WebGPU/WGSL/Parser.cpp:246-263 | on success at least one token was consumed |
| ParserSpec.ParseStructureMembersLoop | Source/WebGPU/WGSL/Parser.cpp:255-258 | the position stays within the tokens |
| ParserSpec.ParseStructureMember | Source/WebGPU/WGSL/Parser.cpp:266-277 | on success at least one token was consumed |
| ParserSpec.ParseTypeName | Source/WebGPU/WGSL/Parser.cpp:280-308 | on success at least one token was consumed |
| ParserSpec.ParseTypeNameAfterIdentifier | Source/WebGPU/WGSL/Parser.cpp:311-320 | the position stays within the tokens |
| ParserSpec.ParseArrayTypeName | Source/WebGPU/WGSL/Parser.cpp:323-354 | on success at least one token was consumed |
| ParserSpec.ParseArrayTypeParameters | Source/WebGPU/WGSL/Parser.cpp:329-346 | on success at least one token was consumed |
| ParserSpec.ParseTypeDeclaration | Source/WebGPU/WGSL/Parser.cpp:357-367 | on success at least one token was consumed |
| ParserSpec.ParseVariableDeclaration | Source/WebGPU/WGSL/Parser.cpp:370-399 | on success at least one token was consumed |
| ParserSpec.ParseMaybeVariableQualifier | Source/WebGPU/WGSL/Parser.cpp:376-380 | the position stays within the tokens |
| ParserSpec.ParseMaybeTypeAnnotation | Source/WebGPU/WGSL/Parser.cpp:384-389 | the position stays within the tokens |
| ParserSpec.ParseMaybeInitializer | Source/WebGPU/WGSL/Parser.cpp:391-396 | the position stays within the tokens |
| ParserSpec.ParseVariableQualifier | Source/WebGPU/WGSL/Parser.cpp:402-420 | the position stays within the tokens |
| ParserSpec.ParseMaybeAccessMode | Source/WebGPU/WGSL/Parser.cpp:410-415 | the position stays within the tokens |
| ParserSpec.ParseStorageClass | Source/WebGPU/WGSL/Parser.cpp:423-449 | the position stays within the tokens |
| ParserSpec.ParseAccessMode | Source/WebGPU/WGSL/Parser.cpp:452-470 | the position stays within the tokens |
| ParserSpec.ParseFunctionDeclaration | Source/WebGPU/WGSL/Parser.cpp:473-501 | on success at least one token was consumed |
| ParserSpec.ParseParametersLoop | Source/WebGPU/WGSL/Parser.cpp:481-485 | the parameter loop with the separating commas read; the position stays within the tokens |
| ParserSpec.ParseParametersLoopAsWritten | Source/WebGPU/WGSL/Parser.cpp:481-485 | the parameter loop as written, reading no commas; the position stays within the tokens |
| ParserSpec.ParseMaybeReturnType | Source/WebGPU/WGSL/Parser.cpp:488-496 | the position stays within the tokens |
| ParserSpec.ParseParameter | Source/WebGPU/WGSL/Parser.cpp:504-514 | on success at least one token was consumed |
| ParserSpec.ParseStatement | Source/WebGPU/WGSL/Parser.cpp:517-552 | on success at least one token was consumed |
| ParserSpec.ParseCompoundStatement | Source/WebGPU/WGSL/Parser.cpp:555-570 | on success at least one token was consumed |
| ParserSpec.ParseStatementsLoop | Source/WebGPU/WGSL/Parser.cpp:562-565 | the position stays within the tokens |
| ParserSpec.ParseReturnStatement | Source/WebGPU/WGSL/Parser.cpp:573-585 | on success at least one token was consumed and the result is a return statement |
| ParserSpec.ParseShortCircuitOrExpression | Source/WebGPU/WGSL/Parser.cpp:588-592 | on success at least one token was consumed |
| ParserSpec.ParseRelationalExpression | Source/WebGPU/WGSL/Parser.cpp:595-599 | on success at least one token was consumed |
| ParserSpec.ParseShiftExpression | Source/WebGPU/WGSL/Parser.cpp:602-606 | on success at least one token was consumed |
| ParserSpec.ParseAdditiveExpression | Source/WebGPU/WGSL/Parser.cpp:609-613 | on success at least one token was consumed |
| ParserSpec.ParseMultiplicativeExpression | Source/WebGPU/WGSL/Parser.cpp:616-620 | on success at least one token was consumed |
| ParserSpec.ParseUnaryExpression | Source/WebGPU/WGSL/Parser.cpp:623-634 | on success at least one token was consumed |
| ParserSpec.ParseSingularExpression | Source/WebGPU/WGSL/Parser.cpp:637-642 | on success at least one token was consumed |
| ParserSpec.ParsePostfixExpression | Source/WebGPU/WGSL/Parser.cpp:645-677 | the position stays within the tokens |
| ParserSpec.ParsePrimaryExpression | Source/WebGPU/WGSL/Parser.cpp:687-748 | on success at least one token was consumed |
| ParserSpec.ParseExpression | Source/WebGPU/WGSL/Parser.cpp:751-755 | on success at least one token was consumed |
| ParserSpec.ParseLHSExpression | Source/WebGPU/WGSL/Parser.cpp:758-765 | on success at least one token was consumed |
| ParserSpec.ParseCoreLHSExpression | Source/WebGPU/WGSL/Parser.cpp:768-788 | on success at least one token was consumed |
| ParserSpec.ParseArgumentExpressionList | Source/WebGPU/WGSL/Parser.cpp:791-807 | on success at least one token was consumed |
| ParserSpec.ParseArgumentsLoop | Source/WebGPU/WGSL/Parser.cpp:797-802 | the position stays within the tokens |
| Parser.Parser.constructor | Source/WebGPU/WGSL/ParserPrivate.h:41-46 | a new parser looks at the first token |
| Parser.Parser.Consume | Source/WebGPU/WGSL/Parser.cpp:131-134 | `consume` moves the lookahead one token on |
| Parser.Parser.ConsumeType | Source/WebGPU/WGSL/Parser.cpp:120-128 | result and new position are those of ParserSpec.ConsumeType |
| Parser.Parser.ParseShader | Source/WebGPU/WGSL/Parser.cpp:137-180 | result and new position are those of ParserSpec.ParseShader |
| Parser.Parser.ParseAttributes | Source/WebGPU/WGSL/Parser.cpp:183-193 | result and new position are those of ParserSpec.ParseAttributes |
| Parser.Parser.ParseAttribute | Source/WebGPU/WGSL/Parser.cpp:196-243 | result and new position are those of ParserSpec.ParseAttribute |
| Parser.Parser.ParseStructureDeclaration | Source/WebGPU/WGSL/Parser.cpp:246-263 | result and new position are those of ParserSpec.ParseStructureDeclaration |
| Parser.Parser.ParseStructureMember | Source/WebGPU/WGSL/Parser.cpp:266-277 | result and new position are those of ParserSpec.ParseStructureMember |
| Parser.Parser.ParseTypeName | Source/WebGPU/WGSL/Parser.cpp:280-308 | result and new position are those of ParserSpec.ParseTypeName |
| Parser.Parser.ParseTypeNameAfterIdentifier | Source/WebGPU/WGSL/Parser.cpp:311-320 | result and new position are those of ParserSpec.ParseTypeNameAfterIdentifier |
| Parser.Parser.ParseArrayTypeName | Source/WebGPU/WGSL/Parser.cpp:323-354 | result and new position are those of ParserSpec.ParseArrayTypeName |
| Parser.Parser.ParseArrayTypeParameters | Source/WebGPU/WGSL/Parser.cpp:329-346 | result and new position are those of ParserSpec.ParseArrayTypeParameters |
| Parser.Parser.ParseTypeDeclaration | Source/WebGPU/WGSL/Parser.cpp:357-367 | result and new position are those of ParserSpec.ParseTypeDeclaration |
| Parser.Parser.ParseVariableDeclaration | Source/WebGPU/WGSL/Parser.cpp:370-399 | result and new position are those of ParserSpec.ParseVariableDeclaration |
| Parser.Parser.ParseVariableQualifier | Source/WebGPU/WGSL/Parser.cpp:402-420 | result and new position are those of ParserSpec.ParseVariableQualifier |
| Parser.Parser.ParseStorageClass | Source/WebGPU/WGSL/Parser.cpp:423-449 | result and new position are those of ParserSpec.ParseStorageClass |
| Parser.Parser.ParseAccessMode | Source/WebGPU/WGSL/Parser.cpp:452-470 | result and new position are those of ParserSpec.ParseAccessMode |
| Parser.Parser.ParseFunctionDeclaration | Source/WebGPU/WGSL/Parser.cpp:473-501 | result and new position are those of ParserSpec.ParseFunctionDeclaration |
| Parser.Parser.ParseParameters | Source/WebGPU/WGSL/Parser.cpp:480-486 | the parameter loop: result and position of ParserSpec.ParseParametersLoop, stopping at `)` |
| Parser.Parser.ParseMaybeReturnType | Source/WebGPU/WGSL/Parser.cpp:488-496 | result and new position are those of ParserSpec.ParseMaybeReturnType |
| Parser.Parser.ParseParameter | Source/WebGPU/WGSL/Parser.cpp:504-514 | result and new position are those of ParserSpec.ParseParameter |
| Parser.Parser.ParseStatement | Source/WebGPU/WGSL/Parser.cpp:517-552 | result and new position are those of ParserSpec.ParseStatement |
| Parser.Parser.ParseCompoundStatement | Source/WebGPU/WGSL/Parser.cpp:555-570 | result and new position are those of ParserSpec.ParseCompoundStatement |
| Parser.Parser.ParseReturnStatement | Source/WebGPU/WGSL/Parser.cpp:573-585 | result and new position are those of ParserSpec.ParseReturnStatement |
| Parser.Parser.ParseShortCircuitOrExpression | Source/WebGPU/WGSL/Parser.cpp:588-592 | result and new position are those of ParserSpec.ParseShortCircuitOrExpression |
| Parser.Parser.ParseRelationalExpression | Source/WebGPU/WGSL/Parser.cpp:595-599 | result and new position are those of ParserSpec.ParseRelationalExpression |
| Parser.Parser.ParseShiftExpression | Source/WebGPU/WGSL/Parser.cpp:602-606 | result and new position are those of ParserSpec.ParseShiftExpression |
| Parser.Parser.ParseAdditiveExpression | Source/WebGPU/WGSL/Parser.cpp:609-613 | result and new position are those of ParserSpec.ParseAdditiveExpression |
| Parser.Parser.ParseMultiplicativeExpression | Source/WebGPU/WGSL/Parser.cpp:616-620 | result and new position are those of ParserSpec.ParseMultiplicativeExpression |
| Parser.Parser.ParseUnaryExpression | Source/WebGPU/WGSL/Parser.cpp:623-634 | result and new position are those of ParserSpec.ParseUnaryExpression |
| Parser.Parser.ParseSingularExpression | Source/WebGPU/WGSL/Parser.cpp:637-642 | result and new position are those of ParserSpec.ParseSingularExpression |
| Parser.Parser.ParsePostfixExpression | Source/WebGPU/WGSL/Parser.cpp:645-677 | result and new position are those of ParserSpec.ParsePostfixExpression |
| Parser.Parser.ParsePrimaryExpression | Source/WebGPU/WGSL/Parser.cpp:687-748 | result and new position are those of ParserSpec.ParsePrimaryExpression |
| Parser.Parser.ParseExpression | Source/WebGPU/WGSL/Parser.cpp:751-755 | result and new position are those of ParserSpec.ParseExpression |
| Parser.Parser.ParseLHSExpression | Source/WebGPU/WGSL/Parser.cpp:758-765 | result and new position are those of ParserSpec.ParseLHSExpression |
| Parser.Parser.ParseCoreLHSExpression | Source/WebGPU/WGSL/Parser.cpp:768-788 | result and new position are those of ParserSpec.ParseCoreLHSExpression |
| Parser.Parser.ParseArgumentExpressionList | Source/WebGPU/WGSL/Parser.cpp:791-807 | result and new position are those of ParserSpec.ParseArgumentExpressionList |
| Parser.Parse | Source/WebGPU/WGSL/Parser.cpp:100-107 | parsing a token sequence from its first token gives ParserSpec.ParseShader's result |
| ParserProperties.IntegerAttribute | Source/WebGPU/WGSL/Parser.cpp:203-225 | `@group`, `@binding`, `@location` succeed exactly when followed by `(` integer `)`, give the attribute of that kind carrying the integer, and consume five tokens |
| ParserProperties.IntegerAttributeReads | Source/WebGPU/WGSL/Parser.cpp:203-225 | these three attributes succeed exactly when the parenthesised integer does, and end where it ends |
| ParserProperties.ParenthesizedIntegerRule | Source/WebGPU/WGSL/Parser.cpp:204-207 | `( integer )` is read exactly when those three tokens are present, giving the integer's value |
| ParserProperties.BuiltinAttributeRule | Source/WebGPU/WGSL/Parser.cpp:227-232 | `@builtin` succeeds exactly on `( identifier )` and gives a builtin attribute with that name |
| ParserProperties.StageAttributes | Source/WebGPU/WGSL/Parser.cpp:235-240 | `@vertex`, `@compute`, `@fragment` give the matching stage attribute after two tokens |
| ParserProperties.UnknownAttribute | Source/WebGPU/WGSL/Parser.cpp:242 | the "Unknown attribute" error is raised exactly for names outside the seven known ones |
| ParserProperties.AttributesLoopStops | Source/WebGPU/WGSL/Parser.cpp:187-190 | on success the attribute loop stops at a token that is not `@` and keeps the attributes read so far as a prefix |
| ParserProperties.KeywordsAreDistinct | Source/WebGPU/WGSL/Parser.cpp:423-470 | different storage classes and different access modes have different keywords |
| ParserProperties.StorageClassKeywords | Source/WebGPU/WGSL/Parser.cpp:423-449 | a storage class is read exactly when the lookahead is its keyword, consuming one token; otherwise the storage-class error is raised without consuming |
| ParserProperties.AccessModeKeywords | Source/WebGPU/WGSL/Parser.cpp:452-470 | an access mode is read exactly when the lookahead is its keyword, consuming one token; otherwise the access-mode error is raised without consuming |
| ParserProperties.QualifierDefaultsToRead | Source/WebGPU/WGSL/Parser.cpp:409-410 | `<class>` without an access mode gives access mode `read` |
| ParserProperties.QualifierWithAccessMode | Source/WebGPU/WGSL/Parser.cpp:411-419 | `<class, mode>` gives that class and mode |
| ParserProperties.ScalarTypeName | Source/WebGPU/WGSL/Parser.cpp:286-301 | `i32`, `f32`, `u32`, `bool` give the named type of that name after one token |
| ParserProperties.PlainNamedTypeName | Source/WebGPU/WGSL/Parser.cpp:302-319 | an identifier that is no vector or matrix name is a named type |
| ParserProperties.ParameterizedNeedsAngle | Source/WebGPU/WGSL/Parser.cpp:313-314 | a vector or matrix name not followed by `<` is an "expected `<`" error |
| ParserProperties.ParameterizedTypeNameRule | Source/WebGPU/WGSL/Parser.cpp:313-317 | `base<T>` succeeds exactly when the element type parses and is followed by `>`, giving the parameterized type |
| ParserProperties.NotATypeName | Source/WebGPU/WGSL/Parser.cpp:307 | any other lookahead is the "did not start with an identifier" error, without consuming |
| ParserProperties.UnknownGlobalDeclaration | Source/WebGPU/WGSL/Parser.cpp:174-175 | after the attributes, a keyword other than `struct`, `var`, `fn`, `type` is the GlobalDecl error |
| ParserProperties.StructureDeclarationAppended | Source/WebGPU/WGSL/Parser.cpp:149-154 | a structure declaration is appended to the structures with the attributes read before it; no other list changes |
| ParserProperties.VariableDeclarationAppended | Source/WebGPU/WGSL/Parser.cpp:155-161 | a variable declaration is appended to the variables with its attributes, after a `;`; no other list changes |
| ParserProperties.FunctionDeclarationAppended | Source/WebGPU/WGSL/Parser.cpp:162-167 | a function declaration is appended to the functions with its attributes; no other list changes |
| ParserProperties.TypeDeclarationAppended | Source/WebGPU/WGSL/Parser.cpp:168-173 | a type declaration is appended to the types with its attributes, after a `;`; no other list changes |
| ParserProperties.GlobalDeclarationAppendsOne | Source/WebGPU/WGSL/Parser.cpp:145-177 | a successful pass of the shader loop appends exactly one declaration, to the list its keyword selects |
| ParserProperties.PostfixFolds | Source/WebGPU/WGSL/Parser.cpp:652-676 | the postfix loop folds `[index]` and `.field` suffixes onto the base, and stops at a token that starts neither |
| ParserProperties.EmptyArgumentList | Source/WebGPU/WGSL/Parser.cpp:791-807 | `()` is the empty argument list |
| ParserProperties.ArgumentsLoopKeepsOrder | Source/WebGPU/WGSL/Parser.cpp:797-802 | on success the argument loop keeps what it had as a prefix and stops at `)` |
| ParserProperties.ReturnWithoutExpression | Source/WebGPU/WGSL/Parser.cpp:531-585 | `return;` is a return statement without a value, and the statement ends after the `;` |
| ParserProperties.NoAttributes | Source/WebGPU/WGSL/Parser.cpp:187 | with no `@` the attribute list is empty and nothing is consumed |
| ParserProperties.I32Parameter | Source/WebGPU/WGSL/Parser.cpp:504-514 | `name : i32` is a parameter of named type `i32` without attributes |
| ParserProperties.ParameterNeedsName | Source/WebGPU/WGSL/Parser.cpp:509 | a parameter that starts with neither `@` nor an identifier is an "expected identifier" error |
| ParserProperties.AsWrittenLoopStopsAtComma | Source/WebGPU/WGSL/Parser.cpp:481-485 | the loop as written fails at the comma after a first parameter, with "expected identifier, got `,`" |
| ParserProperties.LoopReadsBothParameters | Source/WebGPU/WGSL/Parser.cpp:481-485 | the corrected loop reads `a: i32, b: i32` as two parameters in order |
| ParserProperties.ParametersAsWrittenRejectComma | Source/WebGPU/WGSL/Parser.cpp:481-485 | as written, `(a: i32, b: i32)` is rejected at the comma |
| ParserProperties.ParametersAcceptComma | Source/WebGPU/WGSL/Parser.cpp:481-485 | corrected, `(a: i32, b: i32)` gives parameters `a` and `b` of type `i32` |
| ParserProperties.ParametersLoopKeepsOrder | Source/WebGPU/WGSL/Parser.cpp:481-486 | on success the parameter loop keeps what it had as a prefix and stops at `)` |
| ParserProperties.ShaderAsWrittenIgnoresLoneToken | Source/WebGPU/WGSL/Parser.cpp:144 | when the lexer's end-of-input flag is already set while the lookahead is a real token, the loop as written accepts the empty module and ignores that token |
| ParserProperties.ShaderRejectsLoneSemicolon | Source/WebGPU/WGSL/Parser.cpp:144-176 | with the lookahead as loop condition, a lone `;` is the GlobalDecl error |
| ParserRoundTrip.TypeRoundTrip | Source/WebGPU/WGSL/Parser.cpp:280-320 | `parseTypeName` reads the tokens of any well-formed type name back as that type name, ending just after them |
| ParserRoundTrip.ParameterizedRoundTrip | Source/WebGPU/WGSL/Parser.cpp:311-318 | after the base's identifier, `<element>` is read back as the parameterized type |
| ParserRoundTrip.ArrayTypeRoundTrip | Source/WebGPU/WGSL/Parser.cpp:323-354 | `parseArrayTypeName` reads back every well-formed array type: bare, with an element type, or with element type and count |
| ParserRoundTrip.ElementArrayRoundTrip | Source/WebGPU/WGSL/Parser.cpp:329-345 | `array<T>` is read back |
| ParserRoundTrip.CountedArrayRoundTrip | Source/WebGPU/WGSL/Parser.cpp:329-346 | `array<T, n>` is read back, the count through `parseAdditiveExpression` |
| ParserRoundTrip.CountRoundTrip | Source/WebGPU/WGSL/Parser.cpp:342-344 | an element count followed by `>` is read back by `parseAdditiveExpression` |
| ParserRoundTrip.ExpressionRoundTrip | Source/WebGPU/WGSL/Parser.cpp:751-755 | `parseExpression` reads the tokens of any well-formed expression back as that expression, ending just after them |
| ParserRoundTrip.UnaryRoundTrip | Source/WebGPU/WGSL/Parser.cpp:623-634 | `parseUnaryExpression` reads every well-formed expression back |
| ParserRoundTrip.NegatedRoundTrip | Source/WebGPU/WGSL/Parser.cpp:627-631 | `-operand` is read back as a negation |
| ParserRoundTrip.PlainRoundTrip | Source/WebGPU/WGSL/Parser.cpp:633 | an expression that is no negation is read back through `parseSingularExpression` |
| ParserRoundTrip.OperandPrefix | Source/WebGPU/WGSL/Parser.cpp:637-642 | after reading an operand's tokens, what remains is the postfix loop on that operand |
| ParserRoundTrip.PostfixPrefix | Source/WebGPU/WGSL/Parser.cpp:637-676 | for a non-negated expression, singular parsing reaches the postfix loop with the whole expression read |
| ParserRoundTrip.IndexRoundTrip | Source/WebGPU/WGSL/Parser.cpp:654-661 | `base[index]` is folded into an array access |
| ParserRoundTrip.FieldRoundTrip | Source/WebGPU/WGSL/Parser.cpp:664-670 | `base.field` is folded into a structure access |
| ParserRoundTrip.PrimaryRoundTrip | Source/WebGPU/WGSL/Parser.cpp:687-748 | identifiers, literals and calls are read back by `parsePrimaryExpression` |
| ParserRoundTrip.CallRoundTrip | Source/WebGPU/WGSL/Parser.cpp:699-712 | a call `T(args)`, with a named, parameterized or array callee, is read back |
| ParserRoundTrip.CalleeRoundTrip | Source/WebGPU/WGSL/Parser.cpp:700-702 | a named or parameterized callee is read back by `parseTypeNameAfterIdentifier` |
| ParserRoundTrip.ArgumentListRoundTrip | Source/WebGPU/WGSL/Parser.cpp:791-807 | `(a, b, ...)` is read back as the arguments in order |
| ParserRoundTrip.ArgumentsLoopRoundTrip | Source/WebGPU/WGSL/Parser.cpp:797-802 | the argument loop appends the arguments, in order, to what it holds |
| ParserRoundTrip.MoreArgumentsRoundTrip | Source/WebGPU/WGSL/Parser.cpp:797-802 | the same for two or more arguments, each followed by a comma but the last |
| ParserRoundTrip.LastArgumentRoundTrip | Source/WebGPU/WGSL/Parser.cpp:797-802 | the last argument, followed by `)`, is appended without a comma |
| ParserRoundTrip.FirstArgumentRoundTrip | Source/WebGPU/WGSL/Parser.cpp:797-802 | a first argument followed by a comma is appended and the comma consumed |
| ParserRoundTrip.ExpressionFirstToken | Source/WebGPU/WGSL/Parser.cpp:623-745 | every expression's tokens start with a token other than `)`, and with `-` exactly for a negation |
| ParserRoundTrip.OperandFirstToken | Source/WebGPU/WGSL/Parser.cpp:691-745 | an operand never starts with `)` or `-` |
| ParserRoundTrip.CalleeFirstToken | Source/WebGPU/WGSL/Parser.cpp:699-712 | a callee starts with an identifier or `array` |
| ParserDeclarations.AttributeRoundTrip | Source/WebGPU/WGSL/Parser.cpp:196-243 | `parseAttribute` reads the tokens of any `@group`, `@binding`, `@location`, `@builtin` or stage attribute back as that attribute, ending just after them |
| ParserDeclarations.IntegerAttributeRoundTrip | Source/WebGPU/WGSL/Parser.cpp:203-225 | `@group(n)`, `@binding(n)`, `@location(n)` are read back as the attribute of that kind carrying `n` |
| ParserDeclarations.BuiltinAttributeRoundTrip | Source/WebGPU/WGSL/Parser.cpp:227-232 | `@builtin(name)` is read back as a builtin attribute with that name |
| ParserDeclarations.StageAttributeRoundTrip | Source/WebGPU/WGSL/Parser.cpp:235-240 | `@vertex`, `@compute`, `@fragment` are read back as that stage |
| ParserDeclarations.AttributesRoundTrip | Source/WebGPU/WGSL/Parser.cpp:183-193 | `parseAttributes` reads a list of attributes back in order, stopping at the first token that is not `@` |
| ParserDeclarations.AttributesLoopRoundTrip | Source/WebGPU/WGSL/Parser.cpp:187-190 | the attribute loop appends the attributes, in order, to the ones it already holds |
| ParserDeclarations.StructureRoundTrip | Source/WebGPU/WGSL/Parser.cpp:246-263 | `struct name { members }` is read back as a structure with that name and exactly those members in order; its attributes are left for the caller |
| ParserDeclarations.MembersLoopRoundTrip | Source/WebGPU/WGSL/Parser.cpp:255-258 | the member loop appends the members, in order, to the ones it holds, and stops at `}` |
| ParserDeclarations.MemberRoundTrip | Source/WebGPU/WGSL/Parser.cpp:266-277 | `attributes name : type ;` is read back as the member with those attributes, name and type |
| ParserDeclarations.TypeDeclarationRoundTrip | Source/WebGPU/WGSL/Parser.cpp:357-367 | `type name = T` is read back as the alias of `T` named `name`, ending just after `T` |
| ParserDeclarations.VariableRoundTrip | Source/WebGPU/WGSL/Parser.cpp:370-399 | `var`, an optional qualifier, the name, an optional `: T` and an optional `= e` are read back as that variable declaration, each optional part present exactly when written |
| ParserDeclarations.MaybeQualifierRoundTrip | Source/WebGPU/WGSL/Parser.cpp:376-380 | the qualifier is read back when written, and is absent when no `<` follows `var` |
| ParserDeclarations.QualifierRoundTrip | Source/WebGPU/WGSL/Parser.cpp:402-420 | `<class, mode>` is read back as that storage class and access mode |
| ParserDeclarations.MaybeTypeAnnotationRoundTrip | Source/WebGPU/WGSL/Parser.cpp:384-389 | `: T` is read back as the type annotation, and none is read when no `:` follows |
| ParserDeclarations.MaybeInitializerRoundTrip | Source/WebGPU/WGSL/Parser.cpp:391-396 | `= e` is read back as the initializer, and none is read when no `=` follows |
| ParserDeclarations.ParameterRoundTrip | Source/WebGPU/WGSL/Parser.cpp:504-514 | `attributes name : T` is read back as the parameter with those attributes, name and type |
| ParserDeclarations.ParametersRoundTrip | Source/WebGPU/WGSL/Parser.cpp:481-485 | with the comma read between parameters, any comma-separated parameter list followed by `)` is read back in order |
| ParserDeclarations.ParametersLoopRoundTrip | Source/WebGPU/WGSL/Parser.cpp:481-485 | the corrected loop appends the comma-separated parameters, in order, to the ones it holds, and stops at `)` |
| ParserDeclarations.ParametersAsWrittenRoundTrip | Source/WebGPU/WGSL/Parser.cpp:481-485 | the loop as written reads back, in order, only parameters written with nothing between them, up to `)` |
| ParserDeclarations.MaybeReturnTypeRoundTrip | Source/WebGPU/WGSL/Parser.cpp:488-496 | `-> attributes T` is read back as the return attributes and type, and no `->` gives no return type and no attributes |
| ParserDeclarations.FunctionRoundTrip | Source/WebGPU/WGSL/Parser.cpp:473-501 | `fn name ( parameters ) -> attributes T { body }` is read back as the function with that name, parameters in order, return attributes, return type and body; its attributes are left for the caller |
| ParserDeclarations.StatementRoundTrip | Source/WebGPU/WGSL/Parser.cpp:517-552 | `parseStatement` reads the tokens of any statement the parser builds back as that statement: blocks, `return`, `var` and assignments |
| ParserDeclarations.StatementRule | Source/WebGPU/WGSL/Parser.cpp:517-552 | `;` is the empty compound statement after one token; a lookahead other than `{`, `;`, `return`, `var` or an identifier is the statement error without consuming |
| ParserDeclarations.CompoundStep | Source/WebGPU/WGSL/Parser.cpp:522-525 | a block read by `parseCompoundStatement` becomes a compound statement ending where the block ends |
| ParserDeclarations.ReturnRoundTrip | Source/WebGPU/WGSL/Parser.cpp:531-535 | `return ;` and `return e ;` are read back as that return statement |
| ParserDeclarations.ExpressionNotAtSemicolon | Source/WebGPU/WGSL/Parser.cpp:579-584 | no expression starts with `;`, so `return ;` never reads a value |
| ParserDeclarations.VariableStatementRoundTrip | Source/WebGPU/WGSL/Parser.cpp:536-540 | `var ... ;` is read back as that variable statement |
| ParserDeclarations.AssignmentRoundTrip | Source/WebGPU/WGSL/Parser.cpp:541-547 | `lhs = rhs ;` is read back as the assignment of `rhs` to `lhs` |
| ParserDeclarations.BlockRoundTrip | Source/WebGPU/WGSL/Parser.cpp:555-570 | `{ statements }` is read back as exactly those statements in order |
| ParserDeclarations.StatementsLoopRoundTrip | Source/WebGPU/WGSL/Parser.cpp:562-565 | the statement loop appends the statements, in order, to the ones it holds, and stops at `}` |
| ParserDeclarations.LHSRoundTrip | Source/WebGPU/WGSL/Parser.cpp:758-765 | an identifier followed by `[index]` and `.field` suffixes is read back as that left-hand side |
| ParserDeclarations.CoreLHSRule | Source/WebGPU/WGSL/Parser.cpp:768-788 | an identifier gives the identifier expression after one token; `( lhs )` succeeds exactly when the inner left-hand side parses and is followed by `)`; any other lookahead is the left-hand-side error without consuming |
| ParserDeclarations.ParenthesizedLHSRoundTrip | Source/WebGPU/WGSL/Parser.cpp:772-777 | `( lhs )` is read back as `lhs` itself: the parentheses leave no node |
| Visiting.FirstFailure | Source/WebGPU/WGSL/Visitor.cpp:46-50 | the index of the first node whose visit reports an error: every earlier node reported none |
| Visiting.RunAppend | Source/WebGPU/WGSL/Visitor.cpp:46-50 | visiting `a + b` is visiting `a` and then `b` |
| Visiting.RunAfterError | Source/WebGPU/WGSL/Visitor.cpp:46-50 | once an error is recorded, further visits change nothing |
| Visiting.RunFromClean | Source/WebGPU/WGSL/Visitor.cpp:46-50 | from a clean state, the nodes up to and including the first failing one are visited and its error is recorded; with no failure all are visited and no error is recorded |
| Visiting.VisitsAllWithoutError | Source/WebGPU/WGSL/Visitor.cpp:46-50 | when no node reports an error every node is visited in order |
| Visiting.DispatchAttribute | Source/WebGPU/WGSL/Visitor.cpp:80-102 | the attribute dispatch selects the overload for the attribute's own kind |
| Visiting.DispatchAttributeAsWritten | Source/WebGPU/WGSL/Visitor.cpp:80-102 | the dispatch as written agrees with the intended one on every kind but `Native` |
| Visiting.NativeAttributeMisdispatched | Source/WebGPU/WGSL/Visitor.cpp:95-96 | as written, a native attribute is handed to the location-attribute overload |
| Visiting.Visitor.constructor | Source/WebGPU/WGSL/Visitor.cpp:36-44 | a new visitor has no error and has visited nothing |
| Visiting.Visitor.Outcome | Source/WebGPU/WGSL/Visitor.cpp:36-44 | `result` is an error exactly when `hasError`, and it is the recorded error |
| Visiting.Visitor.Enter | Source/WebGPU/WGSL/Visitor.cpp:46-50 | visiting one node through checkErrorAndVisit |
| Visiting.Visitor.VisitModule | Source/WebGPU/WGSL/Visitor.cpp:61-71 | directives, structures, variables, then functions are visited in order, stopping at the first error |
| Visiting.Visitor.VisitDirectives | Source/WebGPU/WGSL/Visitor.cpp:63-64 | each directive in order |
| Visiting.Visitor.VisitAttribute | Source/WebGPU/WGSL/Visitor.cpp:80-102 | the attribute, then the overload the dispatch selects |
| Visiting.Visitor.VisitAttributes | Source/WebGPU/WGSL/Visitor.cpp:154-155 | each attribute in order |
| Visiting.Visitor.VisitDeclaration | Source/WebGPU/WGSL/Visitor.cpp:131-150 | the declaration, then the overload for its kind |
| Visiting.Visitor.VisitFunction | Source/WebGPU/WGSL/Visitor.cpp:152-162 | attributes, parameters, return attributes, return type if any, then the body's statements |
| Visiting.Visitor.VisitFunctions | Source/WebGPU/WGSL/Visitor.cpp:69-70 | each function in order |
| Visiting.Visitor.VisitNativeType | Source/WebGPU/WGSL/Visitor.cpp:164-169 | the attributes and the type name |
| Visiting.Visitor.VisitStructure | Source/WebGPU/WGSL/Visitor.cpp:171-177 | the attributes, then the members |
| Visiting.Visitor.VisitStructures | Source/WebGPU/WGSL/Visitor.cpp:65-66 | each structure in order |
| Visiting.Visitor.VisitTypeDeclaration | Source/WebGPU/WGSL/Visitor.cpp:179-183 | the attributes only |
| Visiting.Visitor.VisitVariable | Source/WebGPU/WGSL/Visitor.cpp:185-192 | attributes, qualifier if any, type if any, initializer if any |
| Visiting.Visitor.VisitVariables | Source/WebGPU/WGSL/Visitor.cpp:67-68 | each variable in order |
| Visiting.Visitor.VisitParameter | Source/WebGPU/WGSL/Visitor.cpp:194-199 | the attributes, then the type name |
| Visiting.Visitor.VisitParameters | Source/WebGPU/WGSL/Visitor.cpp:156-157 | each parameter in order |
| Visiting.Visitor.VisitMember | Source/WebGPU/WGSL/Visitor.cpp:201-206 | the attributes, then the type name |
| Visiting.Visitor.VisitMembers | Source/WebGPU/WGSL/Visitor.cpp:175-176 | each member in order |
| Visiting.Visitor.VisitExpression | Source/WebGPU/WGSL/Visitor.cpp:215-237 | the expression, then the overload for its kind |
| Visiting.Visitor.VisitExpressionChildren | Source/WebGPU/WGSL/Visitor.cpp:239-272 | the children each expression kind visits: base and index, base, callee and arguments, operand, or none |
| Visiting.Visitor.VisitExpressions | Source/WebGPU/WGSL/Visitor.cpp:259-264 | each argument in order |
| Visiting.Visitor.MaybeVisitExpression | Source/WebGPU/WGSL/Visitor.cpp:52-59 | an absent expression visits nothing |
| Visiting.Visitor.VisitStatement | Source/WebGPU/WGSL/Visitor.cpp:303-319 | the statement, then the overload for its kind |
| Visiting.Visitor.VisitStatementChildren | Source/WebGPU/WGSL/Visitor.cpp:321-344 | the children each statement kind visits |
| Visiting.Visitor.VisitStatements | Source/WebGPU/WGSL/Visitor.cpp:321-325 | each statement in order |
| Visiting.Visitor.VisitTypeName | Source/WebGPU/WGSL/Visitor.cpp:346-359 | the type name, then the overload for its kind |
| Visiting.Visitor.VisitTypeNameChildren | Source/WebGPU/WGSL/Visitor.cpp:361-377 | element type and count of an array, nothing for a named type, the element type of a parameterized one |
| Visiting.Visitor.MaybeVisitTypeName | Source/WebGPU/WGSL/Visitor.cpp:52-59 | an absent type name visits nothing |
| Dumping.JoinStartsWithFirst | Source/WebGPU/WGSL/AST/Dumper.cpp:49-59 | the joined text starts with the first node's text |
| Dumping.JoinEndsWithLast | Source/WebGPU/WGSL/AST/Dumper.cpp:49-59 | the joined text ends with the last node's text |
| Dumping.JoinLength | Source/WebGPU/WGSL/AST/Dumper.cpp:49-59 | the joined text is empty for no nodes, else the texts' total length plus one joiner between each pair |
| Dumping.FirstComma | Source/WebGPU/WGSL/AST/Dumper.cpp:226-234 | the position of the first comma, or the length if there is none |
| Dumping.StorageClassTable | Source/WebGPU/WGSL/AST/Dumper.cpp:226-234 | a storage class's printed name identifies it and contains no comma |
| Dumping.AccessModeTable | Source/WebGPU/WGSL/AST/Dumper.cpp:226-234 | an access mode's printed name identifies it |
| Dumping.FirstCommaAfter | Source/WebGPU/WGSL/AST/Dumper.cpp:226-234 | in `a,b` with no comma in `a`, the first comma follows `a` |
| Dumping.QualifierRoundTrip | Source/WebGPU/WGSL/AST/Dumper.cpp:226-234 | the printed `<class,mode>` reads back as the same qualifier |
| Dumping.IntegerLiteralTextsDistinct | Source/WebGPU/WGSL/AST/Dumper.cpp:241-259 | different integer literals print differently: `i` and `u` suffixes keep the three kinds apart |
| Dumping.ArrayWithoutElementDropsCount | Source/WebGPU/WGSL/AST/Dumper.cpp:348-360 | an array type without element type prints as `array`, whatever its count |
| Dumping.BaseNameCapitalised | Source/WebGPU/WGSL/AST/Dumper.cpp:367-388 | the dumper's base names are the type names' base names with the first letter capitalised |
| Dumping.StatementStartsWithIndent | Source/WebGPU/WGSL/AST/Dumper.cpp:305-346 | every statement's text starts with the current indentation |
| Dumping.BlockBodyIndented | Source/WebGPU/WGSL/AST/Dumper.cpp:305-317 | a non-empty block prints `{` and a newline after the indentation, then its statements one level further in |
| Dumping.DiscardedAssignment | Source/WebGPU/WGSL/AST/Dumper.cpp:328-339 | an assignment without a left-hand side prints as one to `_` |
| Dumping.Dumper.constructor | Source/WebGPU/WGSL/AST/Dumper.cpp:61-71 | a new dumper has written nothing, with no indentation |
| Dumping.Dumper.BumpIndent | Source/WebGPU/WGSL/AST/Dumper.cpp:43-47 | the indentation grows by four spaces; the old one is kept for restoring |
| Dumping.Dumper.RestoreIndent | Source/WebGPU/WGSL/AST/Dumper.cpp:43-47 | the saved indentation is back in force; the output is unchanged |
| Dumping.Dumper.VisitDirective | Source/WebGPU/WGSL/AST/Dumper.cpp:96-100 | appends the directive's text |
| Dumping.Dumper.VisitAttribute | Source/WebGPU/WGSL/AST/Dumper.cpp:102-135 | appends `@group(n)`, `@binding(n)`, `@location(n)`, `@builtin(name)` or `@compute`, `@fragment`, `@vertex`; a native attribute prints nothing, under the corrected dispatch (see Left out) |
| Dumping.Dumper.VisitAttributes | Source/WebGPU/WGSL/AST/Dumper.cpp:49-59 | appends the attributes' texts joined by the joiner |
| Dumping.Dumper.VisitAttributesThen | Source/WebGPU/WGSL/AST/Dumper.cpp:137-202 | appends the joined attributes and a separator after them when there are any |
| Dumping.Dumper.VisitQualifier | Source/WebGPU/WGSL/AST/Dumper.cpp:226-234 | appends `<class,mode>`, with no space after the comma |
| Dumping.Dumper.VisitExpression | Source/WebGPU/WGSL/AST/Dumper.cpp:236-303 | appends the expression's text |
| Dumping.Dumper.VisitArguments | Source/WebGPU/WGSL/AST/Dumper.cpp:285-294 | appends the arguments joined by the joiner |
| Dumping.Dumper.VisitTypeName | Source/WebGPU/WGSL/AST/Dumper.cpp:348-388 | appends the type name's text |
| Dumping.Dumper.VisitVariable | Source/WebGPU/WGSL/AST/Dumper.cpp:183-202 | appends the variable declaration's text |
| Dumping.Dumper.VisitStatement | Source/WebGPU/WGSL/AST/Dumper.cpp:305-346 | appends the statement's text for the current indentation |
| Dumping.Dumper.VisitStatements | Source/WebGPU/WGSL/AST/Dumper.cpp:305-317 | appends the statements joined by the joiner |
| Dumping.Dumper.VisitParameter | Source/WebGPU/WGSL/AST/Dumper.cpp:204-213 | appends the parameter's text |
| Dumping.Dumper.VisitParameters | Source/WebGPU/WGSL/AST/Dumper.cpp:137-162 | appends the parameters joined by the joiner |
| Dumping.Dumper.VisitMember | Source/WebGPU/WGSL/AST/Dumper.cpp:215-224 | appends the member's text |
| Dumping.Dumper.VisitMembers | Source/WebGPU/WGSL/AST/Dumper.cpp:164-181 | appends the members joined by the joiner |
| Dumping.Dumper.VisitStructure | Source/WebGPU/WGSL/AST/Dumper.cpp:164-181 | appends the structure's text |
| Dumping.Dumper.VisitFunction | Source/WebGPU/WGSL/AST/Dumper.cpp:137-162 | appends the function's text |
| Dumping.Dumper.VisitModule | Source/WebGPU/WGSL/AST/Dumper.cpp:73-94 | appends the module's text: the directives, structures, variables, then functions, each group followed by a blank line when it is not empty |
| Dumping.Dumper.VisitDirectives | Source/WebGPU/WGSL/AST/Dumper.cpp:75-78 | appends each directive's text in order |
| Dumping.Dumper.VisitStructures | Source/WebGPU/WGSL/AST/Dumper.cpp:80-83 | appends each structure's text in order |
| Dumping.Dumper.VisitVariables | Source/WebGPU/WGSL/AST/Dumper.cpp:85-88 | appends each variable's text in order |
| Dumping.Dumper.VisitFunctions | Source/WebGPU/WGSL/AST/Dumper.cpp:90-93 | appends each function's text in order |
| Dumping.DumpShaderModule | Source/WebGPU/WGSL/AST/Dumper.cpp:390-403 | dumping a module into a fresh dumper yields exactly the module's text at no indentation |
| EntryPoints.InputItems | Source/WebGPU/WGSL/GatherEntryPointItems.cpp:110-118 | one input item per parameter |
| EntryPoints.InputItemsSnoc | Source/WebGPU/WGSL/GatherEntryPointItems.cpp:110-118 | a parameter with a semantic adds its item after the previous ones |
| EntryPoints.Gatherer.constructor | Source/WebGPU/WGSL/GatherEntryPointItems.cpp:61-65 | a new gatherer has the given semantic and no items, path or error |
| EntryPoints.Gatherer.Error | Source/WebGPU/WGSL/GatherEntryPointItems.cpp:72-75 | `error()` returns the recorded error |
| EntryPoints.Gatherer.TakeEntryPointItems | Source/WebGPU/WGSL/GatherEntryPointItems.cpp:67-70 | hands back the items gathered and leaves none behind |
| EntryPoints.Gatherer.Reset | Source/WebGPU/WGSL/GatherEntryPointItems.cpp:77-81 | clears the current semantic and nothing else |
| EntryPoints.Gatherer.VisitType | Source/WebGPU/WGSL/GatherEntryPointItems.cpp:83-108 | without a semantic, records the "Expected semantic" error; otherwise appends one item with the path, the resolved type (none for an array) and the semantic |
| EntryPoints.Gatherer.CheckErrorAndVisitType | Source/WebGPU/WGSL/GatherEntryPointItems.cpp:83-108 | as VisitType, but nothing changes once an error is recorded |
| EntryPoints.Gatherer.VisitParameter | Source/WebGPU/WGSL/GatherEntryPointItems.cpp:110-118 | takes the parameter's semantic, visits its type with the parameter's name on the path, and leaves the path as it was |
| EntryPoints.GatherInputs | Source/WebGPU/WGSL/GatherEntryPointItems.cpp:132-138 | the input items of all parameters, or the "Expected semantic" error when some parameter has no semantic |
| EntryPoints.GatherEntryPointItems | Source/WebGPU/WGSL/GatherEntryPointItems.cpp:127-147 | the result is `Gathered`: the inputs, the output from the return type unless the stage is compute, or the first error |
| EntryPoints.GatheredWhenAllHaveSemantics | Source/WebGPU/WGSL/GatherEntryPointItems.cpp:127-147 | when every parameter and the gathered return type have semantics, the result is the input and output items |
| EntryPoints.GatheredSucceedsIff | Source/WebGPU/WGSL/GatherEntryPointItems.cpp:127-147 | gathering succeeds exactly when every parameter has a builtin or location attribute and so does the return type when it is gathered; the only error is "Expected semantic for entrypoint argument." |
| EntryPoints.GatheredInputs | Source/WebGPU/WGSL/GatherEntryPointItems.cpp:110-118 | input `j` has path `[name]`, the parameter's resolved type, and its first semantic attribute |
| EntryPoints.GatheredOutputs | Source/WebGPU/WGSL/GatherEntryPointItems.cpp:140-146 | at most one output, present exactly when the return type is gathered, with the empty path and the return semantic |
| EntryPoints.ComputeHasNoOutputs | Source/WebGPU/WGSL/GatherEntryPointItems.cpp:141-142 | a compute entry point has no outputs |
| EntryPoints.TrivialVertexEntryPoint | Tools/TestWebKitAPI/Tests/WGSL/CodeGenerationTests.cpp:60-76 | the trivial vertex shader gathers one input `VertexIndex` (`u32`, `@builtin(vertex_index)`) and one output (`vec4<f32>`, `@builtin(position)`) |
| EntryPoints.TrivialFragmentEntryPoint | Tools/TestWebKitAPI/Tests/WGSL/CodeGenerationTests.cpp:78-84 | the trivial fragment shader gathers no inputs and one output |

## Left out

- The lexer (`Lexer.h`) is not part of this model. The parser reads a given token sequence, and past its end the lookahead is end-of-file. `parseLChar` and `parseUChar` differ only in the lexer's character width, so both are `Parser.Parse`.
- The lexer's `isAtEndOfFile` is modelled as "the lookahead is the last token of the input" (`ParserSpec.IsAtEndOfFile`). It is used only to state the finding about the loop in `parseShader`.
- Source positions and spans (`START_PARSE`, `CURRENT_SOURCE_SPAN`, `m_currentLocation`, the spans of the AST nodes) are not modelled. The error messages keep their text but not their location.
- The `ParsingMode` argument of the parser's constructor is not modelled: no parse member shown reads it.
- `parseNativeTypeDeclaration` is declared in `ParserPrivate.h` but has no definition in `Parser.cpp`, so it is not modelled. Native type declarations appear only in the visitor.
- Floating-point literals are not modelled: the payload of every numeric literal is a natural number, and the dumper prints float literals as that number.
- Integer literals are unbounded naturals rather than the lexer's fixed-width values. Mangled-name values are 32-bit unsigned (`uint32`), as in the source.
- The older `ArrayType::elementCount()` used by `ArrayType::toString` is taken from the count expression (`TypeDecl.ElementCount`): an integer literal gives its value, and any other count counts as 0, which means "no count".
- The `Type::Context` in which the gatherer looks up resolved types is a parameter `lookup`. The source passes an empty dummy context. `ASSERT(resolvedType)` is not modelled: a failed lookup gives no type.
- EntryPoints.GatherEntryPointItems: requires a stage attribute, which the source asserts (`ASSERT(functionDecl.maybeStage())`) rather than checks.
- FunctionDecl.StageOf: requires a stage attribute, which `FunctionDecl::stage` asserts.
- EntryPoints.GatherInputs: a method split out of `gatherEntryPointItems` for its loop over the parameters, with the same behaviour.
- A visitor subclass's overrides are a function `hook` from a visited node to an optional error. Each override is taken to report its error on entry, before the base visitor's visits of the children, so the visit order is preorder.
- The visit of a whole module is modelled through `checkErrorAndVisit` too. On a fresh visitor this is the same as a direct call.
- Visiting.Visitor.VisitModule: the module's list of type declarations is not visited, and neither is the type name of a type declaration, as in the source.
- The dumper's `PrintStream` is a string. `dumpAST` and `dataLogLn`, which send the text to the log, are left out; `Dumping.DumpShaderModule` gives the text `dumpNode` would print.
- The `Dumper` prints module-level variables without indentation. A function's body is printed after the function's own indentation, and the body's first line repeats it. The indentation bump around call arguments changes nothing, because the arguments print no indentation. The model reproduces all three as written.
- ParserRoundTrip.TypeRoundTrip: covers well-formed type names only. A named type must not be a vector or matrix name. An array without an element type must have no count, because the parser reads a count only after an element type.
- ParserRoundTrip.ExpressionRoundTrip: covers well-formed expressions only. Such an expression contains no `Float32Literal`, which the parser never produces. A callee must not be a scalar keyword type such as `i32`, because `parsePrimaryExpression` has no case for those. Statements and declarations are round-tripped by the ParserDeclarations lemmas, for the well-formed ASTs their `WellFormed*` predicates describe.
- The adapters' generic `CharacterType*` destination is an `array<char>` with an offset.
- ParserSpec.ParseShader: loops until the lookahead is the end-of-file token, not while the lexer's `isAtEndOfFile` is false as at `Parser.cpp:144`. The two differ on a trailing token with nothing after it, such as a lone `;` or `fn f() {} ;`. The source stops with that token unread and accepts the module; the model parses it and rejects the `;`. The as-written loop is `ParserSpec.ParseShaderLoopAsWritten` (see Findings). Function declarations are read with the corrected comma-reading parameter loop, as in `ParserSpec.ParseFunctionDeclaration`. Its own contract states only the position bounds; `ParserSpec.ParseShaderLoop` and the ParserProperties lemmas on global declarations state what a pass appends.
- Parser.Parser.ParseShader: has ParserSpec.ParseShader's behaviour, so it loops on the end-of-file lookahead and reads commas between parameters, unlike `Parser.cpp:144` and `Parser.cpp:481-485`.
- Parser.Parse: has ParserSpec.ParseShader's behaviour, with the same two corrections.
- ParserSpec.ParseFunctionDeclaration: reads the parameters with the corrected loop `ParserSpec.ParseParametersLoop`, which consumes a comma between parameters. The loop at `Parser.cpp:481-485` reads no comma, so the source rejects `fn f(a: i32, b: i32) {}`, which the model accepts. The as-written loop is `ParserSpec.ParseParametersLoopAsWritten` (see Findings). Its own contract states only that a success consumes tokens; ParserDeclarations.FunctionRoundTrip states what it reads back.
- Parser.Parser.ParseFunctionDeclaration: has ParserSpec.ParseFunctionDeclaration's behaviour, with the same corrected parameter loop.
- Parser.Parser.ParseParameters: is the corrected loop, reading a comma between parameters, where `Parser.cpp:481-485` reads none.
- Visiting.Visitor.VisitAttribute: hands a native attribute to the native-attribute overload. At `Visitor.cpp:95-96` the source downcasts it to `LocationAttribute` and calls that overload. The as-written dispatch is `Visiting.DispatchAttributeAsWritten` (see Findings).
- Visiting.AttributeOrder: lists a native attribute's visit under the corrected dispatch, as Visiting.Visitor.VisitAttribute does.
- Dumping.DumpAttribute: prints nothing for a native attribute, which is what the base visitor's native-attribute overload does under the corrected dispatch. As written, the source reaches `Dumper::visit(LocationAttribute&)` (`Dumper.cpp:131-134`) on an object that is not a location attribute, and what that prints is undefined.
- Dumping.Dumper.VisitAttribute: appends Dumping.DumpAttribute's text, so a native attribute prints nothing under the corrected dispatch rather than going through `Dumper::visit(LocationAttribute&)`.
- ParserSpec.ParseStructureDeclaration: its own contract states only that a success consumes tokens; ParserDeclarations.StructureRoundTrip states the structure it reads back.
- ParserSpec.ParseStructureMembersLoop: its own contract states only the position bounds; ParserDeclarations.MembersLoopRoundTrip states that it appends the members in order up to `}`.
- ParserSpec.ParseStructureMember: its own contract states only that a success consumes tokens; ParserDeclarations.MemberRoundTrip states the member it reads back.
- ParserSpec.ParseTypeDeclaration: its own contract states only that a success consumes tokens; ParserDeclarations.TypeDeclarationRoundTrip states the name and aliased type it reads back.
- ParserSpec.ParseVariableDeclaration: its own contract states only that a success consumes tokens; ParserDeclarations.VariableRoundTrip states the qualifier, name, type and initializer it reads back.
- ParserSpec.ParseMaybeTypeAnnotation: its own contract states only the position bounds; ParserDeclarations.MaybeTypeAnnotationRoundTrip states the type it reads, or none when no `:` follows.
- ParserSpec.ParseMaybeInitializer: its own contract states only the position bounds; ParserDeclarations.MaybeInitializerRoundTrip states the expression it reads, or none when no `=` follows.
- ParserSpec.ParseMaybeReturnType: its own contract states only the position bounds; ParserDeclarations.MaybeReturnTypeRoundTrip states the return attributes and type it reads, or none when no `->` follows.
- ParserSpec.ParseParameter: its own contract states only that a success consumes tokens; ParserDeclarations.ParameterRoundTrip states the parameter, with its attributes, that it reads back.
- ParserSpec.ParseStatement: its own contract states only that a success consumes tokens; ParserDeclarations.StatementRoundTrip and ParserDeclarations.StatementRule state the statement it reads back.
- ParserSpec.ParseCompoundStatement: its own contract states only that a success consumes tokens; ParserDeclarations.BlockRoundTrip states the statements it reads back, in order.
- ParserSpec.ParseStatementsLoop: its own contract states only the position bounds; ParserDeclarations.StatementsLoopRoundTrip states that it appends the statements in order up to `}`.
- ParserSpec.ParseLHSExpression: its own contract states only that a success consumes tokens; ParserDeclarations.LHSRoundTrip states the left-hand side it reads back.
- ParserSpec.ParseCoreLHSExpression: its own contract states only that a success consumes tokens; ParserDeclarations.CoreLHSRule and ParserDeclarations.ParenthesizedLHSRoundTrip state what it reads back.
- The round-trip lemmas cover the ASTs the parser builds: every statement's assignment has a left-hand side, and no attribute list written in the source holds a native attribute, because the parser never produces one.

## Findings

| source | as written | input that shows it | evidently intended | confidence | as-written member | corrected member |
|---|---|---|---|---|---|---|
| Source/WebGPU/WGSL/Parser.cpp:481-485 | The parameter loop parses parameter after parameter until `)` and never consumes a comma between them. | `fn f(a: i32, b: i32) {}`: after `a: i32` the loop asks for a parameter, finds `,`, and fails with "expected Identifier, got Comma". | Parameters separated by commas, as WGSL's `param_list` has them. | high; not executed | ParserProperties.ParametersAsWrittenRejectComma | ParserDeclarations.ParametersRoundTrip |
| Source/WebGPU/WGSL/Parser.cpp:144 | `parseShader` loops while the lexer is not at the end of its input. The lexer reaches the end as soon as it has handed out the lookahead, which may still be a real token. | A lone trailing token such as `;` (or `fn f() {} ;`): the lookahead `;` is never parsed, and the module is accepted. | Loop until the lookahead is the end-of-file token, so every token is parsed; a stray `;` is then rejected. | medium, because it depends on the lexer's `isAtEndOfFile`; not executed | ParserProperties.ShaderAsWrittenIgnoresLoneToken | ParserProperties.ShaderRejectsLoneSemicolon |
| Source/WebGPU/WGSL/Visitor.cpp:95-96 | `visit(Attribute&)` downcasts a native attribute to `LocationAttribute` and calls that overload. | Any `NativeAttribute`: the `LocationAttribute` overload runs instead of the `NativeAttribute` one. | Call `visit(NativeAttribute&)`. | high; not executed | Visiting.NativeAttributeMisdispatched | Visiting.DispatchAttribute |
