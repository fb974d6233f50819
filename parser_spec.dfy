/** The WGSL recursive-descent parser (Parser.cpp) as functions over a token
    sequence. Each function takes the position of the lookahead token and gives
    back what the corresponding `parse*` member returns together with the
    position the lexer is left at, so that the imperative parser in module Parser
    can be proved equal to it call by call. The PARSE and CONSUME_TYPE macros'
    early returns are the `if ... .Err? then` branches below. */
module ParserSpec {
  import opened Wrappers
  import opened Tokens
  import opened Ast
  import TypeNames

  /** The lookahead at `pos`: past the end of its input the lexer yields EndOfFile. */
  function At(toks: seq<Token>, pos: nat): Token
  {
    if pos < |toks| then toks[pos] else EndOfFileToken
  }

  /** The position after the lexer hands out one more token. */
  function Advance(toks: seq<Token>, pos: nat): nat
  {
    if pos < |toks| then pos + 1 else pos
  }

  /** What a parse member returns, and where it leaves the lexer. */
  datatype Parsed<+T> = Parsed(result: Result<T, Error>, pos: nat)

  const GlobalDeclError := Message("Trying to parse a GlobalDecl, expected 'var', 'fn', or 'struct'.")
  const UnknownAttributeError := Message("Unknown attribute. Supported attributes are 'group', 'binding', 'location', 'builtin', 'vertex', 'compute', 'fragment'.")
  const TypeNameError := Message("Tried parsing a type and it did not start with an identifier")
  const StorageClassError := Message("Expected one of 'function'/'private'/'storage'/'uniform'/'workgroup'")
  const AccessModeError := Message("Expected one of 'read'/'write'/'read_write'")
  const StatementError := Message("Not a valid statement")
  const PrimaryExpressionError := Message("Expected one of '(', a literal, or an identifier")
  const LHSExpressionError := Message("Tried to parse the left-hand side of an assignment and failed")

  /** consumeType: on a match, the lookahead token and one token further; otherwise
      the lookahead's type, with the position unchanged. */
  function ConsumeType(toks: seq<Token>, pos: nat, t: TokenType): (r: (Result<Token, TokenType>, nat))
    requires pos <= |toks|
    ensures r.0.Ok? <==> At(toks, pos).kind == t
    ensures r.0.Ok? && t != EndOfFile ==> pos < |toks| && r.0.value == toks[pos] && r.1 == pos + 1
    ensures r.0.Err? ==> r.0.error == At(toks, pos).kind && r.1 == pos
    ensures r.1 <= |toks|
  {
    if At(toks, pos).kind == t then (Ok(At(toks, pos)), Advance(toks, pos))
    else (Err(At(toks, pos).kind), pos)
  }

  /** CONSUME_TYPE: consumeType, failing with "Expected a <t>, but got a <lookahead>". */
  function Expect(toks: seq<Token>, pos: nat, t: TokenType): (r: Parsed<Token>)
    requires pos <= |toks|
    requires t != EndOfFile
    ensures r.result.Ok? <==> At(toks, pos).kind == t
    ensures r.result.Ok? ==> pos < |toks| && r.result.value == toks[pos] && r.pos == pos + 1
    ensures r.result.Err? ==> r.result == Err(ExpectedToken(t, At(toks, pos).kind)) && r.pos == pos
  {
    match ConsumeType(toks, pos, t)
    case (Ok(tok), next) => Parsed(Ok(tok), next)
    case (Err(got), next) => Parsed(Err(ExpectedToken(t, got)), next)
  }

  // ---------------------------------------------------------------- module

  /** Every list of `m1` is a prefix of the same list of `m2`. */
  predicate ExtendsModule(m1: ShaderModule, m2: ShaderModule)
  {
    m1.directives <= m2.directives && m1.structures <= m2.structures && m1.variables <= m2.variables &&
    m1.functions <= m2.functions && m1.types <= m2.types
  }

  /** parseShader's loop body: a global declaration with its leading attributes,
      appended to the list its keyword selects. */
  function ParseGlobalDeclaration(toks: seq<Token>, pos: nat, m: ShaderModule): (r: Parsed<ShaderModule>)
    requires pos <= |toks|
    ensures pos <= r.pos <= |toks|
    ensures r.result.Ok? ==> r.pos > pos
    ensures r.result.Ok? ==> ExtendsModule(m, r.result.value)
    decreases |toks| - pos, 30
  {
    var a := ParseAttributes(toks, pos);
    if a.result.Err? then Parsed(Err(a.result.error), a.pos) else
    var attributes := a.result.value;
    var k := At(toks, a.pos).kind;
    if k == KeywordStruct then
      var s := ParseStructureDeclaration(toks, a.pos);
      if s.result.Err? then Parsed(Err(s.result.error), s.pos) else
      Parsed(Ok(m.(structures := m.structures + [s.result.value.(attributes := attributes)])), s.pos)
    else if k == KeywordVar then
      var v := ParseVariableDeclaration(toks, a.pos);
      if v.result.Err? then Parsed(Err(v.result.error), v.pos) else
      var semi := Expect(toks, v.pos, Semicolon);
      if semi.result.Err? then Parsed(Err(semi.result.error), semi.pos) else
      Parsed(Ok(m.(variables := m.variables + [v.result.value.(attributes := attributes)])), semi.pos)
    else if k == KeywordFn then
      var f := ParseFunctionDeclaration(toks, a.pos);
      if f.result.Err? then Parsed(Err(f.result.error), f.pos) else
      Parsed(Ok(m.(functions := m.functions + [f.result.value.(attributes := attributes)])), f.pos)
    else if k == KeywordType then
      var t := ParseTypeDeclaration(toks, a.pos);
      if t.result.Err? then Parsed(Err(t.result.error), t.pos) else
      var semi := Expect(toks, t.pos, Semicolon);
      if semi.result.Err? then Parsed(Err(semi.result.error), semi.pos) else
      Parsed(Ok(m.(types := m.types + [t.result.value.(attributes := attributes)])), semi.pos)
    else
      Parsed(Err(GlobalDeclError), a.pos)
  }

  /** parseShader's loop, which runs until the lookahead is the end of the input
      (see ParseShaderLoopAsWritten for the source's own loop condition). */
  function ParseShaderLoop(toks: seq<Token>, pos: nat, m: ShaderModule): (r: Parsed<ShaderModule>)
    requires pos <= |toks|
    ensures pos <= r.pos <= |toks|
    ensures r.result.Ok? ==> ExtendsModule(m, r.result.value) && At(toks, r.pos).kind == EndOfFile
    decreases |toks| - pos, 31
  {
    if At(toks, pos).kind == EndOfFile then Parsed(Ok(m), pos) else
    var d := ParseGlobalDeclaration(toks, pos, m);
    if d.result.Err? then d else
    ParseShaderLoop(toks, d.pos, d.result.value)
  }

  /** Whether the lexer has handed out every token of its input; it has handed out
      the lookahead at `pos` already. */
  predicate IsAtEndOfFile(toks: seq<Token>, pos: nat)
  {
    pos + 1 >= |toks|
  }

  /** parseShader's loop as the source writes it: it stops as soon as the lexer is
      at the end of its input, even though the lookahead may still be a real token. */
  function ParseShaderLoopAsWritten(toks: seq<Token>, pos: nat, m: ShaderModule): (r: Parsed<ShaderModule>)
    requires pos <= |toks|
    ensures pos <= r.pos <= |toks|
    ensures r.result.Ok? ==> ExtendsModule(m, r.result.value) && IsAtEndOfFile(toks, r.pos)
    decreases |toks| - pos
  {
    if IsAtEndOfFile(toks, pos) then Parsed(Ok(m), pos) else
    var d := ParseGlobalDeclaration(toks, pos, m);
    if d.result.Err? then d else
    ParseShaderLoopAsWritten(toks, d.pos, d.result.value)
  }

  function ParseShader(toks: seq<Token>, pos: nat): (r: Parsed<ShaderModule>)
    requires pos <= |toks|
    ensures pos <= r.pos <= |toks|
  {
    ParseShaderLoop(toks, pos, EmptyModule)
  }

  // ---------------------------------------------------------------- attributes

  function ParseAttributesLoop(toks: seq<Token>, pos: nat, acc: seq<Attribute>): (r: Parsed<seq<Attribute>>)
    requires pos <= |toks|
    ensures pos <= r.pos <= |toks|
    decreases |toks| - pos, 2
  {
    if At(toks, pos).kind != TokenType.Attribute then Parsed(Ok(acc), pos) else
    var a := ParseAttribute(toks, pos);
    if a.result.Err? then Parsed(Err(a.result.error), a.pos) else
    ParseAttributesLoop(toks, a.pos, acc + [a.result.value])
  }

  function ParseAttributes(toks: seq<Token>, pos: nat): (r: Parsed<seq<Attribute>>)
    requires pos <= |toks|
    ensures pos <= r.pos <= |toks|
    decreases |toks| - pos, 3
  {
    ParseAttributesLoop(toks, pos, [])
  }

  /** `( IntegerLiteral )`, giving the literal's value. */
  function ParseParenthesizedInteger(toks: seq<Token>, pos: nat): (r: Parsed<nat>)
    requires pos <= |toks|
    ensures pos <= r.pos <= |toks|
  {
    var open := Expect(toks, pos, ParenLeft);
    if open.result.Err? then Parsed(Err(open.result.error), open.pos) else
    var lit := Expect(toks, open.pos, IntegerLiteral);
    if lit.result.Err? then Parsed(Err(lit.result.error), lit.pos) else
    var close := Expect(toks, lit.pos, ParenRight);
    if close.result.Err? then Parsed(Err(close.result.error), close.pos) else
    Parsed(Ok(lit.result.value.literalValue), close.pos)
  }

  /** `( Identifier )`, giving the identifier. */
  function ParseParenthesizedIdentifier(toks: seq<Token>, pos: nat): (r: Parsed<string>)
    requires pos <= |toks|
    ensures pos <= r.pos <= |toks|
  {
    var open := Expect(toks, pos, ParenLeft);
    if open.result.Err? then Parsed(Err(open.result.error), open.pos) else
    var name := Expect(toks, open.pos, Identifier);
    if name.result.Err? then Parsed(Err(name.result.error), name.pos) else
    var close := Expect(toks, name.pos, ParenRight);
    if close.result.Err? then Parsed(Err(close.result.error), close.pos) else
    Parsed(Ok(name.result.value.ident), close.pos)
  }

  function ParseAttribute(toks: seq<Token>, pos: nat): (r: Parsed<Attribute>)
    requires pos <= |toks|
    ensures pos <= r.pos <= |toks|
    ensures r.result.Ok? ==> r.pos > pos
    decreases |toks| - pos, 1
  {
    var at := Expect(toks, pos, TokenType.Attribute);
    if at.result.Err? then Parsed(Err(at.result.error), at.pos) else
    var ident := Expect(toks, at.pos, Identifier);
    if ident.result.Err? then Parsed(Err(ident.result.error), ident.pos) else
    var name := ident.result.value.ident;
    var p := ident.pos;
    if name == "group" then
      var n := ParseParenthesizedInteger(toks, p);
      if n.result.Err? then Parsed(Err(n.result.error), n.pos) else Parsed(Ok(GroupAttribute(n.result.value)), n.pos)
    else if name == "binding" then
      var n := ParseParenthesizedInteger(toks, p);
      if n.result.Err? then Parsed(Err(n.result.error), n.pos) else Parsed(Ok(BindingAttribute(n.result.value)), n.pos)
    else if name == "location" then
      var n := ParseParenthesizedInteger(toks, p);
      if n.result.Err? then Parsed(Err(n.result.error), n.pos) else Parsed(Ok(LocationAttribute(n.result.value)), n.pos)
    else if name == "builtin" then
      var b := ParseParenthesizedIdentifier(toks, p);
      if b.result.Err? then Parsed(Err(b.result.error), b.pos) else Parsed(Ok(BuiltinAttribute(b.result.value)), b.pos)
    else if name == "vertex" then Parsed(Ok(StageAttribute(Vertex)), p)
    else if name == "compute" then Parsed(Ok(StageAttribute(Compute)), p)
    else if name == "fragment" then Parsed(Ok(StageAttribute(Fragment)), p)
    else Parsed(Err(UnknownAttributeError), p)
  }

  // ---------------------------------------------------------------- structures

  function ParseStructureDeclaration(toks: seq<Token>, pos: nat): (r: Parsed<StructureDeclaration>)
    requires pos <= |toks|
    ensures pos <= r.pos <= |toks|
    ensures r.result.Ok? ==> r.pos > pos
    decreases |toks| - pos, 1
  {
    var kw := Expect(toks, pos, KeywordStruct);
    if kw.result.Err? then Parsed(Err(kw.result.error), kw.pos) else
    var name := Expect(toks, kw.pos, Identifier);
    if name.result.Err? then Parsed(Err(name.result.error), name.pos) else
    var open := Expect(toks, name.pos, BraceLeft);
    if open.result.Err? then Parsed(Err(open.result.error), open.pos) else
    var members := ParseStructureMembersLoop(toks, open.pos, []);
    if members.result.Err? then Parsed(Err(members.result.error), members.pos) else
    var close := Expect(toks, members.pos, BraceRight);
    if close.result.Err? then Parsed(Err(close.result.error), close.pos) else
    Parsed(Ok(StructureDeclaration(name.result.value.ident, [], members.result.value)), close.pos)
  }

  function ParseStructureMembersLoop(toks: seq<Token>, pos: nat, acc: seq<StructureMember>): (r: Parsed<seq<StructureMember>>)
    requires pos <= |toks|
    ensures pos <= r.pos <= |toks|
    decreases |toks| - pos, 5
  {
    if At(toks, pos).kind == BraceRight then Parsed(Ok(acc), pos) else
    var member := ParseStructureMember(toks, pos);
    if member.result.Err? then Parsed(Err(member.result.error), member.pos) else
    ParseStructureMembersLoop(toks, member.pos, acc + [member.result.value])
  }

  function ParseStructureMember(toks: seq<Token>, pos: nat): (r: Parsed<StructureMember>)
    requires pos <= |toks|
    ensures pos <= r.pos <= |toks|
    ensures r.result.Ok? ==> r.pos > pos
    decreases |toks| - pos, 4
  {
    var attributes := ParseAttributes(toks, pos);
    if attributes.result.Err? then Parsed(Err(attributes.result.error), attributes.pos) else
    var name := Expect(toks, attributes.pos, Identifier);
    if name.result.Err? then Parsed(Err(name.result.error), name.pos) else
    var colon := Expect(toks, name.pos, Colon);
    if colon.result.Err? then Parsed(Err(colon.result.error), colon.pos) else
    var t := ParseTypeName(toks, colon.pos);
    if t.result.Err? then Parsed(Err(t.result.error), t.pos) else
    var semi := Expect(toks, t.pos, Semicolon);
    if semi.result.Err? then Parsed(Err(semi.result.error), semi.pos) else
    Parsed(Ok(StructureMember(name.result.value.ident, t.result.value, attributes.result.value)), semi.pos)
  }

  // ---------------------------------------------------------------- type names

  function ParseTypeName(toks: seq<Token>, pos: nat): (r: Parsed<TypeName>)
    requires pos <= |toks|
    ensures pos <= r.pos <= |toks|
    ensures r.result.Ok? ==> r.pos > pos
    decreases |toks| - pos, 6
  {
    var k := At(toks, pos).kind;
    if k == KeywordArray then ParseArrayTypeName(toks, pos)
    else if k == KeywordI32 then Parsed(Ok(NamedTypeName("i32")), pos + 1)
    else if k == KeywordF32 then Parsed(Ok(NamedTypeName("f32")), pos + 1)
    else if k == KeywordU32 then Parsed(Ok(NamedTypeName("u32")), pos + 1)
    else if k == KeywordBool then Parsed(Ok(NamedTypeName("bool")), pos + 1)
    else if k == Identifier then ParseTypeNameAfterIdentifier(toks, pos + 1, toks[pos].ident)
    else Parsed(Err(TypeNameError), pos)
  }

  /** parseTypeNameAfterIdentifier: `name < T >` when stringViewToKind knows the
      name, otherwise just the name. `pos` is just past the identifier. */
  function ParseTypeNameAfterIdentifier(toks: seq<Token>, pos: nat, name: string): (r: Parsed<TypeName>)
    requires pos <= |toks|
    ensures pos <= r.pos <= |toks|
    decreases |toks| - pos, 4
  {
    match TypeNames.StringViewToKind(name)
    case Some(kind) =>
      var lt := Expect(toks, pos, LT);
      if lt.result.Err? then Parsed(Err(lt.result.error), lt.pos) else
      var element := ParseTypeName(toks, lt.pos);
      if element.result.Err? then Parsed(Err(element.result.error), element.pos) else
      var gt := Expect(toks, element.pos, GT);
      if gt.result.Err? then Parsed(Err(gt.result.error), gt.pos) else
      Parsed(Ok(ParameterizedTypeName(kind, element.result.value)), gt.pos)
    case None => Parsed(Ok(NamedTypeName(name)), pos)
  }

  function ParseArrayTypeName(toks: seq<Token>, pos: nat): (r: Parsed<TypeName>)
    requires pos <= |toks|
    ensures pos <= r.pos <= |toks|
    ensures r.result.Ok? ==> r.pos > pos
    decreases |toks| - pos, 5
  {
    var kw := Expect(toks, pos, KeywordArray);
    if kw.result.Err? then Parsed(Err(kw.result.error), kw.pos) else
    if At(toks, kw.pos).kind != LT then Parsed(Ok(ArrayTypeName(None, None)), kw.pos) else
    ParseArrayTypeParameters(toks, kw.pos)
  }

  /** The `< element , count >` or `< element >` after `array`, starting at the `<`. */
  function ParseArrayTypeParameters(toks: seq<Token>, pos: nat): (r: Parsed<TypeName>)
    requires pos <= |toks| && At(toks, pos).kind == LT
    ensures pos <= r.pos <= |toks|
    ensures r.result.Ok? ==> r.pos > pos
    decreases |toks| - pos, 5
  {
    var element := ParseTypeName(toks, pos + 1);
    if element.result.Err? then Parsed(Err(element.result.error), element.pos) else
    if At(toks, element.pos).kind == Comma then
      var count := ParseAdditiveExpression(toks, element.pos + 1);
      if count.result.Err? then Parsed(Err(count.result.error), count.pos) else
      var gt := Expect(toks, count.pos, GT);
      if gt.result.Err? then Parsed(Err(gt.result.error), gt.pos) else
      Parsed(Ok(ArrayTypeName(Some(element.result.value), Some(count.result.value))), gt.pos)
    else
      var gt := Expect(toks, element.pos, GT);
      if gt.result.Err? then Parsed(Err(gt.result.error), gt.pos) else
      Parsed(Ok(ArrayTypeName(Some(element.result.value), None)), gt.pos)
  }

  function ParseTypeDeclaration(toks: seq<Token>, pos: nat): (r: Parsed<TypeDeclaration>)
    requires pos <= |toks|
    ensures pos <= r.pos <= |toks|
    ensures r.result.Ok? ==> r.pos > pos
  {
    var kw := Expect(toks, pos, KeywordType);
    if kw.result.Err? then Parsed(Err(kw.result.error), kw.pos) else
    var name := Expect(toks, kw.pos, Identifier);
    if name.result.Err? then Parsed(Err(name.result.error), name.pos) else
    var eq := Expect(toks, name.pos, Equal);
    if eq.result.Err? then Parsed(Err(eq.result.error), eq.pos) else
    var t := ParseTypeName(toks, eq.pos);
    if t.result.Err? then Parsed(Err(t.result.error), t.pos) else
    Parsed(Ok(TypeDeclaration(name.result.value.ident, [], t.result.value)), t.pos)
  }

  // ---------------------------------------------------------------- variables

  function ParseVariableDeclaration(toks: seq<Token>, pos: nat): (r: Parsed<VariableDeclaration>)
    requires pos <= |toks|
    ensures pos <= r.pos <= |toks|
    ensures r.result.Ok? ==> r.pos > pos
    decreases |toks| - pos, 22
  {
    var kw := Expect(toks, pos, KeywordVar);
    if kw.result.Err? then Parsed(Err(kw.result.error), kw.pos) else
    var qualifier := ParseMaybeVariableQualifier(toks, kw.pos);
    if qualifier.result.Err? then Parsed(Err(qualifier.result.error), qualifier.pos) else
    var name := Expect(toks, qualifier.pos, Identifier);
    if name.result.Err? then Parsed(Err(name.result.error), name.pos) else
    var t := ParseMaybeTypeAnnotation(toks, name.pos);
    if t.result.Err? then Parsed(Err(t.result.error), t.pos) else
    var init := ParseMaybeInitializer(toks, t.pos);
    if init.result.Err? then Parsed(Err(init.result.error), init.pos) else
    Parsed(Ok(VariableDeclaration(name.result.value.ident, [], qualifier.result.value, t.result.value, init.result.value)), init.pos)
  }

  /** The optional `< storage_class [, access_mode] >` after `var`. */
  function ParseMaybeVariableQualifier(toks: seq<Token>, pos: nat): (r: Parsed<Option<VariableQualifier>>)
    requires pos <= |toks|
    ensures pos <= r.pos <= |toks|
  {
    if At(toks, pos).kind != LT then Parsed(Ok(None), pos) else
    var q := ParseVariableQualifier(toks, pos);
    if q.result.Err? then Parsed(Err(q.result.error), q.pos) else Parsed(Ok(Some(q.result.value)), q.pos)
  }

  /** The optional `: type` of a variable. */
  function ParseMaybeTypeAnnotation(toks: seq<Token>, pos: nat): (r: Parsed<Option<TypeName>>)
    requires pos <= |toks|
    ensures pos <= r.pos <= |toks|
  {
    if At(toks, pos).kind != Colon then Parsed(Ok(None), pos) else
    var t := ParseTypeName(toks, pos + 1);
    if t.result.Err? then Parsed(Err(t.result.error), t.pos) else Parsed(Ok(Some(t.result.value)), t.pos)
  }

  /** The optional `= expression` of a variable. */
  function ParseMaybeInitializer(toks: seq<Token>, pos: nat): (r: Parsed<Option<Expression>>)
    requires pos <= |toks|
    ensures pos <= r.pos <= |toks|
  {
    if At(toks, pos).kind != Equal then Parsed(Ok(None), pos) else
    var e := ParseExpression(toks, pos + 1);
    if e.result.Err? then Parsed(Err(e.result.error), e.pos) else Parsed(Ok(Some(e.result.value)), e.pos)
  }

  function ParseVariableQualifier(toks: seq<Token>, pos: nat): (r: Parsed<VariableQualifier>)
    requires pos <= |toks|
    ensures pos <= r.pos <= |toks|
  {
    var lt := Expect(toks, pos, LT);
    if lt.result.Err? then Parsed(Err(lt.result.error), lt.pos) else
    var sc := ParseStorageClass(toks, lt.pos);
    if sc.result.Err? then Parsed(Err(sc.result.error), sc.pos) else
    var am := ParseMaybeAccessMode(toks, sc.pos);
    if am.result.Err? then Parsed(Err(am.result.error), am.pos) else
    var gt := Expect(toks, am.pos, GT);
    if gt.result.Err? then Parsed(Err(gt.result.error), gt.pos) else
    Parsed(Ok(VariableQualifier(sc.result.value, am.result.value)), gt.pos)
  }

  /** The optional `, access_mode` of a qualifier; without it the access mode is Read. */
  function ParseMaybeAccessMode(toks: seq<Token>, pos: nat): (r: Parsed<AccessMode>)
    requires pos <= |toks|
    ensures pos <= r.pos <= |toks|
  {
    if At(toks, pos).kind != Comma then Parsed(Ok(Read), pos) else ParseAccessMode(toks, pos + 1)
  }

  function ParseStorageClass(toks: seq<Token>, pos: nat): (r: Parsed<StorageClass>)
    requires pos <= |toks|
    ensures pos <= r.pos <= |toks|
  {
    var k := At(toks, pos).kind;
    if k == KeywordFunction then Parsed(Ok(StorageClass.Function), pos + 1)
    else if k == KeywordPrivate then Parsed(Ok(Private), pos + 1)
    else if k == KeywordWorkgroup then Parsed(Ok(Workgroup), pos + 1)
    else if k == KeywordUniform then Parsed(Ok(Uniform), pos + 1)
    else if k == KeywordStorage then Parsed(Ok(Storage), pos + 1)
    else Parsed(Err(StorageClassError), pos)
  }

  function ParseAccessMode(toks: seq<Token>, pos: nat): (r: Parsed<AccessMode>)
    requires pos <= |toks|
    ensures pos <= r.pos <= |toks|
  {
    var k := At(toks, pos).kind;
    if k == KeywordRead then Parsed(Ok(Read), pos + 1)
    else if k == KeywordWrite then Parsed(Ok(Write), pos + 1)
    else if k == KeywordReadWrite then Parsed(Ok(ReadWrite), pos + 1)
    else Parsed(Err(AccessModeError), pos)
  }

  // ---------------------------------------------------------------- functions

  function ParseFunctionDeclaration(toks: seq<Token>, pos: nat): (r: Parsed<FunctionDeclaration>)
    requires pos <= |toks|
    ensures pos <= r.pos <= |toks|
    ensures r.result.Ok? ==> r.pos > pos
    decreases |toks| - pos, 1
  {
    var kw := Expect(toks, pos, KeywordFn);
    if kw.result.Err? then Parsed(Err(kw.result.error), kw.pos) else
    var name := Expect(toks, kw.pos, Identifier);
    if name.result.Err? then Parsed(Err(name.result.error), name.pos) else
    var open := Expect(toks, name.pos, ParenLeft);
    if open.result.Err? then Parsed(Err(open.result.error), open.pos) else
    var parameters := ParseParametersLoop(toks, open.pos, []);
    if parameters.result.Err? then Parsed(Err(parameters.result.error), parameters.pos) else
    var close := Expect(toks, parameters.pos, ParenRight);
    if close.result.Err? then Parsed(Err(close.result.error), close.pos) else
    var ret := ParseMaybeReturnType(toks, close.pos);
    if ret.result.Err? then Parsed(Err(ret.result.error), ret.pos) else
    var body := ParseCompoundStatement(toks, ret.pos);
    if body.result.Err? then Parsed(Err(body.result.error), body.pos) else
    Parsed(Ok(FunctionDeclaration(name.result.value.ident, [], parameters.result.value,
                                  ret.result.value.0, ret.result.value.1, body.result.value)), body.pos)
  }

  /** The parameter loop, with parameters separated by commas and an optional
      trailing comma (see ParseParametersLoopAsWritten for the source's loop). */
  function ParseParametersLoop(toks: seq<Token>, pos: nat, acc: seq<Parameter>): (r: Parsed<seq<Parameter>>)
    requires pos <= |toks|
    ensures pos <= r.pos <= |toks|
    decreases |toks| - pos, 5
  {
    if At(toks, pos).kind == ParenRight then Parsed(Ok(acc), pos) else
    var p := ParseParameter(toks, pos);
    if p.result.Err? then Parsed(Err(p.result.error), p.pos) else
    if At(toks, p.pos).kind == ParenRight then ParseParametersLoop(toks, p.pos, acc + [p.result.value]) else
    var comma := Expect(toks, p.pos, Comma);
    if comma.result.Err? then Parsed(Err(comma.result.error), comma.pos) else
    ParseParametersLoop(toks, comma.pos, acc + [p.result.value])
  }

  /** The parameter loop as the source writes it: parameters follow one another
      with nothing between them. */
  function ParseParametersLoopAsWritten(toks: seq<Token>, pos: nat, acc: seq<Parameter>): (r: Parsed<seq<Parameter>>)
    requires pos <= |toks|
    ensures pos <= r.pos <= |toks|
    decreases |toks| - pos
  {
    if At(toks, pos).kind == ParenRight then Parsed(Ok(acc), pos) else
    var p := ParseParameter(toks, pos);
    if p.result.Err? then Parsed(Err(p.result.error), p.pos) else
    ParseParametersLoopAsWritten(toks, p.pos, acc + [p.result.value])
  }

  /** The optional `-> attributes type` of a function. */
  function ParseMaybeReturnType(toks: seq<Token>, pos: nat): (r: Parsed<(seq<Attribute>, Option<TypeName>)>)
    requires pos <= |toks|
    ensures pos <= r.pos <= |toks|
  {
    if At(toks, pos).kind != Arrow then Parsed(Ok(([], None)), pos) else
    var attributes := ParseAttributes(toks, pos + 1);
    if attributes.result.Err? then Parsed(Err(attributes.result.error), attributes.pos) else
    var t := ParseTypeName(toks, attributes.pos);
    if t.result.Err? then Parsed(Err(t.result.error), t.pos) else
    Parsed(Ok((attributes.result.value, Some(t.result.value))), t.pos)
  }

  function ParseParameter(toks: seq<Token>, pos: nat): (r: Parsed<Parameter>)
    requires pos <= |toks|
    ensures pos <= r.pos <= |toks|
    ensures r.result.Ok? ==> r.pos > pos
    decreases |toks| - pos, 4
  {
    var attributes := ParseAttributes(toks, pos);
    if attributes.result.Err? then Parsed(Err(attributes.result.error), attributes.pos) else
    var name := Expect(toks, attributes.pos, Identifier);
    if name.result.Err? then Parsed(Err(name.result.error), name.pos) else
    var colon := Expect(toks, name.pos, Colon);
    if colon.result.Err? then Parsed(Err(colon.result.error), colon.pos) else
    var t := ParseTypeName(toks, colon.pos);
    if t.result.Err? then Parsed(Err(t.result.error), t.pos) else
    Parsed(Ok(Parameter(name.result.value.ident, t.result.value, attributes.result.value)), t.pos)
  }

  // ---------------------------------------------------------------- statements

  function ParseStatement(toks: seq<Token>, pos: nat): (r: Parsed<Statement>)
    requires pos <= |toks|
    ensures pos <= r.pos <= |toks|
    ensures r.result.Ok? ==> r.pos > pos
    decreases |toks| - pos, 24
  {
    var k := At(toks, pos).kind;
    if k == BraceLeft then
      var block := ParseCompoundStatement(toks, pos);
      if block.result.Err? then Parsed(Err(block.result.error), block.pos) else
      Parsed(Ok(CompoundStatement(block.result.value)), block.pos)
    else if k == Semicolon then
      Parsed(Ok(CompoundStatement([])), pos + 1)
    else if k == KeywordReturn then
      var ret := ParseReturnStatement(toks, pos);
      if ret.result.Err? then Parsed(Err(ret.result.error), ret.pos) else
      var semi := Expect(toks, ret.pos, Semicolon);
      if semi.result.Err? then Parsed(Err(semi.result.error), semi.pos) else
      Parsed(Ok(ret.result.value), semi.pos)
    else if k == KeywordVar then
      var v := ParseVariableDeclaration(toks, pos);
      if v.result.Err? then Parsed(Err(v.result.error), v.pos) else
      var semi := Expect(toks, v.pos, Semicolon);
      if semi.result.Err? then Parsed(Err(semi.result.error), semi.pos) else
      Parsed(Ok(VariableStatement(v.result.value)), semi.pos)
    else if k == Identifier then
      var lhs := ParseLHSExpression(toks, pos);
      if lhs.result.Err? then Parsed(Err(lhs.result.error), lhs.pos) else
      var eq := Expect(toks, lhs.pos, Equal);
      if eq.result.Err? then Parsed(Err(eq.result.error), eq.pos) else
      var rhs := ParseExpression(toks, eq.pos);
      if rhs.result.Err? then Parsed(Err(rhs.result.error), rhs.pos) else
      var semi := Expect(toks, rhs.pos, Semicolon);
      if semi.result.Err? then Parsed(Err(semi.result.error), semi.pos) else
      Parsed(Ok(AssignmentStatement(Some(lhs.result.value), rhs.result.value)), semi.pos)
    else
      Parsed(Err(StatementError), pos)
  }

  /** parseCompoundStatement: `{ statements }`, giving the statement list. */
  function ParseCompoundStatement(toks: seq<Token>, pos: nat): (r: Parsed<seq<Statement>>)
    requires pos <= |toks|
    ensures pos <= r.pos <= |toks|
    ensures r.result.Ok? ==> r.pos > pos
    decreases |toks| - pos, 23
  {
    var open := Expect(toks, pos, BraceLeft);
    if open.result.Err? then Parsed(Err(open.result.error), open.pos) else
    var statements := ParseStatementsLoop(toks, open.pos, []);
    if statements.result.Err? then Parsed(Err(statements.result.error), statements.pos) else
    var close := Expect(toks, statements.pos, BraceRight);
    if close.result.Err? then Parsed(Err(close.result.error), close.pos) else
    Parsed(Ok(statements.result.value), close.pos)
  }

  function ParseStatementsLoop(toks: seq<Token>, pos: nat, acc: seq<Statement>): (r: Parsed<seq<Statement>>)
    requires pos <= |toks|
    ensures pos <= r.pos <= |toks|
    decreases |toks| - pos, 25
  {
    if At(toks, pos).kind == BraceRight then Parsed(Ok(acc), pos) else
    var s := ParseStatement(toks, pos);
    if s.result.Err? then Parsed(Err(s.result.error), s.pos) else
    ParseStatementsLoop(toks, s.pos, acc + [s.result.value])
  }

  function ParseReturnStatement(toks: seq<Token>, pos: nat): (r: Parsed<Statement>)
    requires pos <= |toks|
    ensures pos <= r.pos <= |toks|
    ensures r.result.Ok? ==> r.pos > pos && r.result.value.ReturnStatement?
    decreases |toks| - pos, 22
  {
    var kw := Expect(toks, pos, KeywordReturn);
    if kw.result.Err? then Parsed(Err(kw.result.error), kw.pos) else
    if At(toks, kw.pos).kind == Semicolon then Parsed(Ok(ReturnStatement(None)), kw.pos) else
    var e := ParseShortCircuitOrExpression(toks, kw.pos);
    if e.result.Err? then Parsed(Err(e.result.error), e.pos) else
    Parsed(Ok(ReturnStatement(Some(e.result.value))), e.pos)
  }

  // ---------------------------------------------------------------- expressions

  /** The binary precedence levels are not filled in yet: each passes straight
      through to the next, down to unary expressions. */
  function ParseShortCircuitOrExpression(toks: seq<Token>, pos: nat): (r: Parsed<Expression>)
    requires pos <= |toks|
    ensures pos <= r.pos <= |toks|
    ensures r.result.Ok? ==> r.pos > pos
    decreases |toks| - pos, 17
  {
    ParseRelationalExpression(toks, pos)
  }

  function ParseRelationalExpression(toks: seq<Token>, pos: nat): (r: Parsed<Expression>)
    requires pos <= |toks|
    ensures pos <= r.pos <= |toks|
    ensures r.result.Ok? ==> r.pos > pos
    decreases |toks| - pos, 16
  {
    ParseShiftExpression(toks, pos)
  }

  function ParseShiftExpression(toks: seq<Token>, pos: nat): (r: Parsed<Expression>)
    requires pos <= |toks|
    ensures pos <= r.pos <= |toks|
    ensures r.result.Ok? ==> r.pos > pos
    decreases |toks| - pos, 15
  {
    ParseAdditiveExpression(toks, pos)
  }

  function ParseAdditiveExpression(toks: seq<Token>, pos: nat): (r: Parsed<Expression>)
    requires pos <= |toks|
    ensures pos <= r.pos <= |toks|
    ensures r.result.Ok? ==> r.pos > pos
    decreases |toks| - pos, 14
  {
    ParseMultiplicativeExpression(toks, pos)
  }

  function ParseMultiplicativeExpression(toks: seq<Token>, pos: nat): (r: Parsed<Expression>)
    requires pos <= |toks|
    ensures pos <= r.pos <= |toks|
    ensures r.result.Ok? ==> r.pos > pos
    decreases |toks| - pos, 13
  {
    ParseUnaryExpression(toks, pos)
  }

  function ParseUnaryExpression(toks: seq<Token>, pos: nat): (r: Parsed<Expression>)
    requires pos <= |toks|
    ensures pos <= r.pos <= |toks|
    ensures r.result.Ok? ==> r.pos > pos
    decreases |toks| - pos, 12
  {
    if At(toks, pos).kind == Minus then
      var e := ParseSingularExpression(toks, pos + 1);
      if e.result.Err? then Parsed(Err(e.result.error), e.pos) else
      Parsed(Ok(UnaryExpression(e.result.value, Negate)), e.pos)
    else
      ParseSingularExpression(toks, pos)
  }

  function ParseSingularExpression(toks: seq<Token>, pos: nat): (r: Parsed<Expression>)
    requires pos <= |toks|
    ensures pos <= r.pos <= |toks|
    ensures r.result.Ok? ==> r.pos > pos
    decreases |toks| - pos, 11
  {
    var base := ParsePrimaryExpression(toks, pos);
    if base.result.Err? then base else
    ParsePostfixExpression(toks, base.pos, base.result.value)
  }

  /** parsePostfixExpression's loop: folds `[index]` and `.field` suffixes onto `expr`. */
  function ParsePostfixExpression(toks: seq<Token>, pos: nat, expr: Expression): (r: Parsed<Expression>)
    requires pos <= |toks|
    ensures pos <= r.pos <= |toks|
    decreases |toks| - pos, 1
  {
    var k := At(toks, pos).kind;
    if k == BracketLeft then
      var index := ParseExpression(toks, pos + 1);
      if index.result.Err? then Parsed(Err(index.result.error), index.pos) else
      var close := Expect(toks, index.pos, BracketRight);
      if close.result.Err? then Parsed(Err(close.result.error), close.pos) else
      ParsePostfixExpression(toks, close.pos, ArrayAccess(expr, index.result.value))
    else if k == Period then
      var field := Expect(toks, pos + 1, Identifier);
      if field.result.Err? then Parsed(Err(field.result.error), field.pos) else
      ParsePostfixExpression(toks, field.pos, StructureAccess(expr, field.result.value.ident))
    else
      Parsed(Ok(expr), pos)
  }

  function ParsePrimaryExpression(toks: seq<Token>, pos: nat): (r: Parsed<Expression>)
    requires pos <= |toks|
    ensures pos <= r.pos <= |toks|
    ensures r.result.Ok? ==> r.pos > pos
    decreases |toks| - pos, 10
  {
    var k := At(toks, pos).kind;
    if k == ParenLeft then
      var e := ParseExpression(toks, pos + 1);
      if e.result.Err? then e else
      var close := Expect(toks, e.pos, ParenRight);
      if close.result.Err? then Parsed(Err(close.result.error), close.pos) else
      Parsed(Ok(e.result.value), close.pos)
    else if k == Identifier then
      var name := toks[pos].ident;
      var next := At(toks, pos + 1).kind;
      if next == LT || next == ParenLeft then
        var t := ParseTypeNameAfterIdentifier(toks, pos + 1, name);
        if t.result.Err? then Parsed(Err(t.result.error), t.pos) else
        var args := ParseArgumentExpressionList(toks, t.pos);
        if args.result.Err? then Parsed(Err(args.result.error), args.pos) else
        Parsed(Ok(CallableExpression(t.result.value, args.result.value)), args.pos)
      else
        Parsed(Ok(IdentifierExpression(name)), pos + 1)
    else if k == KeywordArray then
      var t := ParseArrayTypeName(toks, pos);
      if t.result.Err? then Parsed(Err(t.result.error), t.pos) else
      var args := ParseArgumentExpressionList(toks, t.pos);
      if args.result.Err? then Parsed(Err(args.result.error), args.pos) else
      Parsed(Ok(CallableExpression(t.result.value, args.result.value)), args.pos)
    else if k == LiteralTrue then Parsed(Ok(BoolLiteral(true)), pos + 1)
    else if k == LiteralFalse then Parsed(Ok(BoolLiteral(false)), pos + 1)
    else if k == IntegerLiteral then Parsed(Ok(AbstractIntLiteral(toks[pos].literalValue)), pos + 1)
    else if k == IntegerLiteralSigned then Parsed(Ok(Int32Literal(toks[pos].literalValue)), pos + 1)
    else if k == IntegerLiteralUnsigned then Parsed(Ok(Uint32Literal(toks[pos].literalValue)), pos + 1)
    else if k == DecimalFloatLiteral || k == HexFloatLiteral then Parsed(Ok(AbstractFloatLiteral(toks[pos].literalValue)), pos + 1)
    else Parsed(Err(PrimaryExpressionError), pos)
  }

  /** parseExpression: for now the relational level. */
  function ParseExpression(toks: seq<Token>, pos: nat): (r: Parsed<Expression>)
    requires pos <= |toks|
    ensures pos <= r.pos <= |toks|
    ensures r.result.Ok? ==> r.pos > pos
    decreases |toks| - pos, 17
  {
    ParseRelationalExpression(toks, pos)
  }

  function ParseLHSExpression(toks: seq<Token>, pos: nat): (r: Parsed<Expression>)
    requires pos <= |toks|
    ensures pos <= r.pos <= |toks|
    ensures r.result.Ok? ==> r.pos > pos
    decreases |toks| - pos, 21
  {
    var base := ParseCoreLHSExpression(toks, pos);
    if base.result.Err? then base else
    ParsePostfixExpression(toks, base.pos, base.result.value)
  }

  function ParseCoreLHSExpression(toks: seq<Token>, pos: nat): (r: Parsed<Expression>)
    requires pos <= |toks|
    ensures pos <= r.pos <= |toks|
    ensures r.result.Ok? ==> r.pos > pos
    decreases |toks| - pos, 20
  {
    var k := At(toks, pos).kind;
    if k == ParenLeft then
      var e := ParseLHSExpression(toks, pos + 1);
      if e.result.Err? then e else
      var close := Expect(toks, e.pos, ParenRight);
      if close.result.Err? then Parsed(Err(close.result.error), close.pos) else
      Parsed(Ok(e.result.value), close.pos)
    else if k == Identifier then
      Parsed(Ok(IdentifierExpression(toks[pos].ident)), pos + 1)
    else
      Parsed(Err(LHSExpressionError), pos)
  }

  function ParseArgumentExpressionList(toks: seq<Token>, pos: nat): (r: Parsed<seq<Expression>>)
    requires pos <= |toks|
    ensures pos <= r.pos <= |toks|
    ensures r.result.Ok? ==> r.pos > pos
    decreases |toks| - pos, 1
  {
    var open := Expect(toks, pos, ParenLeft);
    if open.result.Err? then Parsed(Err(open.result.error), open.pos) else
    var args := ParseArgumentsLoop(toks, open.pos, []);
    if args.result.Err? then Parsed(Err(args.result.error), args.pos) else
    var close := Expect(toks, args.pos, ParenRight);
    if close.result.Err? then Parsed(Err(close.result.error), close.pos) else
    Parsed(Ok(args.result.value), close.pos)
  }

  /** parseArgumentExpressionList's loop: expressions separated by commas. */
  function ParseArgumentsLoop(toks: seq<Token>, pos: nat, acc: seq<Expression>): (r: Parsed<seq<Expression>>)
    requires pos <= |toks|
    ensures pos <= r.pos <= |toks|
    decreases |toks| - pos, 18
  {
    if At(toks, pos).kind == ParenRight then Parsed(Ok(acc), pos) else
    var e := ParseExpression(toks, pos);
    if e.result.Err? then Parsed(Err(e.result.error), e.pos) else
    if At(toks, e.pos).kind == ParenRight then ParseArgumentsLoop(toks, e.pos, acc + [e.result.value]) else
    var comma := Expect(toks, e.pos, Comma);
    if comma.result.Err? then Parsed(Err(comma.result.error), comma.pos) else
    ParseArgumentsLoop(toks, comma.pos, acc + [e.result.value])
  }
}
