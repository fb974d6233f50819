/** Properties of the WGSL parser functions in ParserSpec: which attribute each
    `@name` yields, the storage-class and access-mode keyword tables, the three
    cases of a type name, how a global declaration lands in the module, the
    suffix folding of postfix expressions, and the two places where the parser's
    loops differ from the grammar they implement. */
module ParserProperties {
  import opened Wrappers
  import opened Tokens
  import opened Ast
  import TypeNames
  import opened ParserSpec

  // ---------------------------------------------------------------- attributes

  /** The seven attribute names parseAttribute knows. */
  const KnownAttributeNames: set<string> := {"group", "binding", "location", "builtin", "vertex", "compute", "fragment"}

  /** The integer an attribute of the integer-carrying kinds holds. */
  function AttributeInteger(a: Attribute): nat
  {
    match a
    case GroupAttribute(n) => n
    case BindingAttribute(n) => n
    case LocationAttribute(n) => n
    case _ => 0
  }

  /** The attribute kind each integer-carrying name selects. */
  function IntegerAttributeKind(name: string): AttributeKind
  {
    if name == "group" then Group else if name == "binding" then Binding else Location
  }

  /** `@group`, `@binding` and `@location` succeed exactly when followed by
      `( IntegerLiteral )`, and then carry that literal's value. */
  lemma IntegerAttribute(toks: seq<Token>, pos: nat)
    requires pos + 1 < |toks| && toks[pos].kind == TokenType.Attribute && toks[pos + 1].kind == Identifier
    requires toks[pos + 1].ident == "group" || toks[pos + 1].ident == "binding" || toks[pos + 1].ident == "location"
    ensures ParseAttribute(toks, pos).result.Ok? <==>
      At(toks, pos + 2).kind == ParenLeft && At(toks, pos + 3).kind == IntegerLiteral && At(toks, pos + 4).kind == ParenRight
    ensures ParseAttribute(toks, pos).result.Ok? ==>
      var a := ParseAttribute(toks, pos).result.value;
      KindOfAttribute(a) == IntegerAttributeKind(toks[pos + 1].ident) &&
      AttributeInteger(a) == toks[pos + 3].literalValue &&
      ParseAttribute(toks, pos).pos == pos + 5
  {
    ParenthesizedIntegerRule(toks, pos + 2);
    IntegerAttributeReads(toks, pos);
  }

  /** After `@group`, `@binding` or `@location`, parseAttribute reads a
      parenthesized integer and wraps it in the attribute the name selects. */
  lemma IntegerAttributeReads(toks: seq<Token>, pos: nat)
    requires pos + 1 < |toks| && toks[pos].kind == TokenType.Attribute && toks[pos + 1].kind == Identifier
    requires toks[pos + 1].ident == "group" || toks[pos + 1].ident == "binding" || toks[pos + 1].ident == "location"
    ensures var n := ParseParenthesizedInteger(toks, pos + 2);
      ParseAttribute(toks, pos).pos == n.pos && (ParseAttribute(toks, pos).result.Ok? <==> n.result.Ok?) &&
      (n.result.Ok? ==>
        KindOfAttribute(ParseAttribute(toks, pos).result.value) == IntegerAttributeKind(toks[pos + 1].ident) &&
        AttributeInteger(ParseAttribute(toks, pos).result.value) == n.result.value)
  {
  }

  /** `( IntegerLiteral )` is read exactly when those three tokens follow, and
      gives the literal's value. */
  lemma ParenthesizedIntegerRule(toks: seq<Token>, pos: nat)
    requires pos <= |toks|
    ensures ParseParenthesizedInteger(toks, pos).result.Ok? <==>
      At(toks, pos).kind == ParenLeft && At(toks, pos + 1).kind == IntegerLiteral && At(toks, pos + 2).kind == ParenRight
    ensures ParseParenthesizedInteger(toks, pos).result.Ok? ==>
      ParseParenthesizedInteger(toks, pos) == Parsed(Ok(toks[pos + 1].literalValue), pos + 3)
  {
  }

  /** `@builtin` succeeds exactly when followed by `( Identifier )`, and then carries that name. */
  lemma BuiltinAttributeRule(toks: seq<Token>, pos: nat)
    requires pos + 1 < |toks| && toks[pos].kind == TokenType.Attribute && toks[pos + 1] == IdentToken("builtin")
    ensures ParseAttribute(toks, pos).result.Ok? <==>
      At(toks, pos + 2).kind == ParenLeft && At(toks, pos + 3).kind == Identifier && At(toks, pos + 4).kind == ParenRight
    ensures ParseAttribute(toks, pos).result.Ok? ==>
      ParseAttribute(toks, pos) == Parsed(Ok(BuiltinAttribute(toks[pos + 3].ident)), pos + 5)
  {
  }

  /** `@vertex`, `@compute` and `@fragment` are the three pipeline stages, and take no argument. */
  lemma StageAttributes(toks: seq<Token>, pos: nat)
    requires pos + 1 < |toks| && toks[pos].kind == TokenType.Attribute && toks[pos + 1].kind == Identifier
    ensures toks[pos + 1].ident == "vertex" ==> ParseAttribute(toks, pos) == Parsed(Ok(StageAttribute(Vertex)), pos + 2)
    ensures toks[pos + 1].ident == "compute" ==> ParseAttribute(toks, pos) == Parsed(Ok(StageAttribute(Compute)), pos + 2)
    ensures toks[pos + 1].ident == "fragment" ==> ParseAttribute(toks, pos) == Parsed(Ok(StageAttribute(Fragment)), pos + 2)
  {
  }

  /** Any other name after `@` fails with the "Unknown attribute" error, and only such a name does. */
  lemma UnknownAttribute(toks: seq<Token>, pos: nat)
    requires pos + 1 < |toks| && toks[pos].kind == TokenType.Attribute && toks[pos + 1].kind == Identifier
    ensures ParseAttribute(toks, pos).result == Err(UnknownAttributeError) <==> toks[pos + 1].ident !in KnownAttributeNames
  {
  }

  /** The attribute loop collects attributes after those already gathered, and
      stops at the first token that is not `@`. */
  lemma {:induction false} AttributesLoopStops(toks: seq<Token>, pos: nat, acc: seq<Attribute>)
    requires pos <= |toks|
    ensures ParseAttributesLoop(toks, pos, acc).result.Ok? ==>
      At(toks, ParseAttributesLoop(toks, pos, acc).pos).kind != TokenType.Attribute &&
      acc <= ParseAttributesLoop(toks, pos, acc).result.value
    decreases |toks| - pos
  {
    if At(toks, pos).kind == TokenType.Attribute {
      var a := ParseAttribute(toks, pos);
      if a.result.Ok? {
        AttributesLoopStops(toks, a.pos, acc + [a.result.value]);
      }
    }
  }

  // ---------------------------------------------------------------- storage classes and access modes

  /** The keyword that spells each storage class. */
  function StorageClassKeyword(sc: StorageClass): TokenType
  {
    match sc
    case Function => KeywordFunction
    case Private => KeywordPrivate
    case Workgroup => KeywordWorkgroup
    case Uniform => KeywordUniform
    case Storage => KeywordStorage
  }

  /** The keyword that spells each access mode. */
  function AccessModeKeyword(am: AccessMode): TokenType
  {
    match am
    case Read => KeywordRead
    case Write => KeywordWrite
    case ReadWrite => KeywordReadWrite
  }

  /** Distinct storage classes are spelled by distinct keywords, and so are distinct access modes. */
  lemma KeywordsAreDistinct(sc1: StorageClass, sc2: StorageClass, am1: AccessMode, am2: AccessMode)
    ensures StorageClassKeyword(sc1) == StorageClassKeyword(sc2) ==> sc1 == sc2
    ensures AccessModeKeyword(am1) == AccessModeKeyword(am2) ==> am1 == am2
  {
  }

  /** parseStorageClass yields a storage class exactly when the lookahead is its
      keyword, consuming that one token; any other token fails without consuming. */
  lemma StorageClassKeywords(toks: seq<Token>, pos: nat, sc: StorageClass)
    requires pos <= |toks|
    ensures ParseStorageClass(toks, pos).result == Ok(sc) <==> At(toks, pos).kind == StorageClassKeyword(sc)
    ensures ParseStorageClass(toks, pos).result.Ok? ==> ParseStorageClass(toks, pos).pos == pos + 1
    ensures ParseStorageClass(toks, pos).result.Err? ==>
      ParseStorageClass(toks, pos) == Parsed(Err(StorageClassError), pos) &&
      forall s: StorageClass :: At(toks, pos).kind != StorageClassKeyword(s)
  {
  }

  /** parseAccessMode yields an access mode exactly when the lookahead is its
      keyword, consuming that one token; any other token fails without consuming. */
  lemma AccessModeKeywords(toks: seq<Token>, pos: nat, am: AccessMode)
    requires pos <= |toks|
    ensures ParseAccessMode(toks, pos).result == Ok(am) <==> At(toks, pos).kind == AccessModeKeyword(am)
    ensures ParseAccessMode(toks, pos).result.Ok? ==> ParseAccessMode(toks, pos).pos == pos + 1
    ensures ParseAccessMode(toks, pos).result.Err? ==>
      ParseAccessMode(toks, pos) == Parsed(Err(AccessModeError), pos) &&
      forall a: AccessMode :: At(toks, pos).kind != AccessModeKeyword(a)
  {
  }

  /** A qualifier written `< storage_class >`, with no `, access_mode`, gets access mode Read. */
  lemma QualifierDefaultsToRead(toks: seq<Token>, pos: nat, sc: StorageClass)
    requires pos + 2 < |toks|
    requires toks[pos].kind == LT && toks[pos + 1].kind == StorageClassKeyword(sc) && toks[pos + 2].kind == GT
    ensures ParseVariableQualifier(toks, pos) == Parsed(Ok(VariableQualifier(sc, Read)), pos + 3)
  {
    StorageClassKeywords(toks, pos + 1, sc);
  }

  /** A qualifier written `< storage_class , access_mode >` carries both. */
  lemma QualifierWithAccessMode(toks: seq<Token>, pos: nat, sc: StorageClass, am: AccessMode)
    requires pos + 4 < |toks|
    requires toks[pos].kind == LT && toks[pos + 1].kind == StorageClassKeyword(sc) && toks[pos + 2].kind == Comma
    requires toks[pos + 3].kind == AccessModeKeyword(am) && toks[pos + 4].kind == GT
    ensures ParseVariableQualifier(toks, pos) == Parsed(Ok(VariableQualifier(sc, am)), pos + 5)
  {
    StorageClassKeywords(toks, pos + 1, sc);
    AccessModeKeywords(toks, pos + 3, am);
  }

  // ---------------------------------------------------------------- type names

  /** The keyword that spells each built-in scalar type name. */
  function ScalarKeywordName(k: TokenType): Option<string>
  {
    if k == KeywordI32 then Some("i32")
    else if k == KeywordF32 then Some("f32")
    else if k == KeywordU32 then Some("u32")
    else if k == KeywordBool then Some("bool")
    else None
  }

  /** A scalar keyword is the named type of exactly that name. */
  lemma ScalarTypeName(toks: seq<Token>, pos: nat)
    requires pos < |toks| && ScalarKeywordName(toks[pos].kind).Some?
    ensures ParseTypeName(toks, pos) == Parsed(Ok(NamedTypeName(ScalarKeywordName(toks[pos].kind).value)), pos + 1)
  {
  }

  /** An identifier stringViewToKind does not recognise is a named type of that name. */
  lemma PlainNamedTypeName(toks: seq<Token>, pos: nat)
    requires pos < |toks| && toks[pos].kind == Identifier && TypeNames.StringViewToKind(toks[pos].ident).None?
    ensures ParseTypeName(toks, pos) == Parsed(Ok(NamedTypeName(toks[pos].ident)), pos + 1)
  {
  }

  /** An identifier stringViewToKind recognises must be followed by `<`. */
  lemma ParameterizedNeedsAngle(toks: seq<Token>, pos: nat)
    requires pos < |toks| && toks[pos].kind == Identifier && TypeNames.StringViewToKind(toks[pos].ident).Some?
    requires At(toks, pos + 1).kind != LT
    ensures ParseTypeName(toks, pos) == Parsed(Err(ExpectedToken(LT, At(toks, pos + 1).kind)), pos + 1)
  {
  }

  /** Followed by `< T >`, an identifier stringViewToKind recognises is the
      parameterized type of that base over T, and the type name ends after the `>`. */
  lemma ParameterizedTypeNameRule(toks: seq<Token>, pos: nat)
    requires pos + 1 < |toks| && toks[pos].kind == Identifier && TypeNames.StringViewToKind(toks[pos].ident).Some?
    requires toks[pos + 1].kind == LT
    ensures
      var element := ParseTypeName(toks, pos + 2);
      var r := ParseTypeName(toks, pos);
      (r.result.Ok? <==> element.result.Ok? && At(toks, element.pos).kind == GT) &&
      (r.result.Ok? ==>
        r == Parsed(Ok(ParameterizedTypeName(TypeNames.StringViewToKind(toks[pos].ident).value, element.result.value)), element.pos + 1))
  {
  }

  /** A type name starting with any other token fails. */
  lemma NotATypeName(toks: seq<Token>, pos: nat)
    requires pos <= |toks|
    requires At(toks, pos).kind !in {KeywordArray, Identifier} && ScalarKeywordName(At(toks, pos).kind).None?
    ensures ParseTypeName(toks, pos) == Parsed(Err(TypeNameError), pos)
  {
  }

  // ---------------------------------------------------------------- global declarations

  /** `m2` is `m1` with one declaration appended to the list `k` selects and every other list unchanged. */
  predicate AppendsOneDeclaration(m1: ShaderModule, m2: ShaderModule, k: TokenType)
  {
    m2.directives == m1.directives &&
    (if k == KeywordStruct then |m2.structures| == |m1.structures| + 1 && m2.structures[..|m1.structures|] == m1.structures
     else m2.structures == m1.structures) &&
    (if k == KeywordVar then |m2.variables| == |m1.variables| + 1 && m2.variables[..|m1.variables|] == m1.variables
     else m2.variables == m1.variables) &&
    (if k == KeywordFn then |m2.functions| == |m1.functions| + 1 && m2.functions[..|m1.functions|] == m1.functions
     else m2.functions == m1.functions) &&
    (if k == KeywordType then |m2.types| == |m1.types| + 1 && m2.types[..|m1.types|] == m1.types
     else m2.types == m1.types)
  }

  /** The keywords that start a global declaration. */
  const DeclarationKeywords: set<TokenType> := {KeywordStruct, KeywordVar, KeywordFn, KeywordType}

  /** A global declaration whose keyword, after its attributes, is none of
      `struct`, `var`, `fn`, `type` fails. */
  lemma UnknownGlobalDeclaration(toks: seq<Token>, pos: nat, m: ShaderModule)
    requires pos <= |toks|
    requires ParseAttributes(toks, pos).result.Ok?
    requires At(toks, ParseAttributes(toks, pos).pos).kind !in DeclarationKeywords
    ensures ParseGlobalDeclaration(toks, pos, m) == Parsed(Err(GlobalDeclError), ParseAttributes(toks, pos).pos)
  {
  }

  /** A `struct` declaration is appended to the structures, carrying the attributes before it. */
  lemma StructureDeclarationAppended(toks: seq<Token>, pos: nat, m: ShaderModule)
    requires pos <= |toks|
    requires ParseAttributes(toks, pos).result.Ok? && At(toks, ParseAttributes(toks, pos).pos).kind == KeywordStruct
    ensures
      var r := ParseGlobalDeclaration(toks, pos, m);
      r.result.Ok? ==>
        AppendsOneDeclaration(m, r.result.value, KeywordStruct) &&
        r.result.value.structures[|m.structures|].attributes == ParseAttributes(toks, pos).result.value
  {
  }

  /** A `var` declaration ends with `;` and is appended to the variables, carrying the attributes before it. */
  lemma VariableDeclarationAppended(toks: seq<Token>, pos: nat, m: ShaderModule)
    requires pos <= |toks|
    requires ParseAttributes(toks, pos).result.Ok? && At(toks, ParseAttributes(toks, pos).pos).kind == KeywordVar
    ensures
      var r := ParseGlobalDeclaration(toks, pos, m);
      r.result.Ok? ==>
        AppendsOneDeclaration(m, r.result.value, KeywordVar) &&
        r.result.value.variables[|m.variables|].attributes == ParseAttributes(toks, pos).result.value &&
        r.pos > 0 && At(toks, r.pos - 1).kind == Semicolon
  {
    var a := ParseAttributes(toks, pos);
    var v := ParseVariableDeclaration(toks, a.pos);
    VariableBranch(toks, pos, m);
    if v.result.Ok? {
      AppendsVariable(m, v.result.value.(attributes := a.result.value));
    }
  }

  lemma AppendsVariable(m: ShaderModule, declaration: VariableDeclaration)
    ensures AppendsOneDeclaration(m, m.(variables := m.variables + [declaration]), KeywordVar)
    ensures m.(variables := m.variables + [declaration]).variables[|m.variables|] == declaration
  {
    AppendedOne(m.variables, declaration);
  }

  /** What parseGlobalDeclaration does after the attributes and `var`. */
  lemma VariableBranch(toks: seq<Token>, pos: nat, m: ShaderModule)
    requires pos <= |toks|
    requires ParseAttributes(toks, pos).result.Ok? && At(toks, ParseAttributes(toks, pos).pos).kind == KeywordVar
    ensures
      var a := ParseAttributes(toks, pos);
      var v := ParseVariableDeclaration(toks, a.pos);
      var r := ParseGlobalDeclaration(toks, pos, m);
      (r.result.Ok? ==> v.result.Ok? && v.pos < |toks| && At(toks, v.pos).kind == Semicolon && r.pos == v.pos + 1) &&
      (v.result.Ok? && At(toks, v.pos).kind == Semicolon ==>
        r.result == Ok(m.(variables := m.variables + [v.result.value.(attributes := a.result.value)])))
  {
    var a := ParseAttributes(toks, pos);
    var v := ParseVariableDeclaration(toks, a.pos);
    if v.result.Ok? && At(toks, v.pos).kind == Semicolon {
      assert Expect(toks, v.pos, Semicolon) == Parsed(Ok(toks[v.pos]), v.pos + 1);
    }
  }

  /** An `fn` declaration is appended to the functions, carrying the attributes before it. */
  lemma FunctionDeclarationAppended(toks: seq<Token>, pos: nat, m: ShaderModule)
    requires pos <= |toks|
    requires ParseAttributes(toks, pos).result.Ok? && At(toks, ParseAttributes(toks, pos).pos).kind == KeywordFn
    ensures
      var r := ParseGlobalDeclaration(toks, pos, m);
      r.result.Ok? ==>
        AppendsOneDeclaration(m, r.result.value, KeywordFn) &&
        r.result.value.functions[|m.functions|].attributes == ParseAttributes(toks, pos).result.value
  {
  }

  /** A `type` declaration ends with `;` and is appended to the types, carrying the attributes before it. */
  lemma TypeDeclarationAppended(toks: seq<Token>, pos: nat, m: ShaderModule)
    requires pos <= |toks|
    requires ParseAttributes(toks, pos).result.Ok? && At(toks, ParseAttributes(toks, pos).pos).kind == KeywordType
    ensures
      var r := ParseGlobalDeclaration(toks, pos, m);
      r.result.Ok? ==>
        AppendsOneDeclaration(m, r.result.value, KeywordType) &&
        r.result.value.types[|m.types|].attributes == ParseAttributes(toks, pos).result.value &&
        r.pos > 0 && At(toks, r.pos - 1).kind == Semicolon
  {
    var a := ParseAttributes(toks, pos);
    var t := ParseTypeDeclaration(toks, a.pos);
    TypeBranch(toks, pos, m);
    if t.result.Ok? {
      AppendsType(m, t.result.value.(attributes := a.result.value));
    }
  }

  lemma AppendsType(m: ShaderModule, declaration: TypeDeclaration)
    ensures AppendsOneDeclaration(m, m.(types := m.types + [declaration]), KeywordType)
    ensures m.(types := m.types + [declaration]).types[|m.types|] == declaration
  {
    AppendedOne(m.types, declaration);
  }

  /** What parseGlobalDeclaration does after the attributes and `type`. */
  lemma TypeBranch(toks: seq<Token>, pos: nat, m: ShaderModule)
    requires pos <= |toks|
    requires ParseAttributes(toks, pos).result.Ok? && At(toks, ParseAttributes(toks, pos).pos).kind == KeywordType
    ensures
      var a := ParseAttributes(toks, pos);
      var t := ParseTypeDeclaration(toks, a.pos);
      var r := ParseGlobalDeclaration(toks, pos, m);
      (r.result.Ok? ==> t.result.Ok? && t.pos < |toks| && At(toks, t.pos).kind == Semicolon && r.pos == t.pos + 1) &&
      (t.result.Ok? && At(toks, t.pos).kind == Semicolon ==>
        r.result == Ok(m.(types := m.types + [t.result.value.(attributes := a.result.value)])))
  {
    var a := ParseAttributes(toks, pos);
    var t := ParseTypeDeclaration(toks, a.pos);
    if t.result.Ok? && At(toks, t.pos).kind == Semicolon {
      assert Expect(toks, t.pos, Semicolon) == Parsed(Ok(toks[t.pos]), t.pos + 1);
    }
  }

  /** Appending one element keeps the old ones in front and puts it last. */
  lemma AppendedOne<T>(xs: seq<T>, x: T)
    ensures |xs + [x]| == |xs| + 1 && (xs + [x])[..|xs|] == xs && (xs + [x])[|xs|] == x
  {
  }

  /** A successful global declaration appends exactly one declaration, to the
      list its keyword selects. */
  lemma GlobalDeclarationAppendsOne(toks: seq<Token>, pos: nat, m: ShaderModule)
    requires pos <= |toks|
    ensures
      var r := ParseGlobalDeclaration(toks, pos, m);
      r.result.Ok? ==>
        var a := ParseAttributes(toks, pos);
        a.result.Ok? && At(toks, a.pos).kind in DeclarationKeywords &&
        AppendsOneDeclaration(m, r.result.value, At(toks, a.pos).kind)
  {
    var a := ParseAttributes(toks, pos);
    if a.result.Ok? {
      var k := At(toks, a.pos).kind;
      if k == KeywordStruct {
        StructureDeclarationAppended(toks, pos, m);
      } else if k == KeywordVar {
        VariableDeclarationAppended(toks, pos, m);
      } else if k == KeywordFn {
        FunctionDeclarationAppended(toks, pos, m);
      } else if k == KeywordType {
        TypeDeclarationAppended(toks, pos, m);
      } else {
        UnknownGlobalDeclaration(toks, pos, m);
      }
    }
  }

  // ---------------------------------------------------------------- expressions

  /** `e` is `base` with zero or more `[index]` and `.field` suffixes folded onto it, innermost first. */
  predicate SuffixedFrom(base: Expression, e: Expression)
  {
    e == base ||
    (e.ArrayAccess? && SuffixedFrom(base, e.base)) ||
    (e.StructureAccess? && SuffixedFrom(base, e.base))
  }

  lemma {:induction false} SuffixedFromTransitive(a: Expression, b: Expression, c: Expression)
    requires SuffixedFrom(a, b) && SuffixedFrom(b, c)
    ensures SuffixedFrom(a, c)
    decreases c
  {
    if c != b {
      SuffixedFromTransitive(a, b, c.base);
    }
  }

  /** parsePostfixExpression folds suffixes onto its base as left-nested accesses
      and stops at the first token that is neither `[` nor `.`. */
  lemma {:induction false} PostfixFolds(toks: seq<Token>, pos: nat, expr: Expression)
    requires pos <= |toks|
    ensures ParsePostfixExpression(toks, pos, expr).result.Ok? ==>
      SuffixedFrom(expr, ParsePostfixExpression(toks, pos, expr).result.value) &&
      At(toks, ParsePostfixExpression(toks, pos, expr).pos).kind !in {BracketLeft, Period}
    decreases |toks| - pos
  {
    var k := At(toks, pos).kind;
    if k == BracketLeft {
      var index := ParseExpression(toks, pos + 1);
      if index.result.Ok? {
        var close := Expect(toks, index.pos, BracketRight);
        if close.result.Ok? {
          var next := ArrayAccess(expr, index.result.value);
          PostfixFolds(toks, close.pos, next);
          var r := ParsePostfixExpression(toks, close.pos, next);
          if r.result.Ok? {
            assert SuffixedFrom(expr, next);
            SuffixedFromTransitive(expr, next, r.result.value);
          }
        }
      }
    } else if k == Period {
      var field := Expect(toks, pos + 1, Identifier);
      if field.result.Ok? {
        var next := StructureAccess(expr, field.result.value.ident);
        PostfixFolds(toks, field.pos, next);
        var r := ParsePostfixExpression(toks, field.pos, next);
        if r.result.Ok? {
          assert SuffixedFrom(expr, next);
          SuffixedFromTransitive(expr, next, r.result.value);
        }
      }
    }
  }

  /** `()` is an empty argument list. */
  lemma EmptyArgumentList(toks: seq<Token>, pos: nat)
    requires pos + 1 < |toks| && toks[pos].kind == ParenLeft && toks[pos + 1].kind == ParenRight
    ensures ParseArgumentExpressionList(toks, pos) == Parsed(Ok([]), pos + 2)
  {
  }

  /** The argument loop appends after the arguments already gathered, and ends at `)`. */
  lemma {:induction false} ArgumentsLoopKeepsOrder(toks: seq<Token>, pos: nat, acc: seq<Expression>)
    requires pos <= |toks|
    ensures ParseArgumentsLoop(toks, pos, acc).result.Ok? ==>
      acc <= ParseArgumentsLoop(toks, pos, acc).result.value &&
      At(toks, ParseArgumentsLoop(toks, pos, acc).pos).kind == ParenRight
    decreases |toks| - pos
  {
    if At(toks, pos).kind != ParenRight {
      var e := ParseExpression(toks, pos);
      if e.result.Ok? {
        if At(toks, e.pos).kind == ParenRight {
          ArgumentsLoopKeepsOrder(toks, e.pos, acc + [e.result.value]);
        } else {
          var comma := Expect(toks, e.pos, Comma);
          if comma.result.Ok? {
            ArgumentsLoopKeepsOrder(toks, comma.pos, acc + [e.result.value]);
          }
        }
      }
    }
  }

  // ---------------------------------------------------------------- statements

  /** `return ;` is a return statement without an expression, and the statement ends after the `;`. */
  lemma ReturnWithoutExpression(toks: seq<Token>, pos: nat)
    requires pos + 1 < |toks| && toks[pos].kind == KeywordReturn && toks[pos + 1].kind == Semicolon
    ensures ParseReturnStatement(toks, pos) == Parsed(Ok(ReturnStatement(None)), pos + 1)
    ensures ParseStatement(toks, pos) == Parsed(Ok(ReturnStatement(None)), pos + 2)
  {
  }

  // ---------------------------------------------------------------- the parameter loop

  /** The tokens of `a : i32 , b : i32 )`. */
  const TwoParameters: seq<Token> :=
    [IdentToken("a"), Tok(Colon), Tok(KeywordI32), Tok(Comma), IdentToken("b"), Tok(Colon), Tok(KeywordI32), Tok(ParenRight)]

  /** No attribute list at a token other than `@`. */
  lemma NoAttributes(toks: seq<Token>, pos: nat)
    requires pos <= |toks| && At(toks, pos).kind != TokenType.Attribute
    ensures ParseAttributes(toks, pos) == Parsed(Ok([]), pos)
  {
  }

  /** `name : i32` is a parameter without attributes. */
  lemma I32Parameter(toks: seq<Token>, pos: nat)
    requires pos + 2 < |toks| && toks[pos].kind == Identifier && toks[pos + 1].kind == Colon && toks[pos + 2].kind == KeywordI32
    ensures ParseParameter(toks, pos) == Parsed(Ok(Parameter(toks[pos].ident, NamedTypeName("i32"), [])), pos + 3)
  {
    NoAttributes(toks, pos);
    ScalarTypeName(toks, pos + 2);
  }

  /** A parameter cannot start with a token other than `@` or an identifier. */
  lemma ParameterNeedsName(toks: seq<Token>, pos: nat)
    requires pos <= |toks| && At(toks, pos).kind !in {TokenType.Attribute, Identifier}
    ensures ParseParameter(toks, pos) == Parsed(Err(ExpectedToken(Identifier, At(toks, pos).kind)), pos)
  {
    NoAttributes(toks, pos);
  }

  /** `a : i32 , b : i32 )`, the layout of TwoParameters, at `pos`. */
  predicate TwoParametersAt(toks: seq<Token>, pos: nat)
  {
    pos + 7 < |toks| &&
    toks[pos].kind == Identifier && toks[pos + 1].kind == Colon && toks[pos + 2].kind == KeywordI32 &&
    toks[pos + 3].kind == Comma &&
    toks[pos + 4].kind == Identifier && toks[pos + 5].kind == Colon && toks[pos + 6].kind == KeywordI32 &&
    toks[pos + 7].kind == ParenRight
  }

  /** The source's loop over `a : i32 , b : i32 )` stops at the comma. */
  lemma AsWrittenLoopStopsAtComma(toks: seq<Token>, pos: nat)
    requires TwoParametersAt(toks, pos)
    ensures ParseParametersLoopAsWritten(toks, pos, []) == Parsed(Err(ExpectedToken(Identifier, Comma)), pos + 3)
  {
    I32Parameter(toks, pos);
    ParameterNeedsName(toks, pos + 3);
    var a := Parameter(toks[pos].ident, NamedTypeName("i32"), []);
    assert ParseParametersLoopAsWritten(toks, pos + 3, [a]) == Parsed(Err(ExpectedToken(Identifier, Comma)), pos + 3);
  }

  /** One turn of the corrected parameter loop: a parameter, then `)` or a comma. */
  lemma ParametersLoopStep(toks: seq<Token>, pos: nat, acc: seq<Parameter>, p: Parameter, q: nat)
    requires pos <= |toks| && At(toks, pos).kind != ParenRight
    requires ParseParameter(toks, pos) == Parsed(Ok(p), q)
    ensures At(toks, q).kind == ParenRight ==> ParseParametersLoop(toks, pos, acc) == ParseParametersLoop(toks, q, acc + [p])
    ensures At(toks, q).kind == Comma ==> ParseParametersLoop(toks, pos, acc) == ParseParametersLoop(toks, q + 1, acc + [p])
  {
    if At(toks, q).kind == Comma {
      assert Expect(toks, q, Comma) == Parsed(Ok(toks[q]), q + 1);
    }
  }

  /** The corrected loop reads `a : i32 , b : i32 )` as two parameters. */
  lemma LoopReadsBothParameters(toks: seq<Token>, pos: nat)
    requires TwoParametersAt(toks, pos)
    ensures ParseParametersLoop(toks, pos, []) ==
      Parsed(Ok([Parameter(toks[pos].ident, NamedTypeName("i32"), []), Parameter(toks[pos + 4].ident, NamedTypeName("i32"), [])]), pos + 7)
  {
    var a := Parameter(toks[pos].ident, NamedTypeName("i32"), []);
    var b := Parameter(toks[pos + 4].ident, NamedTypeName("i32"), []);
    I32Parameter(toks, pos);
    I32Parameter(toks, pos + 4);
    ParametersLoopStep(toks, pos, [], a, pos + 3);
    assert [] + [a] == [a];
    ParametersLoopStep(toks, pos + 4, [a], b, pos + 7);
    assert [a] + [b] == [a, b];
    assert ParseParametersLoop(toks, pos + 7, [a, b]) == Parsed(Ok([a, b]), pos + 7);
  }

  /** The source's parameter loop rejects two comma-separated parameters: after the
      first it asks for another parameter and finds the comma. */
  lemma ParametersAsWrittenRejectComma()
    ensures ParseParametersLoopAsWritten(TwoParameters, 0, []) == Parsed(Err(ExpectedToken(Identifier, Comma)), 3)
  {
    AsWrittenLoopStopsAtComma(TwoParameters, 0);
  }

  /** The corrected loop accepts the same tokens as two parameters, in order, and stops at `)`. */
  lemma ParametersAcceptComma()
    ensures ParseParametersLoop(TwoParameters, 0, []) ==
      Parsed(Ok([Parameter("a", NamedTypeName("i32"), []), Parameter("b", NamedTypeName("i32"), [])]), 7)
  {
    LoopReadsBothParameters(TwoParameters, 0);
  }

  /** The corrected parameter loop appends after the parameters already gathered, and ends at `)`. */
  lemma {:induction false} ParametersLoopKeepsOrder(toks: seq<Token>, pos: nat, acc: seq<Parameter>)
    requires pos <= |toks|
    ensures ParseParametersLoop(toks, pos, acc).result.Ok? ==>
      acc <= ParseParametersLoop(toks, pos, acc).result.value &&
      At(toks, ParseParametersLoop(toks, pos, acc).pos).kind == ParenRight
    decreases |toks| - pos
  {
    if At(toks, pos).kind != ParenRight {
      var p := ParseParameter(toks, pos);
      if p.result.Ok? {
        if At(toks, p.pos).kind == ParenRight {
          ParametersLoopKeepsOrder(toks, p.pos, acc + [p.result.value]);
        } else {
          var comma := Expect(toks, p.pos, Comma);
          if comma.result.Ok? {
            ParametersLoopKeepsOrder(toks, comma.pos, acc + [p.result.value]);
          }
        }
      }
    }
  }

  // ---------------------------------------------------------------- the end of the shader

  /** The source's loop has stopped before it looks at the only token of a
      one-token input, whatever that token is: the module is accepted, empty. */
  lemma ShaderAsWrittenIgnoresLoneToken(t: Token)
    ensures ParseShaderLoopAsWritten([t], 0, EmptyModule) == Parsed(Ok(EmptyModule), 0)
  {
  }

  /** The corrected loop parses a lone `;` as a global declaration and rejects it. */
  lemma ShaderRejectsLoneSemicolon()
    ensures ParseShaderLoop([Tok(Semicolon)], 0, EmptyModule) == Parsed(Err(GlobalDeclError), 0)
  {
    NoAttributes([Tok(Semicolon)], 0);
    UnknownGlobalDeclaration([Tok(Semicolon)], 0, EmptyModule);
  }
}
