/** The WGSL parser object (ParserPrivate.h, Parser.cpp): a single lookahead token
    `current` over the lexer's output, advanced by `Consume` and `ConsumeType`.
    Every parse method is proved to return, and to leave the lexer at, what the
    function of the same name in ParserSpec gives for the position it started at. */
module Parser {
  import opened Wrappers
  import opened Tokens
  import opened Ast
  import TypeNames
  import S = ParserSpec

  class Parser {
    /** The lexer's output; `pos` is the index of the token the lexer handed out last. */
    const tokens: seq<Token>
    var pos: nat
    /** m_current, the one token of lookahead. */
    var current: Token

    ghost predicate Valid()
      reads this
    {
      pos <= |tokens| && current == S.At(tokens, pos)
    }

    /** Constructing a parser primes the lookahead with the lexer's first token. */
    constructor (tokens: seq<Token>)
      ensures this.tokens == tokens && pos == 0 && Valid()
      ensures current == S.At(tokens, 0)
    {
      this.tokens := tokens;
      pos := 0;
      current := S.At(tokens, 0);
    }

    method Consume()
      requires Valid()
      modifies this
      ensures Valid() && pos == S.Advance(tokens, old(pos))
    {
      pos := S.Advance(tokens, pos);
      current := S.At(tokens, pos);
    }

    method ConsumeType(t: TokenType) returns (r: Result<Token, TokenType>)
      requires Valid()
      modifies this
      ensures Valid() && (r, pos) == S.ConsumeType(tokens, old(pos), t)
    {
      if current.kind == t {
        r := Ok(current);
        Consume();
      } else {
        r := Err(current.kind);
      }
    }

    method ParseShader() returns (r: Result<ShaderModule, Error>)
      requires Valid()
      modifies this
      ensures Valid() && S.Parsed(r, pos) == S.ParseShader(tokens, old(pos))
    {
      var shaderModule := EmptyModule;
      while current.kind != EndOfFile
        invariant Valid() && old(pos) <= pos
        invariant S.ParseShaderLoop(tokens, pos, shaderModule) == S.ParseShader(tokens, old(pos))
        decreases |tokens| - pos
      {
        var attributes := ParseAttributes();
        if attributes.Err? { return Err(attributes.error); }
        if current.kind == KeywordStruct {
          var structDecl := ParseStructureDeclaration();
          if structDecl.Err? { return Err(structDecl.error); }
          shaderModule := shaderModule.(structures := shaderModule.structures + [structDecl.value.(attributes := attributes.value)]);
        } else if current.kind == KeywordVar {
          var variableDecl := ParseVariableDeclaration();
          if variableDecl.Err? { return Err(variableDecl.error); }
          var semi := ConsumeType(Semicolon);
          if semi.Err? { return Err(ExpectedToken(Semicolon, semi.error)); }
          shaderModule := shaderModule.(variables := shaderModule.variables + [variableDecl.value.(attributes := attributes.value)]);
        } else if current.kind == KeywordFn {
          var functionDecl := ParseFunctionDeclaration();
          if functionDecl.Err? { return Err(functionDecl.error); }
          shaderModule := shaderModule.(functions := shaderModule.functions + [functionDecl.value.(attributes := attributes.value)]);
        } else if current.kind == KeywordType {
          var typeDecl := ParseTypeDeclaration();
          if typeDecl.Err? { return Err(typeDecl.error); }
          var semi := ConsumeType(Semicolon);
          if semi.Err? { return Err(ExpectedToken(Semicolon, semi.error)); }
          shaderModule := shaderModule.(types := shaderModule.types + [typeDecl.value.(attributes := attributes.value)]);
        } else {
          return Err(S.GlobalDeclError);
        }
      }
      return Ok(shaderModule);
    }

    method ParseAttributes() returns (r: Result<seq<Attribute>, Error>)
      requires Valid()
      modifies this
      ensures Valid() && S.Parsed(r, pos) == S.ParseAttributes(tokens, old(pos))
    {
      var attributes := [];
      while current.kind == TokenType.Attribute
        invariant Valid() && old(pos) <= pos
        invariant S.ParseAttributesLoop(tokens, pos, attributes) == S.ParseAttributes(tokens, old(pos))
        decreases |tokens| - pos
      {
        var attribute := ParseAttribute();
        if attribute.Err? { return Err(attribute.error); }
        attributes := attributes + [attribute.value];
      }
      return Ok(attributes);
    }

    method ParseAttribute() returns (r: Result<Attribute, Error>)
      requires Valid()
      modifies this
      ensures Valid() && S.Parsed(r, pos) == S.ParseAttribute(tokens, old(pos))
    {
      var at := ConsumeType(TokenType.Attribute);
      if at.Err? { return Err(ExpectedToken(TokenType.Attribute, at.error)); }
      var ident := ConsumeType(Identifier);
      if ident.Err? { return Err(ExpectedToken(Identifier, ident.error)); }
      var name := ident.value.ident;
      if name == "group" || name == "binding" || name == "location" {
        var open := ConsumeType(ParenLeft);
        if open.Err? { return Err(ExpectedToken(ParenLeft, open.error)); }
        var id := ConsumeType(IntegerLiteral);
        if id.Err? { return Err(ExpectedToken(IntegerLiteral, id.error)); }
        var close := ConsumeType(ParenRight);
        if close.Err? { return Err(ExpectedToken(ParenRight, close.error)); }
        var value := id.value.literalValue;
        return Ok(if name == "group" then GroupAttribute(value)
                  else if name == "binding" then BindingAttribute(value)
                  else LocationAttribute(value));
      }
      if name == "builtin" {
        var open := ConsumeType(ParenLeft);
        if open.Err? { return Err(ExpectedToken(ParenLeft, open.error)); }
        var builtin := ConsumeType(Identifier);
        if builtin.Err? { return Err(ExpectedToken(Identifier, builtin.error)); }
        var close := ConsumeType(ParenRight);
        if close.Err? { return Err(ExpectedToken(ParenRight, close.error)); }
        return Ok(BuiltinAttribute(builtin.value.ident));
      }
      if name == "vertex" { return Ok(StageAttribute(Vertex)); }
      if name == "compute" { return Ok(StageAttribute(Compute)); }
      if name == "fragment" { return Ok(StageAttribute(Fragment)); }
      return Err(S.UnknownAttributeError);
    }

    method ParseStructureDeclaration() returns (r: Result<StructureDeclaration, Error>)
      requires Valid()
      modifies this
      ensures Valid() && S.Parsed(r, pos) == S.ParseStructureDeclaration(tokens, old(pos))
    {
      var kw := ConsumeType(KeywordStruct);
      if kw.Err? { return Err(ExpectedToken(KeywordStruct, kw.error)); }
      var name := ConsumeType(Identifier);
      if name.Err? { return Err(ExpectedToken(Identifier, name.error)); }
      var open := ConsumeType(BraceLeft);
      if open.Err? { return Err(ExpectedToken(BraceLeft, open.error)); }
      ghost var start := pos;
      var members := [];
      while current.kind != BraceRight
        invariant Valid() && start <= pos
        invariant S.ParseStructureMembersLoop(tokens, pos, members) == S.ParseStructureMembersLoop(tokens, start, [])
        decreases |tokens| - pos
      {
        var member := ParseStructureMember();
        if member.Err? { return Err(member.error); }
        members := members + [member.value];
      }
      // The loop stopped at the closing token, so CONSUME_TYPE(BraceRight) cannot fail here.
      Consume();
      return Ok(StructureDeclaration(name.value.ident, [], members));
    }

    method ParseStructureMember() returns (r: Result<StructureMember, Error>)
      requires Valid()
      modifies this
      ensures Valid() && S.Parsed(r, pos) == S.ParseStructureMember(tokens, old(pos))
    {
      var attributes := ParseAttributes();
      if attributes.Err? { return Err(attributes.error); }
      var name := ConsumeType(Identifier);
      if name.Err? { return Err(ExpectedToken(Identifier, name.error)); }
      var colon := ConsumeType(Colon);
      if colon.Err? { return Err(ExpectedToken(Colon, colon.error)); }
      var typeName := ParseTypeName();
      if typeName.Err? { return Err(typeName.error); }
      var semi := ConsumeType(Semicolon);
      if semi.Err? { return Err(ExpectedToken(Semicolon, semi.error)); }
      return Ok(StructureMember(name.value.ident, typeName.value, attributes.value));
    }

    method ParseTypeName() returns (r: Result<TypeName, Error>)
      requires Valid()
      modifies this
      ensures Valid() && S.Parsed(r, pos) == S.ParseTypeName(tokens, old(pos))
      decreases |tokens| - pos, 6
    {
      if current.kind == KeywordArray {
        r := ParseArrayTypeName();
        return;
      }
      if current.kind == KeywordI32 {
        Consume();
        return Ok(NamedTypeName("i32"));
      }
      if current.kind == KeywordF32 {
        Consume();
        return Ok(NamedTypeName("f32"));
      }
      if current.kind == KeywordU32 {
        Consume();
        return Ok(NamedTypeName("u32"));
      }
      if current.kind == KeywordBool {
        Consume();
        return Ok(NamedTypeName("bool"));
      }
      if current.kind == Identifier {
        var name := current;
        Consume();
        r := ParseTypeNameAfterIdentifier(name.ident);
        return;
      }
      return Err(S.TypeNameError);
    }

    method ParseTypeNameAfterIdentifier(name: string) returns (r: Result<TypeName, Error>)
      requires Valid()
      modifies this
      ensures Valid() && S.Parsed(r, pos) == S.ParseTypeNameAfterIdentifier(tokens, old(pos), name)
      decreases |tokens| - pos, 4
    {
      var kind := TypeNames.StringViewToKind(name);
      if kind.Some? {
        var lt := ConsumeType(LT);
        if lt.Err? { return Err(ExpectedToken(LT, lt.error)); }
        var elementType := ParseTypeName();
        if elementType.Err? { return Err(elementType.error); }
        var gt := ConsumeType(GT);
        if gt.Err? { return Err(ExpectedToken(GT, gt.error)); }
        return Ok(ParameterizedTypeName(kind.value, elementType.value));
      }
      return Ok(NamedTypeName(name));
    }

    method ParseArrayTypeName() returns (r: Result<TypeName, Error>)
      requires Valid()
      modifies this
      ensures Valid() && S.Parsed(r, pos) == S.ParseArrayTypeName(tokens, old(pos))
      decreases |tokens| - pos, 5
    {
      var kw := ConsumeType(KeywordArray);
      if kw.Err? { return Err(ExpectedToken(KeywordArray, kw.error)); }
      if current.kind != LT {
        return Ok(ArrayTypeName(None, None));
      }
      r := ParseArrayTypeParameters();
    }

    /** The `< element , count >` or `< element >` part of parseArrayType. */
    method ParseArrayTypeParameters() returns (r: Result<TypeName, Error>)
      requires Valid() && current.kind == LT
      modifies this
      ensures Valid() && S.Parsed(r, pos) == S.ParseArrayTypeParameters(tokens, old(pos))
      decreases |tokens| - pos, 5
    {
      Consume();
      var elementType := ParseTypeName();
      if elementType.Err? { return Err(elementType.error); }
      var maybeElementCount: Option<Expression> := None;
      if current.kind == Comma {
        Consume();
        var elementCount := ParseAdditiveExpression();
        if elementCount.Err? { return Err(elementCount.error); }
        maybeElementCount := Some(elementCount.value);
      }
      var gt := ConsumeType(GT);
      if gt.Err? { return Err(ExpectedToken(GT, gt.error)); }
      return Ok(ArrayTypeName(Some(elementType.value), maybeElementCount));
    }

    method ParseTypeDeclaration() returns (r: Result<TypeDeclaration, Error>)
      requires Valid()
      modifies this
      ensures Valid() && S.Parsed(r, pos) == S.ParseTypeDeclaration(tokens, old(pos))
    {
      var kw := ConsumeType(KeywordType);
      if kw.Err? { return Err(ExpectedToken(KeywordType, kw.error)); }
      var name := ConsumeType(Identifier);
      if name.Err? { return Err(ExpectedToken(Identifier, name.error)); }
      var eq := ConsumeType(Equal);
      if eq.Err? { return Err(ExpectedToken(Equal, eq.error)); }
      var typeName := ParseTypeName();
      if typeName.Err? { return Err(typeName.error); }
      return Ok(TypeDeclaration(name.value.ident, [], typeName.value));
    }

    method ParseVariableDeclaration() returns (r: Result<VariableDeclaration, Error>)
      requires Valid()
      modifies this
      ensures Valid() && S.Parsed(r, pos) == S.ParseVariableDeclaration(tokens, old(pos))
    {
      var kw := ConsumeType(KeywordVar);
      if kw.Err? { return Err(ExpectedToken(KeywordVar, kw.error)); }
      ghost var qualifierStart := pos;
      var maybeQualifier: Option<VariableQualifier> := None;
      if current.kind == LT {
        var qualifier := ParseVariableQualifier();
        if qualifier.Err? {
          assert S.ParseMaybeVariableQualifier(tokens, qualifierStart) == S.Parsed(Err(qualifier.error), pos);
          return Err(qualifier.error);
        }
        maybeQualifier := Some(qualifier.value);
      }
      assert S.ParseMaybeVariableQualifier(tokens, qualifierStart) == S.Parsed(Ok(maybeQualifier), pos);
      var name := ConsumeType(Identifier);
      if name.Err? { return Err(ExpectedToken(Identifier, name.error)); }
      ghost var typeStart := pos;
      var maybeType: Option<TypeName> := None;
      if current.kind == Colon {
        Consume();
        var typeName := ParseTypeName();
        if typeName.Err? {
          assert S.ParseMaybeTypeAnnotation(tokens, typeStart) == S.Parsed(Err(typeName.error), pos);
          return Err(typeName.error);
        }
        maybeType := Some(typeName.value);
      }
      assert S.ParseMaybeTypeAnnotation(tokens, typeStart) == S.Parsed(Ok(maybeType), pos);
      ghost var initializerStart := pos;
      var maybeInitializer: Option<Expression> := None;
      if current.kind == Equal {
        Consume();
        var initializer := ParseExpression();
        if initializer.Err? {
          assert S.ParseMaybeInitializer(tokens, initializerStart) == S.Parsed(Err(initializer.error), pos);
          return Err(initializer.error);
        }
        maybeInitializer := Some(initializer.value);
      }
      assert S.ParseMaybeInitializer(tokens, initializerStart) == S.Parsed(Ok(maybeInitializer), pos);
      return Ok(VariableDeclaration(name.value.ident, [], maybeQualifier, maybeType, maybeInitializer));
    }

    method ParseVariableQualifier() returns (r: Result<VariableQualifier, Error>)
      requires Valid()
      modifies this
      ensures Valid() && S.Parsed(r, pos) == S.ParseVariableQualifier(tokens, old(pos))
    {
      var lt := ConsumeType(LT);
      if lt.Err? { return Err(ExpectedToken(LT, lt.error)); }
      var storageClass := ParseStorageClass();
      if storageClass.Err? { return Err(storageClass.error); }
      ghost var accessModeStart := pos;
      var accessMode := Read;
      if current.kind == Comma {
        Consume();
        var actualAccessMode := ParseAccessMode();
        if actualAccessMode.Err? {
          assert S.ParseMaybeAccessMode(tokens, accessModeStart) == S.Parsed(Err(actualAccessMode.error), pos);
          return Err(actualAccessMode.error);
        }
        accessMode := actualAccessMode.value;
      }
      assert S.ParseMaybeAccessMode(tokens, accessModeStart) == S.Parsed(Ok(accessMode), pos);
      var gt := ConsumeType(GT);
      if gt.Err? { return Err(ExpectedToken(GT, gt.error)); }
      return Ok(VariableQualifier(storageClass.value, accessMode));
    }

    method ParseStorageClass() returns (r: Result<StorageClass, Error>)
      requires Valid()
      modifies this
      ensures Valid() && S.Parsed(r, pos) == S.ParseStorageClass(tokens, old(pos))
    {
      if current.kind == KeywordFunction {
        Consume();
        return Ok(StorageClass.Function);
      }
      if current.kind == KeywordPrivate {
        Consume();
        return Ok(Private);
      }
      if current.kind == KeywordWorkgroup {
        Consume();
        return Ok(Workgroup);
      }
      if current.kind == KeywordUniform {
        Consume();
        return Ok(Uniform);
      }
      if current.kind == KeywordStorage {
        Consume();
        return Ok(Storage);
      }
      return Err(S.StorageClassError);
    }

    method ParseAccessMode() returns (r: Result<AccessMode, Error>)
      requires Valid()
      modifies this
      ensures Valid() && S.Parsed(r, pos) == S.ParseAccessMode(tokens, old(pos))
    {
      if current.kind == KeywordRead {
        Consume();
        return Ok(Read);
      }
      if current.kind == KeywordWrite {
        Consume();
        return Ok(Write);
      }
      if current.kind == KeywordReadWrite {
        Consume();
        return Ok(ReadWrite);
      }
      return Err(S.AccessModeError);
    }

    method ParseFunctionDeclaration() returns (r: Result<FunctionDeclaration, Error>)
      requires Valid()
      modifies this
      ensures Valid() && S.Parsed(r, pos) == S.ParseFunctionDeclaration(tokens, old(pos))
    {
      var kw := ConsumeType(KeywordFn);
      if kw.Err? { return Err(ExpectedToken(KeywordFn, kw.error)); }
      var name := ConsumeType(Identifier);
      if name.Err? { return Err(ExpectedToken(Identifier, name.error)); }
      var open := ConsumeType(ParenLeft);
      if open.Err? { return Err(ExpectedToken(ParenLeft, open.error)); }
      var parameters := ParseParameters();
      if parameters.Err? { return Err(parameters.error); }
      // The loop stopped at the closing token, so CONSUME_TYPE(ParenRight) cannot fail here.
      Consume();
      var returnType := ParseMaybeReturnType();
      if returnType.Err? { return Err(returnType.error); }
      var body := ParseCompoundStatement();
      if body.Err? { return Err(body.error); }
      return Ok(FunctionDeclaration(name.value.ident, [], parameters.value, returnType.value.0, returnType.value.1, body.value));
    }

    /** parseFunctionDecl's parameter loop, up to the closing parenthesis, which
        is left as the lookahead. */
    method ParseParameters() returns (r: Result<seq<Parameter>, Error>)
      requires Valid()
      modifies this
      ensures Valid() && S.Parsed(r, pos) == S.ParseParametersLoop(tokens, old(pos), [])
      ensures r.Ok? ==> current.kind == ParenRight
    {
      ghost var start := pos;
      var parameters := [];
      while current.kind != ParenRight
        invariant Valid() && start <= pos
        invariant S.ParseParametersLoop(tokens, pos, parameters) == S.ParseParametersLoop(tokens, start, [])
        decreases |tokens| - pos
      {
        var parameter := ParseParameter();
        if parameter.Err? { return Err(parameter.error); }
        parameters := parameters + [parameter.value];
        if current.kind != ParenRight {
          var comma := ConsumeType(Comma);
          if comma.Err? { return Err(ExpectedToken(Comma, comma.error)); }
        }
      }
      return Ok(parameters);
    }

    /** parseFunctionDecl's optional `-> attributes type`. */
    method ParseMaybeReturnType() returns (r: Result<(seq<Attribute>, Option<TypeName>), Error>)
      requires Valid()
      modifies this
      ensures Valid() && S.Parsed(r, pos) == S.ParseMaybeReturnType(tokens, old(pos))
    {
      if current.kind != Arrow {
        return Ok(([], None));
      }
      Consume();
      var returnAttributes := ParseAttributes();
      if returnAttributes.Err? { return Err(returnAttributes.error); }
      var typeName := ParseTypeName();
      if typeName.Err? { return Err(typeName.error); }
      return Ok((returnAttributes.value, Some(typeName.value)));
    }

    method ParseParameter() returns (r: Result<Parameter, Error>)
      requires Valid()
      modifies this
      ensures Valid() && S.Parsed(r, pos) == S.ParseParameter(tokens, old(pos))
    {
      var attributes := ParseAttributes();
      if attributes.Err? { return Err(attributes.error); }
      var name := ConsumeType(Identifier);
      if name.Err? { return Err(ExpectedToken(Identifier, name.error)); }
      var colon := ConsumeType(Colon);
      if colon.Err? { return Err(ExpectedToken(Colon, colon.error)); }
      var typeName := ParseTypeName();
      if typeName.Err? { return Err(typeName.error); }
      return Ok(Parameter(name.value.ident, typeName.value, attributes.value));
    }

    method ParseStatement() returns (r: Result<Statement, Error>)
      requires Valid()
      modifies this
      ensures Valid() && S.Parsed(r, pos) == S.ParseStatement(tokens, old(pos))
      decreases |tokens| - pos, 24
    {
      if current.kind == BraceLeft {
        var compoundStmt := ParseCompoundStatement();
        if compoundStmt.Err? { return Err(compoundStmt.error); }
        return Ok(CompoundStatement(compoundStmt.value));
      }
      if current.kind == Semicolon {
        Consume();
        return Ok(CompoundStatement([]));
      }
      if current.kind == KeywordReturn {
        var returnStmt := ParseReturnStatement();
        if returnStmt.Err? { return Err(returnStmt.error); }
        var semi := ConsumeType(Semicolon);
        if semi.Err? { return Err(ExpectedToken(Semicolon, semi.error)); }
        return Ok(returnStmt.value);
      }
      if current.kind == KeywordVar {
        var varDecl := ParseVariableDeclaration();
        if varDecl.Err? { return Err(varDecl.error); }
        var semi := ConsumeType(Semicolon);
        if semi.Err? { return Err(ExpectedToken(Semicolon, semi.error)); }
        return Ok(VariableStatement(varDecl.value));
      }
      if current.kind == Identifier {
        var lhs := ParseLHSExpression();
        if lhs.Err? { return Err(lhs.error); }
        var eq := ConsumeType(Equal);
        if eq.Err? { return Err(ExpectedToken(Equal, eq.error)); }
        var rhs := ParseExpression();
        if rhs.Err? { return Err(rhs.error); }
        var semi := ConsumeType(Semicolon);
        if semi.Err? { return Err(ExpectedToken(Semicolon, semi.error)); }
        return Ok(AssignmentStatement(Some(lhs.value), rhs.value));
      }
      return Err(S.StatementError);
    }

    method ParseCompoundStatement() returns (r: Result<seq<Statement>, Error>)
      requires Valid()
      modifies this
      ensures Valid() && S.Parsed(r, pos) == S.ParseCompoundStatement(tokens, old(pos))
      decreases |tokens| - pos, 23
    {
      var open := ConsumeType(BraceLeft);
      if open.Err? { return Err(ExpectedToken(BraceLeft, open.error)); }
      ghost var start := pos;
      var statements := [];
      while current.kind != BraceRight
        invariant Valid() && start <= pos
        invariant S.ParseStatementsLoop(tokens, pos, statements) == S.ParseStatementsLoop(tokens, start, [])
        decreases |tokens| - pos
      {
        var stmt := ParseStatement();
        if stmt.Err? { return Err(stmt.error); }
        statements := statements + [stmt.value];
      }
      // The loop stopped at the closing token, so CONSUME_TYPE(BraceRight) cannot fail here.
      Consume();
      return Ok(statements);
    }

    method ParseReturnStatement() returns (r: Result<Statement, Error>)
      requires Valid()
      modifies this
      ensures Valid() && S.Parsed(r, pos) == S.ParseReturnStatement(tokens, old(pos))
    {
      var kw := ConsumeType(KeywordReturn);
      if kw.Err? { return Err(ExpectedToken(KeywordReturn, kw.error)); }
      if current.kind == Semicolon {
        return Ok(ReturnStatement(None));
      }
      var expr := ParseShortCircuitOrExpression();
      if expr.Err? { return Err(expr.error); }
      return Ok(ReturnStatement(Some(expr.value)));
    }

    method ParseShortCircuitOrExpression() returns (r: Result<Expression, Error>)
      requires Valid()
      modifies this
      ensures Valid() && S.Parsed(r, pos) == S.ParseShortCircuitOrExpression(tokens, old(pos))
      decreases |tokens| - pos, 17
    {
      r := ParseRelationalExpression();
    }

    method ParseRelationalExpression() returns (r: Result<Expression, Error>)
      requires Valid()
      modifies this
      ensures Valid() && S.Parsed(r, pos) == S.ParseRelationalExpression(tokens, old(pos))
      decreases |tokens| - pos, 16
    {
      r := ParseShiftExpression();
    }

    method ParseShiftExpression() returns (r: Result<Expression, Error>)
      requires Valid()
      modifies this
      ensures Valid() && S.Parsed(r, pos) == S.ParseShiftExpression(tokens, old(pos))
      decreases |tokens| - pos, 15
    {
      r := ParseAdditiveExpression();
    }

    method ParseAdditiveExpression() returns (r: Result<Expression, Error>)
      requires Valid()
      modifies this
      ensures Valid() && S.Parsed(r, pos) == S.ParseAdditiveExpression(tokens, old(pos))
      decreases |tokens| - pos, 14
    {
      r := ParseMultiplicativeExpression();
    }

    method ParseMultiplicativeExpression() returns (r: Result<Expression, Error>)
      requires Valid()
      modifies this
      ensures Valid() && S.Parsed(r, pos) == S.ParseMultiplicativeExpression(tokens, old(pos))
      decreases |tokens| - pos, 13
    {
      r := ParseUnaryExpression();
    }

    method ParseUnaryExpression() returns (r: Result<Expression, Error>)
      requires Valid()
      modifies this
      ensures Valid() && S.Parsed(r, pos) == S.ParseUnaryExpression(tokens, old(pos))
      decreases |tokens| - pos, 12
    {
      if current.kind == Minus {
        Consume();
        var expression := ParseSingularExpression();
        if expression.Err? { return Err(expression.error); }
        return Ok(UnaryExpression(expression.value, Negate));
      }
      r := ParseSingularExpression();
    }

    method ParseSingularExpression() returns (r: Result<Expression, Error>)
      requires Valid()
      modifies this
      ensures Valid() && S.Parsed(r, pos) == S.ParseSingularExpression(tokens, old(pos))
      decreases |tokens| - pos, 11
    {
      var base := ParsePrimaryExpression();
      if base.Err? { return Err(base.error); }
      r := ParsePostfixExpression(base.value);
    }

    method ParsePostfixExpression(base: Expression) returns (r: Result<Expression, Error>)
      requires Valid()
      modifies this
      ensures Valid() && S.Parsed(r, pos) == S.ParsePostfixExpression(tokens, old(pos), base)
      decreases |tokens| - pos, 1
    {
      var expr := base;
      while true
        invariant Valid() && old(pos) <= pos
        invariant S.ParsePostfixExpression(tokens, pos, expr) == S.ParsePostfixExpression(tokens, old(pos), base)
        decreases |tokens| - pos
      {
        if current.kind == BracketLeft {
          Consume();
          var arrayIndex := ParseExpression();
          if arrayIndex.Err? { return Err(arrayIndex.error); }
          var close := ConsumeType(BracketRight);
          if close.Err? { return Err(ExpectedToken(BracketRight, close.error)); }
          expr := ArrayAccess(expr, arrayIndex.value);
        } else if current.kind == Period {
          Consume();
          var fieldName := ConsumeType(Identifier);
          if fieldName.Err? { return Err(ExpectedToken(Identifier, fieldName.error)); }
          expr := StructureAccess(expr, fieldName.value.ident);
        } else {
          return Ok(expr);
        }
      }
    }

    method ParsePrimaryExpression() returns (r: Result<Expression, Error>)
      requires Valid()
      modifies this
      ensures Valid() && S.Parsed(r, pos) == S.ParsePrimaryExpression(tokens, old(pos))
      decreases |tokens| - pos, 10
    {
      var lit := current;
      if current.kind == ParenLeft {
        Consume();
        var expr := ParseExpression();
        if expr.Err? { return Err(expr.error); }
        var close := ConsumeType(ParenRight);
        if close.Err? { return Err(ExpectedToken(ParenRight, close.error)); }
        return Ok(expr.value);
      }
      if current.kind == Identifier {
        var ident := current;
        Consume();
        if current.kind == LT || current.kind == ParenLeft {
          var typeName := ParseTypeNameAfterIdentifier(ident.ident);
          if typeName.Err? { return Err(typeName.error); }
          var arguments := ParseArgumentExpressionList();
          if arguments.Err? { return Err(arguments.error); }
          return Ok(CallableExpression(typeName.value, arguments.value));
        }
        return Ok(IdentifierExpression(ident.ident));
      }
      if current.kind == KeywordArray {
        var arrayType := ParseArrayTypeName();
        if arrayType.Err? { return Err(arrayType.error); }
        var arguments := ParseArgumentExpressionList();
        if arguments.Err? { return Err(arguments.error); }
        return Ok(CallableExpression(arrayType.value, arguments.value));
      }
      if current.kind == LiteralTrue {
        Consume();
        return Ok(BoolLiteral(true));
      }
      if current.kind == LiteralFalse {
        Consume();
        return Ok(BoolLiteral(false));
      }
      if current.kind == IntegerLiteral {
        Consume();
        return Ok(AbstractIntLiteral(lit.literalValue));
      }
      if current.kind == IntegerLiteralSigned {
        Consume();
        return Ok(Int32Literal(lit.literalValue));
      }
      if current.kind == IntegerLiteralUnsigned {
        Consume();
        return Ok(Uint32Literal(lit.literalValue));
      }
      if current.kind == DecimalFloatLiteral || current.kind == HexFloatLiteral {
        Consume();
        return Ok(AbstractFloatLiteral(lit.literalValue));
      }
      return Err(S.PrimaryExpressionError);
    }

    method ParseExpression() returns (r: Result<Expression, Error>)
      requires Valid()
      modifies this
      ensures Valid() && S.Parsed(r, pos) == S.ParseExpression(tokens, old(pos))
      decreases |tokens| - pos, 17
    {
      r := ParseRelationalExpression();
    }

    method ParseLHSExpression() returns (r: Result<Expression, Error>)
      requires Valid()
      modifies this
      ensures Valid() && S.Parsed(r, pos) == S.ParseLHSExpression(tokens, old(pos))
      decreases |tokens| - pos, 21
    {
      var base := ParseCoreLHSExpression();
      if base.Err? { return Err(base.error); }
      r := ParsePostfixExpression(base.value);
    }

    method ParseCoreLHSExpression() returns (r: Result<Expression, Error>)
      requires Valid()
      modifies this
      ensures Valid() && S.Parsed(r, pos) == S.ParseCoreLHSExpression(tokens, old(pos))
      decreases |tokens| - pos, 20
    {
      if current.kind == ParenLeft {
        Consume();
        var expr := ParseLHSExpression();
        if expr.Err? { return Err(expr.error); }
        var close := ConsumeType(ParenRight);
        if close.Err? { return Err(ExpectedToken(ParenRight, close.error)); }
        return Ok(expr.value);
      }
      if current.kind == Identifier {
        var ident := current;
        Consume();
        return Ok(IdentifierExpression(ident.ident));
      }
      return Err(S.LHSExpressionError);
    }

    method ParseArgumentExpressionList() returns (r: Result<seq<Expression>, Error>)
      requires Valid()
      modifies this
      ensures Valid() && S.Parsed(r, pos) == S.ParseArgumentExpressionList(tokens, old(pos))
      decreases |tokens| - pos, 1
    {
      var open := ConsumeType(ParenLeft);
      if open.Err? { return Err(ExpectedToken(ParenLeft, open.error)); }
      ghost var start := pos;
      var arguments := [];
      while current.kind != ParenRight
        invariant Valid() && start <= pos
        invariant S.ParseArgumentsLoop(tokens, pos, arguments) == S.ParseArgumentsLoop(tokens, start, [])
        decreases |tokens| - pos
      {
        var expr := ParseExpression();
        if expr.Err? { return Err(expr.error); }
        arguments := arguments + [expr.value];
        if current.kind != ParenRight {
          var comma := ConsumeType(Comma);
          if comma.Err? { return Err(ExpectedToken(Comma, comma.error)); }
        }
      }
      // The loop stopped at the closing token, so CONSUME_TYPE(ParenRight) cannot fail here.
      Consume();
      return Ok(arguments);
    }
  }

  /** parse(): a parser over the lexer's whole output, asked for a shader module. */
  method Parse(tokens: seq<Token>) returns (r: Result<ShaderModule, Error>)
    ensures r == S.ParseShader(tokens, 0).result
  {
    var parser := new Parser(tokens);
    r := parser.ParseShader();
  }
}
