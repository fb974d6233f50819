/** Writing expressions and type names back out as tokens, and the proof that the
    parser reads every well-formed one back: `parseTypeName` handles its three
    cases, `parsePostfixExpression` folds `[e]` and `.f` suffixes into left-nested
    nodes, and `parseArgumentExpressionList` keeps its arguments in order. */
module ParserRoundTrip {
  import opened Wrappers
  import opened Tokens
  import opened Ast
  import TypeNames
  import TypeDecl
  import opened ParserSpec

  // ---------------------------------------------------------------- token positions

  /** The tokens `ts` appear in `toks` starting at `pos`. */
  predicate Occurs(toks: seq<Token>, pos: nat, ts: seq<Token>)
  {
    pos + |ts| <= |toks| && forall i :: 0 <= i < |ts| ==> toks[pos + i] == ts[i]
  }

  lemma OccursConcat(toks: seq<Token>, pos: nat, a: seq<Token>, b: seq<Token>)
    requires Occurs(toks, pos, a + b)
    ensures Occurs(toks, pos, a) && Occurs(toks, pos + |a|, b)
  {
    forall i | 0 <= i < |a|
      ensures toks[pos + i] == a[i]
    {
      assert a[i] == (a + b)[i];
    }
    forall i | 0 <= i < |b|
      ensures toks[pos + |a| + i] == b[i]
    {
      assert b[i] == (a + b)[|a| + i];
    }
  }

  lemma OccursConcat3(toks: seq<Token>, pos: nat, a: seq<Token>, b: seq<Token>, c: seq<Token>)
    requires Occurs(toks, pos, a + b + c)
    ensures Occurs(toks, pos, a) && Occurs(toks, pos + |a|, b) && Occurs(toks, pos + |a| + |b|, c)
  {
    OccursConcat(toks, pos, a + b, c);
    OccursConcat(toks, pos, a, b);
  }

  lemma OccursToken(toks: seq<Token>, pos: nat, ts: seq<Token>, i: nat)
    requires Occurs(toks, pos, ts) && i < |ts|
    ensures pos + i < |toks| && At(toks, pos + i) == ts[i]
  {}

  /** `open inner close`: the closing token sits at `p` and the whole ends at `end`. */
  lemma Wrapped(toks: seq<Token>, pos: nat, open: Token, inner: seq<Token>, close: Token, p: nat, end: nat)
    requires p == pos + 1 + |inner| && end == pos + |[open] + inner + [close]|
    requires Occurs(toks, pos, [open] + inner + [close])
    ensures pos < |toks| && At(toks, pos) == open && Occurs(toks, pos + 1, inner)
    ensures p < |toks| && At(toks, p) == close && end == p + 1
  {
    OccursConcat3(toks, pos, [open], inner, [close]);
    OccursToken(toks, pos, [open], 0);
    OccursToken(toks, p, [close], 0);
  }

  /** `first second inner close`: the closing token sits at `p` and the whole
      ends at `end`. */
  lemma Wrapped2(toks: seq<Token>, pos: nat, first: Token, second: Token, inner: seq<Token>, close: Token, p: nat, end: nat)
    requires p == pos + 2 + |inner| && end == pos + |[first, second] + inner + [close]|
    requires Occurs(toks, pos, [first, second] + inner + [close])
    ensures pos + 1 < |toks| && At(toks, pos) == first && At(toks, pos + 1) == second
    ensures Occurs(toks, pos + 2, inner) && p < |toks| && At(toks, p) == close && end == p + 1
  {
    OccursConcat3(toks, pos, [first, second], inner, [close]);
    OccursToken(toks, pos, [first, second], 0);
    OccursToken(toks, pos, [first, second], 1);
    OccursToken(toks, p, [close], 0);
  }

  /** `front separator back`: the separator sits at `p` and the whole ends at `end`. */
  lemma Separated(toks: seq<Token>, pos: nat, front: seq<Token>, separator: Token, back: seq<Token>, p: nat, end: nat)
    requires p == pos + |front| && end == pos + |front + [separator] + back|
    requires Occurs(toks, pos, front + [separator] + back)
    ensures Occurs(toks, pos, front) && p < |toks| && At(toks, p) == separator
    ensures Occurs(toks, p + 1, back) && end == p + 1 + |back|
  {
    OccursConcat3(toks, pos, front, [separator], back);
    OccursToken(toks, p, [separator], 0);
  }

  /** `front open inner close`: the opening token sits at `p`, the closing one
      at `q`, and the whole ends at `end`. */
  lemma Enclosed(toks: seq<Token>, pos: nat, front: seq<Token>, open: Token, inner: seq<Token>, close: Token,
                 p: nat, q: nat, end: nat)
    requires p == pos + |front| && q == p + 1 + |inner| && end == pos + |front + [open] + inner + [close]|
    requires Occurs(toks, pos, front + [open] + inner + [close])
    ensures Occurs(toks, pos, front) && p < |toks| && At(toks, p) == open
    ensures Occurs(toks, p + 1, inner) && q < |toks| && At(toks, q) == close && end == q + 1
  {
    OccursConcat(toks, pos, front + [open] + inner, [close]);
    OccursToken(toks, q, [close], 0);
    Separated(toks, pos, front, open, inner, p, q);
  }

  /** `front . name`: the period sits at `p` and the whole ends at `end`. */
  lemma Dotted(toks: seq<Token>, pos: nat, front: seq<Token>, name: string, p: nat, end: nat)
    requires p == pos + |front| && end == pos + |front + [Tok(Period), IdentToken(name)]|
    requires Occurs(toks, pos, front + [Tok(Period), IdentToken(name)])
    ensures Occurs(toks, pos, front) && p + 1 < |toks|
    ensures At(toks, p).kind == Period && At(toks, p + 1) == IdentToken(name) && end == p + 2
  {
    OccursConcat(toks, pos, front, [Tok(Period), IdentToken(name)]);
    OccursToken(toks, p, [Tok(Period), IdentToken(name)], 0);
    OccursToken(toks, p, [Tok(Period), IdentToken(name)], 1);
  }

  /** `- operand`: the operand ends at `end`. */
  lemma Negated(toks: seq<Token>, pos: nat, operand: seq<Token>, end: nat)
    requires end == pos + |[Tok(Minus)] + operand|
    requires Occurs(toks, pos, [Tok(Minus)] + operand)
    ensures pos < |toks| && At(toks, pos) == Tok(Minus)
    ensures Occurs(toks, pos + 1, operand) && end == pos + 1 + |operand| && end <= |toks|
  {
    OccursConcat(toks, pos, [Tok(Minus)], operand);
    OccursToken(toks, pos, [Tok(Minus)], 0);
  }

  // ---------------------------------------------------------------- writing tokens

  /** The four built-in scalar type names, which the lexer hands out as keywords. */
  predicate IsKeywordTypeName(name: string)
  {
    name == "i32" || name == "f32" || name == "u32" || name == "bool"
  }

  function NameToken(name: string): Token
  {
    if name == "i32" then Tok(KeywordI32)
    else if name == "f32" then Tok(KeywordF32)
    else if name == "u32" then Tok(KeywordU32)
    else if name == "bool" then Tok(KeywordBool)
    else IdentToken(name)
  }

  function TypeTokens(t: TypeName): seq<Token>
    decreases t, 1
  {
    match t
    case NamedTypeName(name) => [NameToken(name)]
    case ParameterizedTypeName(base, element) =>
      [IdentToken(TypeDecl.BaseName(base)), Tok(LT)] + TypeTokens(element) + [Tok(GT)]
    case ArrayTypeName(None, _) => [Tok(KeywordArray)]
    case ArrayTypeName(Some(element), None) =>
      [Tok(KeywordArray), Tok(LT)] + TypeTokens(element) + [Tok(GT)]
    case ArrayTypeName(Some(element), Some(count)) =>
      [Tok(KeywordArray), Tok(LT)] + TypeTokens(element) + [Tok(Comma)] + ExpressionTokens(count) + [Tok(GT)]
  }

  /** The type a callable expression calls: a plain name is always an identifier there. */
  function CalleeTokens(t: TypeName): seq<Token>
    decreases t, 2
  {
    if t.NamedTypeName? then [IdentToken(t.name)] else TypeTokens(t)
  }

  function ExpressionTokens(e: Expression): seq<Token>
    decreases e, 1
  {
    match e
    case BoolLiteral(b) => [Tok(if b then LiteralTrue else LiteralFalse)]
    case AbstractIntLiteral(v) => [Token(IntegerLiteral, "", v)]
    case Int32Literal(v) => [Token(IntegerLiteralSigned, "", v)]
    case Uint32Literal(v) => [Token(IntegerLiteralUnsigned, "", v)]
    case Float32Literal(v) => [Token(DecimalFloatLiteral, "", v)]
    case AbstractFloatLiteral(v) => [Token(DecimalFloatLiteral, "", v)]
    case IdentifierExpression(name) => [IdentToken(name)]
    case ArrayAccess(base, index) =>
      OperandTokens(base) + [Tok(BracketLeft)] + ExpressionTokens(index) + [Tok(BracketRight)]
    case StructureAccess(base, fieldName) => OperandTokens(base) + [Tok(Period), IdentToken(fieldName)]
    case CallableExpression(target, arguments) =>
      CalleeTokens(target) + [Tok(ParenLeft)] + ArgumentsTokens(arguments) + [Tok(ParenRight)]
    case UnaryExpression(operand, _) => [Tok(Minus)] + OperandTokens(operand)
  }

  /** The operand of a postfix or unary operator: a unary expression there is
      written in parentheses. */
  function OperandTokens(e: Expression): seq<Token>
    decreases e, 2
  {
    if e.UnaryExpression? then [Tok(ParenLeft)] + ExpressionTokens(e) + [Tok(ParenRight)]
    else ExpressionTokens(e)
  }

  /** Arguments separated by commas. */
  function ArgumentsTokens(args: seq<Expression>): seq<Token>
    decreases args
  {
    if |args| == 0 then []
    else if |args| == 1 then ExpressionTokens(args[0])
    else ExpressionTokens(args[0]) + [Tok(Comma)] + ArgumentsTokens(args[1..])
  }

  // ---------------------------------------------------------------- what the parser can produce

  /** Type names the parser produces: no element count without an element type,
      and a plain name is never one of the twelve parameterized bases. */
  predicate WellFormedType(t: TypeName)
    decreases t, 1
  {
    match t
    case NamedTypeName(name) => TypeNames.StringViewToKind(name).None?
    case ParameterizedTypeName(_, element) => WellFormedType(element)
    case ArrayTypeName(None, count) => count.None?
    case ArrayTypeName(Some(element), None) => WellFormedType(element)
    case ArrayTypeName(Some(element), Some(count)) => WellFormedType(element) && WellFormedExpression(count)
  }

  /** parsePrimaryExpression has no case for the scalar keywords, so `i32(...)` is not a callable. */
  predicate WellFormedCallee(t: TypeName)
    decreases t, 2
  {
    WellFormedType(t) && (t.NamedTypeName? ==> !IsKeywordTypeName(t.name))
  }

  /** Expressions the parser produces: every kind but Float32Literal, which only
      later passes create. */
  predicate WellFormedExpression(e: Expression)
    decreases e, 1
  {
    match e
    case Float32Literal(_) => false
    case ArrayAccess(base, index) => WellFormedExpression(base) && WellFormedExpression(index)
    case StructureAccess(base, _) => WellFormedExpression(base)
    case CallableExpression(target, arguments) => WellFormedCallee(target) && WellFormedArguments(arguments)
    case UnaryExpression(operand, _) => WellFormedExpression(operand)
    case _ => true
  }

  predicate WellFormedArguments(args: seq<Expression>)
    decreases args
  {
    |args| == 0 || (WellFormedExpression(args[0]) && WellFormedArguments(args[1..]))
  }

  /** After an identifier, the tokens that make parsePrimaryExpression read a callee. */
  predicate OpensCall(k: TokenType)
  {
    k == LT || k == ParenLeft
  }

  /** Tokens that can follow a complete expression without being taken into it. */
  predicate EndsExpression(k: TokenType)
  {
    k != BracketLeft && k != Period && k != LT && k != ParenLeft
  }

  lemma {:induction false} ExpressionFirstToken(e: Expression)
    ensures |ExpressionTokens(e)| > 0
    ensures ExpressionTokens(e)[0].kind != ParenRight
    ensures ExpressionTokens(e)[0].kind == Minus <==> e.UnaryExpression?
    decreases e, 0
  {
    match e
    case ArrayAccess(base, index) =>
      OperandFirstToken(base);
      ArrayAccessFirstToken(base, index);
    case StructureAccess(base, fieldName) =>
      OperandFirstToken(base);
      StructureAccessFirstToken(base, fieldName);
    case CallableExpression(target, arguments) =>
      CalleeFirstToken(target);
      CallFirstToken(target, arguments);
    case UnaryExpression(operand, op) =>
      UnaryFirstToken(operand, op);
    case _ =>
  }

  /** `base [ index ]` starts where its operand starts. */
  lemma ArrayAccessFirstToken(base: Expression, index: Expression)
    requires |OperandTokens(base)| > 0
    ensures |ExpressionTokens(ArrayAccess(base, index))| > 0
    ensures ExpressionTokens(ArrayAccess(base, index))[0] == OperandTokens(base)[0]
  {
    var rest := [Tok(BracketLeft)] + ExpressionTokens(index) + [Tok(BracketRight)];
    assert ExpressionTokens(ArrayAccess(base, index)) == OperandTokens(base) + rest;
    HeadOfConcat(OperandTokens(base), rest);
  }

  /** `base . fieldName` starts where its operand starts. */
  lemma StructureAccessFirstToken(base: Expression, fieldName: string)
    requires |OperandTokens(base)| > 0
    ensures |ExpressionTokens(StructureAccess(base, fieldName))| > 0
    ensures ExpressionTokens(StructureAccess(base, fieldName))[0] == OperandTokens(base)[0]
  {
    HeadOfConcat(OperandTokens(base), [Tok(Period), IdentToken(fieldName)]);
  }

  /** A call starts where its callee starts. */
  lemma CallFirstToken(target: TypeName, arguments: seq<Expression>)
    requires |CalleeTokens(target)| > 0
    ensures |ExpressionTokens(CallableExpression(target, arguments))| > 0
    ensures ExpressionTokens(CallableExpression(target, arguments))[0] == CalleeTokens(target)[0]
  {
    var rest := [Tok(ParenLeft)] + ArgumentsTokens(arguments) + [Tok(ParenRight)];
    assert ExpressionTokens(CallableExpression(target, arguments)) == CalleeTokens(target) + rest;
    HeadOfConcat(CalleeTokens(target), rest);
  }

  /** A unary expression starts with `-`. */
  lemma UnaryFirstToken(operand: Expression, op: UnaryOperation)
    ensures |ExpressionTokens(UnaryExpression(operand, op))| > 0
    ensures ExpressionTokens(UnaryExpression(operand, op))[0] == Tok(Minus)
  {
    HeadOfConcat([Tok(Minus)], OperandTokens(operand));
  }

  /** An operand starts with `(` or with the first token of the expression. */
  lemma {:induction false} OperandFirstToken(e: Expression)
    ensures |OperandTokens(e)| > 0
    ensures OperandTokens(e)[0].kind != ParenRight && OperandTokens(e)[0].kind != Minus
    decreases e, 1
  {
    if e.UnaryExpression? {
      HeadOfConcat([Tok(ParenLeft)], ExpressionTokens(e) + [Tok(ParenRight)]);
      assert OperandTokens(e) == [Tok(ParenLeft)] + (ExpressionTokens(e) + [Tok(ParenRight)]);
    } else {
      ExpressionFirstToken(e);
    }
  }

  /** A callee starts with an identifier or with `array`. */
  lemma CalleeFirstToken(t: TypeName)
    ensures |CalleeTokens(t)| > 0
    ensures CalleeTokens(t)[0].kind == Identifier || CalleeTokens(t)[0].kind == KeywordArray
  {
    match t
    case NamedTypeName(_) =>
    case ParameterizedTypeName(base, element) =>
      var head := [IdentToken(TypeDecl.BaseName(base)), Tok(LT)];
      assert CalleeTokens(t) == head + (TypeTokens(element) + [Tok(GT)]);
      HeadOfConcat(head, TypeTokens(element) + [Tok(GT)]);
    case ArrayTypeName(None, _) =>
    case ArrayTypeName(Some(element), _) =>
      var head := [Tok(KeywordArray), Tok(LT)];
      assert CalleeTokens(t)[0] == TypeTokens(t)[0];
      assert TypeTokens(t)[..2] == head;
  }

  lemma HeadOfConcat(a: seq<Token>, b: seq<Token>)
    requires |a| > 0
    ensures (a + b)[0] == a[0]
  {}

  // ---------------------------------------------------------------- single grammar steps

  lemma TypeNameKeywordStep(toks: seq<Token>, pos: nat, name: string)
    requires pos <= |toks| && IsKeywordTypeName(name) && At(toks, pos) == NameToken(name)
    ensures ParseTypeName(toks, pos) == Parsed(Ok(NamedTypeName(name)), pos + 1)
  {}

  lemma TypeNameIdentifierStep(toks: seq<Token>, pos: nat, name: string)
    requires pos <= |toks| && At(toks, pos) == IdentToken(name)
    ensures pos < |toks| && ParseTypeName(toks, pos) == ParseTypeNameAfterIdentifier(toks, pos + 1, name)
  {}

  lemma TypeNameArrayStep(toks: seq<Token>, pos: nat)
    requires pos <= |toks| && At(toks, pos).kind == KeywordArray
    ensures ParseTypeName(toks, pos) == ParseArrayTypeName(toks, pos)
  {}

  lemma NamedStep(toks: seq<Token>, pos: nat, name: string)
    requires pos <= |toks| && TypeNames.StringViewToKind(name).None?
    ensures ParseTypeNameAfterIdentifier(toks, pos, name) == Parsed(Ok(NamedTypeName(name)), pos)
  {}

  /** `name < element >` with the identifier at `pos` and the `>` at `p`. */
  lemma ParameterizedStep(toks: seq<Token>, pos: nat, name: string, base: Base, element: TypeName, p: nat)
    requires pos < |toks| && TypeNames.StringViewToKind(name) == Some(base)
    requires At(toks, pos + 1).kind == LT
    requires ParseTypeName(toks, pos + 2) == Parsed(Ok(element), p)
    requires At(toks, p).kind == GT
    ensures ParseTypeNameAfterIdentifier(toks, pos + 1, name) == Parsed(Ok(ParameterizedTypeName(base, element)), p + 1)
  {}

  lemma BareArrayStep(toks: seq<Token>, pos: nat)
    requires pos <= |toks| && At(toks, pos).kind == KeywordArray && At(toks, pos + 1).kind != LT
    ensures ParseArrayTypeName(toks, pos) == Parsed(Ok(ArrayTypeName(None, None)), pos + 1)
  {}

  lemma ArrayElementStep(toks: seq<Token>, pos: nat, element: TypeName, p: nat)
    requires pos <= |toks| && At(toks, pos).kind == KeywordArray && At(toks, pos + 1).kind == LT
    requires ParseTypeName(toks, pos + 2) == Parsed(Ok(element), p)
    requires At(toks, p).kind == GT
    ensures ParseArrayTypeName(toks, pos) == Parsed(Ok(ArrayTypeName(Some(element), None)), p + 1)
  {}

  lemma ArrayCountedStep(toks: seq<Token>, pos: nat, element: TypeName, count: Expression, p: nat, q: nat)
    requires pos <= |toks| && At(toks, pos).kind == KeywordArray && At(toks, pos + 1).kind == LT
    requires ParseTypeName(toks, pos + 2) == Parsed(Ok(element), p)
    requires At(toks, p).kind == Comma
    requires ParseAdditiveExpression(toks, p + 1) == Parsed(Ok(count), q)
    requires At(toks, q).kind == GT
    ensures ParseArrayTypeName(toks, pos) == Parsed(Ok(ArrayTypeName(Some(element), Some(count))), q + 1)
  {}

  lemma ExpressionStep(toks: seq<Token>, pos: nat)
    requires pos <= |toks|
    ensures ParseExpression(toks, pos) == ParseUnaryExpression(toks, pos)
  {
    assert ParseRelationalExpression(toks, pos) == ParseShiftExpression(toks, pos);
    assert ParseShiftExpression(toks, pos) == ParseAdditiveExpression(toks, pos);
    assert ParseAdditiveExpression(toks, pos) == ParseMultiplicativeExpression(toks, pos);
  }

  lemma AdditiveStep(toks: seq<Token>, pos: nat)
    requires pos <= |toks|
    ensures ParseAdditiveExpression(toks, pos) == ParseUnaryExpression(toks, pos)
  {}

  lemma NegateStep(toks: seq<Token>, pos: nat, operand: Expression, p: nat)
    requires pos <= |toks| && At(toks, pos).kind == Minus
    requires ParseSingularExpression(toks, pos + 1) == Parsed(Ok(operand), p)
    ensures ParseUnaryExpression(toks, pos) == Parsed(Ok(UnaryExpression(operand, Negate)), p)
  {}

  lemma NotNegateStep(toks: seq<Token>, pos: nat)
    requires pos <= |toks| && At(toks, pos).kind != Minus
    ensures ParseUnaryExpression(toks, pos) == ParseSingularExpression(toks, pos)
  {}

  lemma SingularStep(toks: seq<Token>, pos: nat, base: Expression, p: nat)
    requires pos <= |toks| && ParsePrimaryExpression(toks, pos) == Parsed(Ok(base), p)
    ensures ParseSingularExpression(toks, pos) == ParsePostfixExpression(toks, p, base)
  {}

  lemma IndexStep(toks: seq<Token>, pos: nat, expr: Expression, index: Expression, p: nat)
    requires pos <= |toks| && At(toks, pos).kind == BracketLeft
    requires ParseExpression(toks, pos + 1) == Parsed(Ok(index), p)
    requires At(toks, p).kind == BracketRight
    ensures ParsePostfixExpression(toks, pos, expr) == ParsePostfixExpression(toks, p + 1, ArrayAccess(expr, index))
  {}

  lemma FieldStep(toks: seq<Token>, pos: nat, expr: Expression, fieldName: string)
    requires pos <= |toks| && At(toks, pos).kind == Period && At(toks, pos + 1) == IdentToken(fieldName)
    ensures ParsePostfixExpression(toks, pos, expr) == ParsePostfixExpression(toks, pos + 2, StructureAccess(expr, fieldName))
  {}

  lemma PostfixEndStep(toks: seq<Token>, pos: nat, expr: Expression)
    requires pos <= |toks| && EndsExpression(At(toks, pos).kind)
    ensures ParsePostfixExpression(toks, pos, expr) == Parsed(Ok(expr), pos)
  {}

  lemma ParenthesizedStep(toks: seq<Token>, pos: nat, e: Expression, p: nat)
    requires pos <= |toks| && At(toks, pos).kind == ParenLeft
    requires ParseExpression(toks, pos + 1) == Parsed(Ok(e), p)
    requires At(toks, p).kind == ParenRight
    ensures ParsePrimaryExpression(toks, pos) == Parsed(Ok(e), p + 1)
  {}

  lemma LiteralStep(toks: seq<Token>, pos: nat, e: Expression)
    requires pos <= |toks|
    requires e.BoolLiteral? || e.AbstractIntLiteral? || e.Int32Literal? || e.Uint32Literal? || e.AbstractFloatLiteral?
    requires At(toks, pos) == ExpressionTokens(e)[0]
    ensures ParsePrimaryExpression(toks, pos) == Parsed(Ok(e), pos + 1)
  {}

  lemma IdentifierStep(toks: seq<Token>, pos: nat, name: string)
    requires pos <= |toks| && At(toks, pos) == IdentToken(name) && !OpensCall(At(toks, pos + 1).kind)
    ensures ParsePrimaryExpression(toks, pos) == Parsed(Ok(IdentifierExpression(name)), pos + 1)
  {}

  lemma CallStep(toks: seq<Token>, pos: nat, name: string, target: TypeName, p: nat, args: seq<Expression>, q: nat)
    requires pos <= |toks| && At(toks, pos) == IdentToken(name) && OpensCall(At(toks, pos + 1).kind)
    requires ParseTypeNameAfterIdentifier(toks, pos + 1, name) == Parsed(Ok(target), p)
    requires ParseArgumentExpressionList(toks, p) == Parsed(Ok(args), q)
    ensures ParsePrimaryExpression(toks, pos) == Parsed(Ok(CallableExpression(target, args)), q)
  {}

  lemma ArrayCallStep(toks: seq<Token>, pos: nat, target: TypeName, p: nat, args: seq<Expression>, q: nat)
    requires pos <= |toks| && At(toks, pos).kind == KeywordArray
    requires ParseArrayTypeName(toks, pos) == Parsed(Ok(target), p)
    requires ParseArgumentExpressionList(toks, p) == Parsed(Ok(args), q)
    ensures ParsePrimaryExpression(toks, pos) == Parsed(Ok(CallableExpression(target, args)), q)
  {}

  lemma ArgumentListStep(toks: seq<Token>, pos: nat, args: seq<Expression>, p: nat)
    requires pos <= |toks| && At(toks, pos).kind == ParenLeft
    requires ParseArgumentsLoop(toks, pos + 1, []) == Parsed(Ok(args), p)
    requires At(toks, p).kind == ParenRight
    ensures ParseArgumentExpressionList(toks, pos) == Parsed(Ok(args), p + 1)
  {}

  lemma ArgumentsEndStep(toks: seq<Token>, pos: nat, acc: seq<Expression>)
    requires pos <= |toks| && At(toks, pos).kind == ParenRight
    ensures ParseArgumentsLoop(toks, pos, acc) == Parsed(Ok(acc), pos)
  {}

  lemma ArgumentStep(toks: seq<Token>, pos: nat, acc: seq<Expression>, e: Expression, p: nat)
    requires pos <= |toks| && At(toks, pos).kind != ParenRight
    requires ParseExpression(toks, pos) == Parsed(Ok(e), p)
    requires At(toks, p).kind == ParenRight
    ensures ParseArgumentsLoop(toks, pos, acc) == ParseArgumentsLoop(toks, p, acc + [e])
  {}

  lemma ArgumentCommaStep(toks: seq<Token>, pos: nat, acc: seq<Expression>, e: Expression, p: nat)
    requires pos <= |toks| && At(toks, pos).kind != ParenRight
    requires ParseExpression(toks, pos) == Parsed(Ok(e), p)
    requires At(toks, p).kind == Comma
    ensures ParseArgumentsLoop(toks, pos, acc) == ParseArgumentsLoop(toks, p + 1, acc + [e])
  {}

  // ---------------------------------------------------------------- type names

  /** parseTypeName reads back the tokens of any well-formed type name, which
      occupy the positions from `pos` up to `end`. */
  lemma {:induction false} TypeRoundTrip(toks: seq<Token>, pos: nat, t: TypeName, end: nat)
    requires WellFormedType(t)
    requires Occurs(toks, pos, TypeTokens(t)) && end == pos + |TypeTokens(t)|
    requires At(toks, end).kind != LT
    ensures ParseTypeName(toks, pos) == Parsed(Ok(t), end)
    decreases t, 3
  {
    OccursToken(toks, pos, TypeTokens(t), 0);
    match t
    case NamedTypeName(name) =>
      if IsKeywordTypeName(name) {
        TypeNameKeywordStep(toks, pos, name);
      } else {
        TypeNameIdentifierStep(toks, pos, name);
        NamedStep(toks, pos + 1, name);
      }
    case ParameterizedTypeName(base, element) =>
      ParameterizedRoundTrip(toks, pos, base, element, end);
      TypeNameIdentifierStep(toks, pos, TypeDecl.BaseName(base));
    case ArrayTypeName(_, _) =>
      TypeNameArrayStep(toks, pos);
      ArrayTypeRoundTrip(toks, pos, t, end);
  }

  /** After the identifier of `base<element>`, parseTypeNameAfterIdentifier reads
      back the parameter list and recognises the base. */
  lemma {:induction false} ParameterizedRoundTrip(toks: seq<Token>, pos: nat, base: Base, element: TypeName, end: nat)
    requires WellFormedType(element)
    requires Occurs(toks, pos, TypeTokens(ParameterizedTypeName(base, element)))
    requires end == pos + |TypeTokens(ParameterizedTypeName(base, element))|
    ensures At(toks, pos) == IdentToken(TypeDecl.BaseName(base)) && At(toks, pos + 1) == Tok(LT)
    ensures ParseTypeNameAfterIdentifier(toks, pos + 1, TypeDecl.BaseName(base))
         == Parsed(Ok(ParameterizedTypeName(base, element)), end)
    decreases ParameterizedTypeName(base, element), 0
  {
    var name := TypeDecl.BaseName(base);
    var p := pos + 2 + |TypeTokens(element)|;
    ParameterizedLayout(toks, pos, base, element, p, end);
    TypeDecl.BaseNameRoundTrip(base, name);
    TypeRoundTrip(toks, pos + 2, element, p);
    ParameterizedStep(toks, pos, name, base, element, p);
  }

  /** Where the pieces of `base < element >` sit: the `>` at `p`. */
  lemma ParameterizedLayout(toks: seq<Token>, pos: nat, base: Base, element: TypeName, p: nat, end: nat)
    requires p == pos + 2 + |TypeTokens(element)| && end == pos + |TypeTokens(ParameterizedTypeName(base, element))|
    requires Occurs(toks, pos, TypeTokens(ParameterizedTypeName(base, element)))
    ensures pos + 1 < |toks| && At(toks, pos) == IdentToken(TypeDecl.BaseName(base)) && At(toks, pos + 1) == Tok(LT)
    ensures Occurs(toks, pos + 2, TypeTokens(element)) && At(toks, p) == Tok(GT) && end == p + 1
  {
    Wrapped2(toks, pos, IdentToken(TypeDecl.BaseName(base)), Tok(LT), TypeTokens(element), Tok(GT), p, end);
  }

  /** parseArrayTypeName reads back each of the three forms of an array type. */
  lemma {:induction false} ArrayTypeRoundTrip(toks: seq<Token>, pos: nat, t: TypeName, end: nat)
    requires t.ArrayTypeName? && WellFormedType(t)
    requires Occurs(toks, pos, TypeTokens(t)) && end == pos + |TypeTokens(t)|
    requires At(toks, end).kind != LT
    ensures ParseArrayTypeName(toks, pos) == Parsed(Ok(t), end)
    decreases t, 2
  {
    OccursToken(toks, pos, TypeTokens(t), 0);
    match t
    case ArrayTypeName(None, _) =>
      BareArrayStep(toks, pos);
    case ArrayTypeName(Some(element), None) =>
      ElementArrayRoundTrip(toks, pos, element, end);
    case ArrayTypeName(Some(element), Some(count)) =>
      CountedArrayRoundTrip(toks, pos, element, count, end);
  }

  /** `array < element >` */
  lemma {:induction false} ElementArrayRoundTrip(toks: seq<Token>, pos: nat, element: TypeName, end: nat)
    requires WellFormedType(element)
    requires Occurs(toks, pos, TypeTokens(ArrayTypeName(Some(element), None)))
    requires end == pos + |TypeTokens(ArrayTypeName(Some(element), None))|
    ensures ParseArrayTypeName(toks, pos) == Parsed(Ok(ArrayTypeName(Some(element), None)), end)
    decreases ArrayTypeName(Some(element), None), 0
  {
    var p := pos + 2 + |TypeTokens(element)|;
    ElementArrayLayout(toks, pos, element, p, end);
    TypeRoundTrip(toks, pos + 2, element, p);
    ArrayElementStep(toks, pos, element, p);
  }

  /** Where the pieces of `array < element >` sit: the `>` at `p`. */
  lemma ElementArrayLayout(toks: seq<Token>, pos: nat, element: TypeName, p: nat, end: nat)
    requires p == pos + 2 + |TypeTokens(element)| && end == pos + |TypeTokens(ArrayTypeName(Some(element), None))|
    requires Occurs(toks, pos, TypeTokens(ArrayTypeName(Some(element), None)))
    ensures pos + 1 < |toks| && At(toks, pos).kind == KeywordArray && At(toks, pos + 1).kind == LT
    ensures Occurs(toks, pos + 2, TypeTokens(element)) && At(toks, p).kind == GT && end == p + 1
  {
    Wrapped2(toks, pos, Tok(KeywordArray), Tok(LT), TypeTokens(element), Tok(GT), p, end);
  }

  /** `array < element , count >` */
  lemma {:induction false} CountedArrayRoundTrip(toks: seq<Token>, pos: nat, element: TypeName, count: Expression, end: nat)
    requires WellFormedType(element) && WellFormedExpression(count)
    requires Occurs(toks, pos, TypeTokens(ArrayTypeName(Some(element), Some(count))))
    requires end == pos + |TypeTokens(ArrayTypeName(Some(element), Some(count)))|
    ensures ParseArrayTypeName(toks, pos) == Parsed(Ok(ArrayTypeName(Some(element), Some(count))), end)
    decreases ArrayTypeName(Some(element), Some(count)), 1
  {
    var p := pos + 2 + |TypeTokens(element)|;
    var q := p + 1 + |ExpressionTokens(count)|;
    CountedArrayLayout(toks, pos, element, count, p, q, end);
    CountedArrayParts(toks, pos, element, count, p, q, end);
  }

  /** `array < element , count >` once its pieces have been located: the comma
      at `p` and the closing `>` at `q`. */
  lemma {:induction false} CountedArrayParts(toks: seq<Token>, pos: nat, element: TypeName, count: Expression, p: nat, q: nat, end: nat)
    requires WellFormedType(element) && WellFormedExpression(count)
    requires p == pos + 2 + |TypeTokens(element)| && q == p + 1 + |ExpressionTokens(count)| && end == q + 1
    requires At(toks, pos).kind == KeywordArray && At(toks, pos + 1).kind == LT
    requires Occurs(toks, pos + 2, TypeTokens(element)) && At(toks, p).kind == Comma
    requires Occurs(toks, p + 1, ExpressionTokens(count)) && At(toks, q).kind == GT
    ensures ParseArrayTypeName(toks, pos) == Parsed(Ok(ArrayTypeName(Some(element), Some(count))), end)
    decreases ArrayTypeName(Some(element), Some(count)), 0
  {
    TypeRoundTrip(toks, pos + 2, element, p);
    CountRoundTrip(toks, p + 1, count, q);
    ArrayCountedStep(toks, pos, element, count, p, q);
  }

  /** The element count of an array type is read back as an additive expression. */
  lemma {:induction false} CountRoundTrip(toks: seq<Token>, pos: nat, e: Expression, end: nat)
    requires WellFormedExpression(e)
    requires Occurs(toks, pos, ExpressionTokens(e)) && end == pos + |ExpressionTokens(e)|
    requires At(toks, end).kind == GT
    ensures ParseAdditiveExpression(toks, pos) == Parsed(Ok(e), end)
    decreases e, 7
  {
    AdditiveStep(toks, pos);
    UnaryRoundTrip(toks, pos, e, end);
  }

  /** Where the pieces of `array < element , count >` sit: the comma at `p`, the
      closing `>` at `q`, and the type ends at `end`. */
  lemma CountedArrayLayout(toks: seq<Token>, pos: nat, element: TypeName, count: Expression, p: nat, q: nat, end: nat)
    requires p == pos + 2 + |TypeTokens(element)| && q == p + 1 + |ExpressionTokens(count)|
    requires end == pos + |TypeTokens(ArrayTypeName(Some(element), Some(count)))|
    requires Occurs(toks, pos, TypeTokens(ArrayTypeName(Some(element), Some(count))))
    ensures At(toks, pos).kind == KeywordArray && At(toks, pos + 1).kind == LT
    ensures Occurs(toks, pos + 2, TypeTokens(element)) && At(toks, p).kind == Comma
    ensures Occurs(toks, p + 1, ExpressionTokens(count)) && At(toks, q).kind == GT
    ensures end == q + 1
  {
    CountedLayout(toks, pos, TypeTokens(element), ExpressionTokens(count), p, q);
  }

  /** `array < inner , countTokens >`, for any token sequences. */
  lemma CountedLayout(toks: seq<Token>, pos: nat, inner: seq<Token>, countTokens: seq<Token>, p: nat, q: nat)
    requires p == pos + 2 + |inner| && q == p + 1 + |countTokens|
    requires Occurs(toks, pos, [Tok(KeywordArray), Tok(LT)] + inner + [Tok(Comma)] + countTokens + [Tok(GT)])
    ensures At(toks, pos).kind == KeywordArray && At(toks, pos + 1).kind == LT
    ensures Occurs(toks, pos + 2, inner) && At(toks, p).kind == Comma
    ensures Occurs(toks, p + 1, countTokens) && At(toks, q).kind == GT
  {
    var head := [Tok(KeywordArray), Tok(LT)] + inner + [Tok(Comma)];
    OccursConcat3(toks, pos, head, countTokens, [Tok(GT)]);
    OccursToken(toks, q, [Tok(GT)], 0);
    Wrapped2(toks, pos, Tok(KeywordArray), Tok(LT), inner, Tok(Comma), p, p + 1);
  }

  // ---------------------------------------------------------------- expressions

  /** parseExpression reads back the tokens of any well-formed expression, which
      occupy the positions from `pos` up to `end`, when the token at `end`
      cannot continue it. */
  lemma {:induction false} ExpressionRoundTrip(toks: seq<Token>, pos: nat, e: Expression, end: nat)
    requires WellFormedExpression(e)
    requires Occurs(toks, pos, ExpressionTokens(e)) && end == pos + |ExpressionTokens(e)|
    requires EndsExpression(At(toks, end).kind)
    ensures ParseExpression(toks, pos) == Parsed(Ok(e), end)
    decreases e, 7
  {
    ExpressionStep(toks, pos);
    UnaryRoundTrip(toks, pos, e, end);
  }

  lemma {:induction false} UnaryRoundTrip(toks: seq<Token>, pos: nat, e: Expression, end: nat)
    requires WellFormedExpression(e)
    requires Occurs(toks, pos, ExpressionTokens(e)) && end == pos + |ExpressionTokens(e)|
    requires EndsExpression(At(toks, end).kind)
    ensures ParseUnaryExpression(toks, pos) == Parsed(Ok(e), end)
    decreases e, 6
  {
    if e.UnaryExpression? {
      assert e == UnaryExpression(e.operand, Negate);
      NegatedRoundTrip(toks, pos, e.operand, end);
    } else {
      PlainRoundTrip(toks, pos, e, end);
    }
  }

  /** `- operand` */
  lemma {:induction false} NegatedRoundTrip(toks: seq<Token>, pos: nat, operand: Expression, end: nat)
    requires WellFormedExpression(operand)
    requires Occurs(toks, pos, ExpressionTokens(UnaryExpression(operand, Negate)))
    requires end == pos + |ExpressionTokens(UnaryExpression(operand, Negate))|
    requires EndsExpression(At(toks, end).kind)
    ensures ParseUnaryExpression(toks, pos) == Parsed(Ok(UnaryExpression(operand, Negate)), end)
    decreases UnaryExpression(operand, Negate), 5
  {
    Negated(toks, pos, OperandTokens(operand), end);
    OperandPrefix(toks, pos + 1, operand, end);
    PostfixEndStep(toks, end, operand);
    NegateStep(toks, pos, operand, end);
  }

  /** An expression that is not unary. */
  lemma {:induction false} PlainRoundTrip(toks: seq<Token>, pos: nat, e: Expression, end: nat)
    requires WellFormedExpression(e) && !e.UnaryExpression?
    requires Occurs(toks, pos, ExpressionTokens(e)) && end == pos + |ExpressionTokens(e)|
    requires EndsExpression(At(toks, end).kind)
    ensures ParseUnaryExpression(toks, pos) == Parsed(Ok(e), end)
    decreases e, 5
  {
    PlainStart(toks, pos, e);
    PostfixPrefix(toks, pos, e, end);
    PostfixEndStep(toks, end, e);
    NotNegateStep(toks, pos);
  }

  /** An expression that is not unary does not start with `-`. */
  lemma PlainStart(toks: seq<Token>, pos: nat, e: Expression)
    requires Occurs(toks, pos, ExpressionTokens(e)) && !e.UnaryExpression?
    ensures pos < |toks| && At(toks, pos).kind != Minus
  {
    ExpressionFirstToken(e);
    OccursToken(toks, pos, ExpressionTokens(e), 0);
  }

  /** Parsing a singular expression over an operand's tokens, which end at `end`,
      leaves the parser in its postfix loop at `end`, holding that operand. */
  lemma {:induction false} OperandPrefix(toks: seq<Token>, pos: nat, e: Expression, end: nat)
    requires WellFormedExpression(e)
    requires Occurs(toks, pos, OperandTokens(e)) && end == pos + |OperandTokens(e)|
    requires !e.UnaryExpression? ==> !OpensCall(At(toks, end).kind)
    ensures ParseSingularExpression(toks, pos) == ParsePostfixExpression(toks, end, e)
    decreases e, 8
  {
    if e.UnaryExpression? {
      var p := pos + 1 + |ExpressionTokens(e)|;
      Wrapped(toks, pos, Tok(ParenLeft), ExpressionTokens(e), Tok(ParenRight), p, end);
      ExpressionRoundTrip(toks, pos + 1, e, p);
      ParenthesizedStep(toks, pos, e, p);
      SingularStep(toks, pos, e, end);
    } else {
      PostfixPrefix(toks, pos, e, end);
    }
  }

  /** The same for an expression that is not unary, written without parentheses. */
  lemma {:induction false} PostfixPrefix(toks: seq<Token>, pos: nat, e: Expression, end: nat)
    requires WellFormedExpression(e) && !e.UnaryExpression?
    requires Occurs(toks, pos, ExpressionTokens(e)) && end == pos + |ExpressionTokens(e)|
    requires !OpensCall(At(toks, end).kind)
    ensures ParseSingularExpression(toks, pos) == ParsePostfixExpression(toks, end, e)
    decreases e, 4
  {
    if e.ArrayAccess? {
      IndexRoundTrip(toks, pos, e.base, e.index, end);
    } else if e.StructureAccess? {
      FieldRoundTrip(toks, pos, e.base, e.fieldName, end);
    } else {
      PrimaryRoundTrip(toks, pos, e, end);
      SingularStep(toks, pos, e, end);
    }
  }

  /** `base [ index ]` folds into one ArrayAccess node. */
  lemma {:induction false} IndexRoundTrip(toks: seq<Token>, pos: nat, base: Expression, index: Expression, end: nat)
    requires WellFormedExpression(base) && WellFormedExpression(index)
    requires Occurs(toks, pos, ExpressionTokens(ArrayAccess(base, index)))
    requires end == pos + |ExpressionTokens(ArrayAccess(base, index))|
    ensures ParseSingularExpression(toks, pos) == ParsePostfixExpression(toks, end, ArrayAccess(base, index))
    decreases ArrayAccess(base, index), 2
  {
    var p := pos + |OperandTokens(base)|;
    var q := p + 1 + |ExpressionTokens(index)|;
    IndexLayout(toks, pos, base, index, p, q, end);
    OperandPrefix(toks, pos, base, p);
    ExpressionRoundTrip(toks, p + 1, index, q);
    IndexStep(toks, p, base, index, q);
  }

  /** Where the pieces of `base [ index ]` sit: the `[` at `p` and the `]` at `q`. */
  lemma IndexLayout(toks: seq<Token>, pos: nat, base: Expression, index: Expression, p: nat, q: nat, end: nat)
    requires p == pos + |OperandTokens(base)| && q == p + 1 + |ExpressionTokens(index)|
    requires end == pos + |ExpressionTokens(ArrayAccess(base, index))|
    requires Occurs(toks, pos, ExpressionTokens(ArrayAccess(base, index)))
    ensures Occurs(toks, pos, OperandTokens(base)) && p < |toks| && At(toks, p).kind == BracketLeft
    ensures Occurs(toks, p + 1, ExpressionTokens(index)) && At(toks, q).kind == BracketRight && end == q + 1
  {
    Enclosed(toks, pos, OperandTokens(base), Tok(BracketLeft), ExpressionTokens(index), Tok(BracketRight), p, q, end);
  }

  /** `base . fieldName` folds into one StructureAccess node. */
  lemma {:induction false} FieldRoundTrip(toks: seq<Token>, pos: nat, base: Expression, fieldName: string, end: nat)
    requires WellFormedExpression(base)
    requires Occurs(toks, pos, ExpressionTokens(StructureAccess(base, fieldName)))
    requires end == pos + |ExpressionTokens(StructureAccess(base, fieldName))|
    ensures ParseSingularExpression(toks, pos) == ParsePostfixExpression(toks, end, StructureAccess(base, fieldName))
    decreases StructureAccess(base, fieldName), 2
  {
    var p := pos + |OperandTokens(base)|;
    FieldLayout(toks, pos, base, fieldName, p, end);
    OperandPrefix(toks, pos, base, p);
    FieldStep(toks, p, base, fieldName);
  }

  /** Where the pieces of `base . fieldName` sit: the `.` at `p`. */
  lemma FieldLayout(toks: seq<Token>, pos: nat, base: Expression, fieldName: string, p: nat, end: nat)
    requires p == pos + |OperandTokens(base)| && end == pos + |ExpressionTokens(StructureAccess(base, fieldName))|
    requires Occurs(toks, pos, ExpressionTokens(StructureAccess(base, fieldName)))
    ensures Occurs(toks, pos, OperandTokens(base)) && p + 1 < |toks|
    ensures At(toks, p).kind == Period && At(toks, p + 1) == IdentToken(fieldName) && end == p + 2
  {
    Dotted(toks, pos, OperandTokens(base), fieldName, p, end);
  }

  /** parsePrimaryExpression reads back a literal, an identifier or a call. */
  lemma {:induction false} PrimaryRoundTrip(toks: seq<Token>, pos: nat, e: Expression, end: nat)
    requires WellFormedExpression(e)
    requires !e.UnaryExpression? && !e.ArrayAccess? && !e.StructureAccess?
    requires Occurs(toks, pos, ExpressionTokens(e)) && end == pos + |ExpressionTokens(e)|
    requires !OpensCall(At(toks, end).kind)
    ensures pos <= |toks| && ParsePrimaryExpression(toks, pos) == Parsed(Ok(e), end)
    decreases e, 3
  {
    OccursToken(toks, pos, ExpressionTokens(e), 0);
    if e.CallableExpression? {
      CallRoundTrip(toks, pos, e.target, e.arguments, end);
    } else if e.IdentifierExpression? {
      IdentifierStep(toks, pos, e.identifier);
    } else {
      LiteralStep(toks, pos, e);
    }
  }

  /** A call `target ( arguments )`: the callee is read back as a type name,
      then the argument list. */
  lemma {:induction false} CallRoundTrip(toks: seq<Token>, pos: nat, target: TypeName, arguments: seq<Expression>, end: nat)
    requires WellFormedExpression(CallableExpression(target, arguments))
    requires Occurs(toks, pos, ExpressionTokens(CallableExpression(target, arguments)))
    requires end == pos + |ExpressionTokens(CallableExpression(target, arguments))|
    ensures ParsePrimaryExpression(toks, pos) == Parsed(Ok(CallableExpression(target, arguments)), end)
    decreases CallableExpression(target, arguments), 2
  {
    var p := pos + |CalleeTokens(target)|;
    var q := p + 1 + |ArgumentsTokens(arguments)|;
    Enclosed(toks, pos, CalleeTokens(target), Tok(ParenLeft), ArgumentsTokens(arguments), Tok(ParenRight), p, q, end);
    if target.ArrayTypeName? {
      ArrayCallParts(toks, pos, target, arguments, p, q, end);
    } else {
      NamedCallParts(toks, pos, target, arguments, p, q, end);
    }
  }

  /** `array<...>( arguments )` once its pieces have been located: the `(` at
      `p` and the `)` at `q`. */
  lemma {:induction false} ArrayCallParts(toks: seq<Token>, pos: nat, target: TypeName, arguments: seq<Expression>,
                                          p: nat, q: nat, end: nat)
    requires target.ArrayTypeName? && WellFormedType(target) && WellFormedArguments(arguments)
    requires Occurs(toks, pos, CalleeTokens(target)) && p == pos + |CalleeTokens(target)|
    requires At(toks, p) == Tok(ParenLeft) && Occurs(toks, p + 1, ArgumentsTokens(arguments))
    requires q == p + 1 + |ArgumentsTokens(arguments)| && At(toks, q) == Tok(ParenRight) && end == q + 1
    ensures ParsePrimaryExpression(toks, pos) == Parsed(Ok(CallableExpression(target, arguments)), end)
    decreases CallableExpression(target, arguments), 1
  {
    OccursToken(toks, pos, TypeTokens(target), 0);
    ArrayTypeRoundTrip(toks, pos, target, p);
    ArgumentListRoundTrip(toks, p, arguments, q, end);
    ArrayCallStep(toks, pos, target, p, arguments, end);
  }

  /** `name( arguments )` or `base<element>( arguments )` once its pieces have
      been located: the `(` at `p` and the `)` at `q`. */
  lemma {:induction false} NamedCallParts(toks: seq<Token>, pos: nat, target: TypeName, arguments: seq<Expression>,
                                          p: nat, q: nat, end: nat)
    requires !target.ArrayTypeName? && WellFormedCallee(target) && WellFormedArguments(arguments)
    requires Occurs(toks, pos, CalleeTokens(target)) && p == pos + |CalleeTokens(target)|
    requires At(toks, p) == Tok(ParenLeft) && Occurs(toks, p + 1, ArgumentsTokens(arguments))
    requires q == p + 1 + |ArgumentsTokens(arguments)| && At(toks, q) == Tok(ParenRight) && end == q + 1
    ensures ParsePrimaryExpression(toks, pos) == Parsed(Ok(CallableExpression(target, arguments)), end)
    decreases CallableExpression(target, arguments), 1
  {
    CalleeRoundTrip(toks, pos, target, arguments, p);
    ArgumentListRoundTrip(toks, p, arguments, q, end);
    CallStep(toks, pos, CalleeName(target), target, p, arguments, end);
  }

  /** The identifier a non-array callee starts with. */
  function CalleeName(target: TypeName): string
    requires !target.ArrayTypeName?
  {
    match target
    case NamedTypeName(name) => name
    case ParameterizedTypeName(base, _) => TypeDecl.BaseName(base)
  }

  /** A callee that is not an array type, followed by `(` at `p`, is read back
      after its identifier. */
  lemma {:induction false} CalleeRoundTrip(toks: seq<Token>, pos: nat, target: TypeName, arguments: seq<Expression>, p: nat)
    requires !target.ArrayTypeName? && WellFormedCallee(target)
    requires Occurs(toks, pos, CalleeTokens(target)) && p == pos + |CalleeTokens(target)|
    requires At(toks, p).kind == ParenLeft
    ensures pos < |toks| && At(toks, pos) == IdentToken(CalleeName(target))
    ensures OpensCall(At(toks, pos + 1).kind)
    ensures ParseTypeNameAfterIdentifier(toks, pos + 1, CalleeName(target)) == Parsed(Ok(target), p)
    decreases CallableExpression(target, arguments), 0
  {
    OccursToken(toks, pos, CalleeTokens(target), 0);
    match target
    case NamedTypeName(name) =>
      NamedStep(toks, pos + 1, name);
    case ParameterizedTypeName(base, element) =>
      ParameterizedRoundTrip(toks, pos, base, element, p);
  }

  /** parseArgumentExpressionList reads back `( arguments )`, in order, when the
      `(` is at `pos` and the `)` at `q`. */
  lemma {:induction false} ArgumentListRoundTrip(toks: seq<Token>, pos: nat, args: seq<Expression>, q: nat, end: nat)
    requires WellFormedArguments(args)
    requires At(toks, pos) == Tok(ParenLeft) && Occurs(toks, pos + 1, ArgumentsTokens(args))
    requires q == pos + 1 + |ArgumentsTokens(args)| && At(toks, q) == Tok(ParenRight) && end == q + 1
    ensures ParseArgumentExpressionList(toks, pos) == Parsed(Ok(args), end)
    decreases args, 3
  {
    ArgumentsLoopRoundTrip(toks, pos + 1, [], args, q);
    assert [] + args == args;
    ArgumentListStep(toks, pos, args, q);
  }

  /** The argument loop appends the arguments, in order, to what it holds. */
  lemma {:induction false} ArgumentsLoopRoundTrip(toks: seq<Token>, pos: nat, acc: seq<Expression>, args: seq<Expression>, end: nat)
    requires WellFormedArguments(args)
    requires Occurs(toks, pos, ArgumentsTokens(args)) && end == pos + |ArgumentsTokens(args)|
    requires At(toks, end).kind == ParenRight
    ensures ParseArgumentsLoop(toks, pos, acc) == Parsed(Ok(acc + args), end)
    decreases args, 2
  {
    if |args| == 0 {
      assert acc + args == acc;
      ArgumentsEndStep(toks, pos, acc);
    } else if |args| == 1 {
      LastArgumentRoundTrip(toks, pos, acc, args[0], end);
      assert acc + args == acc + [args[0]];
    } else {
      MoreArgumentsRoundTrip(toks, pos, acc, args, end);
    }
  }

  lemma {:induction false} MoreArgumentsRoundTrip(toks: seq<Token>, pos: nat, acc: seq<Expression>, args: seq<Expression>, end: nat)
    requires |args| > 1 && WellFormedArguments(args)
    requires Occurs(toks, pos, ArgumentsTokens(args)) && end == pos + |ArgumentsTokens(args)|
    requires At(toks, end).kind == ParenRight
    ensures ParseArgumentsLoop(toks, pos, acc) == Parsed(Ok(acc + args), end)
    decreases args, 1
  {
    var p := pos + |ExpressionTokens(args[0])|;
    ArgumentsLayout(toks, pos, args, p, end);
    FirstArgumentRoundTrip(toks, pos, acc, args[0], p);
    ArgumentsLoopRoundTrip(toks, p + 1, acc + [args[0]], args[1..], end);
    AppendFirst(acc, args);
  }

  lemma AppendFirst(acc: seq<Expression>, args: seq<Expression>)
    requires |args| > 0
    ensures acc + [args[0]] + args[1..] == acc + args
  {
    assert args == [args[0]] + args[1..];
  }

  /** Where the pieces of `first , rest` sit: the comma at `p`. */
  lemma ArgumentsLayout(toks: seq<Token>, pos: nat, args: seq<Expression>, p: nat, end: nat)
    requires |args| > 1 && p == pos + |ExpressionTokens(args[0])| && end == pos + |ArgumentsTokens(args)|
    requires Occurs(toks, pos, ArgumentsTokens(args))
    ensures Occurs(toks, pos, ExpressionTokens(args[0])) && At(toks, p).kind == Comma
    ensures Occurs(toks, p + 1, ArgumentsTokens(args[1..])) && end == p + 1 + |ArgumentsTokens(args[1..])|
  {
    assert ArgumentsTokens(args) == ExpressionTokens(args[0]) + [Tok(Comma)] + ArgumentsTokens(args[1..]);
    Separated(toks, pos, ExpressionTokens(args[0]), Tok(Comma), ArgumentsTokens(args[1..]), p, end);
  }

  lemma {:induction false} LastArgumentRoundTrip(toks: seq<Token>, pos: nat, acc: seq<Expression>, e: Expression, end: nat)
    requires WellFormedExpression(e)
    requires Occurs(toks, pos, ExpressionTokens(e)) && end == pos + |ExpressionTokens(e)|
    requires At(toks, end).kind == ParenRight
    ensures ParseArgumentsLoop(toks, pos, acc) == Parsed(Ok(acc + [e]), end)
    decreases e, 9
  {
    ArgumentStart(toks, pos, e);
    ExpressionRoundTrip(toks, pos, e, end);
    ArgumentStep(toks, pos, acc, e, end);
    ArgumentsEndStep(toks, end, acc + [e]);
  }

  /** `e , ...` with the comma at `p`: the argument is read back and the comma
      skipped. */
  lemma {:induction false} FirstArgumentRoundTrip(toks: seq<Token>, pos: nat, acc: seq<Expression>, e: Expression, p: nat)
    requires WellFormedExpression(e)
    requires Occurs(toks, pos, ExpressionTokens(e)) && p == pos + |ExpressionTokens(e)|
    requires At(toks, p).kind == Comma
    ensures ParseArgumentsLoop(toks, pos, acc) == ParseArgumentsLoop(toks, p + 1, acc + [e])
    decreases e, 9
  {
    ArgumentStart(toks, pos, e);
    ExpressionRoundTrip(toks, pos, e, p);
    ArgumentCommaStep(toks, pos, acc, e, p);
  }

  /** An argument never starts with `)`, so the loop does not stop before it. */
  lemma ArgumentStart(toks: seq<Token>, pos: nat, e: Expression)
    requires Occurs(toks, pos, ExpressionTokens(e))
    ensures pos <= |toks| && At(toks, pos).kind != ParenRight
  {
    ExpressionFirstToken(e);
    OccursToken(toks, pos, ExpressionTokens(e), 0);
  }
}
