/** Writing declarations and statements back out as tokens, and the proof that the
    parser reads every well-formed one back: attribute lists, structures and their
    members, type aliases, variables with their optional parts, functions with
    their parameters, return type and body, statements and blocks, left-hand
    sides of assignments, and whole shader modules, every list in order. */
module ParserDeclarations {
  import opened Wrappers
  import opened Tokens
  import opened Ast
  import opened ParserSpec
  import opened ParserRoundTrip
  import ParserProperties

  // ---------------------------------------------------------------- sequences and layouts

  lemma AppendHead<T>(acc: seq<T>, xs: seq<T>)
    requires |xs| > 0
    ensures acc + [xs[0]] + xs[1..] == acc + xs
  {
    assert xs == [xs[0]] + xs[1..];
  }

  /** `first second third inner`: the three leading tokens, then `inner`. */
  lemma Headed3(toks: seq<Token>, pos: nat, first: Token, second: Token, third: Token, inner: seq<Token>)
    requires Occurs(toks, pos, [first, second, third] + inner)
    ensures pos + 2 < |toks| && At(toks, pos) == first && At(toks, pos + 1) == second && At(toks, pos + 2) == third
    ensures Occurs(toks, pos + 3, inner)
  {
    OccursConcat(toks, pos, [first, second, third], inner);
    OccursToken(toks, pos, [first, second, third], 0);
    OccursToken(toks, pos, [first, second, third], 1);
    OccursToken(toks, pos, [first, second, third], 2);
  }

  /** `first second third inner close`: the closing token sits at `p`. */
  lemma Wrapped3(toks: seq<Token>, pos: nat, first: Token, second: Token, third: Token, inner: seq<Token>, close: Token,
                 p: nat, end: nat)
    requires p == pos + 3 + |inner| && end == pos + |[first, second, third] + inner + [close]|
    requires Occurs(toks, pos, [first, second, third] + inner + [close])
    ensures pos + 2 < |toks| && At(toks, pos) == first && At(toks, pos + 1) == second && At(toks, pos + 2) == third
    ensures Occurs(toks, pos + 3, inner) && p < |toks| && At(toks, p) == close && end == p + 1
  {
    OccursConcat(toks, pos, [first, second, third] + inner, [close]);
    OccursToken(toks, p, [close], 0);
    Headed3(toks, pos, first, second, third, inner);
  }

  /** `front name : inner`: the name at `p`, the colon after it, then `inner`. */
  lemma Labelled(toks: seq<Token>, pos: nat, front: seq<Token>, name: string, inner: seq<Token>, p: nat)
    requires p == pos + |front|
    requires Occurs(toks, pos, front + [IdentToken(name), Tok(Colon)] + inner)
    ensures Occurs(toks, pos, front) && p + 1 < |toks| && At(toks, p) == IdentToken(name) && At(toks, p + 1).kind == Colon
    ensures Occurs(toks, p + 2, inner)
  {
    OccursConcat3(toks, pos, front, [IdentToken(name), Tok(Colon)], inner);
    OccursToken(toks, p, [IdentToken(name), Tok(Colon)], 0);
    OccursToken(toks, p, [IdentToken(name), Tok(Colon)], 1);
  }

  /** A token of the kind expected is consumed. */
  lemma ExpectAt(toks: seq<Token>, pos: nat, t: TokenType)
    requires t != EndOfFile && pos < |toks| && At(toks, pos).kind == t
    ensures Expect(toks, pos, t) == Parsed(Ok(toks[pos]), pos + 1)
  {}

  /** An identifier is consumed, and its name read. */
  lemma ExpectName(toks: seq<Token>, pos: nat, name: string)
    requires pos < |toks| && At(toks, pos) == IdentToken(name)
    ensures Expect(toks, pos, Identifier) == Parsed(Ok(IdentToken(name)), pos + 1)
  {}

  /** `front inner close`: the closing token sits at `p`. */
  lemma Closed(toks: seq<Token>, pos: nat, front: seq<Token>, close: Token, p: nat)
    requires p == pos + |front| && Occurs(toks, pos, front + [close])
    ensures Occurs(toks, pos, front) && p < |toks| && At(toks, p) == close
  {
    OccursConcat(toks, pos, front, [close]);
    OccursToken(toks, p, [close], 0);
  }

  // ---------------------------------------------------------------- attributes

  function StageName(stage: Stage): string
  {
    match stage
    case Vertex => "vertex"
    case Compute => "compute"
    case Fragment => "fragment"
  }

  /** `@ name ( n )` */
  function IntegerAttributeTokens(name: string, n: nat): seq<Token>
  {
    [Tok(TokenType.Attribute), IdentToken(name), Tok(ParenLeft), IntegerToken(n), Tok(ParenRight)]
  }

  /** The tokens of one attribute. A native attribute has no spelling: only later
      passes create one. */
  function AttributeTokens(a: Attribute): seq<Token>
  {
    match a
    case GroupAttribute(n) => IntegerAttributeTokens("group", n)
    case BindingAttribute(n) => IntegerAttributeTokens("binding", n)
    case LocationAttribute(n) => IntegerAttributeTokens("location", n)
    case BuiltinAttribute(name) =>
      [Tok(TokenType.Attribute), IdentToken("builtin"), Tok(ParenLeft), IdentToken(name), Tok(ParenRight)]
    case StageAttribute(stage) => [Tok(TokenType.Attribute), IdentToken(StageName(stage))]
    case NativeAttribute => []
  }

  /** Attribute lists the parser produces: no native attribute. */
  predicate WellFormedAttributes(attributes: seq<Attribute>)
  {
    forall i :: 0 <= i < |attributes| ==> !attributes[i].NativeAttribute?
  }

  function AttributesTokens(attributes: seq<Attribute>): seq<Token>
  {
    if |attributes| == 0 then [] else AttributeTokens(attributes[0]) + AttributesTokens(attributes[1..])
  }

  /** The name an integer-valued attribute is spelled with. */
  function IntegerAttributeName(a: Attribute): string
    requires a.GroupAttribute? || a.BindingAttribute? || a.LocationAttribute?
  {
    if a.GroupAttribute? then "group" else if a.BindingAttribute? then "binding" else "location"
  }

  /** The value an integer-valued attribute carries. */
  function IntegerAttributeValue(a: Attribute): nat
    requires a.GroupAttribute? || a.BindingAttribute? || a.LocationAttribute?
  {
    match a
    case GroupAttribute(n) => n
    case BindingAttribute(n) => n
    case LocationAttribute(n) => n
  }

  /** `( n )` gives `n`. */
  lemma ParenthesizedIntegerStep(toks: seq<Token>, pos: nat, n: nat)
    requires pos + 2 < |toks| && At(toks, pos).kind == ParenLeft && At(toks, pos + 1).kind == IntegerLiteral
    requires toks[pos + 1].literalValue == n && At(toks, pos + 2).kind == ParenRight
    ensures ParseParenthesizedInteger(toks, pos) == Parsed(Ok(n), pos + 3)
  {
    ExpectAt(toks, pos, ParenLeft);
    ExpectAt(toks, pos + 1, IntegerLiteral);
    ExpectAt(toks, pos + 2, ParenRight);
  }

  lemma GroupAttributeStep(toks: seq<Token>, pos: nat, n: nat, end: nat)
    requires pos + 1 < |toks| && Expect(toks, pos, TokenType.Attribute) == Parsed(Ok(toks[pos]), pos + 1)
    requires Expect(toks, pos + 1, Identifier) == Parsed(Ok(IdentToken("group")), pos + 2)
    requires ParseParenthesizedInteger(toks, pos + 2) == Parsed(Ok(n), end)
    ensures ParseAttribute(toks, pos) == Parsed(Ok(GroupAttribute(n)), end)
  {}

  lemma BindingAttributeStep(toks: seq<Token>, pos: nat, n: nat, end: nat)
    requires pos + 1 < |toks| && Expect(toks, pos, TokenType.Attribute) == Parsed(Ok(toks[pos]), pos + 1)
    requires Expect(toks, pos + 1, Identifier) == Parsed(Ok(IdentToken("binding")), pos + 2)
    requires ParseParenthesizedInteger(toks, pos + 2) == Parsed(Ok(n), end)
    ensures ParseAttribute(toks, pos) == Parsed(Ok(BindingAttribute(n)), end)
  {}

  lemma LocationAttributeStep(toks: seq<Token>, pos: nat, n: nat, end: nat)
    requires pos + 1 < |toks| && Expect(toks, pos, TokenType.Attribute) == Parsed(Ok(toks[pos]), pos + 1)
    requires Expect(toks, pos + 1, Identifier) == Parsed(Ok(IdentToken("location")), pos + 2)
    requires ParseParenthesizedInteger(toks, pos + 2) == Parsed(Ok(n), end)
    ensures ParseAttribute(toks, pos) == Parsed(Ok(LocationAttribute(n)), end)
  {}

  /** Where the five tokens of `@group(n)`, `@binding(n)` and `@location(n)` sit. */
  lemma IntegerAttributeLayout(toks: seq<Token>, pos: nat, a: Attribute)
    requires a.GroupAttribute? || a.BindingAttribute? || a.LocationAttribute?
    requires Occurs(toks, pos, AttributeTokens(a))
    ensures pos + 4 < |toks| && At(toks, pos).kind == TokenType.Attribute
    ensures At(toks, pos + 1) == IdentToken(IntegerAttributeName(a)) && At(toks, pos + 2).kind == ParenLeft
    ensures At(toks, pos + 3).kind == IntegerLiteral && toks[pos + 3].literalValue == IntegerAttributeValue(a)
    ensures At(toks, pos + 4).kind == ParenRight
  {
    var ts := AttributeTokens(a);
    assert ts == IntegerAttributeTokens(IntegerAttributeName(a), IntegerAttributeValue(a));
    OccursToken(toks, pos, ts, 0);
    OccursToken(toks, pos, ts, 1);
    OccursToken(toks, pos, ts, 2);
    OccursToken(toks, pos, ts, 3);
    OccursToken(toks, pos, ts, 4);
  }

  /** `@group(n)`, `@binding(n)` and `@location(n)` */
  lemma IntegerAttributeRoundTrip(toks: seq<Token>, pos: nat, a: Attribute, end: nat)
    requires a.GroupAttribute? || a.BindingAttribute? || a.LocationAttribute?
    requires Occurs(toks, pos, AttributeTokens(a)) && end == pos + |AttributeTokens(a)|
    ensures ParseAttribute(toks, pos) == Parsed(Ok(a), end)
  {
    IntegerAttributeLayout(toks, pos, a);
    ExpectAt(toks, pos, TokenType.Attribute);
    ExpectName(toks, pos + 1, IntegerAttributeName(a));
    ParenthesizedIntegerStep(toks, pos + 2, IntegerAttributeValue(a));
    match a
    case GroupAttribute(n) => GroupAttributeStep(toks, pos, n, end);
    case BindingAttribute(n) => BindingAttributeStep(toks, pos, n, end);
    case LocationAttribute(n) => LocationAttributeStep(toks, pos, n, end);
  }

  /** `@builtin(name)` */
  lemma BuiltinAttributeRoundTrip(toks: seq<Token>, pos: nat, a: Attribute, end: nat)
    requires a.BuiltinAttribute?
    requires Occurs(toks, pos, AttributeTokens(a)) && end == pos + |AttributeTokens(a)|
    ensures ParseAttribute(toks, pos) == Parsed(Ok(a), end)
  {
    var ts := AttributeTokens(a);
    OccursToken(toks, pos, ts, 0);
    OccursToken(toks, pos, ts, 1);
    OccursToken(toks, pos, ts, 2);
    OccursToken(toks, pos, ts, 3);
    OccursToken(toks, pos, ts, 4);
    ParserProperties.BuiltinAttributeRule(toks, pos);
  }

  /** `@vertex`, `@compute` and `@fragment` */
  lemma StageAttributeRoundTrip(toks: seq<Token>, pos: nat, a: Attribute, end: nat)
    requires a.StageAttribute?
    requires Occurs(toks, pos, AttributeTokens(a)) && end == pos + |AttributeTokens(a)|
    ensures ParseAttribute(toks, pos) == Parsed(Ok(a), end)
  {
    var ts := AttributeTokens(a);
    OccursToken(toks, pos, ts, 0);
    OccursToken(toks, pos, ts, 1);
    ParserProperties.StageAttributes(toks, pos);
  }

  /** parseAttribute reads back the tokens of any attribute but a native one. */
  lemma AttributeRoundTrip(toks: seq<Token>, pos: nat, a: Attribute, end: nat)
    requires !a.NativeAttribute?
    requires Occurs(toks, pos, AttributeTokens(a)) && end == pos + |AttributeTokens(a)|
    ensures pos < |toks| && At(toks, pos).kind == TokenType.Attribute
    ensures ParseAttribute(toks, pos) == Parsed(Ok(a), end)
  {
    OccursToken(toks, pos, AttributeTokens(a), 0);
    if a.StageAttribute? {
      StageAttributeRoundTrip(toks, pos, a, end);
    } else if a.BuiltinAttribute? {
      BuiltinAttributeRoundTrip(toks, pos, a, end);
    } else {
      IntegerAttributeRoundTrip(toks, pos, a, end);
    }
  }

  /** One turn of the attribute loop. */
  lemma AttributesLoopStep(toks: seq<Token>, pos: nat, acc: seq<Attribute>, a: Attribute, p: nat)
    requires pos <= |toks| && At(toks, pos).kind == TokenType.Attribute
    requires ParseAttribute(toks, pos) == Parsed(Ok(a), p)
    ensures ParseAttributesLoop(toks, pos, acc) == ParseAttributesLoop(toks, p, acc + [a])
  {}

  /** The first attribute of a list read back, and the rest of the list after it. */
  lemma AttributesLoopUnroll(toks: seq<Token>, pos: nat, acc: seq<Attribute>, attributes: seq<Attribute>, p: nat)
    requires |attributes| > 0 && WellFormedAttributes(attributes)
    requires Occurs(toks, pos, AttributesTokens(attributes)) && p == pos + |AttributeTokens(attributes[0])|
    ensures WellFormedAttributes(attributes[1..])
    ensures Occurs(toks, p, AttributesTokens(attributes[1..]))
    ensures pos + |AttributesTokens(attributes)| == p + |AttributesTokens(attributes[1..])|
    ensures ParseAttributesLoop(toks, pos, acc) == ParseAttributesLoop(toks, p, acc + [attributes[0]])
    ensures acc + [attributes[0]] + attributes[1..] == acc + attributes
  {
    var a := attributes[0];
    OccursConcat(toks, pos, AttributeTokens(a), AttributesTokens(attributes[1..]));
    AttributeRoundTrip(toks, pos, a, p);
    AttributesLoopStep(toks, pos, acc, a, p);
    AppendHead(acc, attributes);
  }

  /** The attribute loop appends the attributes, in order, and stops at the first
      token that is not `@`. */
  lemma {:induction false} AttributesLoopRoundTrip(toks: seq<Token>, pos: nat, acc: seq<Attribute>,
                                                   attributes: seq<Attribute>, end: nat)
    requires WellFormedAttributes(attributes)
    requires Occurs(toks, pos, AttributesTokens(attributes)) && end == pos + |AttributesTokens(attributes)|
    requires At(toks, end).kind != TokenType.Attribute
    ensures ParseAttributesLoop(toks, pos, acc) == Parsed(Ok(acc + attributes), end)
    decreases attributes
  {
    if |attributes| == 0 {
      assert acc + attributes == acc;
    } else {
      var p := pos + |AttributeTokens(attributes[0])|;
      AttributesLoopUnroll(toks, pos, acc, attributes, p);
      AttributesLoopRoundTrip(toks, p, acc + [attributes[0]], attributes[1..], end);
    }
  }

  /** parseAttributes reads back any list of attributes the parser can produce. */
  lemma AttributesRoundTrip(toks: seq<Token>, pos: nat, attributes: seq<Attribute>, end: nat)
    requires WellFormedAttributes(attributes)
    requires Occurs(toks, pos, AttributesTokens(attributes)) && end == pos + |AttributesTokens(attributes)|
    requires At(toks, end).kind != TokenType.Attribute
    ensures ParseAttributes(toks, pos) == Parsed(Ok(attributes), end)
  {
    AttributesLoopRoundTrip(toks, pos, [], attributes, end);
    assert [] + attributes == attributes;
  }

  // ---------------------------------------------------------------- structures

  /** `attributes name : type ;` */
  function MemberTokens(m: StructureMember): seq<Token>
  {
    AttributesTokens(m.attributes) + [IdentToken(m.name), Tok(Colon)] + TypeTokens(m.typeName) + [Tok(Semicolon)]
  }

  predicate WellFormedMember(m: StructureMember)
  {
    WellFormedAttributes(m.attributes) && WellFormedType(m.typeName)
  }

  function MembersTokens(members: seq<StructureMember>): seq<Token>
  {
    if |members| == 0 then [] else MemberTokens(members[0]) + MembersTokens(members[1..])
  }

  predicate WellFormedMembers(members: seq<StructureMember>)
  {
    forall i :: 0 <= i < |members| ==> WellFormedMember(members[i])
  }

  /** `struct name { members }`; the attributes before `struct` belong to the
      global declaration around it. */
  function StructureTokens(s: StructureDeclaration): seq<Token>
  {
    [Tok(KeywordStruct), IdentToken(s.name), Tok(BraceLeft)] + MembersTokens(s.members) + [Tok(BraceRight)]
  }

  /** What parseStructureMember does once the attributes are read. */
  function MemberAfterAttributes(toks: seq<Token>, p: nat, attributes: seq<Attribute>): Parsed<StructureMember>
    requires p <= |toks|
  {
    var name := Expect(toks, p, Identifier);
    if name.result.Err? then Parsed(Err(name.result.error), name.pos) else
    var colon := Expect(toks, name.pos, Colon);
    if colon.result.Err? then Parsed(Err(colon.result.error), colon.pos) else
    var t := ParseTypeName(toks, colon.pos);
    if t.result.Err? then Parsed(Err(t.result.error), t.pos) else
    var semi := Expect(toks, t.pos, Semicolon);
    if semi.result.Err? then Parsed(Err(semi.result.error), semi.pos) else
    Parsed(Ok(StructureMember(name.result.value.ident, t.result.value, attributes)), semi.pos)
  }

  lemma MemberAttributesStep(toks: seq<Token>, pos: nat, attributes: seq<Attribute>, p: nat)
    requires pos <= |toks| && ParseAttributes(toks, pos) == Parsed(Ok(attributes), p)
    ensures ParseStructureMember(toks, pos) == MemberAfterAttributes(toks, p, attributes)
  {}

  lemma MemberStep(toks: seq<Token>, attributes: seq<Attribute>, p: nat, name: string, t: TypeName, q: nat)
    requires p + 1 < |toks| && At(toks, p) == IdentToken(name) && At(toks, p + 1).kind == Colon
    requires ParseTypeName(toks, p + 2) == Parsed(Ok(t), q) && q < |toks| && At(toks, q).kind == Semicolon
    ensures MemberAfterAttributes(toks, p, attributes) == Parsed(Ok(StructureMember(name, t, attributes)), q + 1)
  {
    ExpectName(toks, p, name);
    ExpectAt(toks, p + 1, Colon);
    ExpectAt(toks, q, Semicolon);
  }

  /** parseStructureMember reads back `attributes name : type ;`. */
  lemma MemberRoundTrip(toks: seq<Token>, pos: nat, m: StructureMember, end: nat)
    requires WellFormedMember(m)
    requires Occurs(toks, pos, MemberTokens(m)) && end == pos + |MemberTokens(m)|
    ensures ParseStructureMember(toks, pos) == Parsed(Ok(m), end)
  {
    var front := AttributesTokens(m.attributes);
    var p := pos + |front|;
    var q := p + 2 + |TypeTokens(m.typeName)|;
    MemberLayout(toks, pos, front, m.name, TypeTokens(m.typeName), p, q);
    MemberParts(toks, pos, m, p, q);
  }

  /** Where the parts of `attributes name : type ;` sit. */
  lemma MemberLayout(toks: seq<Token>, pos: nat, front: seq<Token>, name: string, typeName: seq<Token>, p: nat, q: nat)
    requires p == pos + |front| && q == p + 2 + |typeName|
    requires Occurs(toks, pos, front + [IdentToken(name), Tok(Colon)] + typeName + [Tok(Semicolon)])
    ensures Occurs(toks, pos, front) && p + 1 < |toks| && At(toks, p) == IdentToken(name) && At(toks, p + 1).kind == Colon
    ensures Occurs(toks, p + 2, typeName) && q < |toks| && At(toks, q).kind == Semicolon
  {
    Closed(toks, pos, front + [IdentToken(name), Tok(Colon)] + typeName, Tok(Semicolon), q);
    Labelled(toks, pos, front, name, typeName, p);
  }

  /** The parse half of MemberRoundTrip, from where the tokens sit. */
  lemma MemberParts(toks: seq<Token>, pos: nat, m: StructureMember, p: nat, q: nat)
    requires WellFormedMember(m)
    requires Occurs(toks, pos, AttributesTokens(m.attributes)) && p == pos + |AttributesTokens(m.attributes)|
    requires p + 1 < |toks| && At(toks, p) == IdentToken(m.name) && At(toks, p + 1).kind == Colon
    requires Occurs(toks, p + 2, TypeTokens(m.typeName)) && q == p + 2 + |TypeTokens(m.typeName)|
    requires q < |toks| && At(toks, q).kind == Semicolon
    ensures ParseStructureMember(toks, pos) == Parsed(Ok(m), q + 1)
  {
    AttributesRoundTrip(toks, pos, m.attributes, p);
    MemberAttributesStep(toks, pos, m.attributes, p);
    MemberTail(toks, m, p, q);
  }

  /** `name : type ;` after a member's attributes is read back. */
  lemma MemberTail(toks: seq<Token>, m: StructureMember, p: nat, q: nat)
    requires WellFormedType(m.typeName)
    requires p + 1 < |toks| && At(toks, p) == IdentToken(m.name) && At(toks, p + 1).kind == Colon
    requires Occurs(toks, p + 2, TypeTokens(m.typeName)) && q == p + 2 + |TypeTokens(m.typeName)|
    requires q < |toks| && At(toks, q).kind == Semicolon
    ensures MemberAfterAttributes(toks, p, m.attributes) == Parsed(Ok(m), q + 1)
  {
    TypeRoundTrip(toks, p + 2, m.typeName, q);
    MemberStep(toks, m.attributes, p, m.name, m.typeName, q);
  }


  /** A member is written starting with `@` or with its name. */
  lemma MemberStart(m: StructureMember)
    ensures |MemberTokens(m)| > 0 && MemberTokens(m)[0].kind in {TokenType.Attribute, Identifier}
  {
    var front := AttributesTokens(m.attributes);
    if |front| > 0 {
      AttributesHead(m.attributes);
      assert MemberTokens(m)[0] == front[0];
    } else {
      assert MemberTokens(m)[0] == IdentToken(m.name);
    }
  }

  lemma MembersLoopStep(toks: seq<Token>, pos: nat, acc: seq<StructureMember>, m: StructureMember, p: nat)
    requires pos <= |toks| && At(toks, pos).kind != BraceRight
    requires ParseStructureMember(toks, pos) == Parsed(Ok(m), p)
    ensures ParseStructureMembersLoop(toks, pos, acc) == ParseStructureMembersLoop(toks, p, acc + [m])
  {}

  /** The first member of a list read back, and the rest of the list after it. */
  lemma MembersLoopUnroll(toks: seq<Token>, pos: nat, acc: seq<StructureMember>, members: seq<StructureMember>, p: nat)
    requires |members| > 0 && WellFormedMembers(members)
    requires Occurs(toks, pos, MembersTokens(members)) && p == pos + |MemberTokens(members[0])|
    ensures WellFormedMembers(members[1..])
    ensures Occurs(toks, p, MembersTokens(members[1..]))
    ensures pos + |MembersTokens(members)| == p + |MembersTokens(members[1..])|
    ensures ParseStructureMembersLoop(toks, pos, acc) == ParseStructureMembersLoop(toks, p, acc + [members[0]])
    ensures acc + [members[0]] + members[1..] == acc + members
  {
    MembersLayout(toks, pos, members, p);
    MemberRoundTrip(toks, pos, members[0], p);
    MembersLoopStep(toks, pos, acc, members[0], p);
    AppendHead(acc, members);
  }

  /** Where the first member and the remaining members sit. */
  lemma {:induction false} MembersLayout(toks: seq<Token>, pos: nat, members: seq<StructureMember>, p: nat)
    requires |members| > 0 && WellFormedMembers(members)
    requires Occurs(toks, pos, MembersTokens(members)) && p == pos + |MemberTokens(members[0])|
    ensures WellFormedMember(members[0]) && WellFormedMembers(members[1..])
    ensures Occurs(toks, pos, MemberTokens(members[0])) && At(toks, pos).kind != BraceRight
    ensures Occurs(toks, p, MembersTokens(members[1..]))
    ensures pos + |MembersTokens(members)| == p + |MembersTokens(members[1..])|
  {
    var m := members[0];
    OccursConcat(toks, pos, MemberTokens(m), MembersTokens(members[1..]));
    MemberStart(m);
    OccursToken(toks, pos, MemberTokens(m), 0);
  }

  /** The member loop stops at the closing brace. */
  lemma MembersLoopEnd(toks: seq<Token>, pos: nat, acc: seq<StructureMember>, members: seq<StructureMember>)
    requires pos <= |toks| && At(toks, pos).kind == BraceRight && members == []
    ensures ParseStructureMembersLoop(toks, pos, acc) == Parsed(Ok(acc + members), pos)
  {
    assert acc + members == acc;
  }

  /** The member loop appends the members, in order, up to the closing brace. */
  lemma {:induction false} MembersLoopRoundTrip(toks: seq<Token>, pos: nat, acc: seq<StructureMember>,
                                                members: seq<StructureMember>, end: nat)
    requires WellFormedMembers(members)
    requires Occurs(toks, pos, MembersTokens(members)) && end == pos + |MembersTokens(members)|
    requires At(toks, end).kind == BraceRight
    ensures ParseStructureMembersLoop(toks, pos, acc) == Parsed(Ok(acc + members), end)
    decreases members
  {
    if |members| == 0 {
      MembersLoopEnd(toks, pos, acc, members);
    } else {
      var p := pos + |MemberTokens(members[0])|;
      MembersLoopUnroll(toks, pos, acc, members, p);
      MembersLoopRoundTrip(toks, p, acc + [members[0]], members[1..], end);
    }
  }

  lemma StructureStep(toks: seq<Token>, pos: nat, name: string, members: seq<StructureMember>, p: nat)
    requires pos + 2 < |toks| && Expect(toks, pos, KeywordStruct) == Parsed(Ok(toks[pos]), pos + 1)
    requires Expect(toks, pos + 1, Identifier) == Parsed(Ok(IdentToken(name)), pos + 2)
    requires Expect(toks, pos + 2, BraceLeft) == Parsed(Ok(toks[pos + 2]), pos + 3)
    requires ParseStructureMembersLoop(toks, pos + 3, []) == Parsed(Ok(members), p) && p < |toks|
    requires Expect(toks, p, BraceRight) == Parsed(Ok(toks[p]), p + 1)
    ensures ParseStructureDeclaration(toks, pos) == Parsed(Ok(StructureDeclaration(name, [], members)), p + 1)
  {}


  /** parseStructureDeclaration reads back `struct name { members }`, with its
      members in order; the declaration's attributes are filled in by the caller. */
  lemma StructureRoundTrip(toks: seq<Token>, pos: nat, s: StructureDeclaration, end: nat)
    requires WellFormedMembers(s.members)
    requires Occurs(toks, pos, StructureTokens(s)) && end == pos + |StructureTokens(s)|
    ensures ParseStructureDeclaration(toks, pos) == Parsed(Ok(s.(attributes := [])), end)
  {
    var p := pos + 3 + |MembersTokens(s.members)|;
    Wrapped3(toks, pos, Tok(KeywordStruct), IdentToken(s.name), Tok(BraceLeft), MembersTokens(s.members), Tok(BraceRight), p, end);
    MembersLoopRoundTrip(toks, pos + 3, [], s.members, p);
    assert [] + s.members == s.members;
    ExpectAt(toks, pos, KeywordStruct);
    ExpectName(toks, pos + 1, s.name);
    ExpectAt(toks, pos + 2, BraceLeft);
    ExpectAt(toks, p, BraceRight);
    StructureStep(toks, pos, s.name, s.members, p);
  }

  // ---------------------------------------------------------------- type declarations

  /** `type name = type`; the `;` after it belongs to the global declaration. */
  function TypeDeclarationTokens(d: TypeDeclaration): seq<Token>
  {
    [Tok(KeywordType), IdentToken(d.name), Tok(Equal)] + TypeTokens(d.typeName)
  }

  lemma TypeDeclarationStep(toks: seq<Token>, pos: nat, name: string, t: TypeName, end: nat)
    requires pos + 2 < |toks| && At(toks, pos).kind == KeywordType && At(toks, pos + 1) == IdentToken(name)
    requires At(toks, pos + 2).kind == Equal && ParseTypeName(toks, pos + 3) == Parsed(Ok(t), end)
    ensures ParseTypeDeclaration(toks, pos) == Parsed(Ok(TypeDeclaration(name, [], t)), end)
  {
    ExpectAt(toks, pos, KeywordType);
    ExpectName(toks, pos + 1, name);
    ExpectAt(toks, pos + 2, Equal);
  }

  /** parseTypeDeclaration reads back `type name = type` with the aliased type. */
  lemma TypeDeclarationRoundTrip(toks: seq<Token>, pos: nat, d: TypeDeclaration, end: nat)
    requires WellFormedType(d.typeName)
    requires Occurs(toks, pos, TypeDeclarationTokens(d)) && end == pos + |TypeDeclarationTokens(d)|
    requires At(toks, end).kind != LT
    ensures ParseTypeDeclaration(toks, pos) == Parsed(Ok(d.(attributes := [])), end)
  {
    Headed3(toks, pos, Tok(KeywordType), IdentToken(d.name), Tok(Equal), TypeTokens(d.typeName));
    TypeRoundTrip(toks, pos + 3, d.typeName, end);
    TypeDeclarationStep(toks, pos, d.name, d.typeName, end);
  }

  // ---------------------------------------------------------------- variables

  /** `< storage_class , access_mode >`, with the access mode always written out. */
  function QualifierTokens(q: VariableQualifier): seq<Token>
  {
    [Tok(LT), Tok(ParserProperties.StorageClassKeyword(q.storageClass)), Tok(Comma),
     Tok(ParserProperties.AccessModeKeyword(q.accessMode)), Tok(GT)]
  }

  function MaybeQualifierTokens(mq: Option<VariableQualifier>): seq<Token>
  {
    if mq.None? then [] else QualifierTokens(mq.value)
  }

  function MaybeTypeTokens(mt: Option<TypeName>): seq<Token>
  {
    if mt.None? then [] else [Tok(Colon)] + TypeTokens(mt.value)
  }

  function MaybeInitializerTokens(mi: Option<Expression>): seq<Token>
  {
    if mi.None? then [] else [Tok(Equal)] + ExpressionTokens(mi.value)
  }

  /** `var qualifier name : type = initializer`, each of the three parts optional;
      the `;` after it belongs to the statement or global declaration. */
  function VariableTokens(v: VariableDeclaration): seq<Token>
  {
    [Tok(KeywordVar)] + MaybeQualifierTokens(v.maybeQualifier) + [IdentToken(v.name)] +
    MaybeTypeTokens(v.maybeType) + MaybeInitializerTokens(v.maybeInitializer)
  }

  predicate WellFormedVariable(v: VariableDeclaration)
  {
    (v.maybeType.Some? ==> WellFormedType(v.maybeType.value)) &&
    (v.maybeInitializer.Some? ==> WellFormedExpression(v.maybeInitializer.value))
  }

  /** Tokens that can follow a variable declaration without being taken into it. */
  predicate EndsVariable(k: TokenType)
  {
    EndsExpression(k) && k != Colon && k != Equal
  }

  /** The optional qualifier is read back, and is absent exactly when no `<` follows `var`. */
  lemma MaybeQualifierRoundTrip(toks: seq<Token>, pos: nat, mq: Option<VariableQualifier>, end: nat)
    requires Occurs(toks, pos, MaybeQualifierTokens(mq)) && end == pos + |MaybeQualifierTokens(mq)|
    requires mq.None? ==> At(toks, end).kind != LT
    ensures ParseMaybeVariableQualifier(toks, pos) == Parsed(Ok(mq), end)
  {
    if mq.Some? {
      QualifierRoundTrip(toks, pos, mq.value, end);
    }
  }

  /** `< storage_class , access_mode >` is read back as that qualifier. */
  lemma QualifierRoundTrip(toks: seq<Token>, pos: nat, q: VariableQualifier, end: nat)
    requires Occurs(toks, pos, QualifierTokens(q)) && end == pos + |QualifierTokens(q)|
    ensures ParseMaybeVariableQualifier(toks, pos) == Parsed(Ok(Some(q)), end)
  {
    var ts := QualifierTokens(q);
    OccursToken(toks, pos, ts, 0);
    OccursToken(toks, pos, ts, 1);
    OccursToken(toks, pos, ts, 2);
    OccursToken(toks, pos, ts, 3);
    OccursToken(toks, pos, ts, 4);
    ParserProperties.QualifierWithAccessMode(toks, pos, q.storageClass, q.accessMode);
    MaybeQualifierStep(toks, pos, q);
  }

  lemma MaybeQualifierStep(toks: seq<Token>, pos: nat, q: VariableQualifier)
    requires pos < |toks| && At(toks, pos).kind == LT
    requires ParseVariableQualifier(toks, pos) == Parsed(Ok(q), pos + 5)
    ensures ParseMaybeVariableQualifier(toks, pos) == Parsed(Ok(Some(q)), pos + 5)
  {}


  /** The optional `: type` is read back, and is absent exactly when no `:` follows the name. */
  lemma MaybeTypeAnnotationRoundTrip(toks: seq<Token>, pos: nat, mt: Option<TypeName>, end: nat)
    requires mt.Some? ==> WellFormedType(mt.value)
    requires Occurs(toks, pos, MaybeTypeTokens(mt)) && end == pos + |MaybeTypeTokens(mt)|
    requires mt.None? ==> At(toks, end).kind != Colon
    requires mt.Some? ==> At(toks, end).kind != LT
    ensures ParseMaybeTypeAnnotation(toks, pos) == Parsed(Ok(mt), end)
  {
    if mt.Some? {
      OccursConcat(toks, pos, [Tok(Colon)], TypeTokens(mt.value));
      OccursToken(toks, pos, [Tok(Colon)], 0);
      var r := pos + 1;
      TypeRoundTrip(toks, r, mt.value, end);
    }
  }

  /** The optional `= expression` is read back, and is absent exactly when no `=` follows. */
  lemma MaybeInitializerRoundTrip(toks: seq<Token>, pos: nat, mi: Option<Expression>, end: nat)
    requires mi.Some? ==> WellFormedExpression(mi.value)
    requires Occurs(toks, pos, MaybeInitializerTokens(mi)) && end == pos + |MaybeInitializerTokens(mi)|
    requires mi.None? ==> At(toks, end).kind != Equal
    requires mi.Some? ==> EndsExpression(At(toks, end).kind)
    ensures ParseMaybeInitializer(toks, pos) == Parsed(Ok(mi), end)
  {
    if mi.Some? {
      OccursConcat(toks, pos, [Tok(Equal)], ExpressionTokens(mi.value));
      OccursToken(toks, pos, [Tok(Equal)], 0);
      var r := pos + 1;
      ExpressionRoundTrip(toks, r, mi.value, end);
    }
  }

  lemma VariableStep(toks: seq<Token>, pos: nat, mq: Option<VariableQualifier>, p: nat, name: string,
                     mt: Option<TypeName>, q: nat, mi: Option<Expression>, end: nat)
    requires pos < |toks| && Expect(toks, pos, KeywordVar) == Parsed(Ok(toks[pos]), pos + 1)
    requires ParseMaybeVariableQualifier(toks, pos + 1) == Parsed(Ok(mq), p)
    requires p < |toks| && Expect(toks, p, Identifier) == Parsed(Ok(IdentToken(name)), p + 1)
    requires ParseMaybeTypeAnnotation(toks, p + 1) == Parsed(Ok(mt), q)
    requires ParseMaybeInitializer(toks, q) == Parsed(Ok(mi), end)
    ensures ParseVariableDeclaration(toks, pos) == Parsed(Ok(VariableDeclaration(name, [], mq, mt, mi)), end)
  {}


  /** Where the pieces of `var qualifier name type initializer` sit: the name at
      `p`, the type annotation from `p + 1` to `q`, the initializer from `q` to `end`. */
  lemma VariableLayout(toks: seq<Token>, pos: nat, qualifier: seq<Token>, name: string, annotation: seq<Token>,
                       initializer: seq<Token>, p: nat, q: nat, end: nat)
    requires p == pos + 1 + |qualifier| && q == p + 1 + |annotation| && end == q + |initializer|
    requires Occurs(toks, pos, [Tok(KeywordVar)] + qualifier + [IdentToken(name)] + annotation + initializer)
    ensures pos < |toks| && At(toks, pos).kind == KeywordVar && Occurs(toks, pos + 1, qualifier)
    ensures p < |toks| && At(toks, p) == IdentToken(name)
    ensures Occurs(toks, p + 1, annotation) && Occurs(toks, q, initializer)
  {
    var front := [Tok(KeywordVar)] + qualifier + [IdentToken(name)];
    OccursConcat3(toks, pos, front, annotation, initializer);
    OccursConcat3(toks, pos, [Tok(KeywordVar)], qualifier, [IdentToken(name)]);
    OccursToken(toks, pos, [Tok(KeywordVar)], 0);
    OccursToken(toks, p, [IdentToken(name)], 0);
  }

  /** Whatever follows the name when there is no type annotation: the `=` of the
      initializer, or the token after the declaration. */
  lemma AfterAnnotation(toks: seq<Token>, q: nat, mi: Option<Expression>, end: nat)
    requires Occurs(toks, q, MaybeInitializerTokens(mi)) && end == q + |MaybeInitializerTokens(mi)|
    requires EndsVariable(At(toks, end).kind)
    ensures At(toks, q).kind != Colon && At(toks, q).kind != LT
  {
    if mi.Some? {
      OccursToken(toks, q, MaybeInitializerTokens(mi), 0);
    }
  }

  /** parseVariableDeclaration reads back `var qualifier name : type = initializer`
      with every optional part present exactly when it was written; the
      declaration's attributes are filled in by the caller. */
  lemma VariableRoundTrip(toks: seq<Token>, pos: nat, v: VariableDeclaration, end: nat)
    requires WellFormedVariable(v)
    requires Occurs(toks, pos, VariableTokens(v)) && end == pos + |VariableTokens(v)|
    requires EndsVariable(At(toks, end).kind)
    ensures ParseVariableDeclaration(toks, pos) == Parsed(Ok(v.(attributes := [])), end)
  {
    var qualifier := MaybeQualifierTokens(v.maybeQualifier);
    var annotation := MaybeTypeTokens(v.maybeType);
    var initializer := MaybeInitializerTokens(v.maybeInitializer);
    var p := pos + 1 + |qualifier|;
    var q := p + 1 + |annotation|;
    var r, s := pos + 1, p + 1;
    VariableLayout(toks, pos, qualifier, v.name, annotation, initializer, p, q, end);
    MaybeQualifierRoundTrip(toks, r, v.maybeQualifier, p);
    AfterAnnotation(toks, q, v.maybeInitializer, end);
    MaybeTypeAnnotationRoundTrip(toks, s, v.maybeType, q);
    MaybeInitializerRoundTrip(toks, q, v.maybeInitializer, end);
    ExpectAt(toks, pos, KeywordVar);
    ExpectName(toks, p, v.name);
    VariableStep(toks, pos, v.maybeQualifier, p, v.name, v.maybeType, q, v.maybeInitializer, end);
  }

  // ---------------------------------------------------------------- parameters

  /** `attributes name : type` */
  function ParameterTokens(p: Parameter): seq<Token>
  {
    AttributesTokens(p.attributes) + [IdentToken(p.name), Tok(Colon)] + TypeTokens(p.typeName)
  }

  predicate WellFormedParameter(p: Parameter)
  {
    WellFormedAttributes(p.attributes) && WellFormedType(p.typeName)
  }

  predicate WellFormedParameters(parameters: seq<Parameter>)
  {
    forall i :: 0 <= i < |parameters| ==> WellFormedParameter(parameters[i])
  }

  /** Parameters separated by commas, as WGSL writes them. */
  function ParametersTokens(parameters: seq<Parameter>): seq<Token>
  {
    if |parameters| == 0 then []
    else if |parameters| == 1 then ParameterTokens(parameters[0])
    else ParameterTokens(parameters[0]) + [Tok(Comma)] + ParametersTokens(parameters[1..])
  }

  /** Parameters written one after another with nothing between them. */
  function ParametersTokensAsWritten(parameters: seq<Parameter>): seq<Token>
  {
    if |parameters| == 0 then [] else ParameterTokens(parameters[0]) + ParametersTokensAsWritten(parameters[1..])
  }

  lemma ParameterStep(toks: seq<Token>, pos: nat, attributes: seq<Attribute>, p: nat, name: string, t: TypeName, end: nat)
    requires pos <= |toks| && ParseAttributes(toks, pos) == Parsed(Ok(attributes), p)
    requires p + 1 < |toks| && At(toks, p) == IdentToken(name) && At(toks, p + 1).kind == Colon
    requires ParseTypeName(toks, p + 2) == Parsed(Ok(t), end)
    ensures ParseParameter(toks, pos) == Parsed(Ok(Parameter(name, t, attributes)), end)
  {
    ExpectName(toks, p, name);
    ExpectAt(toks, p + 1, Colon);
  }

  /** parseParameter reads back `attributes name : type`. */
  lemma ParameterRoundTrip(toks: seq<Token>, pos: nat, param: Parameter, end: nat)
    requires WellFormedParameter(param)
    requires Occurs(toks, pos, ParameterTokens(param)) && end == pos + |ParameterTokens(param)|
    requires At(toks, end).kind != LT
    ensures ParseParameter(toks, pos) == Parsed(Ok(param), end)
  {
    var front := AttributesTokens(param.attributes);
    var p := pos + |front|;
    Labelled(toks, pos, front, param.name, TypeTokens(param.typeName), p);
    AttributesRoundTrip(toks, pos, param.attributes, p);
    TypeRoundTrip(toks, p + 2, param.typeName, end);
    ParameterStep(toks, pos, param.attributes, p, param.name, param.typeName, end);
  }

  /** A parameter is written starting with `@` or with its name. */
  lemma ParameterStart(param: Parameter)
    ensures |ParameterTokens(param)| > 0 && ParameterTokens(param)[0].kind in {TokenType.Attribute, Identifier}
  {
    var front := AttributesTokens(param.attributes);
    if |front| > 0 {
      AttributesHead(param.attributes);
      assert ParameterTokens(param)[0] == front[0];
    } else {
      assert ParameterTokens(param)[0] == IdentToken(param.name);
    }
  }

  /** The loop reads a parameter followed by `)` and stops. */
  lemma ParametersLoopLast(toks: seq<Token>, pos: nat, acc: seq<Parameter>, param: Parameter, q: nat)
    requires pos <= |toks| && At(toks, pos).kind != ParenRight
    requires ParseParameter(toks, pos) == Parsed(Ok(param), q) && At(toks, q).kind == ParenRight
    ensures ParseParametersLoop(toks, pos, acc) == Parsed(Ok(acc + [param]), q)
  {
    assert ParseParametersLoop(toks, q, acc + [param]) == Parsed(Ok(acc + [param]), q);
  }

  /** The loop reads a parameter followed by `,` and goes on after the comma. */
  /** What the parameter loop does after a parameter that is not followed by `)`. */
  function ParametersAfterComma(toks: seq<Token>, q: nat, acc: seq<Parameter>): Parsed<seq<Parameter>>
    requires q <= |toks|
  {
    var comma := Expect(toks, q, Comma);
    if comma.result.Err? then Parsed(Err(comma.result.error), comma.pos) else ParseParametersLoop(toks, comma.pos, acc)
  }

  lemma ParametersLoopNext(toks: seq<Token>, pos: nat, acc: seq<Parameter>, param: Parameter, q: nat)
    requires pos <= |toks| && At(toks, pos).kind != ParenRight
    requires ParseParameter(toks, pos) == Parsed(Ok(param), q) && At(toks, q).kind != ParenRight
    ensures ParseParametersLoop(toks, pos, acc) == ParametersAfterComma(toks, q, acc + [param])
  {}

  lemma ParametersCommaStep(toks: seq<Token>, q: nat, acc: seq<Parameter>)
    requires q < |toks| && Expect(toks, q, Comma) == Parsed(Ok(toks[q]), q + 1)
    ensures ParametersAfterComma(toks, q, acc) == ParseParametersLoop(toks, q + 1, acc)
  {}

  /** The loop reads a parameter followed by `,` and goes on after the comma. */
  lemma ParametersLoopComma(toks: seq<Token>, pos: nat, acc: seq<Parameter>, param: Parameter, q: nat)
    requires pos <= |toks| && At(toks, pos).kind != ParenRight
    requires ParseParameter(toks, pos) == Parsed(Ok(param), q)
    requires q < |toks| && At(toks, q).kind == Comma
    ensures ParseParametersLoop(toks, pos, acc) == ParseParametersLoop(toks, q + 1, acc + [param])
  {
    ParametersLoopNext(toks, pos, acc, param, q);
    ExpectAt(toks, q, Comma);
    ParametersCommaStep(toks, q, acc + [param]);
  }

  /** An empty parameter list, or a single parameter before `)`. */
  lemma ParametersLoopBase(toks: seq<Token>, pos: nat, acc: seq<Parameter>, parameters: seq<Parameter>, end: nat)
    requires |parameters| <= 1 && WellFormedParameters(parameters)
    requires Occurs(toks, pos, ParametersTokens(parameters)) && end == pos + |ParametersTokens(parameters)|
    requires At(toks, end).kind == ParenRight
    ensures ParseParametersLoop(toks, pos, acc) == Parsed(Ok(acc + parameters), end)
  {
    if |parameters| == 0 {
      assert acc + parameters == acc;
    } else {
      var param := parameters[0];
      assert WellFormedParameter(param) && parameters == [param];
      ParameterStart(param);
      OccursToken(toks, pos, ParameterTokens(param), 0);
      ParameterRoundTrip(toks, pos, param, end);
      ParametersLoopLast(toks, pos, acc, param, end);
    }
  }

  /** Where the first parameter, its comma and the remaining parameters sit. */
  lemma {:induction false} ParametersLayout(toks: seq<Token>, pos: nat, parameters: seq<Parameter>, p: nat, end: nat)
    requires |parameters| > 1 && WellFormedParameters(parameters)
    requires Occurs(toks, pos, ParametersTokens(parameters)) && end == pos + |ParametersTokens(parameters)|
    requires p == pos + |ParameterTokens(parameters[0])|
    ensures WellFormedParameter(parameters[0]) && WellFormedParameters(parameters[1..])
    ensures Occurs(toks, pos, ParameterTokens(parameters[0])) && At(toks, pos).kind != ParenRight
    ensures p < |toks| && At(toks, p).kind == Comma
    ensures Occurs(toks, p + 1, ParametersTokens(parameters[1..])) && end == p + 1 + |ParametersTokens(parameters[1..])|
  {
    var first := ParameterTokens(parameters[0]);
    assert ParametersTokens(parameters) == first + [Tok(Comma)] + ParametersTokens(parameters[1..]);
    Separated(toks, pos, first, Tok(Comma), ParametersTokens(parameters[1..]), p, end);
    ParameterStart(parameters[0]);
    OccursToken(toks, pos, first, 0);
  }

  /** The first parameter of a list of several read back, and the rest after its comma. */
  lemma ParametersLoopUnroll(toks: seq<Token>, pos: nat, acc: seq<Parameter>, parameters: seq<Parameter>, p: nat, end: nat)
    requires |parameters| > 1 && WellFormedParameters(parameters)
    requires Occurs(toks, pos, ParametersTokens(parameters)) && end == pos + |ParametersTokens(parameters)|
    requires p == pos + |ParameterTokens(parameters[0])|
    ensures WellFormedParameters(parameters[1..])
    ensures Occurs(toks, p + 1, ParametersTokens(parameters[1..])) && end == p + 1 + |ParametersTokens(parameters[1..])|
    ensures ParseParametersLoop(toks, pos, acc) == ParseParametersLoop(toks, p + 1, acc + [parameters[0]])
    ensures acc + [parameters[0]] + parameters[1..] == acc + parameters
  {
    ParametersLayout(toks, pos, parameters, p, end);
    ParameterRoundTrip(toks, pos, parameters[0], p);
    ParametersLoopComma(toks, pos, acc, parameters[0], p);
    AppendHead(acc, parameters);
  }

  /** The comma-separated parameter loop appends the parameters, in order, up to
      the closing parenthesis. */
  lemma {:induction false} ParametersLoopRoundTrip(toks: seq<Token>, pos: nat, acc: seq<Parameter>,
                                                   parameters: seq<Parameter>, end: nat)
    requires WellFormedParameters(parameters)
    requires Occurs(toks, pos, ParametersTokens(parameters)) && end == pos + |ParametersTokens(parameters)|
    requires At(toks, end).kind == ParenRight
    ensures ParseParametersLoop(toks, pos, acc) == Parsed(Ok(acc + parameters), end)
    decreases parameters
  {
    if |parameters| <= 1 {
      ParametersLoopBase(toks, pos, acc, parameters, end);
    } else {
      var p := pos + |ParameterTokens(parameters[0])|;
      ParametersLoopUnroll(toks, pos, acc, parameters, p, end);
      ParametersLoopRoundTrip(toks, p + 1, acc + [parameters[0]], parameters[1..], end);
    }
  }

  /** The parameter list of a function reads back in order. */
  lemma ParametersRoundTrip(toks: seq<Token>, pos: nat, parameters: seq<Parameter>, end: nat)
    requires WellFormedParameters(parameters)
    requires Occurs(toks, pos, ParametersTokens(parameters)) && end == pos + |ParametersTokens(parameters)|
    requires At(toks, end).kind == ParenRight
    ensures ParseParametersLoop(toks, pos, []) == Parsed(Ok(parameters), end)
  {
    ParametersLoopRoundTrip(toks, pos, [], parameters, end);
    assert [] + parameters == parameters;
  }

  /** The source's parameter loop reads back parameters written with nothing
      between them. */
  lemma {:induction false} ParametersAsWrittenRoundTrip(toks: seq<Token>, pos: nat, acc: seq<Parameter>,
                                                        parameters: seq<Parameter>, end: nat)
    requires WellFormedParameters(parameters)
    requires Occurs(toks, pos, ParametersTokensAsWritten(parameters)) && end == pos + |ParametersTokensAsWritten(parameters)|
    requires At(toks, end).kind == ParenRight
    ensures ParseParametersLoopAsWritten(toks, pos, acc) == Parsed(Ok(acc + parameters), end)
    decreases parameters
  {
    if |parameters| == 0 {
      ParametersAsWrittenEnd(toks, pos, acc, parameters);
    } else {
      var p := pos + |ParameterTokens(parameters[0])|;
      ParametersAsWrittenUnroll(toks, pos, acc, parameters, p, end);
      ParametersAsWrittenRoundTrip(toks, p, acc + [parameters[0]], parameters[1..], end);
    }
  }

  /** The as-written parameter loop stops at the closing parenthesis. */
  lemma ParametersAsWrittenEnd(toks: seq<Token>, pos: nat, acc: seq<Parameter>, parameters: seq<Parameter>)
    requires pos <= |toks| && At(toks, pos).kind == ParenRight && parameters == []
    ensures ParseParametersLoopAsWritten(toks, pos, acc) == Parsed(Ok(acc + parameters), pos)
  {
    assert acc + parameters == acc;
  }

  /** One turn of the as-written parameter loop over the first parameter. */
  lemma ParametersAsWrittenUnroll(toks: seq<Token>, pos: nat, acc: seq<Parameter>, parameters: seq<Parameter>,
                                  p: nat, end: nat)
    requires |parameters| > 0 && WellFormedParameters(parameters)
    requires Occurs(toks, pos, ParametersTokensAsWritten(parameters)) && end == pos + |ParametersTokensAsWritten(parameters)|
    requires At(toks, end).kind == ParenRight
    requires p == pos + |ParameterTokens(parameters[0])|
    ensures WellFormedParameters(parameters[1..])
    ensures Occurs(toks, p, ParametersTokensAsWritten(parameters[1..]))
    ensures end == p + |ParametersTokensAsWritten(parameters[1..])|
    ensures ParseParametersLoopAsWritten(toks, pos, acc) == ParseParametersLoopAsWritten(toks, p, acc + [parameters[0]])
    ensures acc + [parameters[0]] + parameters[1..] == acc + parameters
  {
    ParametersAsWrittenLayout(toks, pos, parameters, p, end);
    ParameterRoundTrip(toks, pos, parameters[0], p);
    ParametersAsWrittenStep(toks, pos, acc, parameters[0], p);
    AppendHead(acc, parameters);
  }

  /** Where the first parameter and the remaining ones sit when nothing separates them. */
  lemma {:induction false} ParametersAsWrittenLayout(toks: seq<Token>, pos: nat, parameters: seq<Parameter>, p: nat, end: nat)
    requires |parameters| > 0 && WellFormedParameters(parameters)
    requires Occurs(toks, pos, ParametersTokensAsWritten(parameters)) && end == pos + |ParametersTokensAsWritten(parameters)|
    requires At(toks, end).kind == ParenRight
    requires p == pos + |ParameterTokens(parameters[0])|
    ensures WellFormedParameter(parameters[0]) && WellFormedParameters(parameters[1..])
    ensures Occurs(toks, pos, ParameterTokens(parameters[0])) && At(toks, pos).kind != ParenRight
    ensures At(toks, p).kind != LT
    ensures Occurs(toks, p, ParametersTokensAsWritten(parameters[1..]))
    ensures end == p + |ParametersTokensAsWritten(parameters[1..])|
  {
    var param := parameters[0];
    OccursConcat(toks, pos, ParameterTokens(param), ParametersTokensAsWritten(parameters[1..]));
    ParameterStart(param);
    OccursToken(toks, pos, ParameterTokens(param), 0);
    ParameterHead(toks, p, parameters[1..], end);
  }

  lemma ParametersAsWrittenStep(toks: seq<Token>, pos: nat, acc: seq<Parameter>, param: Parameter, q: nat)
    requires pos <= |toks| && At(toks, pos).kind != ParenRight
    requires ParseParameter(toks, pos) == Parsed(Ok(param), q)
    ensures ParseParametersLoopAsWritten(toks, pos, acc) == ParseParametersLoopAsWritten(toks, q, acc + [param])
  {}

  /** What follows a parameter in the source's layout is `)` or the next
      parameter's `@` or name, never `<`. */
  lemma ParameterHead(toks: seq<Token>, pos: nat, parameters: seq<Parameter>, end: nat)
    requires Occurs(toks, pos, ParametersTokensAsWritten(parameters)) && end == pos + |ParametersTokensAsWritten(parameters)|
    requires At(toks, end).kind == ParenRight
    ensures At(toks, pos).kind in {ParenRight, TokenType.Attribute, Identifier}
  {
    if |parameters| > 0 {
      var first := ParameterTokens(parameters[0]);
      var attributes := AttributesTokens(parameters[0].attributes);
      assert ParametersTokensAsWritten(parameters) == first + ParametersTokensAsWritten(parameters[1..]);
      OccursConcat(toks, pos, first, ParametersTokensAsWritten(parameters[1..]));
      OccursToken(toks, pos, first, 0);
      if |attributes| > 0 {
        assert first[0] == attributes[0];
        AttributesHead(parameters[0].attributes);
      } else {
        assert first[0] == IdentToken(parameters[0].name);
      }
    }
  }

  /** A non-empty attribute list starts with `@`. */
  lemma AttributesHead(attributes: seq<Attribute>)
    requires |AttributesTokens(attributes)| > 0
    ensures AttributesTokens(attributes)[0].kind == TokenType.Attribute
  {
    if |attributes| > 0 && |AttributeTokens(attributes[0])| == 0 {
      AttributesHead(attributes[1..]);
    }
  }

  // ---------------------------------------------------------------- functions

  /** `-> attributes type`, or nothing when the function returns nothing. */
  function ReturnTypeTokens(attributes: seq<Attribute>, maybeType: Option<TypeName>): seq<Token>
  {
    if maybeType.None? then [] else [Tok(Arrow)] + AttributesTokens(attributes) + TypeTokens(maybeType.value)
  }

  predicate WellFormedReturnType(attributes: seq<Attribute>, maybeType: Option<TypeName>)
  {
    if maybeType.None? then attributes == [] else WellFormedAttributes(attributes) && WellFormedType(maybeType.value)
  }

  /** No type starts with `@`. */
  lemma TypeNameStart(t: TypeName)
    ensures |TypeTokens(t)| > 0 && TypeTokens(t)[0].kind != TokenType.Attribute
  {}

  /** parseMaybeReturnType reads back `-> attributes type`, and nothing when no
      `->` follows the parameters. */
  lemma MaybeReturnTypeRoundTrip(toks: seq<Token>, pos: nat, attributes: seq<Attribute>, maybeType: Option<TypeName>, end: nat)
    requires WellFormedReturnType(attributes, maybeType)
    requires Occurs(toks, pos, ReturnTypeTokens(attributes, maybeType)) && end == pos + |ReturnTypeTokens(attributes, maybeType)|
    requires maybeType.None? ==> At(toks, end).kind != Arrow
    requires maybeType.Some? ==> At(toks, end).kind != LT
    ensures ParseMaybeReturnType(toks, pos) == Parsed(Ok((attributes, maybeType)), end)
  {
    if maybeType.Some? {
      var front := AttributesTokens(attributes);
      var p := pos + 1 + |front|;
      TypeNameStart(maybeType.value);
      ArrowLayout(toks, pos, front, TypeTokens(maybeType.value), p, end);
      ReturnTypeParts(toks, pos, attributes, maybeType.value, p, end);
    }
  }

  /** Where the parts of `-> front ts` sit. */
  lemma ArrowLayout(toks: seq<Token>, pos: nat, front: seq<Token>, ts: seq<Token>, p: nat, end: nat)
    requires Occurs(toks, pos, [Tok(Arrow)] + front + ts) && end == pos + |[Tok(Arrow)] + front + ts|
    requires p == pos + 1 + |front| && |ts| > 0
    ensures pos < |toks| && At(toks, pos).kind == Arrow && Occurs(toks, pos + 1, front)
    ensures Occurs(toks, p, ts) && end == p + |ts| && At(toks, p) == ts[0]
  {
    OccursConcat3(toks, pos, [Tok(Arrow)], front, ts);
    OccursToken(toks, pos, [Tok(Arrow)], 0);
    OccursToken(toks, p, ts, 0);
  }

  /** The parse half of MaybeReturnTypeRoundTrip when a return type is written. */
  lemma ReturnTypeParts(toks: seq<Token>, pos: nat, attributes: seq<Attribute>, t: TypeName, p: nat, end: nat)
    requires WellFormedAttributes(attributes) && WellFormedType(t)
    requires pos < |toks| && At(toks, pos).kind == Arrow
    requires Occurs(toks, pos + 1, AttributesTokens(attributes)) && p == pos + 1 + |AttributesTokens(attributes)|
    requires Occurs(toks, p, TypeTokens(t)) && end == p + |TypeTokens(t)|
    requires At(toks, p).kind != TokenType.Attribute && At(toks, end).kind != LT
    ensures ParseMaybeReturnType(toks, pos) == Parsed(Ok((attributes, Some(t))), end)
  {
    AttributesRoundTrip(toks, pos + 1, attributes, p);
    TypeRoundTrip(toks, p, t, end);
    ReturnTypeStep(toks, pos, attributes, p, t, end);
  }


  lemma ReturnTypeStep(toks: seq<Token>, pos: nat, attributes: seq<Attribute>, p: nat, t: TypeName, end: nat)
    requires pos < |toks| && At(toks, pos).kind == Arrow
    requires ParseAttributes(toks, pos + 1) == Parsed(Ok(attributes), p)
    requires ParseTypeName(toks, p) == Parsed(Ok(t), end)
    ensures ParseMaybeReturnType(toks, pos) == Parsed(Ok((attributes, Some(t))), end)
  {
    var a := ParseAttributes(toks, pos + 1);
    var typeName := ParseTypeName(toks, a.pos);
    assert typeName == Parsed(Ok(t), end);
  }

  /** `fn name ( parameters ) -> attributes type { body }`; the attributes before
      `fn` belong to the global declaration around it. */
  function FunctionTokens(f: FunctionDeclaration): seq<Token>
  {
    [Tok(KeywordFn), IdentToken(f.name), Tok(ParenLeft)] + ParametersTokens(f.parameters) + [Tok(ParenRight)]
      + ReturnTypeTokens(f.returnAttributes, f.maybeReturnType) + BlockTokens(f.body)
  }

  predicate WellFormedFunction(f: FunctionDeclaration)
  {
    WellFormedParameters(f.parameters) && WellFormedReturnType(f.returnAttributes, f.maybeReturnType)
      && WellFormedStatements(f.body)
  }

  /** The `fn name (` that opens a function, and the `)` after its parameters. */
  lemma FunctionPunctuation(toks: seq<Token>, pos: nat, name: string, p: nat)
    requires pos + 2 < |toks| && At(toks, pos).kind == KeywordFn && At(toks, pos + 1) == IdentToken(name)
    requires At(toks, pos + 2).kind == ParenLeft && p < |toks| && At(toks, p).kind == ParenRight
    ensures Expect(toks, pos, KeywordFn) == Parsed(Ok(toks[pos]), pos + 1)
    ensures Expect(toks, pos + 1, Identifier) == Parsed(Ok(IdentToken(name)), pos + 2)
    ensures Expect(toks, pos + 2, ParenLeft) == Parsed(Ok(toks[pos + 2]), pos + 3)
    ensures Expect(toks, p, ParenRight) == Parsed(Ok(toks[p]), p + 1)
  {
    ExpectAt(toks, pos, KeywordFn);
    ExpectName(toks, pos + 1, name);
    ExpectAt(toks, pos + 2, ParenLeft);
    ExpectAt(toks, p, ParenRight);
  }

  /** What parseFunctionDeclaration does once `fn name (` is read. */
  function FunctionAfterHeader(toks: seq<Token>, r: nat, name: string): Parsed<FunctionDeclaration>
    requires r <= |toks|
  {
    var parameters := ParseParametersLoop(toks, r, []);
    if parameters.result.Err? then Parsed(Err(parameters.result.error), parameters.pos) else
    FunctionAfterParameters(toks, parameters.pos, name, parameters.result.value)
  }

  /** What parseFunctionDeclaration does once the parameters are read. */
  function FunctionAfterParameters(toks: seq<Token>, p: nat, name: string, parameters: seq<Parameter>): Parsed<FunctionDeclaration>
    requires p <= |toks|
  {
    var close := Expect(toks, p, ParenRight);
    if close.result.Err? then Parsed(Err(close.result.error), close.pos) else
    var ret := ParseMaybeReturnType(toks, close.pos);
    if ret.result.Err? then Parsed(Err(ret.result.error), ret.pos) else
    FunctionAfterReturnType(toks, ret.pos, name, parameters, ret.result.value.0, ret.result.value.1)
  }

  /** What parseFunctionDeclaration does once the return type is read. */
  function FunctionAfterReturnType(toks: seq<Token>, q: nat, name: string, parameters: seq<Parameter>,
                                   attributes: seq<Attribute>, maybeType: Option<TypeName>): Parsed<FunctionDeclaration>
    requires q <= |toks|
  {
    var body := ParseCompoundStatement(toks, q);
    if body.result.Err? then Parsed(Err(body.result.error), body.pos) else
    Parsed(Ok(FunctionDeclaration(name, [], parameters, attributes, maybeType, body.result.value)), body.pos)
  }

  lemma FunctionHeaderStep(toks: seq<Token>, pos: nat, name: string)
    requires pos + 2 < |toks|
    requires Expect(toks, pos, KeywordFn) == Parsed(Ok(toks[pos]), pos + 1)
    requires Expect(toks, pos + 1, Identifier) == Parsed(Ok(IdentToken(name)), pos + 2)
    requires Expect(toks, pos + 2, ParenLeft) == Parsed(Ok(toks[pos + 2]), pos + 3)
    ensures ParseFunctionDeclaration(toks, pos) == FunctionAfterHeader(toks, pos + 3, name)
  {}

  lemma FunctionParametersStep(toks: seq<Token>, r: nat, name: string, parameters: seq<Parameter>, p: nat)
    requires r <= |toks| && ParseParametersLoop(toks, r, []) == Parsed(Ok(parameters), p)
    ensures FunctionAfterHeader(toks, r, name) == FunctionAfterParameters(toks, p, name, parameters)
  {}

  lemma FunctionReturnTypeStep(toks: seq<Token>, p: nat, name: string, parameters: seq<Parameter>,
                               attributes: seq<Attribute>, maybeType: Option<TypeName>, q: nat)
    requires p < |toks| && Expect(toks, p, ParenRight) == Parsed(Ok(toks[p]), p + 1)
    requires ParseMaybeReturnType(toks, p + 1) == Parsed(Ok((attributes, maybeType)), q)
    ensures FunctionAfterParameters(toks, p, name, parameters) == FunctionAfterReturnType(toks, q, name, parameters, attributes, maybeType)
  {}

  lemma FunctionBodyStep(toks: seq<Token>, q: nat, name: string, parameters: seq<Parameter>,
                         attributes: seq<Attribute>, maybeType: Option<TypeName>, body: seq<Statement>, end: nat)
    requires q <= |toks| && ParseCompoundStatement(toks, q) == Parsed(Ok(body), end)
    ensures FunctionAfterReturnType(toks, q, name, parameters, attributes, maybeType) ==
      Parsed(Ok(FunctionDeclaration(name, [], parameters, attributes, maybeType, body)), end)
  {}

  /** Where the parts of a function's tokens sit. */
  lemma FunctionLayout(toks: seq<Token>, pos: nat, name: string, parameters: seq<Token>, returnType: seq<Token>,
                       block: seq<Token>, r: nat, p: nat, s: nat, q: nat, end: nat)
    requires Occurs(toks, pos, [Tok(KeywordFn), IdentToken(name), Tok(ParenLeft)] + parameters + [Tok(ParenRight)]
                               + returnType + block)
    requires r == pos + 3 && p == r + |parameters| && s == p + 1 && q == s + |returnType| && end == q + |block|
    ensures r - 1 < |toks| && At(toks, pos).kind == KeywordFn && At(toks, pos + 1) == IdentToken(name)
    ensures At(toks, pos + 2).kind == ParenLeft && Occurs(toks, r, parameters)
    ensures p < |toks| && At(toks, p).kind == ParenRight
    ensures Occurs(toks, s, returnType) && Occurs(toks, q, block)
  {
    var head := [Tok(KeywordFn), IdentToken(name), Tok(ParenLeft)] + parameters + [Tok(ParenRight)];
    OccursConcat3(toks, pos, head, returnType, block);
    Wrapped3(toks, pos, Tok(KeywordFn), IdentToken(name), Tok(ParenLeft), parameters, Tok(ParenRight), p, s);
  }

  /** parseFunctionDeclaration reads back a whole function: its name, its
      parameters in order, its return attributes and type, and its body; the
      declaration's attributes are filled in by the caller. */
  lemma FunctionRoundTrip(toks: seq<Token>, pos: nat, f: FunctionDeclaration, end: nat)
    requires WellFormedFunction(f)
    requires Occurs(toks, pos, FunctionTokens(f)) && end == pos + |FunctionTokens(f)|
    ensures ParseFunctionDeclaration(toks, pos) == Parsed(Ok(f.(attributes := [])), end)
  {
    var parameters := ParametersTokens(f.parameters);
    var returnType := ReturnTypeTokens(f.returnAttributes, f.maybeReturnType);
    var r := pos + 3;
    var p := r + |parameters|;
    var s := p + 1;
    var q := s + |returnType|;
    assert FunctionTokens(f) == [Tok(KeywordFn), IdentToken(f.name), Tok(ParenLeft)] + parameters + [Tok(ParenRight)]
                                + returnType + BlockTokens(f.body);
    FunctionLayout(toks, pos, f.name, parameters, returnType, BlockTokens(f.body), r, p, s, q, end);
    BlockRoundTrip(toks, q, f.body, end);
    ParametersRoundTrip(toks, r, f.parameters, p);
    MaybeReturnTypeRoundTrip(toks, s, f.returnAttributes, f.maybeReturnType, q);
    FunctionPunctuation(toks, pos, f.name, p);
    FunctionHeaderStep(toks, pos, f.name);
    FunctionParametersStep(toks, r, f.name, f.parameters, p);
    FunctionReturnTypeStep(toks, p, f.name, f.parameters, f.returnAttributes, f.maybeReturnType, q);
    FunctionBodyStep(toks, q, f.name, f.parameters, f.returnAttributes, f.maybeReturnType, f.body, end);
  }

  // ---------------------------------------------------------------- left-hand sides

  /** The left-hand sides the parser builds from an identifier: the identifier
      followed by `[ index ]` and `. field` suffixes. */
  predicate IsLHS(e: Expression)
  {
    match e
    case IdentifierExpression(_) => true
    case ArrayAccess(base, index) => IsLHS(base) && WellFormedExpression(index)
    case StructureAccess(base, _) => IsLHS(base)
    case _ => false
  }

  /** The identifier a left-hand side starts with. */
  function LHSRoot(e: Expression): string
    requires IsLHS(e)
  {
    match e
    case IdentifierExpression(name) => name
    case ArrayAccess(base, _) => LHSRoot(base)
    case StructureAccess(base, _) => LHSRoot(base)
  }

  /** A left-hand side is a well-formed expression written as its identifier,
      then `[` or `.` if anything follows. */
  lemma {:induction false} LHSHead(e: Expression)
    requires IsLHS(e)
    ensures WellFormedExpression(e) && !e.UnaryExpression?
    ensures |ExpressionTokens(e)| > 0 && ExpressionTokens(e)[0] == IdentToken(LHSRoot(e))
    ensures |ExpressionTokens(e)| > 1 ==> ExpressionTokens(e)[1].kind in {BracketLeft, Period}
  {
    match e
    case IdentifierExpression(_) =>
    case ArrayAccess(base, index) =>
      LHSHead(base);
      var tail := [Tok(BracketLeft)] + ExpressionTokens(index) + [Tok(BracketRight)];
      assert ExpressionTokens(e) == ExpressionTokens(base) + tail;
      ConcatHead(ExpressionTokens(base), tail);
    case StructureAccess(base, fieldName) =>
      LHSHead(base);
      assert ExpressionTokens(e) == ExpressionTokens(base) + [Tok(Period), IdentToken(fieldName)];
      ConcatHead(ExpressionTokens(base), [Tok(Period), IdentToken(fieldName)]);
  }

  /** The first two tokens of a concatenation. */
  lemma ConcatHead(a: seq<Token>, b: seq<Token>)
    requires |a| > 0 && |b| > 0
    ensures (a + b)[0] == a[0] && (a + b)[1] == (if |a| > 1 then a[1] else b[0])
  {}

  lemma LHSIdentifierStep(toks: seq<Token>, pos: nat, name: string)
    requires pos < |toks| && At(toks, pos) == IdentToken(name)
    ensures ParseLHSExpression(toks, pos) == ParsePostfixExpression(toks, pos + 1, IdentifierExpression(name))
  {}

  /** parseLHSExpression reads back an identifier with its suffixes, folding them
      as parsePostfixExpression does for any expression. */
  lemma LHSRoundTrip(toks: seq<Token>, pos: nat, e: Expression, end: nat)
    requires IsLHS(e)
    requires Occurs(toks, pos, ExpressionTokens(e)) && end == pos + |ExpressionTokens(e)|
    requires EndsExpression(At(toks, end).kind)
    ensures pos < |toks| && At(toks, pos).kind == Identifier
    ensures ParseLHSExpression(toks, pos) == Parsed(Ok(e), end)
  {
    LHSHead(e);
    var root := LHSRoot(e);
    OccursToken(toks, pos, ExpressionTokens(e), 0);
    if |ExpressionTokens(e)| > 1 {
      OccursToken(toks, pos, ExpressionTokens(e), 1);
    }
    IdentifierStep(toks, pos, root);
    LHSIdentifierStep(toks, pos, root);
    SingularStep(toks, pos, IdentifierExpression(root), pos + 1);
    NotNegateStep(toks, pos);
    PlainRoundTrip(toks, pos, e, end);
  }

  /** parseCoreLHSExpression: an identifier, or a left-hand side in parentheses;
      any other token fails without being consumed. */
  lemma CoreLHSRule(toks: seq<Token>, pos: nat)
    requires pos <= |toks|
    ensures At(toks, pos).kind == Identifier ==>
      ParseCoreLHSExpression(toks, pos) == Parsed(Ok(IdentifierExpression(toks[pos].ident)), pos + 1)
    ensures At(toks, pos).kind == ParenLeft ==>
      var inner := ParseLHSExpression(toks, pos + 1);
      (ParseCoreLHSExpression(toks, pos).result.Ok? <==> inner.result.Ok? && At(toks, inner.pos).kind == ParenRight) &&
      (ParseCoreLHSExpression(toks, pos).result.Ok? ==> ParseCoreLHSExpression(toks, pos) == Parsed(inner.result, inner.pos + 1))
    ensures At(toks, pos).kind != Identifier && At(toks, pos).kind != ParenLeft ==>
      ParseCoreLHSExpression(toks, pos) == Parsed(Err(LHSExpressionError), pos)
  {}

  /** `( lhs )` once the inner left-hand side is read: the closing parenthesis
      ends the left-hand side. */
  lemma ParenthesizedLHSStep(toks: seq<Token>, pos: nat, e: Expression, p: nat)
    requires pos < |toks| && At(toks, pos).kind == ParenLeft
    requires ParseLHSExpression(toks, pos + 1) == Parsed(Ok(e), p)
    requires p < |toks| && At(toks, p).kind == ParenRight && EndsExpression(At(toks, p + 1).kind)
    ensures ParseLHSExpression(toks, pos) == Parsed(Ok(e), p + 1)
  {
    ExpectAt(toks, p, ParenRight);
    PostfixEndStep(toks, p + 1, e);
    var core := ParseCoreLHSExpression(toks, pos);
    assert core == Parsed(Ok(e), p + 1);
  }

  /** A left-hand side in parentheses reads back as the same left-hand side. */
  lemma ParenthesizedLHSRoundTrip(toks: seq<Token>, pos: nat, e: Expression, end: nat)
    requires IsLHS(e)
    requires Occurs(toks, pos, [Tok(ParenLeft)] + ExpressionTokens(e) + [Tok(ParenRight)])
    requires end == pos + 2 + |ExpressionTokens(e)|
    requires EndsExpression(At(toks, end).kind)
    ensures ParseLHSExpression(toks, pos) == Parsed(Ok(e), end)
  {
    var p := pos + 1 + |ExpressionTokens(e)|;
    Wrapped(toks, pos, Tok(ParenLeft), ExpressionTokens(e), Tok(ParenRight), p, end);
    ParenthesizedLHSParts(toks, pos, e, p);
  }

  /** The parse half of ParenthesizedLHSRoundTrip, from where the tokens sit. */
  lemma ParenthesizedLHSParts(toks: seq<Token>, pos: nat, e: Expression, p: nat)
    requires IsLHS(e) && pos < |toks| && At(toks, pos).kind == ParenLeft
    requires Occurs(toks, pos + 1, ExpressionTokens(e)) && p == pos + 1 + |ExpressionTokens(e)|
    requires p < |toks| && At(toks, p).kind == ParenRight && EndsExpression(At(toks, p + 1).kind)
    ensures ParseLHSExpression(toks, pos) == Parsed(Ok(e), p + 1)
  {
    LHSRoundTrip(toks, pos + 1, e, p);
    ParenthesizedLHSStep(toks, pos, e, p);
  }

  // ---------------------------------------------------------------- statements

  /** The tokens of a statement. The parser always builds an assignment with a
      left-hand side, so one without has no spelling. */
  function StatementTokens(s: Statement): seq<Token>
    decreases s, 1
  {
    match s
    case CompoundStatement(statements) => BlockTokens(statements)
    case ReturnStatement(None) => [Tok(KeywordReturn), Tok(Semicolon)]
    case ReturnStatement(Some(e)) => [Tok(KeywordReturn)] + ExpressionTokens(e) + [Tok(Semicolon)]
    case AssignmentStatement(None, _) => []
    case AssignmentStatement(Some(lhs), rhs) => ExpressionTokens(lhs) + [Tok(Equal)] + ExpressionTokens(rhs) + [Tok(Semicolon)]
    case VariableStatement(v) => VariableTokens(v) + [Tok(Semicolon)]
  }

  /** `{ statements }` */
  function BlockTokens(statements: seq<Statement>): seq<Token>
    decreases statements, 1
  {
    [Tok(BraceLeft)] + StatementsTokens(statements) + [Tok(BraceRight)]
  }

  function StatementsTokens(statements: seq<Statement>): seq<Token>
    decreases statements, 0
  {
    if |statements| == 0 then [] else StatementTokens(statements[0]) + StatementsTokens(statements[1..])
  }

  /** Statements the parser produces. */
  predicate WellFormedStatement(s: Statement)
    decreases s, 1
  {
    match s
    case CompoundStatement(statements) => WellFormedStatements(statements)
    case ReturnStatement(e) => e.Some? ==> WellFormedExpression(e.value)
    case AssignmentStatement(lhs, rhs) => lhs.Some? && IsLHS(lhs.value) && WellFormedExpression(rhs)
    case VariableStatement(v) => v.attributes == [] && WellFormedVariable(v)
  }

  predicate WellFormedStatements(statements: seq<Statement>)
    decreases statements, 0
  {
    forall i :: 0 <= i < |statements| ==> WellFormedStatement(statements[i])
  }

  /** `;`, and a token no statement starts with. */
  lemma StatementRule(toks: seq<Token>, pos: nat)
    requires pos <= |toks|
    ensures At(toks, pos).kind == Semicolon ==> ParseStatement(toks, pos) == Parsed(Ok(CompoundStatement([])), pos + 1)
    ensures At(toks, pos).kind !in {BraceLeft, Semicolon, KeywordReturn, KeywordVar, Identifier} ==>
      ParseStatement(toks, pos) == Parsed(Err(StatementError), pos)
  {}

  lemma CompoundStep(toks: seq<Token>, pos: nat, statements: seq<Statement>, end: nat)
    requires pos < |toks| && At(toks, pos).kind == BraceLeft
    requires ParseCompoundStatement(toks, pos) == Parsed(Ok(statements), end)
    ensures ParseStatement(toks, pos) == Parsed(Ok(CompoundStatement(statements)), end)
  {
    var block := ParseCompoundStatement(toks, pos);
    assert block == Parsed(Ok(statements), end);
  }

  /** `return expression`, up to the `;`. */
  lemma ReturnExpressionStep(toks: seq<Token>, pos: nat, e: Expression, p: nat)
    requires pos + 1 < |toks| && At(toks, pos).kind == KeywordReturn && At(toks, pos + 1).kind != Semicolon
    requires ParseExpression(toks, pos + 1) == Parsed(Ok(e), p)
    ensures ParseReturnStatement(toks, pos) == Parsed(Ok(ReturnStatement(Some(e))), p)
  {
    ExpectAt(toks, pos, KeywordReturn);
    assert ParseShortCircuitOrExpression(toks, pos + 1) == ParseExpression(toks, pos + 1);
  }

  lemma ReturnValueStep(toks: seq<Token>, pos: nat, e: Expression, p: nat)
    requires pos + 1 < |toks| && At(toks, pos).kind == KeywordReturn && At(toks, pos + 1).kind != Semicolon
    requires ParseExpression(toks, pos + 1) == Parsed(Ok(e), p) && At(toks, p).kind == Semicolon
    ensures ParseStatement(toks, pos) == Parsed(Ok(ReturnStatement(Some(e))), p + 1)
  {
    ReturnExpressionStep(toks, pos, e, p);
    ExpectAt(toks, p, Semicolon);
  }

  /** What parseStatement does once the left-hand side of an assignment is read. */
  function AssignmentAfterLHS(toks: seq<Token>, p: nat, lhs: Expression): Parsed<Statement>
    requires p <= |toks|
  {
    var eq := Expect(toks, p, Equal);
    if eq.result.Err? then Parsed(Err(eq.result.error), eq.pos) else
    var rhs := ParseExpression(toks, eq.pos);
    if rhs.result.Err? then Parsed(Err(rhs.result.error), rhs.pos) else
    var semi := Expect(toks, rhs.pos, Semicolon);
    if semi.result.Err? then Parsed(Err(semi.result.error), semi.pos) else
    Parsed(Ok(AssignmentStatement(Some(lhs), rhs.result.value)), semi.pos)
  }

  lemma AssignmentLHSStep(toks: seq<Token>, pos: nat, lhs: Expression, p: nat)
    requires pos < |toks| && At(toks, pos).kind == Identifier
    requires ParseLHSExpression(toks, pos) == Parsed(Ok(lhs), p)
    ensures ParseStatement(toks, pos) == AssignmentAfterLHS(toks, p, lhs)
  {}

  lemma AssignmentStep(toks: seq<Token>, lhs: Expression, p: nat, rhs: Expression, q: nat)
    requires p < |toks| && Expect(toks, p, Equal) == Parsed(Ok(toks[p]), p + 1)
    requires ParseExpression(toks, p + 1) == Parsed(Ok(rhs), q) && q < |toks|
    requires Expect(toks, q, Semicolon) == Parsed(Ok(toks[q]), q + 1)
    ensures AssignmentAfterLHS(toks, p, lhs) == Parsed(Ok(AssignmentStatement(Some(lhs), rhs)), q + 1)
  {}

  lemma VariableStatementStep(toks: seq<Token>, pos: nat, v: VariableDeclaration, p: nat)
    requires pos < |toks| && At(toks, pos).kind == KeywordVar
    requires ParseVariableDeclaration(toks, pos) == Parsed(Ok(v), p) && At(toks, p).kind == Semicolon
    ensures ParseStatement(toks, pos) == Parsed(Ok(VariableStatement(v)), p + 1)
  {
    ExpectAt(toks, p, Semicolon);
  }

  lemma StatementsLoopStep(toks: seq<Token>, pos: nat, acc: seq<Statement>, s: Statement, p: nat)
    requires pos <= |toks| && At(toks, pos).kind != BraceRight
    requires ParseStatement(toks, pos) == Parsed(Ok(s), p)
    ensures ParseStatementsLoop(toks, pos, acc) == ParseStatementsLoop(toks, p, acc + [s])
  {}

  lemma BlockStep(toks: seq<Token>, pos: nat, statements: seq<Statement>, p: nat)
    requires pos < |toks| && At(toks, pos).kind == BraceLeft
    requires ParseStatementsLoop(toks, pos + 1, []) == Parsed(Ok([] + statements), p) && At(toks, p).kind == BraceRight
    ensures ParseCompoundStatement(toks, pos) == Parsed(Ok(statements), p + 1)
  {
    assert [] + statements == statements;
    ExpectAt(toks, pos, BraceLeft);
    ExpectAt(toks, p, BraceRight);
  }

  /** No expression starts with `;`, so `return ;` is never read as a return value. */
  lemma ExpressionNotAtSemicolon(toks: seq<Token>, pos: nat)
    requires pos <= |toks| && At(toks, pos).kind == Semicolon
    ensures ParseExpression(toks, pos).result.Err?
  {
    ExpressionStep(toks, pos);
    NotNegateStep(toks, pos);
    assert ParsePrimaryExpression(toks, pos).result.Err?;
  }

  /** parseStatement reads back any well-formed statement, blocks included. */
  lemma {:induction false} StatementRoundTrip(toks: seq<Token>, pos: nat, s: Statement, end: nat)
    requires WellFormedStatement(s)
    requires Occurs(toks, pos, StatementTokens(s)) && end == pos + |StatementTokens(s)|
    ensures ParseStatement(toks, pos) == Parsed(Ok(s), end)
    decreases s, 3
  {
    match s
    case CompoundStatement(statements) =>
      BlockRoundTrip(toks, pos, statements, end);
      CompoundStep(toks, pos, statements, end);
    case ReturnStatement(_) =>
      ReturnRoundTrip(toks, pos, s, end);
    case AssignmentStatement(_, _) =>
      AssignmentRoundTrip(toks, pos, s, end);
    case VariableStatement(v) =>
      VariableStatementRoundTrip(toks, pos, v, end);
  }

  /** parseCompoundStatement reads back `{ statements }`, in order. */
  lemma {:induction false} BlockRoundTrip(toks: seq<Token>, pos: nat, statements: seq<Statement>, end: nat)
    requires WellFormedStatements(statements)
    requires Occurs(toks, pos, BlockTokens(statements)) && end == pos + |BlockTokens(statements)|
    ensures pos < |toks| && At(toks, pos).kind == BraceLeft
    ensures ParseCompoundStatement(toks, pos) == Parsed(Ok(statements), end)
    decreases statements, 2
  {
    var p := pos + 1 + |StatementsTokens(statements)|;
    Wrapped(toks, pos, Tok(BraceLeft), StatementsTokens(statements), Tok(BraceRight), p, end);
    StatementsLoopRoundTrip(toks, pos + 1, [], statements, p);
    BlockStep(toks, pos, statements, p);
  }

  /** The statement loop appends the statements, in order, up to the closing brace. */
  lemma {:induction false} StatementsLoopRoundTrip(toks: seq<Token>, pos: nat, acc: seq<Statement>,
                                                   statements: seq<Statement>, end: nat)
    requires WellFormedStatements(statements)
    requires Occurs(toks, pos, StatementsTokens(statements)) && end == pos + |StatementsTokens(statements)|
    requires At(toks, end).kind == BraceRight
    ensures ParseStatementsLoop(toks, pos, acc) == Parsed(Ok(acc + statements), end)
    decreases statements, 1
  {
    if |statements| == 0 {
      assert acc + statements == acc;
    } else {
      var p := pos + |StatementTokens(statements[0])|;
      StatementsLoopUnroll(toks, pos, acc, statements, p);
      StatementsLoopRoundTrip(toks, p, acc + [statements[0]], statements[1..], end);
    }
  }

  /** The first statement of a list read back, and the rest of the list after it. */
  lemma {:induction false} StatementsLoopUnroll(toks: seq<Token>, pos: nat, acc: seq<Statement>,
                                                statements: seq<Statement>, p: nat)
    requires |statements| > 0 && WellFormedStatements(statements)
    requires Occurs(toks, pos, StatementsTokens(statements)) && p == pos + |StatementTokens(statements[0])|
    ensures WellFormedStatements(statements[1..])
    ensures Occurs(toks, p, StatementsTokens(statements[1..]))
    ensures pos + |StatementsTokens(statements)| == p + |StatementsTokens(statements[1..])|
    ensures ParseStatementsLoop(toks, pos, acc) == ParseStatementsLoop(toks, p, acc + [statements[0]])
    ensures acc + [statements[0]] + statements[1..] == acc + statements
    decreases statements, 0
  {
    var s := statements[0];
    assert WellFormedStatement(s);
    OccursConcat(toks, pos, StatementTokens(s), StatementsTokens(statements[1..]));
    StatementStart(s);
    OccursToken(toks, pos, StatementTokens(s), 0);
    StatementRoundTrip(toks, pos, s, p);
    StatementsLoopStep(toks, pos, acc, s, p);
    AppendHead(acc, statements);
  }

  /** A statement is written starting with `{`, `return`, `var` or the
      identifier of its left-hand side, never with `}`. */
  lemma StatementStart(s: Statement)
    requires WellFormedStatement(s)
    ensures |StatementTokens(s)| > 0 && StatementTokens(s)[0].kind != BraceRight
  {
    match s
    case CompoundStatement(statements) =>
    case ReturnStatement(_) =>
    case AssignmentStatement(lhs, rhs) =>
      LHSHead(lhs.value);
      assert StatementTokens(s)[0] == ExpressionTokens(lhs.value)[0];
    case VariableStatement(v) =>
  }

  /** `return ;` and `return expression ;` */
  lemma ReturnRoundTrip(toks: seq<Token>, pos: nat, s: Statement, end: nat)
    requires s.ReturnStatement? && WellFormedStatement(s)
    requires Occurs(toks, pos, StatementTokens(s)) && end == pos + |StatementTokens(s)|
    ensures ParseStatement(toks, pos) == Parsed(Ok(s), end)
  {
    match s.maybeExpression
    case None =>
      OccursToken(toks, pos, StatementTokens(s), 0);
      OccursToken(toks, pos, StatementTokens(s), 1);
      ParserProperties.ReturnWithoutExpression(toks, pos);
    case Some(e) =>
      var p := pos + 1 + |ExpressionTokens(e)|;
      Wrapped(toks, pos, Tok(KeywordReturn), ExpressionTokens(e), Tok(Semicolon), p, end);
      ExpressionRoundTrip(toks, pos + 1, e, p);
      if At(toks, pos + 1).kind == Semicolon {
        ExpressionNotAtSemicolon(toks, pos + 1);
      }
      ReturnValueStep(toks, pos, e, p);
  }

  /** `lhs = rhs ;` */
  lemma AssignmentRoundTrip(toks: seq<Token>, pos: nat, s: Statement, end: nat)
    requires s.AssignmentStatement? && WellFormedStatement(s)
    requires Occurs(toks, pos, StatementTokens(s)) && end == pos + |StatementTokens(s)|
    ensures ParseStatement(toks, pos) == Parsed(Ok(s), end)
  {
    var lhs, rhs := s.maybeLhs.value, s.rhs;
    var p := pos + |ExpressionTokens(lhs)|;
    var q := p + 1 + |ExpressionTokens(rhs)|;
    Closed(toks, pos, ExpressionTokens(lhs) + [Tok(Equal)] + ExpressionTokens(rhs), Tok(Semicolon), q);
    Separated(toks, pos, ExpressionTokens(lhs), Tok(Equal), ExpressionTokens(rhs), p, q);
    AssignmentParts(toks, pos, lhs, p, rhs, q);
  }

  /** The parse half of AssignmentRoundTrip, from where the tokens sit. */
  lemma AssignmentParts(toks: seq<Token>, pos: nat, lhs: Expression, p: nat, rhs: Expression, q: nat)
    requires IsLHS(lhs) && WellFormedExpression(rhs)
    requires Occurs(toks, pos, ExpressionTokens(lhs)) && p == pos + |ExpressionTokens(lhs)|
    requires p < |toks| && At(toks, p).kind == Equal
    requires Occurs(toks, p + 1, ExpressionTokens(rhs)) && q == p + 1 + |ExpressionTokens(rhs)|
    requires q < |toks| && At(toks, q).kind == Semicolon
    ensures ParseStatement(toks, pos) == Parsed(Ok(AssignmentStatement(Some(lhs), rhs)), q + 1)
  {
    LHSRoundTrip(toks, pos, lhs, p);
    AssignmentLHSStep(toks, pos, lhs, p);
    ExpressionRoundTrip(toks, p + 1, rhs, q);
    ExpectAt(toks, p, Equal);
    ExpectAt(toks, q, Semicolon);
    AssignmentStep(toks, lhs, p, rhs, q);
  }

  /** `var ... ;` */
  lemma VariableStatementRoundTrip(toks: seq<Token>, pos: nat, v: VariableDeclaration, end: nat)
    requires WellFormedStatement(VariableStatement(v))
    requires Occurs(toks, pos, StatementTokens(VariableStatement(v))) && end == pos + |StatementTokens(VariableStatement(v))|
    ensures ParseStatement(toks, pos) == Parsed(Ok(VariableStatement(v)), end)
  {
    var p := end - 1;
    Closed(toks, pos, VariableTokens(v), Tok(Semicolon), p);
    OccursToken(toks, pos, VariableTokens(v), 0);
    VariableRoundTrip(toks, pos, v, p);
    assert v.(attributes := []) == v;
    VariableStatementStep(toks, pos, v, p);
  }
}
