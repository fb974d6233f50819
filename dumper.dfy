/** The AST pretty-printer of AST/Dumper.cpp.

    A Dumper appends text to its output stream `out` and keeps the current
    indentation `indent`, which `bumpIndent` extends by four spaces for a scope.
    Each `visit` method is specified by a function giving the text it appends for
    the indentation in force when it starts. */
module Dumping {
  import opened Wrappers
  import opened Ast
  import opened Decimal
  import TypeDecl

  /** What bumpIndent adds to the indentation. */
  const Bump := "    "

  // ---------------------------------------------------------------- lists

  /** visitVector: the texts separated by the joiner, nothing for an empty list. */
  function Join(parts: seq<string>, joiner: string): string
    decreases |parts|
  {
    if |parts| == 0 then ""
    else if |parts| == 1 then parts[0]
    else Join(parts[..|parts| - 1], joiner) + joiner + parts[|parts| - 1]
  }

  /** Adding one more part to a concatenated prefix. */
  lemma ConcatSnoc(parts: seq<string>, n: nat)
    requires n < |parts|
    ensures Concat(parts[..n + 1]) == Concat(parts[..n]) + parts[n]
  {
    assert parts[..n + 1][..n] == parts[..n];
  }

  /** Adding one more part to a joined prefix: the joiner, then the part. */
  lemma JoinSnoc(parts: seq<string>, joiner: string, n: nat)
    requires 1 <= n < |parts|
    ensures Join(parts[..n + 1], joiner) == Join(parts[..n], joiner) + joiner + parts[n]
  {
    assert parts[..n + 1][..n] == parts[..n];
  }

  /** Appending to the text written so far: the text a visit has printed grows by
      what it prints next. */
  lemma Appended(written: string, done: string, more: string)
    ensures written + done + more == written + (done + more)
  {
  }

  /** Appending nothing leaves the text as it was. */
  lemma AppendedNothing(written: string)
    ensures written + "" == written
  {
  }

  /** Appending a joiner and a part to the text written so far. */
  lemma AppendJoined(written: string, joined: string, joiner: string, part: string)
    ensures written + joined + joiner + part == written + (joined + joiner + part)
  {
  }

  /** The texts one after the other, as the shader module's plain `for` loops print them. */
  function Concat(parts: seq<string>): string
    decreases |parts|
  {
    if |parts| == 0 then "" else Concat(parts[..|parts| - 1]) + parts[|parts| - 1]
  }

  /** The total length of the texts. */
  function TotalLength(parts: seq<string>): nat
    decreases |parts|
  {
    if |parts| == 0 then 0 else TotalLength(parts[..|parts| - 1]) + |parts[|parts| - 1]|
  }

  /** A joined list starts with the first text: there is no leading joiner. */
  lemma {:induction false} JoinStartsWithFirst(parts: seq<string>, joiner: string)
    requires |parts| > 0
    ensures |Join(parts, joiner)| >= |parts[0]| && Join(parts, joiner)[..|parts[0]|] == parts[0]
    decreases |parts|
  {
    if |parts| > 1 {
      var front := parts[..|parts| - 1];
      JoinStartsWithFirst(front, joiner);
      var j := Join(front, joiner);
      assert (j + joiner + parts[|parts| - 1])[..|parts[0]|] == j[..|parts[0]|];
    }
  }

  /** A joined list ends with the last text: there is no trailing joiner. */
  lemma JoinEndsWithLast(parts: seq<string>, joiner: string)
    requires |parts| > 0
    ensures var j := Join(parts, joiner); |j| >= |parts[|parts| - 1]| && j[|j| - |parts[|parts| - 1]|..] == parts[|parts| - 1]
  {
    if |parts| > 1 {
      var j := Join(parts[..|parts| - 1], joiner) + joiner;
      assert (j + parts[|parts| - 1])[|j|..] == parts[|parts| - 1];
    }
  }

  /** A joined list holds the texts and one joiner between each pair of neighbours. */
  lemma {:induction false} JoinLength(parts: seq<string>, joiner: string)
    ensures |parts| == 0 ==> Join(parts, joiner) == ""
    ensures |parts| > 0 ==> |Join(parts, joiner)| == TotalLength(parts) + (|parts| - 1) * |joiner|
    decreases |parts|
  {
    if |parts| > 1 {
      var front := parts[..|parts| - 1];
      JoinLength(front, joiner);
      assert |Join(front, joiner)| == TotalLength(front) + (|front| - 1) * |joiner|;
      assert (|front| - 1) * |joiner| + |joiner| == (|parts| - 1) * |joiner|;
    } else if |parts| == 1 {
      assert parts[..0] == [];
    }
  }

  // ---------------------------------------------------------------- attributes

  function DumpAttribute(a: Attribute): string
  {
    match a
    case BindingAttribute(n) => "@binding(" + NatToString(n) + ")"
    case BuiltinAttribute(name) => "@builtin(" + name + ")"
    case StageAttribute(stage) =>
      (match stage
       case Compute => "@compute"
       case Fragment => "@fragment"
       case Vertex => "@vertex")
    case GroupAttribute(n) => "@group(" + NatToString(n) + ")"
    case LocationAttribute(n) => "@location(" + NatToString(n) + ")"
    case NativeAttribute => ""
  }

  function AttributeTexts(attributes: seq<Attribute>): (r: seq<string>)
    ensures |r| == |attributes|
  {
    seq(|attributes|, i requires 0 <= i < |attributes| => DumpAttribute(attributes[i]))
  }

  /** An attribute list followed by `separator`, or nothing for an empty list. */
  function AttributesThen(attributes: seq<Attribute>, separator: string): string
  {
    if |attributes| > 0 then Join(AttributeTexts(attributes), " ") + separator else ""
  }

  // ---------------------------------------------------------------- qualifiers

  /** The `storageClass[]` and `accessMode[]` tables, indexed by the enums'
      underlying values. */
  const StorageClassNames: seq<string> := ["function", "private", "workgroup", "uniform", "storage"]
  const AccessModeNames: seq<string> := ["read", "write", "read_write"]

  function StorageClassIndex(sc: StorageClass): (i: nat)
    ensures i < |StorageClassNames|
  {
    match sc
    case Function => 0 case Private => 1 case Workgroup => 2 case Uniform => 3 case Storage => 4
  }

  function AccessModeIndex(am: AccessMode): (i: nat)
    ensures i < |AccessModeNames|
  {
    match am
    case Read => 0 case Write => 1 case ReadWrite => 2
  }

  function DumpQualifier(q: VariableQualifier): string
  {
    "<" + StorageClassNames[StorageClassIndex(q.storageClass)] + "," + AccessModeNames[AccessModeIndex(q.accessMode)] + ">"
  }

  /** The storage class a table entry names. */
  function StorageClassNamed(name: string): Option<StorageClass>
  {
    if name == "function" then Some(StorageClass.Function)
    else if name == "private" then Some(Private)
    else if name == "workgroup" then Some(Workgroup)
    else if name == "uniform" then Some(Uniform)
    else if name == "storage" then Some(Storage)
    else None
  }

  /** The access mode a table entry names. */
  function AccessModeNamed(name: string): Option<AccessMode>
  {
    if name == "read" then Some(Read)
    else if name == "write" then Some(Write)
    else if name == "read_write" then Some(ReadWrite)
    else None
  }

  /** The index of the first comma, or |s| if there is none. */
  function FirstComma(s: string): (k: nat)
    ensures k <= |s|
    ensures k < |s| ==> s[k] == ','
    ensures forall i :: 0 <= i < k ==> s[i] != ','
  {
    if s == [] then 0 else if s[0] == ',' then 0 else 1 + FirstComma(s[1..])
  }

  /** Reads a printed qualifier `<storageClass,accessMode>` back. */
  function ReadQualifier(text: string): Option<VariableQualifier>
  {
    if |text| < 2 || text[0] != '<' || text[|text| - 1] != '>' then None
    else
      var inner := text[1..|text| - 1];
      var k := FirstComma(inner);
      if k == |inner| then None
      else
        var sc := StorageClassNamed(inner[..k]);
        var am := AccessModeNamed(inner[k + 1..]);
        if sc.Some? && am.Some? then Some(VariableQualifier(sc.value, am.value)) else None
  }

  /** The storage-class table is in enum order and its names hold no comma. */
  lemma StorageClassTable(sc: StorageClass)
    ensures StorageClassNamed(StorageClassNames[StorageClassIndex(sc)]) == Some(sc)
    ensures forall i :: 0 <= i < |StorageClassNames[StorageClassIndex(sc)]| ==> StorageClassNames[StorageClassIndex(sc)][i] != ','
  {
    match sc
    case Function => case Private => case Workgroup => case Uniform => case Storage =>
  }

  /** The access-mode table is in enum order. */
  lemma AccessModeTable(am: AccessMode)
    ensures AccessModeNamed(AccessModeNames[AccessModeIndex(am)]) == Some(am)
  {
    match am
    case Read => case Write => case ReadWrite =>
  }

  /** The comma after a comma-free prefix is the first one. */
  lemma FirstCommaAfter(a: string, b: string)
    requires forall i :: 0 <= i < |a| ==> a[i] != ','
    ensures FirstComma(a + "," + b) == |a|
  {
    var s := a + "," + b;
    var k := FirstComma(s);
    assert s[|a|] == ',';
    assert forall i :: 0 <= i < |a| ==> s[i] == a[i];
  }

  /** A printed qualifier reads back as the qualifier: the two tables name every
      storage class and access mode distinctly. */
  lemma QualifierRoundTrip(q: VariableQualifier)
    ensures ReadQualifier(DumpQualifier(q)) == Some(q)
  {
    var sc := StorageClassNames[StorageClassIndex(q.storageClass)];
    var am := AccessModeNames[AccessModeIndex(q.accessMode)];
    var text := DumpQualifier(q);
    var inner := sc + "," + am;
    assert text == "<" + inner + ">";
    assert text[1..|text| - 1] == inner;
    StorageClassTable(q.storageClass);
    AccessModeTable(q.accessMode);
    FirstCommaAfter(sc, am);
    assert inner[..|sc|] == sc;
    assert inner[|sc| + 1..] == am;
  }

  // ---------------------------------------------------------------- expressions and types

  /** The `unaryOperator[]` table. */
  const UnaryOperators: seq<string> := ["-"]

  function UnaryOperatorIndex(op: UnaryOperation): (i: nat)
    ensures i < |UnaryOperators|
  {
    match op
    case Negate => 0
  }

  /** The `base[]` table of capitalised base names, indexed like ASTTypeDecl.cpp's. */
  const BaseNames: seq<string> :=
    ["Vec2", "Vec3", "Vec4", "Mat2x2", "Mat2x3", "Mat2x4", "Mat3x2", "Mat3x3", "Mat3x4", "Mat4x2", "Mat4x3", "Mat4x4"]

  function DumpExpression(e: Expression): string
    decreases e
  {
    match e
    case BoolLiteral(b) => if b then "true" else "false"
    case Int32Literal(v) => NatToString(v) + "i"
    case Uint32Literal(v) => NatToString(v) + "u"
    case Float32Literal(v) => NatToString(v) + "f"
    case AbstractIntLiteral(v) => NatToString(v)
    case AbstractFloatLiteral(v) => NatToString(v)
    case IdentifierExpression(name) => name
    case ArrayAccess(base, index) => DumpExpression(base) + "[" + DumpExpression(index) + "]"
    case StructureAccess(base, fieldName) => DumpExpression(base) + "." + fieldName
    case CallableExpression(target, arguments) => DumpTypeName(target) + "(" + Join(ArgumentTexts(arguments), ", ") + ")"
    case UnaryExpression(operand, op) => UnaryOperators[UnaryOperatorIndex(op)] + DumpExpression(operand)
  }

  function ArgumentTexts(arguments: seq<Expression>): (r: seq<string>)
    decreases arguments
    ensures |r| == |arguments|
  {
    seq(|arguments|, i requires 0 <= i < |arguments| => DumpExpression(arguments[i]))
  }

  function DumpTypeName(t: TypeName): string
    decreases t
  {
    match t
    case ArrayTypeName(element, count) =>
      "array" +
      if element.None? then ""
      else "<" + DumpTypeName(element.value) + (if count.Some? then ", " + DumpExpression(count.value) else "") + ">"
    case NamedTypeName(name) => name
    case ParameterizedTypeName(base, element) => BaseNames[TypeDecl.BaseIndex(base)] + "<" + DumpTypeName(element) + ">"
  }

  predicate IsIntegerLiteral(e: Expression)
  {
    e.AbstractIntLiteral? || e.Int32Literal? || e.Uint32Literal?
  }

  /** Integer literals of different kinds or values print differently: `i` marks an
      Int32, `u` a Uint32, and an abstract int has no suffix. */
  lemma IntegerLiteralTextsDistinct(e1: Expression, e2: Expression)
    requires IsIntegerLiteral(e1) && IsIntegerLiteral(e2)
    requires DumpExpression(e1) == DumpExpression(e2)
    ensures e1 == e2
  {
    var t := DumpExpression(e1);
    var d1 := NatToString(e1.value);
    var d2 := NatToString(e2.value);
    assert '0' <= d1[|d1| - 1] <= '9' && '0' <= d2[|d2| - 1] <= '9';
    if e1.AbstractIntLiteral? {
      assert t[|t| - 1] == d1[|d1| - 1];
      assert e2.AbstractIntLiteral?;
    } else {
      assert t == d1 + [t[|t| - 1]] && t[|t| - 1] in "iu";
      assert d1 == t[..|t| - 1] == d2;
    }
    NatToStringInjective(e1.value, e2.value);
  }

  /** An array type without an element type prints `array` whatever its count. */
  lemma ArrayWithoutElementDropsCount(count: Option<Expression>)
    ensures DumpTypeName(ArrayTypeName(None, count)) == "array"
  {
  }

  /** A base's printed name is ASTTypeDecl.cpp's name with the first letter in upper case. */
  lemma BaseNameCapitalised(b: Base)
    ensures |BaseNames[TypeDecl.BaseIndex(b)]| == |TypeDecl.BaseName(b)| > 0
    ensures BaseNames[TypeDecl.BaseIndex(b)][1..] == TypeDecl.BaseName(b)[1..]
    ensures BaseNames[TypeDecl.BaseIndex(b)][0] as int == TypeDecl.BaseName(b)[0] as int - 32
  {
    match b
    case Vec2 => case Vec3 => case Vec4 =>
    case Mat2x2 => case Mat2x3 => case Mat2x4 =>
    case Mat3x2 => case Mat3x3 => case Mat3x4 =>
    case Mat4x2 => case Mat4x3 => case Mat4x4 =>
  }

  // ---------------------------------------------------------------- declarations and statements

  /** A variable declaration; it prints no indentation of its own. */
  function DumpVariable(v: VariableDeclaration): string
  {
    AttributesThen(v.attributes, " ") + "var"
    + (if v.maybeQualifier.Some? then DumpQualifier(v.maybeQualifier.value) else "")
    + " " + v.name
    + (if v.maybeType.Some? then ": " + DumpTypeName(v.maybeType.value) else "")
    + (if v.maybeInitializer.Some? then " = " + DumpExpression(v.maybeInitializer.value) else "")
    + ";"
  }

  function DumpStatement(s: Statement, indent: string): string
    decreases s
  {
    match s
    case CompoundStatement(statements) =>
      indent + "{"
      + (if |statements| > 0 then "\n" + Join(StatementTexts(statements, indent + Bump), "\n") + "\n" + indent else "")
      + "}\n"
    case ReturnStatement(value) =>
      indent + "return" + (if value.Some? then " " + DumpExpression(value.value) else "") + ";"
    case AssignmentStatement(lhs, rhs) =>
      indent + (if lhs.Some? then DumpExpression(lhs.value) else "_") + " = " + DumpExpression(rhs) + ";"
    case VariableStatement(declaration) =>
      indent + DumpVariable(declaration)
  }

  function StatementTexts(statements: seq<Statement>, indent: string): (r: seq<string>)
    decreases statements
    ensures |r| == |statements|
  {
    seq(|statements|, i requires 0 <= i < |statements| => DumpStatement(statements[i], indent))
  }

  /** Every statement starts with the indentation it is printed at. */
  lemma StatementStartsWithIndent(s: Statement, indent: string)
    ensures |DumpStatement(s, indent)| >= |indent| && DumpStatement(s, indent)[..|indent|] == indent
  {
  }

  /** The first statement of a non-empty block is printed on the line after `{`,
      at the indentation bumped by four spaces. */
  lemma BlockBodyIndented(statements: seq<Statement>, indent: string)
    requires |statements| > 0
    ensures var text := DumpStatement(CompoundStatement(statements), indent);
      |text| >= |indent| + 2 + |indent + Bump| && text[|indent|..|indent| + 2] == "{\n"
      && text[|indent| + 2..|indent| + 2 + |indent + Bump|] == indent + Bump
  {
    var parts := StatementTexts(statements, indent + Bump);
    var first := parts[0];
    StatementStartsWithIndent(statements[0], indent + Bump);
    JoinStartsWithFirst(parts, "\n");
    var body := Join(parts, "\n");
    var text := DumpStatement(CompoundStatement(statements), indent);
    assert text == indent + "{" + ("\n" + body + "\n" + indent) + "}\n";
    assert text[|indent| + 2..] == body + "\n" + indent + "}\n";
    assert body[..|first|] == first;
    assert first[..|indent + Bump|] == indent + Bump;
    assert body[..|indent + Bump|] == indent + Bump;
  }

  /** An assignment without a left-hand side prints `_` in its place. */
  lemma DiscardedAssignment(rhs: Expression, indent: string)
    ensures DumpStatement(AssignmentStatement(None, rhs), indent)
         == DumpStatement(AssignmentStatement(Some(IdentifierExpression("_")), rhs), indent)
  {
  }

  /** A parameter or structure member: name, colon, type, after its attributes. */
  function DumpParameter(p: Parameter, indent: string): string
  {
    indent + AttributesThen(p.attributes, " ") + p.name + ": " + DumpTypeName(p.typeName)
  }

  function ParameterTexts(parameters: seq<Parameter>, indent: string): (r: seq<string>)
    ensures |r| == |parameters|
  {
    seq(|parameters|, i requires 0 <= i < |parameters| => DumpParameter(parameters[i], indent))
  }

  function DumpMember(m: StructureMember, indent: string): string
  {
    indent + AttributesThen(m.attributes, " ") + m.name + ": " + DumpTypeName(m.typeName)
  }

  function MemberTexts(members: seq<StructureMember>, indent: string): (r: seq<string>)
    ensures |r| == |members|
  {
    seq(|members|, i requires 0 <= i < |members| => DumpMember(members[i], indent))
  }

  /** A bracketed block of items one indentation deeper, each on its own line, or
      nothing when there are none. */
  function Block(items: seq<string>, joiner: string, indent: string): string
  {
    if |items| > 0 then "\n" + Join(items, joiner) + "\n" + indent else ""
  }

  function DumpStructure(s: StructureDeclaration, indent: string): string
  {
    indent + AttributesThen(s.attributes, "\n" + indent) + "struct " + s.name + " {"
    + Block(MemberTexts(s.members, indent + Bump), ",\n", indent) + "}\n"
  }

  /** ` -> ` return attributes and type, present only with a return type. */
  function ReturnClause(f: FunctionDeclaration): string
  {
    if f.maybeReturnType.Some? then " -> " + Join(AttributeTexts(f.returnAttributes), " ") + " " + DumpTypeName(f.maybeReturnType.value)
    else ""
  }

  function DumpFunction(f: FunctionDeclaration, indent: string): string
  {
    indent + AttributesThen(f.attributes, "\n" + indent) + "fn " + f.name + "("
    + Block(ParameterTexts(f.parameters, indent + Bump), "\n", indent) + ")"
    + ReturnClause(f) + "\n" + indent + DumpStatement(CompoundStatement(f.body), indent)
  }

  function DumpDirective(d: GlobalDirective, indent: string): string
  {
    indent + "enable " + d.name + ";"
  }

  /** A blank line after a non-empty group of top-level declarations. */
  function GroupEnd(n: nat): string
  {
    if n > 0 then "\n\n" else ""
  }

  function DirectiveTexts(ds: seq<GlobalDirective>, indent: string): (r: seq<string>)
    ensures |r| == |ds|
  {
    seq(|ds|, i requires 0 <= i < |ds| => DumpDirective(ds[i], indent))
  }

  function StructureTexts(ss: seq<StructureDeclaration>, indent: string): (r: seq<string>)
    ensures |r| == |ss|
  {
    seq(|ss|, i requires 0 <= i < |ss| => DumpStructure(ss[i], indent))
  }

  function VariableTexts(vs: seq<VariableDeclaration>): (r: seq<string>)
    ensures |r| == |vs|
  {
    seq(|vs|, i requires 0 <= i < |vs| => DumpVariable(vs[i]))
  }

  function FunctionTexts(fs: seq<FunctionDeclaration>, indent: string): (r: seq<string>)
    ensures |r| == |fs|
  {
    seq(|fs|, i requires 0 <= i < |fs| => DumpFunction(fs[i], indent))
  }

  /** Directives, structures, variables and functions, each group followed by a
      blank line when it is not empty. */
  function DumpModule(m: ShaderModule, indent: string): string
  {
    Concat(DirectiveTexts(m.directives, indent)) + GroupEnd(|m.directives|)
    + Concat(StructureTexts(m.structures, indent)) + GroupEnd(|m.structures|)
    + Concat(VariableTexts(m.variables)) + GroupEnd(|m.variables|)
    + Concat(FunctionTexts(m.functions, indent)) + GroupEnd(|m.functions|)
  }

  // ---------------------------------------------------------------- the dumper

  /** The dumper: the text printed so far and the current indentation. Every
      visit appends the text of its node, printed at the current indentation,
      and leaves the indentation as it found it. */
  class Dumper {
    var out: string
    var indent: string

    constructor ()
      ensures out == "" && indent == ""
    {
      out := "";
      indent := "";
    }

    /** Indent(dumper): extends the indentation for a scope and hands back the
        indentation to restore when the scope ends. */
    method BumpIndent() returns (saved: string)
      modifies this
      ensures saved == old(indent) && indent == old(indent) + Bump && out == old(out)
    {
      saved := indent;
      indent := indent + Bump;
    }

    /** The end of the Indent scope: the saved indentation is back. */
    method RestoreIndent(saved: string)
      modifies this
      ensures indent == saved && out == old(out)
    {
      indent := saved;
    }

    method VisitDirective(d: GlobalDirective)
      modifies this
      ensures out == old(out) + DumpDirective(d, old(indent)) && indent == old(indent)
    {
      out := out + (indent + "enable " + d.name + ";");
    }

    method VisitAttribute(a: Attribute)
      modifies this
      ensures out == old(out) + DumpAttribute(a) && indent == old(indent)
    {
      match a {
        case BindingAttribute(n) => out := out + ("@binding(" + NatToString(n) + ")");
        case BuiltinAttribute(name) => out := out + ("@builtin(" + name + ")");
        case StageAttribute(stage) =>
          match stage {
            case Compute => out := out + "@compute";
            case Fragment => out := out + "@fragment";
            case Vertex => out := out + "@vertex";
          }
        case GroupAttribute(n) => out := out + ("@group(" + NatToString(n) + ")");
        case LocationAttribute(n) => out := out + ("@location(" + NatToString(n) + ")");
        case NativeAttribute =>
      }
    }

    /** visitVector over attributes. */
    method VisitAttributes(attributes: seq<Attribute>, joiner: string)
      modifies this
      ensures out == old(out) + Join(AttributeTexts(attributes), joiner) && indent == old(indent)
    {
      if |attributes| == 0 {
        return;
      }
      var texts := AttributeTexts(attributes);
      VisitAttribute(attributes[0]);
      var n := 1;
      while n < |attributes|
        invariant 1 <= n <= |attributes| && indent == old(indent)
        invariant out == old(out) + Join(texts[..n], joiner)
      {
        out := out + joiner;
        VisitAttribute(attributes[n]);
        JoinSnoc(texts, joiner, n);
        AppendJoined(old(out), Join(texts[..n], joiner), joiner, texts[n]);
        n := n + 1;
      }
      assert texts[..n] == texts;
    }

    /** The attributes of a declaration followed by `separator`, when there are any. */
    method VisitAttributesThen(attributes: seq<Attribute>, separator: string)
      modifies this
      ensures out == old(out) + AttributesThen(attributes, separator) && indent == old(indent)
    {
      if |attributes| > 0 {
        VisitAttributes(attributes, " ");
        out := out + separator;
        Appended(old(out), Join(AttributeTexts(attributes), " "), separator);
      } else {
        AppendedNothing(out);
      }
    }

    method VisitQualifier(q: VariableQualifier)
      modifies this
      ensures out == old(out) + DumpQualifier(q) && indent == old(indent)
    {
      var sc := StorageClassIndex(q.storageClass);
      var am := AccessModeIndex(q.accessMode);
      out := out + ("<" + StorageClassNames[sc] + "," + AccessModeNames[am] + ">");
    }

    method VisitExpression(e: Expression)
      modifies this
      decreases e
      ensures out == old(out) + DumpExpression(e) && indent == old(indent)
    {
      ghost var start := out;
      match e {
        case BoolLiteral(b) => out := out + if b then "true" else "false";
        case Int32Literal(v) => out := out + (NatToString(v) + "i");
        case Uint32Literal(v) => out := out + (NatToString(v) + "u");
        case Float32Literal(v) => out := out + (NatToString(v) + "f");
        case AbstractIntLiteral(v) => out := out + NatToString(v);
        case AbstractFloatLiteral(v) => out := out + NatToString(v);
        case IdentifierExpression(name) => out := out + name;
        case ArrayAccess(base, index) =>
          ghost var done := DumpExpression(base);
          VisitExpression(base);
          out := out + "[";
          Appended(start, done, "[");
          done := done + "[";
          VisitExpression(index);
          Appended(start, done, DumpExpression(index));
          done := done + DumpExpression(index);
          out := out + "]";
          Appended(start, done, "]");
        case StructureAccess(base, fieldName) =>
          VisitExpression(base);
          out := out + ".";
          Appended(start, DumpExpression(base), ".");
          out := out + fieldName;
          Appended(start, DumpExpression(base) + ".", fieldName);
        case CallableExpression(target, arguments) =>
          ghost var done := DumpTypeName(target);
          VisitTypeName(target);
          out := out + "(";
          Appended(start, done, "(");
          done := done + "(";
          ghost var joined := Join(ArgumentTexts(arguments), ", ");
          if |arguments| > 0 {
            var saved := BumpIndent();
            VisitArguments(arguments, ", ");
            RestoreIndent(saved);
          } else {
            AppendedNothing(out);
          }
          Appended(start, done, joined);
          done := done + joined;
          out := out + ")";
          Appended(start, done, ")");
        case UnaryExpression(operand, op) =>
          out := out + UnaryOperators[UnaryOperatorIndex(op)];
          VisitExpression(operand);
          Appended(start, UnaryOperators[UnaryOperatorIndex(op)], DumpExpression(operand));
      }
    }

    /** visitVector over call arguments. */
    method VisitArguments(arguments: seq<Expression>, joiner: string)
      modifies this
      decreases arguments
      ensures out == old(out) + Join(ArgumentTexts(arguments), joiner) && indent == old(indent)
    {
      if |arguments| == 0 {
        return;
      }
      var texts := ArgumentTexts(arguments);
      VisitExpression(arguments[0]);
      var n := 1;
      while n < |arguments|
        invariant 1 <= n <= |arguments| && indent == old(indent)
        invariant out == old(out) + Join(texts[..n], joiner)
      {
        out := out + joiner;
        VisitExpression(arguments[n]);
        JoinSnoc(texts, joiner, n);
        AppendJoined(old(out), Join(texts[..n], joiner), joiner, texts[n]);
        n := n + 1;
      }
      assert texts[..n] == texts;
    }

    method VisitTypeName(t: TypeName)
      modifies this
      decreases t
      ensures out == old(out) + DumpTypeName(t) && indent == old(indent)
    {
      ghost var start := out;
      match t {
        case ArrayTypeName(element, count) =>
          out := out + "array";
          ghost var typed := "";
          if element.Some? {
            ghost var mark := out;
            out := out + "<";
            VisitTypeName(element.value);
            Appended(mark, "<", DumpTypeName(element.value));
            typed := "<" + DumpTypeName(element.value);
            ghost var counted := "";
            if count.Some? {
              ghost var inner := out;
              out := out + ", ";
              VisitExpression(count.value);
              Appended(inner, ", ", DumpExpression(count.value));
              counted := ", " + DumpExpression(count.value);
            } else {
              AppendedNothing(out);
            }
            Appended(mark, typed, counted);
            typed := typed + counted;
            out := out + ">";
            Appended(mark, typed, ">");
            typed := typed + ">";
          } else {
            AppendedNothing(out);
          }
          Appended(start, "array", typed);
        case NamedTypeName(name) =>
          out := out + name;
        case ParameterizedTypeName(base, element) =>
          ghost var done := BaseNames[TypeDecl.BaseIndex(base)];
          out := out + BaseNames[TypeDecl.BaseIndex(base)];
          out := out + "<";
          Appended(start, done, "<");
          done := done + "<";
          VisitTypeName(element);
          Appended(start, done, DumpTypeName(element));
          done := done + DumpTypeName(element);
          out := out + ">";
          Appended(start, done, ">");
      }
    }

    method VisitVariable(v: VariableDeclaration)
      modifies this
      ensures out == old(out) + DumpVariable(v) && indent == old(indent)
    {
      ghost var start := out;
      VisitAttributesThen(v.attributes, " ");
      ghost var done := AttributesThen(v.attributes, " ");
      out := out + "var";
      Appended(start, done, "var");
      done := done + "var";
      ghost var qualified := "";
      if v.maybeQualifier.Some? {
        VisitQualifier(v.maybeQualifier.value);
        qualified := DumpQualifier(v.maybeQualifier.value);
      } else {
        AppendedNothing(out);
      }
      Appended(start, done, qualified);
      done := done + qualified;
      out := out + " ";
      Appended(start, done, " ");
      done := done + " ";
      out := out + v.name;
      Appended(start, done, v.name);
      done := done + v.name;
      ghost var typed := "";
      if v.maybeType.Some? {
        ghost var mark := out;
        out := out + ": ";
        VisitTypeName(v.maybeType.value);
        Appended(mark, ": ", DumpTypeName(v.maybeType.value));
        typed := ": " + DumpTypeName(v.maybeType.value);
      } else {
        AppendedNothing(out);
      }
      Appended(start, done, typed);
      done := done + typed;
      ghost var initialized := "";
      if v.maybeInitializer.Some? {
        ghost var mark := out;
        out := out + " = ";
        VisitExpression(v.maybeInitializer.value);
        Appended(mark, " = ", DumpExpression(v.maybeInitializer.value));
        initialized := " = " + DumpExpression(v.maybeInitializer.value);
      } else {
        AppendedNothing(out);
      }
      Appended(start, done, initialized);
      done := done + initialized;
      out := out + ";";
      Appended(start, done, ";");
    }

    method VisitStatement(s: Statement)
      modifies this
      decreases s
      ensures out == old(out) + DumpStatement(s, old(indent)) && indent == old(indent)
    {
      ghost var start := out;
      match s {
        case CompoundStatement(statements) =>
          out := out + indent;
          out := out + "{";
          Appended(start, indent, "{");
          ghost var done := indent + "{";
          ghost var block := "";
          if |statements| > 0 {
            ghost var mark := out;
            var saved := BumpIndent();
            out := out + "\n";
            VisitStatements(statements, "\n");
            RestoreIndent(saved);
            ghost var joined := Join(StatementTexts(statements, indent + Bump), "\n");
            Appended(mark, "\n", joined);
            out := out + "\n";
            Appended(mark, "\n" + joined, "\n");
            out := out + indent;
            Appended(mark, "\n" + joined + "\n", indent);
            block := "\n" + joined + "\n" + indent;
          } else {
            AppendedNothing(out);
          }
          Appended(start, done, block);
          done := done + block;
          out := out + "}\n";
          Appended(start, done, "}\n");
        case ReturnStatement(value) =>
          out := out + indent;
          out := out + "return";
          Appended(start, indent, "return");
          ghost var done := indent + "return";
          ghost var returned := "";
          if value.Some? {
            ghost var mark := out;
            out := out + " ";
            VisitExpression(value.value);
            Appended(mark, " ", DumpExpression(value.value));
            returned := " " + DumpExpression(value.value);
          } else {
            AppendedNothing(out);
          }
          Appended(start, done, returned);
          done := done + returned;
          out := out + ";";
          Appended(start, done, ";");
        case AssignmentStatement(lhs, rhs) =>
          out := out + indent;
          ghost var target := "_";
          if lhs.Some? {
            VisitExpression(lhs.value);
            target := DumpExpression(lhs.value);
          } else {
            out := out + "_";
          }
          Appended(start, indent, target);
          ghost var done := indent + target;
          out := out + " = ";
          Appended(start, done, " = ");
          done := done + " = ";
          VisitExpression(rhs);
          Appended(start, done, DumpExpression(rhs));
          done := done + DumpExpression(rhs);
          out := out + ";";
          Appended(start, done, ";");
        case VariableStatement(declaration) =>
          out := out + indent;
          VisitVariable(declaration);
          Appended(start, indent, DumpVariable(declaration));
      }
    }

    /** visitVector over statements. */
    method VisitStatements(statements: seq<Statement>, joiner: string)
      modifies this
      decreases statements
      ensures out == old(out) + Join(StatementTexts(statements, old(indent)), joiner) && indent == old(indent)
    {
      if |statements| == 0 {
        return;
      }
      var texts := StatementTexts(statements, indent);
      VisitStatement(statements[0]);
      var n := 1;
      while n < |statements|
        invariant 1 <= n <= |statements| && indent == old(indent)
        invariant out == old(out) + Join(texts[..n], joiner)
      {
        out := out + joiner;
        VisitStatement(statements[n]);
        JoinSnoc(texts, joiner, n);
        AppendJoined(old(out), Join(texts[..n], joiner), joiner, texts[n]);
        n := n + 1;
      }
      assert texts[..n] == texts;
    }

    method VisitParameter(p: Parameter)
      modifies this
      ensures out == old(out) + DumpParameter(p, old(indent)) && indent == old(indent)
    {
      ghost var start := out;
      ghost var attributes := AttributesThen(p.attributes, " ");
      out := out + indent;
      VisitAttributesThen(p.attributes, " ");
      Appended(start, indent, attributes);
      out := out + p.name;
      Appended(start, indent + attributes, p.name);
      out := out + ": ";
      Appended(start, indent + attributes + p.name, ": ");
      VisitTypeName(p.typeName);
      Appended(start, indent + attributes + p.name + ": ", DumpTypeName(p.typeName));
    }

    /** visitVector over parameters. */
    method VisitParameters(parameters: seq<Parameter>, joiner: string)
      modifies this
      ensures out == old(out) + Join(ParameterTexts(parameters, old(indent)), joiner) && indent == old(indent)
    {
      if |parameters| == 0 {
        return;
      }
      var texts := ParameterTexts(parameters, indent);
      VisitParameter(parameters[0]);
      var n := 1;
      while n < |parameters|
        invariant 1 <= n <= |parameters| && indent == old(indent)
        invariant out == old(out) + Join(texts[..n], joiner)
      {
        out := out + joiner;
        VisitParameter(parameters[n]);
        JoinSnoc(texts, joiner, n);
        AppendJoined(old(out), Join(texts[..n], joiner), joiner, texts[n]);
        n := n + 1;
      }
      assert texts[..n] == texts;
    }

    method VisitMember(m: StructureMember)
      modifies this
      ensures out == old(out) + DumpMember(m, old(indent)) && indent == old(indent)
    {
      ghost var start := out;
      ghost var attributes := AttributesThen(m.attributes, " ");
      out := out + indent;
      VisitAttributesThen(m.attributes, " ");
      Appended(start, indent, attributes);
      out := out + m.name;
      Appended(start, indent + attributes, m.name);
      out := out + ": ";
      Appended(start, indent + attributes + m.name, ": ");
      VisitTypeName(m.typeName);
      Appended(start, indent + attributes + m.name + ": ", DumpTypeName(m.typeName));
    }

    /** visitVector over structure members. */
    method VisitMembers(members: seq<StructureMember>, joiner: string)
      modifies this
      ensures out == old(out) + Join(MemberTexts(members, old(indent)), joiner) && indent == old(indent)
    {
      if |members| == 0 {
        return;
      }
      var texts := MemberTexts(members, indent);
      VisitMember(members[0]);
      var n := 1;
      while n < |members|
        invariant 1 <= n <= |members| && indent == old(indent)
        invariant out == old(out) + Join(texts[..n], joiner)
      {
        out := out + joiner;
        VisitMember(members[n]);
        JoinSnoc(texts, joiner, n);
        AppendJoined(old(out), Join(texts[..n], joiner), joiner, texts[n]);
        n := n + 1;
      }
      assert texts[..n] == texts;
    }

    method VisitStructure(s: StructureDeclaration)
      modifies this
      ensures out == old(out) + DumpStructure(s, old(indent)) && indent == old(indent)
    {
      ghost var start := out;
      out := out + indent;
      VisitAttributesThen(s.attributes, "\n" + indent);
      ghost var done := AttributesThen(s.attributes, "\n" + indent);
      Appended(start, indent, done);
      done := indent + done;
      out := out + "struct ";
      Appended(start, done, "struct ");
      done := done + "struct ";
      out := out + s.name;
      Appended(start, done, s.name);
      done := done + s.name;
      out := out + " {";
      Appended(start, done, " {");
      done := done + " {";
      ghost var block := "";
      if |s.members| > 0 {
        ghost var mark := out;
        out := out + "\n";
        var saved := BumpIndent();
        VisitMembers(s.members, ",\n");
        RestoreIndent(saved);
        ghost var joined := Join(MemberTexts(s.members, indent + Bump), ",\n");
        Appended(mark, "\n", joined);
        out := out + "\n";
        Appended(mark, "\n" + joined, "\n");
        out := out + indent;
        Appended(mark, "\n" + joined + "\n", indent);
        block := "\n" + joined + "\n" + indent;
      } else {
        AppendedNothing(out);
      }
      Appended(start, done, block);
      done := done + block;
      out := out + "}\n";
      Appended(start, done, "}\n");
    }

    method VisitFunction(f: FunctionDeclaration)
      modifies this
      ensures out == old(out) + DumpFunction(f, old(indent)) && indent == old(indent)
    {
      ghost var start := out;
      out := out + indent;
      VisitAttributesThen(f.attributes, "\n" + indent);
      ghost var done := AttributesThen(f.attributes, "\n" + indent);
      Appended(start, indent, done);
      done := indent + done;
      out := out + "fn ";
      Appended(start, done, "fn ");
      done := done + "fn ";
      out := out + f.name;
      Appended(start, done, f.name);
      done := done + f.name;
      out := out + "(";
      Appended(start, done, "(");
      done := done + "(";
      ghost var block := "";
      if |f.parameters| > 0 {
        ghost var mark := out;
        out := out + "\n";
        var saved := BumpIndent();
        VisitParameters(f.parameters, "\n");
        RestoreIndent(saved);
        ghost var joined := Join(ParameterTexts(f.parameters, indent + Bump), "\n");
        Appended(mark, "\n", joined);
        out := out + "\n";
        Appended(mark, "\n" + joined, "\n");
        out := out + indent;
        Appended(mark, "\n" + joined + "\n", indent);
        block := "\n" + joined + "\n" + indent;
      } else {
        AppendedNothing(out);
      }
      Appended(start, done, block);
      done := done + block;
      out := out + ")";
      Appended(start, done, ")");
      done := done + ")";
      ghost var returned := "";
      if f.maybeReturnType.Some? {
        ghost var mark := out;
        out := out + " -> ";
        VisitAttributes(f.returnAttributes, " ");
        ghost var joined := Join(AttributeTexts(f.returnAttributes), " ");
        Appended(mark, " -> ", joined);
        out := out + " ";
        Appended(mark, " -> " + joined, " ");
        VisitTypeName(f.maybeReturnType.value);
        Appended(mark, " -> " + joined + " ", DumpTypeName(f.maybeReturnType.value));
        returned := " -> " + joined + " " + DumpTypeName(f.maybeReturnType.value);
      } else {
        AppendedNothing(out);
      }
      Appended(start, done, returned);
      done := done + returned;
      out := out + "\n";
      Appended(start, done, "\n");
      done := done + "\n";
      out := out + indent;
      Appended(start, done, indent);
      done := done + indent;
      VisitStatement(CompoundStatement(f.body));
      Appended(start, done, DumpStatement(CompoundStatement(f.body), indent));
    }

    /** The shader module: directives, structures, variables and functions, each
        non-empty group followed by a blank line. */
    method VisitModule(m: ShaderModule)
      modifies this
      ensures out == old(out) + DumpModule(m, old(indent)) && indent == old(indent)
    {
      ghost var start := out;
      ghost var outer := indent;
      VisitDirectives(m.directives);
      ghost var done := Concat(DirectiveTexts(m.directives, outer));
      if |m.directives| > 0 {
        out := out + "\n\n";
      } else {
        AppendedNothing(out);
      }
      Appended(start, done, GroupEnd(|m.directives|));
      done := done + GroupEnd(|m.directives|);
      VisitStructures(m.structures);
      Appended(start, done, Concat(StructureTexts(m.structures, outer)));
      done := done + Concat(StructureTexts(m.structures, outer));
      if |m.structures| > 0 {
        out := out + "\n\n";
      } else {
        AppendedNothing(out);
      }
      Appended(start, done, GroupEnd(|m.structures|));
      done := done + GroupEnd(|m.structures|);
      VisitVariables(m.variables);
      Appended(start, done, Concat(VariableTexts(m.variables)));
      done := done + Concat(VariableTexts(m.variables));
      if |m.variables| > 0 {
        out := out + "\n\n";
      } else {
        AppendedNothing(out);
      }
      Appended(start, done, GroupEnd(|m.variables|));
      done := done + GroupEnd(|m.variables|);
      VisitFunctions(m.functions);
      Appended(start, done, Concat(FunctionTexts(m.functions, outer)));
      done := done + Concat(FunctionTexts(m.functions, outer));
      if |m.functions| > 0 {
        out := out + "\n\n";
      } else {
        AppendedNothing(out);
      }
      Appended(start, done, GroupEnd(|m.functions|));
    }

    /** The `for` loop over the module's directives. */
    method VisitDirectives(directives: seq<GlobalDirective>)
      modifies this
      ensures out == old(out) + Concat(DirectiveTexts(directives, old(indent))) && indent == old(indent)
    {
      var texts := DirectiveTexts(directives, indent);
      var i := 0;
      while i < |directives|
        invariant 0 <= i <= |directives| && indent == old(indent)
        invariant out == old(out) + Concat(texts[..i])
      {
        VisitDirective(directives[i]);
        ConcatSnoc(texts, i);
        Appended(old(out), Concat(texts[..i]), texts[i]);
        i := i + 1;
      }
      assert texts[..i] == texts;
    }

    /** The `for` loop over the module's structures. */
    method VisitStructures(structures: seq<StructureDeclaration>)
      modifies this
      ensures out == old(out) + Concat(StructureTexts(structures, old(indent))) && indent == old(indent)
    {
      var texts := StructureTexts(structures, indent);
      var i := 0;
      while i < |structures|
        invariant 0 <= i <= |structures| && indent == old(indent)
        invariant out == old(out) + Concat(texts[..i])
      {
        VisitStructure(structures[i]);
        ConcatSnoc(texts, i);
        Appended(old(out), Concat(texts[..i]), texts[i]);
        i := i + 1;
      }
      assert texts[..i] == texts;
    }

    /** The `for` loop over the module's variables, printed without indentation. */
    method VisitVariables(variables: seq<VariableDeclaration>)
      modifies this
      ensures out == old(out) + Concat(VariableTexts(variables)) && indent == old(indent)
    {
      var texts := VariableTexts(variables);
      var i := 0;
      while i < |variables|
        invariant 0 <= i <= |variables| && indent == old(indent)
        invariant out == old(out) + Concat(texts[..i])
      {
        VisitVariable(variables[i]);
        ConcatSnoc(texts, i);
        Appended(old(out), Concat(texts[..i]), texts[i]);
        i := i + 1;
      }
      assert texts[..i] == texts;
    }

    /** The `for` loop over the module's functions. */
    method VisitFunctions(functions: seq<FunctionDeclaration>)
      modifies this
      ensures out == old(out) + Concat(FunctionTexts(functions, old(indent))) && indent == old(indent)
    {
      var texts := FunctionTexts(functions, indent);
      var i := 0;
      while i < |functions|
        invariant 0 <= i <= |functions| && indent == old(indent)
        invariant out == old(out) + Concat(texts[..i])
      {
        VisitFunction(functions[i]);
        ConcatSnoc(texts, i);
        Appended(old(out), Concat(texts[..i]), texts[i]);
        i := i + 1;
      }
      assert texts[..i] == texts;
    }
  }

  /** ShaderModuleDumper: the text a fresh dumper prints for a whole module. */
  method DumpShaderModule(m: ShaderModule) returns (text: string)
    ensures text == DumpModule(m, "")
  {
    var dumper := new Dumper();
    dumper.VisitModule(m);
    text := dumper.out;
  }
}
