/** The error-short-circuiting AST traversal of Visitor.cpp.

    The base visitor does no work at a node of its own. What a subclass does when
    one of its overrides runs is the `hook`: it may report an error at that node.
    The visitor keeps the error in m_expectedError. Every child is visited through
    `checkErrorAndVisit`, so once an error is recorded nothing further is visited.
    `visited` lists the `visit` calls in the order they happen, which is what a
    subclass observes. */
module Visiting {
  import opened Wrappers
  import opened Ast

  /** The argument of one `visit` call. An attribute is visited twice: once by the
      `visit(Attribute&)` dispatch and once by the overload that dispatch selects,
      named by the attribute kind the overload is written for. */
  datatype Node =
    | ModuleNode(shaderModule: ShaderModule)
    | DirectiveNode(directive: GlobalDirective)
    | AttributeNode(attribute: Attribute)
    | AttributeOverloadNode(overload: AttributeKind, selected: Attribute)
    | DeclarationNode(declaration: Declaration)
    | FunctionNode(functionDeclaration: FunctionDeclaration)
    | NativeTypeNode(nativeTypeDeclaration: NativeTypeDeclaration)
    | StructureNode(structureDeclaration: StructureDeclaration)
    | TypeDeclarationNode(typeDeclaration: TypeDeclaration)
    | VariableNode(variableDeclaration: VariableDeclaration)
    | ParameterNode(parameter: Parameter)
    | MemberNode(member: StructureMember)
    | QualifierNode(qualifier: VariableQualifier)
    | ExpressionNode(expression: Expression)
    | StatementNode(statement: Statement)
    | TypeNameNode(typeName: TypeName)

  /** The visitor's observable state: the recorded error and the visits so far. */
  datatype Trace = Trace(error: Option<Error>, visited: seq<Node>)

  // ---------------------------------------------------------------- short-circuiting

  /** checkErrorAndVisit as far as the node itself goes: nothing happens once an
      error is recorded; otherwise the node is visited and the hook's verdict is
      recorded. */
  function Step(hook: Node -> Option<Error>, s: Trace, n: Node): Trace
  {
    if s.error.Some? then s else Trace(hook(n), s.visited + [n])
  }

  /** checkErrorAndVisit at each node of `ns` in turn. */
  function Run(hook: Node -> Option<Error>, s: Trace, ns: seq<Node>): Trace
    decreases |ns|
  {
    if ns == [] then s else Run(hook, Step(hook, s, ns[0]), ns[1..])
  }

  /** The index of the first node whose hook reports an error, or |ns| if none does. */
  function FirstFailure(hook: Node -> Option<Error>, ns: seq<Node>): (k: nat)
    ensures k <= |ns|
    ensures k < |ns| ==> hook(ns[k]).Some?
    ensures forall i :: 0 <= i < k ==> hook(ns[i]).None?
  {
    if ns == [] then 0
    else if hook(ns[0]).Some? then 0
    else 1 + FirstFailure(hook, ns[1..])
  }

  /** Visiting `a` then `b` is visiting `a + b`. */
  lemma {:induction false} RunAppend(hook: Node -> Option<Error>, s: Trace, a: seq<Node>, b: seq<Node>)
    ensures Run(hook, s, a + b) == Run(hook, Run(hook, s, a), b)
    decreases |a|
  {
    if a == [] {
      assert a + b == b;
    } else {
      assert (a + b)[0] == a[0];
      assert (a + b)[1..] == a[1..] + b;
      RunAppend(hook, Step(hook, s, a[0]), a[1..], b);
    }
  }

  /** Once an error is recorded, no node is visited and the error stays. */
  lemma {:induction false} RunAfterError(hook: Node -> Option<Error>, s: Trace, ns: seq<Node>)
    requires s.error.Some?
    ensures Run(hook, s, ns) == s
    decreases |ns|
  {
    if ns != [] {
      RunAfterError(hook, s, ns[1..]);
    }
  }

  /** The visited nodes, extended twice, are extended once by both. */
  lemma Regrouped(visited: seq<Node>, a: seq<Node>, b: seq<Node>)
    ensures visited + a + b == visited + (a + b)
  {
  }

  /** From a visitor without an error, the nodes are visited up to and including
      the first one whose hook reports an error, and that error is the result; when
      no hook reports one, every node is visited and no error is recorded. */
  lemma {:induction false} RunFromClean(hook: Node -> Option<Error>, s: Trace, ns: seq<Node>)
    requires s.error.None?
    ensures var k := FirstFailure(hook, ns);
      Run(hook, s, ns) == if k < |ns| then Trace(hook(ns[k]), s.visited + ns[..k + 1]) else Trace(None, s.visited + ns)
    decreases |ns|
  {
    if ns != [] {
      var t := Step(hook, s, ns[0]);
      if hook(ns[0]).Some? {
        RunAfterError(hook, t, ns[1..]);
        assert ns[..1] == [ns[0]];
      } else {
        RunFromClean(hook, t, ns[1..]);
        var k := FirstFailure(hook, ns[1..]);
        assert FirstFailure(hook, ns) == k + 1;
        if k < |ns[1..]| {
          assert ns[1..][k] == ns[k + 1];
          Regrouped(s.visited, [ns[0]], ns[1..][..k + 1]);
          assert [ns[0]] + ns[1..][..k + 1] == ns[..k + 2];
        } else {
          Regrouped(s.visited, [ns[0]], ns[1..]);
          assert [ns[0]] + ns[1..] == ns;
        }
      }
    }
  }

  /** With hooks that report nothing, the visitor visits every node. */
  lemma VisitsAllWithoutError(hook: Node -> Option<Error>, s: Trace, ns: seq<Node>)
    requires s.error.None?
    requires forall i :: 0 <= i < |ns| ==> hook(ns[i]).None?
    ensures Run(hook, s, ns) == Trace(None, s.visited + ns)
  {
    RunFromClean(hook, s, ns);
  }

  // ---------------------------------------------------------------- dispatch

  /** The overload `visit(Attribute&)` selects, with the `Native` case sent to the
      NativeAttribute overload. */
  function DispatchAttribute(a: Attribute): (k: AttributeKind)
    ensures k == KindOfAttribute(a)
  {
    match a
    case BindingAttribute(_) => Binding
    case BuiltinAttribute(_) => Builtin
    case GroupAttribute(_) => Group
    case LocationAttribute(_) => Location
    case NativeAttribute => Native
    case StageAttribute(_) => StageKind
  }

  /** The overload `visit(Attribute&)` selects as written: the `Native` case
      downcasts to LocationAttribute. */
  function DispatchAttributeAsWritten(a: Attribute): (k: AttributeKind)
    ensures !a.NativeAttribute? ==> k == DispatchAttribute(a)
  {
    match a
    case BindingAttribute(_) => Binding
    case BuiltinAttribute(_) => Builtin
    case GroupAttribute(_) => Group
    case LocationAttribute(_) => Location
    case NativeAttribute => Location
    case StageAttribute(_) => StageKind
  }

  /** A native attribute reaches the LocationAttribute overload as written. */
  lemma NativeAttributeMisdispatched()
    ensures DispatchAttributeAsWritten(NativeAttribute) == Location
    ensures KindOfAttribute(NativeAttribute) == Native
  {
  }

  // ---------------------------------------------------------------- visit order

  /** The nodes each element of `xs` visits, element after element. */
  function Flatten<T>(xs: seq<T>, order: T -> seq<Node>): seq<Node>
    decreases |xs|
  {
    if xs == [] then [] else order(xs[0]) + Flatten(xs[1..], order)
  }

  lemma FlattenStep<T>(xs: seq<T>, order: T -> seq<Node>, i: nat)
    requires i < |xs|
    ensures Flatten(xs[i..], order) == order(xs[i]) + Flatten(xs[i + 1..], order)
  {
    assert xs[i..][1..] == xs[i + 1..];
  }

  function DirectiveOrder(d: GlobalDirective): seq<Node>
  {
    [DirectiveNode(d)]
  }

  function QualifierOrder(q: VariableQualifier): seq<Node>
  {
    [QualifierNode(q)]
  }

  function AttributeOrder(a: Attribute): seq<Node>
  {
    [AttributeNode(a), AttributeOverloadNode(DispatchAttribute(a), a)]
  }

  function TypeNameOrder(t: TypeName): seq<Node>
    decreases t, 1
  {
    [TypeNameNode(t)] + TypeNameChildrenOrder(t)
  }

  /** What the overload for the type name's kind visits. */
  function TypeNameChildrenOrder(t: TypeName): seq<Node>
    decreases t, 0
  {
    match t
    case ArrayTypeName(element, count) => MaybeTypeNameOrder(element) + MaybeExpressionOrder(count)
    case NamedTypeName(_) => []
    case ParameterizedTypeName(_, element) => TypeNameOrder(element)
  }

  function MaybeTypeNameOrder(t: Option<TypeName>): seq<Node>
    decreases t
  {
    if t.Some? then TypeNameOrder(t.value) else []
  }

  function ExpressionOrder(e: Expression): seq<Node>
    decreases e, 1
  {
    [ExpressionNode(e)] + ExpressionChildrenOrder(e)
  }

  /** What the overload for the expression's kind visits. */
  function ExpressionChildrenOrder(e: Expression): seq<Node>
    decreases e, 0
  {
    match e
    case ArrayAccess(base, index) => ExpressionOrder(base) + ExpressionOrder(index)
    case StructureAccess(base, _) => ExpressionOrder(base)
    case CallableExpression(target, arguments) => TypeNameOrder(target) + ExpressionsOrder(arguments)
    case UnaryExpression(operand, _) => ExpressionOrder(operand)
    case _ => []
  }

  function ExpressionsOrder(es: seq<Expression>): seq<Node>
    decreases es
  {
    if es == [] then [] else ExpressionOrder(es[0]) + ExpressionsOrder(es[1..])
  }

  function MaybeExpressionOrder(e: Option<Expression>): seq<Node>
    decreases e
  {
    if e.Some? then ExpressionOrder(e.value) else []
  }

  function VariableOrder(v: VariableDeclaration): seq<Node>
  {
    [VariableNode(v)] + Flatten(v.attributes, AttributeOrder)
    + (if v.maybeQualifier.Some? then QualifierOrder(v.maybeQualifier.value) else [])
    + MaybeTypeNameOrder(v.maybeType) + MaybeExpressionOrder(v.maybeInitializer)
  }

  function StatementOrder(s: Statement): seq<Node>
    decreases s, 1
  {
    [StatementNode(s)] + StatementChildrenOrder(s)
  }

  /** What the overload for the statement's kind visits. */
  function StatementChildrenOrder(s: Statement): seq<Node>
    decreases s, 0
  {
    match s
    case CompoundStatement(statements) => StatementsOrder(statements)
    case ReturnStatement(value) => MaybeExpressionOrder(value)
    case AssignmentStatement(lhs, rhs) => MaybeExpressionOrder(lhs) + ExpressionOrder(rhs)
    case VariableStatement(declaration) => VariableOrder(declaration)
  }

  function StatementsOrder(ss: seq<Statement>): seq<Node>
    decreases ss
  {
    if ss == [] then [] else StatementOrder(ss[0]) + StatementsOrder(ss[1..])
  }

  function ParameterOrder(p: Parameter): seq<Node>
  {
    [ParameterNode(p)] + Flatten(p.attributes, AttributeOrder) + TypeNameOrder(p.typeName)
  }

  function MemberOrder(m: StructureMember): seq<Node>
  {
    [MemberNode(m)] + Flatten(m.attributes, AttributeOrder) + TypeNameOrder(m.typeName)
  }

  function StructureOrder(s: StructureDeclaration): seq<Node>
  {
    [StructureNode(s)] + Flatten(s.attributes, AttributeOrder) + Flatten(s.members, MemberOrder)
  }

  /** Attributes, parameters, return attributes, the return type if any, then the
      body's compound statement. */
  function FunctionOrder(f: FunctionDeclaration): seq<Node>
  {
    [FunctionNode(f)] + Flatten(f.attributes, AttributeOrder) + Flatten(f.parameters, ParameterOrder)
    + Flatten(f.returnAttributes, AttributeOrder) + MaybeTypeNameOrder(f.maybeReturnType)
    + StatementOrder(CompoundStatement(f.body))
  }

  /** Only the attributes: the declared type name is not visited. */
  function TypeDeclarationOrder(t: TypeDeclaration): seq<Node>
  {
    [TypeDeclarationNode(t)] + Flatten(t.attributes, AttributeOrder)
  }

  function NativeTypeOrder(n: NativeTypeDeclaration): seq<Node>
  {
    [NativeTypeNode(n)] + Flatten(n.attributes, AttributeOrder) + TypeNameOrder(n.typeName)
  }

  function DeclarationOrder(d: Declaration): seq<Node>
  {
    [DeclarationNode(d)] +
    match d
    case DeclaredFunction(f) => FunctionOrder(f)
    case DeclaredNativeType(n) => NativeTypeOrder(n)
    case DeclaredStructure(s) => StructureOrder(s)
    case DeclaredType(t) => TypeDeclarationOrder(t)
    case DeclaredVariable(v) => VariableOrder(v)
  }

  /** Directives, structures, variables, then functions; the module's type
      declarations are not visited. */
  function ModuleOrder(m: ShaderModule): seq<Node>
  {
    [ModuleNode(m)] + Flatten(m.directives, DirectiveOrder) + Flatten(m.structures, StructureOrder)
    + Flatten(m.variables, VariableOrder) + Flatten(m.functions, FunctionOrder)
  }

  // ---------------------------------------------------------------- the visitor

  class Visitor {
    var error: Option<Error>
    var visited: seq<Node>
    /** What the subclass's overrides report at each node. */
    const hook: Node -> Option<Error>

    function Current(): Trace
      reads this
    {
      Trace(error, visited)
    }

    constructor (hook: Node -> Option<Error>)
      ensures Current() == Trace(None, []) && this.hook == hook
    {
      error := None;
      visited := [];
      this.hook := hook;
    }

    /** hasError: m_expectedError holds an error. */
    predicate HasError()
      reads this
    {
      error.Some?
    }

    /** result(): the recorded error, or success. */
    function Outcome(): (r: Result<(), Error>)
      reads this
      ensures r.Err? <==> HasError()
      ensures r.Err? ==> r.error == error.value
    {
      if error.Some? then Err(error.value) else Ok(())
    }

    /** checkErrorAndVisit at a node without children. */
    method Enter(n: Node)
      modifies this
      ensures Current() == Run(hook, old(Current()), [n])
    {
      assert [n][1..] == [];
      if !HasError() {
        visited := visited + [n];
        error := hook(n);
      }
    }

    method VisitModule(m: ShaderModule)
      modifies this
      ensures Current() == Run(hook, old(Current()), ModuleOrder(m))
    {
      ghost var s0 := Current();
      Enter(ModuleNode(m));
      ghost var done := [ModuleNode(m)];
      RunAppend(hook, s0, done, Flatten(m.directives, DirectiveOrder));
      VisitDirectives(m.directives);
      done := done + Flatten(m.directives, DirectiveOrder);
      RunAppend(hook, s0, done, Flatten(m.structures, StructureOrder));
      VisitStructures(m.structures);
      done := done + Flatten(m.structures, StructureOrder);
      RunAppend(hook, s0, done, Flatten(m.variables, VariableOrder));
      VisitVariables(m.variables);
      done := done + Flatten(m.variables, VariableOrder);
      RunAppend(hook, s0, done, Flatten(m.functions, FunctionOrder));
      VisitFunctions(m.functions);
    }

    method VisitDirectives(ds: seq<GlobalDirective>)
      modifies this
      ensures Current() == Run(hook, old(Current()), Flatten(ds, DirectiveOrder))
    {
      assert ds[0..] == ds;
      var i := 0;
      while i < |ds|
        invariant 0 <= i <= |ds|
        invariant Run(hook, Current(), Flatten(ds[i..], DirectiveOrder)) == Run(hook, old(Current()), Flatten(ds, DirectiveOrder))
      {
        FlattenStep(ds, DirectiveOrder, i);
        RunAppend(hook, Current(), DirectiveOrder(ds[i]), Flatten(ds[i + 1..], DirectiveOrder));
        Enter(DirectiveNode(ds[i]));
        i := i + 1;
      }
      assert ds[i..] == [];
    }

    /** The attribute dispatch, then the overload it selects. */
    method VisitAttribute(a: Attribute)
      modifies this
      ensures Current() == Run(hook, old(Current()), AttributeOrder(a))
    {
      ghost var s0 := Current();
      Enter(AttributeNode(a));
      RunAppend(hook, s0, [AttributeNode(a)], [AttributeOverloadNode(DispatchAttribute(a), a)]);
      Enter(AttributeOverloadNode(DispatchAttribute(a), a));
    }

    method VisitAttributes(attributes: seq<Attribute>)
      modifies this
      ensures Current() == Run(hook, old(Current()), Flatten(attributes, AttributeOrder))
    {
      assert attributes[0..] == attributes;
      var i := 0;
      while i < |attributes|
        invariant 0 <= i <= |attributes|
        invariant Run(hook, Current(), Flatten(attributes[i..], AttributeOrder)) == Run(hook, old(Current()), Flatten(attributes, AttributeOrder))
      {
        FlattenStep(attributes, AttributeOrder, i);
        RunAppend(hook, Current(), AttributeOrder(attributes[i]), Flatten(attributes[i + 1..], AttributeOrder));
        VisitAttribute(attributes[i]);
        i := i + 1;
      }
      assert attributes[i..] == [];
    }

    method VisitDeclaration(d: Declaration)
      modifies this
      ensures Current() == Run(hook, old(Current()), DeclarationOrder(d))
    {
      ghost var s0 := Current();
      Enter(DeclarationNode(d));
      ghost var rest := DeclarationOrder(d)[1..];
      assert DeclarationOrder(d) == [DeclarationNode(d)] + rest;
      RunAppend(hook, s0, [DeclarationNode(d)], rest);
      match d {
        case DeclaredFunction(f) => VisitFunction(f);
        case DeclaredNativeType(n) => VisitNativeType(n);
        case DeclaredStructure(s) => VisitStructure(s);
        case DeclaredType(t) => VisitTypeDeclaration(t);
        case DeclaredVariable(v) => VisitVariable(v);
      }
    }

    method VisitFunction(f: FunctionDeclaration)
      modifies this
      ensures Current() == Run(hook, old(Current()), FunctionOrder(f))
    {
      ghost var s0 := Current();
      Enter(FunctionNode(f));
      ghost var done := [FunctionNode(f)];
      RunAppend(hook, s0, done, Flatten(f.attributes, AttributeOrder));
      VisitAttributes(f.attributes);
      done := done + Flatten(f.attributes, AttributeOrder);
      RunAppend(hook, s0, done, Flatten(f.parameters, ParameterOrder));
      VisitParameters(f.parameters);
      done := done + Flatten(f.parameters, ParameterOrder);
      RunAppend(hook, s0, done, Flatten(f.returnAttributes, AttributeOrder));
      VisitAttributes(f.returnAttributes);
      done := done + Flatten(f.returnAttributes, AttributeOrder);
      RunAppend(hook, s0, done, MaybeTypeNameOrder(f.maybeReturnType));
      MaybeVisitTypeName(f.maybeReturnType);
      done := done + MaybeTypeNameOrder(f.maybeReturnType);
      RunAppend(hook, s0, done, StatementOrder(CompoundStatement(f.body)));
      VisitStatement(CompoundStatement(f.body));
    }

    method VisitFunctions(fs: seq<FunctionDeclaration>)
      modifies this
      ensures Current() == Run(hook, old(Current()), Flatten(fs, FunctionOrder))
    {
      assert fs[0..] == fs;
      var i := 0;
      while i < |fs|
        invariant 0 <= i <= |fs|
        invariant Run(hook, Current(), Flatten(fs[i..], FunctionOrder)) == Run(hook, old(Current()), Flatten(fs, FunctionOrder))
      {
        FlattenStep(fs, FunctionOrder, i);
        RunAppend(hook, Current(), FunctionOrder(fs[i]), Flatten(fs[i + 1..], FunctionOrder));
        VisitFunction(fs[i]);
        i := i + 1;
      }
      assert fs[i..] == [];
    }

    method VisitNativeType(n: NativeTypeDeclaration)
      modifies this
      ensures Current() == Run(hook, old(Current()), NativeTypeOrder(n))
    {
      ghost var s0 := Current();
      Enter(NativeTypeNode(n));
      ghost var done := [NativeTypeNode(n)];
      RunAppend(hook, s0, done, Flatten(n.attributes, AttributeOrder));
      VisitAttributes(n.attributes);
      done := done + Flatten(n.attributes, AttributeOrder);
      RunAppend(hook, s0, done, TypeNameOrder(n.typeName));
      VisitTypeName(n.typeName);
    }

    method VisitStructure(s: StructureDeclaration)
      modifies this
      ensures Current() == Run(hook, old(Current()), StructureOrder(s))
    {
      ghost var s0 := Current();
      Enter(StructureNode(s));
      ghost var done := [StructureNode(s)];
      RunAppend(hook, s0, done, Flatten(s.attributes, AttributeOrder));
      VisitAttributes(s.attributes);
      done := done + Flatten(s.attributes, AttributeOrder);
      RunAppend(hook, s0, done, Flatten(s.members, MemberOrder));
      VisitMembers(s.members);
    }

    method VisitStructures(ss: seq<StructureDeclaration>)
      modifies this
      ensures Current() == Run(hook, old(Current()), Flatten(ss, StructureOrder))
    {
      assert ss[0..] == ss;
      var i := 0;
      while i < |ss|
        invariant 0 <= i <= |ss|
        invariant Run(hook, Current(), Flatten(ss[i..], StructureOrder)) == Run(hook, old(Current()), Flatten(ss, StructureOrder))
      {
        FlattenStep(ss, StructureOrder, i);
        RunAppend(hook, Current(), StructureOrder(ss[i]), Flatten(ss[i + 1..], StructureOrder));
        VisitStructure(ss[i]);
        i := i + 1;
      }
      assert ss[i..] == [];
    }

    method VisitTypeDeclaration(t: TypeDeclaration)
      modifies this
      ensures Current() == Run(hook, old(Current()), TypeDeclarationOrder(t))
    {
      ghost var s0 := Current();
      Enter(TypeDeclarationNode(t));
      RunAppend(hook, s0, [TypeDeclarationNode(t)], Flatten(t.attributes, AttributeOrder));
      VisitAttributes(t.attributes);
    }

    method VisitVariable(v: VariableDeclaration)
      modifies this
      ensures Current() == Run(hook, old(Current()), VariableOrder(v))
    {
      ghost var s0 := Current();
      Enter(VariableNode(v));
      ghost var done := [VariableNode(v)];
      RunAppend(hook, s0, done, Flatten(v.attributes, AttributeOrder));
      VisitAttributes(v.attributes);
      done := done + Flatten(v.attributes, AttributeOrder);
      ghost var qualifier := if v.maybeQualifier.Some? then QualifierOrder(v.maybeQualifier.value) else [];
      RunAppend(hook, s0, done, qualifier);
      if v.maybeQualifier.Some? {
        Enter(QualifierNode(v.maybeQualifier.value));
      } else {
        assert Run(hook, Current(), []) == Current();
      }
      done := done + qualifier;
      RunAppend(hook, s0, done, MaybeTypeNameOrder(v.maybeType));
      MaybeVisitTypeName(v.maybeType);
      done := done + MaybeTypeNameOrder(v.maybeType);
      RunAppend(hook, s0, done, MaybeExpressionOrder(v.maybeInitializer));
      MaybeVisitExpression(v.maybeInitializer);
    }

    method VisitVariables(vs: seq<VariableDeclaration>)
      modifies this
      ensures Current() == Run(hook, old(Current()), Flatten(vs, VariableOrder))
    {
      assert vs[0..] == vs;
      var i := 0;
      while i < |vs|
        invariant 0 <= i <= |vs|
        invariant Run(hook, Current(), Flatten(vs[i..], VariableOrder)) == Run(hook, old(Current()), Flatten(vs, VariableOrder))
      {
        FlattenStep(vs, VariableOrder, i);
        RunAppend(hook, Current(), VariableOrder(vs[i]), Flatten(vs[i + 1..], VariableOrder));
        VisitVariable(vs[i]);
        i := i + 1;
      }
      assert vs[i..] == [];
    }

    method VisitParameter(p: Parameter)
      modifies this
      ensures Current() == Run(hook, old(Current()), ParameterOrder(p))
    {
      ghost var s0 := Current();
      Enter(ParameterNode(p));
      ghost var done := [ParameterNode(p)];
      RunAppend(hook, s0, done, Flatten(p.attributes, AttributeOrder));
      VisitAttributes(p.attributes);
      done := done + Flatten(p.attributes, AttributeOrder);
      RunAppend(hook, s0, done, TypeNameOrder(p.typeName));
      VisitTypeName(p.typeName);
    }

    method VisitParameters(ps: seq<Parameter>)
      modifies this
      ensures Current() == Run(hook, old(Current()), Flatten(ps, ParameterOrder))
    {
      assert ps[0..] == ps;
      var i := 0;
      while i < |ps|
        invariant 0 <= i <= |ps|
        invariant Run(hook, Current(), Flatten(ps[i..], ParameterOrder)) == Run(hook, old(Current()), Flatten(ps, ParameterOrder))
      {
        FlattenStep(ps, ParameterOrder, i);
        RunAppend(hook, Current(), ParameterOrder(ps[i]), Flatten(ps[i + 1..], ParameterOrder));
        VisitParameter(ps[i]);
        i := i + 1;
      }
      assert ps[i..] == [];
    }

    method VisitMember(m: StructureMember)
      modifies this
      ensures Current() == Run(hook, old(Current()), MemberOrder(m))
    {
      ghost var s0 := Current();
      Enter(MemberNode(m));
      ghost var done := [MemberNode(m)];
      RunAppend(hook, s0, done, Flatten(m.attributes, AttributeOrder));
      VisitAttributes(m.attributes);
      done := done + Flatten(m.attributes, AttributeOrder);
      RunAppend(hook, s0, done, TypeNameOrder(m.typeName));
      VisitTypeName(m.typeName);
    }

    method VisitMembers(ms: seq<StructureMember>)
      modifies this
      ensures Current() == Run(hook, old(Current()), Flatten(ms, MemberOrder))
    {
      assert ms[0..] == ms;
      var i := 0;
      while i < |ms|
        invariant 0 <= i <= |ms|
        invariant Run(hook, Current(), Flatten(ms[i..], MemberOrder)) == Run(hook, old(Current()), Flatten(ms, MemberOrder))
      {
        FlattenStep(ms, MemberOrder, i);
        RunAppend(hook, Current(), MemberOrder(ms[i]), Flatten(ms[i + 1..], MemberOrder));
        VisitMember(ms[i]);
        i := i + 1;
      }
      assert ms[i..] == [];
    }

    method VisitExpression(e: Expression)
      modifies this
      decreases e, 1
      ensures Current() == Run(hook, old(Current()), ExpressionOrder(e))
    {
      ghost var s0 := Current();
      Enter(ExpressionNode(e));
      RunAppend(hook, s0, [ExpressionNode(e)], ExpressionChildrenOrder(e));
      VisitExpressionChildren(e);
    }

    /** The overload the expression's kind selects: it visits the subexpressions,
        and a call's target type name and then its arguments. */
    method VisitExpressionChildren(e: Expression)
      modifies this
      decreases e, 0
      ensures Current() == Run(hook, old(Current()), ExpressionChildrenOrder(e))
    {
      ghost var s0 := Current();
      match e {
        case ArrayAccess(base, index) =>
          VisitExpression(base);
          RunAppend(hook, s0, ExpressionOrder(base), ExpressionOrder(index));
          VisitExpression(index);
        case StructureAccess(base, _) =>
          VisitExpression(base);
        case CallableExpression(target, arguments) =>
          VisitTypeName(target);
          RunAppend(hook, s0, TypeNameOrder(target), ExpressionsOrder(arguments));
          VisitExpressions(arguments);
        case UnaryExpression(operand, _) =>
          VisitExpression(operand);
        case _ =>
      }
    }

    method VisitExpressions(es: seq<Expression>)
      modifies this
      decreases es
      ensures Current() == Run(hook, old(Current()), ExpressionsOrder(es))
    {
      assert es[0..] == es;
      var i := 0;
      while i < |es|
        invariant 0 <= i <= |es|
        invariant Run(hook, Current(), ExpressionsOrder(es[i..])) == Run(hook, old(Current()), ExpressionsOrder(es))
      {
        assert es[i..][1..] == es[i + 1..];
        RunAppend(hook, Current(), ExpressionOrder(es[i]), ExpressionsOrder(es[i + 1..]));
        VisitExpression(es[i]);
        i := i + 1;
      }
      assert es[i..] == [];
    }

    /** maybeCheckErrorAndVisit: an absent expression is skipped. */
    method MaybeVisitExpression(e: Option<Expression>)
      modifies this
      decreases e
      ensures Current() == Run(hook, old(Current()), MaybeExpressionOrder(e))
    {
      if e.Some? {
        VisitExpression(e.value);
      }
    }

    method VisitStatement(s: Statement)
      modifies this
      decreases s, 1
      ensures Current() == Run(hook, old(Current()), StatementOrder(s))
    {
      ghost var s0 := Current();
      Enter(StatementNode(s));
      RunAppend(hook, s0, [StatementNode(s)], StatementChildrenOrder(s));
      VisitStatementChildren(s);
    }

    /** The overload the statement's kind selects. */
    method VisitStatementChildren(s: Statement)
      modifies this
      decreases s, 0
      ensures Current() == Run(hook, old(Current()), StatementChildrenOrder(s))
    {
      ghost var s0 := Current();
      match s {
        case CompoundStatement(statements) =>
          VisitStatements(statements);
        case ReturnStatement(value) =>
          MaybeVisitExpression(value);
        case AssignmentStatement(lhs, rhs) =>
          MaybeVisitExpression(lhs);
          RunAppend(hook, s0, MaybeExpressionOrder(lhs), ExpressionOrder(rhs));
          VisitExpression(rhs);
        case VariableStatement(declaration) =>
          VisitVariable(declaration);
      }
    }

    method VisitStatements(ss: seq<Statement>)
      modifies this
      decreases ss
      ensures Current() == Run(hook, old(Current()), StatementsOrder(ss))
    {
      assert ss[0..] == ss;
      var i := 0;
      while i < |ss|
        invariant 0 <= i <= |ss|
        invariant Run(hook, Current(), StatementsOrder(ss[i..])) == Run(hook, old(Current()), StatementsOrder(ss))
      {
        assert ss[i..][1..] == ss[i + 1..];
        RunAppend(hook, Current(), StatementOrder(ss[i]), StatementsOrder(ss[i + 1..]));
        VisitStatement(ss[i]);
        i := i + 1;
      }
      assert ss[i..] == [];
    }

    method VisitTypeName(t: TypeName)
      modifies this
      decreases t, 1
      ensures Current() == Run(hook, old(Current()), TypeNameOrder(t))
    {
      ghost var s0 := Current();
      Enter(TypeNameNode(t));
      RunAppend(hook, s0, [TypeNameNode(t)], TypeNameChildrenOrder(t));
      VisitTypeNameChildren(t);
    }

    /** The overload the type name's kind selects: an array visits its element type
        and count when present, a parameterized type its element type. */
    method VisitTypeNameChildren(t: TypeName)
      modifies this
      decreases t, 0
      ensures Current() == Run(hook, old(Current()), TypeNameChildrenOrder(t))
    {
      ghost var s0 := Current();
      match t {
        case ArrayTypeName(element, count) =>
          MaybeVisitTypeName(element);
          RunAppend(hook, s0, MaybeTypeNameOrder(element), MaybeExpressionOrder(count));
          MaybeVisitExpression(count);
        case NamedTypeName(_) =>
        case ParameterizedTypeName(_, element) =>
          VisitTypeName(element);
      }
    }

    /** maybeCheckErrorAndVisit: an absent type name is skipped. */
    method MaybeVisitTypeName(t: Option<TypeName>)
      modifies this
      decreases t
      ensures Current() == Run(hook, old(Current()), MaybeTypeNameOrder(t))
    {
      if t.Some? {
        VisitTypeName(t.value);
      }
    }
  }
}
