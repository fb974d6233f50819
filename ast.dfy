/** The WGSL abstract syntax tree: one datatype per family of AST node classes.
    Source spans are not modelled. Owned children (UniqueRef) are plain fields,
    nullable children (std::unique_ptr, raw pointers) are `Option`s, and the node
    lists (UniqueRefVector, Vector) are sequences. */
module Ast {
  import opened Wrappers
  import opened Tokens

  /** A compilation error. The parser's "Expected a X, but got a Y" messages keep
      the two token types; every other message is kept as its text. */
  datatype Error =
    | ExpectedToken(expected: TokenType, got: TokenType)
    | Message(text: string)

  datatype Stage = Vertex | Compute | Fragment

  /** Attribute nodes (`@group(0)`, `@builtin(position)`, `@vertex`, ...). */
  datatype Attribute =
    | GroupAttribute(group: nat)
    | BindingAttribute(binding: nat)
    | LocationAttribute(location: nat)
    | BuiltinAttribute(name: string)
    | StageAttribute(stage: Stage)
    | NativeAttribute

  /** Attribute::Kind, the tag each attribute class reports. */
  datatype AttributeKind = Binding | Builtin | Group | Location | Native | StageKind

  function KindOfAttribute(a: Attribute): AttributeKind
  {
    match a
    case GroupAttribute(_) => Group
    case BindingAttribute(_) => Binding
    case LocationAttribute(_) => Location
    case BuiltinAttribute(_) => Builtin
    case StageAttribute(_) => StageKind
    case NativeAttribute => Native
  }

  datatype StorageClass = Function | Private | Workgroup | Uniform | Storage

  datatype AccessMode = Read | Write | ReadWrite

  datatype VariableQualifier = VariableQualifier(storageClass: StorageClass, accessMode: AccessMode)

  datatype UnaryOperation = Negate

  /** ParameterizedTypeName::Base, in declaration order. */
  datatype Base = Vec2 | Vec3 | Vec4 | Mat2x2 | Mat2x3 | Mat2x4 | Mat3x2 | Mat3x3 | Mat3x4 | Mat4x2 | Mat4x3 | Mat4x4

  /** Type names: `array<T, n>` (element type and count each optional), a plain
      name, or one of the twelve vector/matrix bases applied to an element type. */
  datatype TypeName =
    | ArrayTypeName(maybeElementType: Option<TypeName>, maybeElementCount: Option<Expression>)
    | NamedTypeName(name: string)
    | ParameterizedTypeName(base: Base, elementType: TypeName)

  /** Expressions. Literals are leaves; numeric literal payloads are naturals. */
  datatype Expression =
    | BoolLiteral(boolValue: bool)
    | AbstractIntLiteral(value: nat)
    | Int32Literal(value: nat)
    | Uint32Literal(value: nat)
    | Float32Literal(value: nat)
    | AbstractFloatLiteral(value: nat)
    | IdentifierExpression(identifier: string)
    | ArrayAccess(base: Expression, index: Expression)
    | StructureAccess(base: Expression, fieldName: string)
    | CallableExpression(target: TypeName, arguments: seq<Expression>)
    | UnaryExpression(operand: Expression, operation: UnaryOperation)

  datatype VariableDeclaration = VariableDeclaration(
    name: string,
    attributes: seq<Attribute>,
    maybeQualifier: Option<VariableQualifier>,
    maybeType: Option<TypeName>,
    maybeInitializer: Option<Expression>)

  datatype Statement =
    | CompoundStatement(statements: seq<Statement>)
    | ReturnStatement(maybeExpression: Option<Expression>)
    | AssignmentStatement(maybeLhs: Option<Expression>, rhs: Expression)
    | VariableStatement(declaration: VariableDeclaration)

  datatype StructureMember = StructureMember(name: string, typeName: TypeName, attributes: seq<Attribute>)

  datatype StructureDeclaration = StructureDeclaration(name: string, attributes: seq<Attribute>, members: seq<StructureMember>)

  datatype Parameter = Parameter(name: string, typeName: TypeName, attributes: seq<Attribute>)

  /** A function declaration; its body is the statement list of its compound statement. */
  datatype FunctionDeclaration = FunctionDeclaration(
    name: string,
    attributes: seq<Attribute>,
    parameters: seq<Parameter>,
    returnAttributes: seq<Attribute>,
    maybeReturnType: Option<TypeName>,
    body: seq<Statement>)

  datatype TypeDeclaration = TypeDeclaration(name: string, attributes: seq<Attribute>, typeName: TypeName)

  datatype NativeTypeDeclaration = NativeTypeDeclaration(attributes: seq<Attribute>, typeName: TypeName)

  /** AST::Declaration: any of the five declaration node classes, tagged by its kind. */
  datatype Declaration =
    | DeclaredFunction(functionDeclaration: FunctionDeclaration)
    | DeclaredNativeType(nativeTypeDeclaration: NativeTypeDeclaration)
    | DeclaredStructure(structureDeclaration: StructureDeclaration)
    | DeclaredType(typeDeclaration: TypeDeclaration)
    | DeclaredVariable(variableDeclaration: VariableDeclaration)

  datatype GlobalDirective = GlobalDirective(name: string)

  /** The parsed module: one list per kind of top-level declaration. */
  datatype ShaderModule = ShaderModule(
    directives: seq<GlobalDirective>,
    structures: seq<StructureDeclaration>,
    variables: seq<VariableDeclaration>,
    functions: seq<FunctionDeclaration>,
    types: seq<TypeDeclaration>)

  const EmptyModule := ShaderModule([], [], [], [], [])
}
