/** The string forms of type names (ASTTypeDecl.cpp): the base-name table used by
    the string adapter for ParameterizedType::Base, and the three `toString` functions. */
module TypeDecl {
  import opened Wrappers
  import opened Ast
  import opened Decimal
  import TypeNames

  /** The adapter's `names[]` table, indexed by the enum's underlying value. */
  const Names: seq<string> :=
    ["vec2", "vec3", "vec4", "mat2x2", "mat2x3", "mat2x4", "mat3x2", "mat3x3", "mat3x4", "mat4x2", "mat4x3", "mat4x4"]

  /** The underlying value of a Base (its position in the enum declaration). */
  function BaseIndex(b: Base): (i: nat)
    ensures i < 12
  {
    match b
    case Vec2 => 0 case Vec3 => 1 case Vec4 => 2
    case Mat2x2 => 3 case Mat2x3 => 4 case Mat2x4 => 5
    case Mat3x2 => 6 case Mat3x3 => 7 case Mat3x4 => 8
    case Mat4x2 => 9 case Mat4x3 => 10 case Mat4x4 => 11
  }

  /** `names[static_cast<unsigned>(base)]`. */
  function BaseName(b: Base): string
  {
    Names[BaseIndex(b)]
  }

  /** The table is in enum order: looking up the name of a base gives that base
      back, and a name that stringViewToKind maps to a base is that base's name. */
  lemma BaseNameRoundTrip(b: Base, view: string)
    ensures TypeNames.StringViewToKind(BaseName(b)) == Some(b)
    ensures TypeNames.StringViewToKind(view) == Some(b) ==> view == BaseName(b)
  {
    match b
    case Vec2 => case Vec3 => case Vec4 =>
    case Mat2x2 => case Mat2x3 => case Mat2x4 =>
    case Mat3x2 => case Mat3x3 => case Mat3x4 =>
    case Mat4x2 => case Mat4x3 => case Mat4x4 =>
  }

  /** The adapter's `length()`: the length of the base's name. */
  function AdapterLength(b: Base): (n: nat)
    ensures n == |BaseName(b)|
    ensures 4 <= n <= 6
  {
    |Names[BaseIndex(b)]|
  }

  /** The adapter's `writeTo`: copies the base's name into `destination` starting at
      `at`, leaving every other character as it was. */
  method AdapterWriteTo(b: Base, destination: array<char>, at: nat)
    requires at + AdapterLength(b) <= destination.Length
    modifies destination
    ensures destination[at..at + AdapterLength(b)] == BaseName(b)
    ensures forall i :: 0 <= i < destination.Length && !(at <= i < at + AdapterLength(b)) ==> destination[i] == old(destination[i])
  {
    var name := Names[BaseIndex(b)];
    var k := 0;
    while k < |name|
      invariant 0 <= k <= |name|
      invariant destination[at..at + k] == name[..k]
      invariant forall i :: 0 <= i < destination.Length && !(at <= i < at + k) ==> destination[i] == old(destination[i])
    {
      destination[at + k] := name[k];
      k := k + 1;
    }
  }

  /** The constant element count of the older ArrayType class, where 0 means "no
      count": an integer-literal count gives its value, anything else counts as 0. */
  function ElementCount(count: Option<Expression>): nat
  {
    match count
    case Some(AbstractIntLiteral(v)) => v
    case Some(Int32Literal(v)) => v
    case Some(Uint32Literal(v)) => v
    case _ => 0
  }

  /** ArrayType::toString, NamedType::toString and ParameterizedType::toString. */
  function ToString(t: TypeName): string
  {
    match t
    case ArrayTypeName(elem, count) =>
      "array<"
      + (if elem.Some? then
           ToString(elem.value) + (if ElementCount(count) != 0 then "," + NatToString(ElementCount(count)) else "")
         else "")
      + ">"
    case NamedTypeName(name) => name
    case ParameterizedTypeName(b, e) => BaseName(b) + "<" + ToString(e) + ">"
  }

  /** A named type's string is its stored name, unchanged. */
  lemma NamedToString(name: string)
    ensures ToString(NamedTypeName(name)) == name
  {
  }

  /** A parameterized type's string starts with a name that stringViewToKind maps back
      to its base, followed by `<`, the element's string and `>`. */
  lemma ParameterizedToString(b: Base, e: TypeName)
    ensures var s := ToString(ParameterizedTypeName(b, e));
      && TypeNames.StringViewToKind(s[..|BaseName(b)|]) == Some(b)
      && s[|BaseName(b)|..] == "<" + ToString(e) + ">"
  {
    var name, rest := BaseName(b), "<" + ToString(e) + ">";
    var s := ToString(ParameterizedTypeName(b, e));
    assert s == name + rest;
    SplitConcat(name, rest);
    BaseNameRoundTrip(b, name);
  }

  /** Cutting a concatenation at the length of its first part gives the parts back. */
  lemma SplitConcat(x: string, y: string)
    ensures (x + y)[..|x|] == x && (x + y)[|x|..] == y
  {
  }

  /** An array type's string starts with `array<` and ends with `>`; the element
      type appears only when present, and `,count` only when the element type is
      present and the count is not zero. */
  lemma ArrayToString(elem: Option<TypeName>, count: Option<Expression>)
    ensures var s := ToString(ArrayTypeName(elem, count));
      && |s| >= 7 && s[..6] == "array<" && s[|s| - 1] == '>'
      && (elem.None? ==> s == "array<>")
      && (elem.Some? && ElementCount(count) == 0 ==> s == "array<" + ToString(elem.value) + ">")
      && (elem.Some? && ElementCount(count) != 0 ==>
            s == "array<" + ToString(elem.value) + "," + NatToString(ElementCount(count)) + ">")
  {
    var s := ToString(ArrayTypeName(elem, count));
    var middle := if elem.Some? then
        ToString(elem.value) + (if ElementCount(count) != 0 then "," + NatToString(ElementCount(count)) else "")
      else "";
    assert s == "array<" + middle + ">";
    assert s[..6] == "array<";
  }

  /** A base applied to `f32` is written as the base's name followed by `<f32>`. */
  lemma ParameterizedOverF32(b: Base)
    ensures ToString(ParameterizedTypeName(b, NamedTypeName("f32"))) == BaseName(b) + "<f32>"
  {
    assert ToString(NamedTypeName("f32")) == "f32";
  }

  /** The tests' expected strings for the vector and 2-column matrix bases applied to `f32`. */
  lemma ParameterizedTestCases()
    ensures ToString(ParameterizedTypeName(Vec2, NamedTypeName("f32"))) == "vec2<f32>"
    ensures ToString(ParameterizedTypeName(Vec3, NamedTypeName("f32"))) == "vec3<f32>"
    ensures ToString(ParameterizedTypeName(Vec4, NamedTypeName("f32"))) == "vec4<f32>"
    ensures ToString(ParameterizedTypeName(Mat2x2, NamedTypeName("f32"))) == "mat2x2<f32>"
    ensures ToString(ParameterizedTypeName(Mat2x3, NamedTypeName("f32"))) == "mat2x3<f32>"
    ensures ToString(ParameterizedTypeName(Mat2x4, NamedTypeName("f32"))) == "mat2x4<f32>"
  {
    ParameterizedOverF32(Vec2); ParameterizedOverF32(Vec3); ParameterizedOverF32(Vec4);
    ParameterizedOverF32(Mat2x2); ParameterizedOverF32(Mat2x3); ParameterizedOverF32(Mat2x4);
  }

  /** The tests' expected strings for the 3- and 4-column matrix bases applied to `f32`. */
  lemma ParameterizedMatrixTestCases()
    ensures ToString(ParameterizedTypeName(Mat3x2, NamedTypeName("f32"))) == "mat3x2<f32>"
    ensures ToString(ParameterizedTypeName(Mat3x3, NamedTypeName("f32"))) == "mat3x3<f32>"
    ensures ToString(ParameterizedTypeName(Mat3x4, NamedTypeName("f32"))) == "mat3x4<f32>"
    ensures ToString(ParameterizedTypeName(Mat4x2, NamedTypeName("f32"))) == "mat4x2<f32>"
    ensures ToString(ParameterizedTypeName(Mat4x3, NamedTypeName("f32"))) == "mat4x3<f32>"
    ensures ToString(ParameterizedTypeName(Mat4x4, NamedTypeName("f32"))) == "mat4x4<f32>"
  {
    ParameterizedOverF32(Mat3x2); ParameterizedOverF32(Mat3x3); ParameterizedOverF32(Mat3x4);
    ParameterizedOverF32(Mat4x2); ParameterizedOverF32(Mat4x3); ParameterizedOverF32(Mat4x4);
  }
}
