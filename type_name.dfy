/** The type-name queries of TypeName.h: the kind each type-name class reports and
    the recognition of the twelve vector/matrix names. */
module TypeNames {
  import opened Wrappers
  import opened Ast

  /** TypeName::Kind. */
  datatype Kind = Array | Named | Parameterized

  /** The constant each class's `kind()` override returns. */
  function KindOf(t: TypeName): (k: Kind)
    ensures k == Array <==> t.ArrayTypeName?
    ensures k == Named <==> t.NamedTypeName?
    ensures k == Parameterized <==> t.ParameterizedTypeName?
  {
    match t
    case ArrayTypeName(_, _) => Array
    case NamedTypeName(_) => Named
    case ParameterizedTypeName(_, _) => Parameterized
  }

  predicate IsArray(t: TypeName) { KindOf(t) == Array }
  predicate IsNamed(t: TypeName) { KindOf(t) == Named }
  predicate IsParameterized(t: TypeName) { KindOf(t) == Parameterized }

  /** Exactly one of the three kind tests holds of any type name. */
  lemma ExactlyOneKind(t: TypeName)
    ensures IsArray(t) || IsNamed(t) || IsParameterized(t)
    ensures !(IsArray(t) && IsNamed(t)) && !(IsArray(t) && IsParameterized(t)) && !(IsNamed(t) && IsParameterized(t))
  {
  }

  /** ParameterizedTypeName::stringViewToKind: the base a vector/matrix name stands for. */
  function StringViewToKind(view: string): Option<Base>
  {
    if view == "vec2" then Some(Vec2)
    else if view == "vec3" then Some(Vec3)
    else if view == "vec4" then Some(Vec4)
    else if view == "mat2x2" then Some(Mat2x2)
    else if view == "mat2x3" then Some(Mat2x3)
    else if view == "mat2x4" then Some(Mat2x4)
    else if view == "mat3x2" then Some(Mat3x2)
    else if view == "mat3x3" then Some(Mat3x3)
    else if view == "mat3x4" then Some(Mat3x4)
    else if view == "mat4x2" then Some(Mat4x2)
    else if view == "mat4x3" then Some(Mat4x3)
    else if view == "mat4x4" then Some(Mat4x4)
    else None
  }

  /** The twelve names stringViewToKind accepts. */
  const ParameterizedNames: set<string> :=
    {"vec2", "vec3", "vec4", "mat2x2", "mat2x3", "mat2x4", "mat3x2", "mat3x3", "mat3x4", "mat4x2", "mat4x3", "mat4x4"}

  /** A base is returned for exactly the twelve names, and none for every other string. */
  lemma AcceptsExactlyTwelveNames(view: string)
    ensures StringViewToKind(view).Some? <==> view in ParameterizedNames
  {
  }

  /** Distinct accepted names map to distinct bases. */
  lemma StringViewToKindInjective(v: string, w: string)
    requires StringViewToKind(v).Some? && StringViewToKind(v) == StringViewToKind(w)
    ensures v == w
  {
  }
}
