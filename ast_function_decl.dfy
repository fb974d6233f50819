/** The attribute queries of ASTFunctionDecl.cpp: "first matching attribute"
    searches over an attribute list. */
module FunctionDecl {
  import opened Wrappers
  import opened Ast

  /** A semantic is a `@builtin(...)` or a `@location(...)` attribute. */
  predicate IsSemantic(a: Attribute)
  {
    a.BuiltinAttribute? || a.LocationAttribute?
  }

  /** Vector::findIf: the index of the first attribute satisfying `p`, or none. */
  function FindIf(attributes: seq<Attribute>, p: Attribute -> bool): (r: Option<nat>)
    ensures r.None? <==> forall i :: 0 <= i < |attributes| ==> !p(attributes[i])
    ensures r.Some? ==> r.value < |attributes| && p(attributes[r.value])
    ensures r.Some? ==> forall i :: 0 <= i < r.value ==> !p(attributes[i])
  {
    if attributes == [] then None
    else if p(attributes[0]) then Some(0)
    else match FindIf(attributes[1..], p)
      case None => None
      case Some(i) => Some(i + 1)
  }

  /** firstSemantic: the first semantic attribute of the list, or null (None). */
  function FirstSemantic(attributes: seq<Attribute>): (r: Option<Attribute>)
    ensures r.None? <==> forall i :: 0 <= i < |attributes| ==> !IsSemantic(attributes[i])
    ensures r.Some? ==> exists k :: 0 <= k < |attributes| && attributes[k] == r.value && IsSemantic(r.value)
                                     && forall i :: 0 <= i < k ==> !IsSemantic(attributes[i])
  {
    match FindIf(attributes, IsSemantic)
    case None => None
    case Some(k) => Some(attributes[k])
  }

  /** Parameter::maybeSemantic: the first semantic among the parameter's own attributes. */
  function MaybeSemantic(p: Parameter): (r: Option<Attribute>)
    ensures r.Some? ==> r.value in p.attributes && IsSemantic(r.value)
    ensures r.Some? ==> exists k :: 0 <= k < |p.attributes| && p.attributes[k] == r.value
                                     && forall i :: 0 <= i < k ==> !IsSemantic(p.attributes[i])
    ensures r.None? <==> forall a :: a in p.attributes ==> !IsSemantic(a)
  {
    FirstSemantic(p.attributes)
  }

  /** FunctionDecl::maybeStage: the stage of the first stage attribute, or none. */
  function MaybeStage(f: FunctionDeclaration): (r: Option<Stage>)
    ensures r.None? <==> forall i :: 0 <= i < |f.attributes| ==> !f.attributes[i].StageAttribute?
    ensures r.Some? ==> exists k :: 0 <= k < |f.attributes| && f.attributes[k] == StageAttribute(r.value)
                                     && forall i :: 0 <= i < k ==> !f.attributes[i].StageAttribute?
  {
    match FindIf(f.attributes, (a: Attribute) => a.StageAttribute?)
    case None => None
    case Some(k) => Some(f.attributes[k].stage)
  }

  /** FunctionDecl::stage: the caller guarantees a stage attribute exists; the
      result is the stage maybeStage finds. */
  function StageOf(f: FunctionDeclaration): (s: Stage)
    requires MaybeStage(f).Some?
    ensures MaybeStage(f) == Some(s)
    ensures StageAttribute(s) in f.attributes
  {
    MaybeStage(f).value
  }

  /** FunctionDecl::maybeReturnSemantic: searches the return attributes only, never
      the function's own attributes. */
  function MaybeReturnSemantic(f: FunctionDeclaration): (r: Option<Attribute>)
    ensures r.Some? ==> r.value in f.returnAttributes && IsSemantic(r.value)
    ensures r.Some? ==> exists k :: 0 <= k < |f.returnAttributes| && f.returnAttributes[k] == r.value
                                     && forall i :: 0 <= i < k ==> !IsSemantic(f.returnAttributes[i])
    ensures r.None? <==> forall a :: a in f.returnAttributes ==> !IsSemantic(a)
  {
    FirstSemantic(f.returnAttributes)
  }

  /** Changing a function's own attributes never changes its return semantic. */
  lemma ReturnSemanticIgnoresFunctionAttributes(f: FunctionDeclaration, attributes: seq<Attribute>)
    ensures MaybeReturnSemantic(f.(attributes := attributes)) == MaybeReturnSemantic(f)
  {
  }

  /** Searching a concatenation finds the match in the first part if there is one,
      and otherwise the match in the second part, shifted past the first. */
  lemma {:induction false} FindIfAppend(xs: seq<Attribute>, ys: seq<Attribute>, p: Attribute -> bool)
    ensures FindIf(xs + ys, p) == match FindIf(xs, p)
      case Some(k) => Some(k)
      case None => match FindIf(ys, p) case None => None case Some(k) => Some(|xs| + k)
  {
    if xs == [] {
      assert xs + ys == ys;
    } else if p(xs[0]) {
      assert (xs + ys)[0] == xs[0];
    } else {
      assert (xs + ys)[0] == xs[0];
      assert (xs + ys)[1..] == xs[1..] + ys;
      FindIfAppend(xs[1..], ys, p);
    }
  }

  /** The first semantic is unaffected by attributes appended after the list, and a
      list without a semantic defers to what is appended. */
  lemma FirstSemanticAppend(xs: seq<Attribute>, ys: seq<Attribute>)
    ensures FirstSemantic(xs + ys) == if FirstSemantic(xs).Some? then FirstSemantic(xs) else FirstSemantic(ys)
  {
    FindIfAppend(xs, ys, IsSemantic);
  }
}
