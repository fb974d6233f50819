/** GatherEntryPointItems.cpp: the items an entry point reads and writes. Each
    input parameter, and the return type of a non-compute entry point, is one
    item carrying the path of names that leads to it, its resolved type and its
    semantic attribute (`@builtin(...)` or `@location(...)`). */
module EntryPoints {
  import opened Wrappers
  import opened Ast
  import FunctionDecl
  import TypeDecl

  /** A resolved Type::Node, as an index into the type context that made it. */
  type TypeHandle = nat

  /** Type::Context::lookup: the type registered under a type's string, or null
      (None). The context is a parameter: the gatherer is handed one. */
  type Lookup = string -> Option<TypeHandle>

  datatype EntryPointItem = EntryPointItem(path: seq<string>, resolvedType: Option<TypeHandle>, semantic: Attribute)

  datatype EntryPointItems = EntryPointItems(inputs: seq<EntryPointItem>, outputs: seq<EntryPointItem>)

  /** The one error the gatherer reports. */
  const MissingSemantic := Message("Expected semantic for entrypoint argument.")

  /** The type recorded for a visited type name: none for an array type, the
      lookup of the name for a named type, and the lookup of the type's string
      for a parameterized type. */
  function ResolvedType(lookup: Lookup, t: TypeName): Option<TypeHandle>
  {
    match t
    case ArrayTypeName(_, _) => None
    case NamedTypeName(name) => lookup(name)
    case ParameterizedTypeName(_, _) => lookup(TypeDecl.ToString(t))
  }

  // ---------------------------------------------------------------- specification

  /** Every parameter carries a semantic attribute. */
  predicate AllHaveSemantics(parameters: seq<Parameter>)
  {
    forall j :: 0 <= j < |parameters| ==> FunctionDecl.MaybeSemantic(parameters[j]).Some?
  }

  /** The item of one input parameter: its name as the path, its type, its semantic. */
  function InputItem(lookup: Lookup, p: Parameter): EntryPointItem
    requires FunctionDecl.MaybeSemantic(p).Some?
  {
    EntryPointItem([p.name], ResolvedType(lookup, p.typeName), FunctionDecl.MaybeSemantic(p).value)
  }

  function InputItems(lookup: Lookup, parameters: seq<Parameter>): (r: seq<EntryPointItem>)
    requires AllHaveSemantics(parameters)
    ensures |r| == |parameters|
  {
    seq(|parameters|, j requires 0 <= j < |parameters| => InputItem(lookup, parameters[j]))
  }

  /** The return type is gathered when there is one and the stage is not compute. */
  predicate GathersReturnType(f: FunctionDeclaration)
    requires FunctionDecl.MaybeStage(f).Some?
  {
    f.maybeReturnType.Some? && FunctionDecl.StageOf(f) != Compute
  }

  /** The output item of a gathered return type: an empty path, the return type,
      the return semantic. */
  function OutputItems(lookup: Lookup, f: FunctionDeclaration): seq<EntryPointItem>
    requires FunctionDecl.MaybeStage(f).Some?
    requires GathersReturnType(f) ==> FunctionDecl.MaybeReturnSemantic(f).Some?
  {
    if GathersReturnType(f) then
      [EntryPointItem([], ResolvedType(lookup, f.maybeReturnType.value), FunctionDecl.MaybeReturnSemantic(f).value)]
    else []
  }

  /** What gatherEntryPointItems returns: the missing-semantic error when an input
      parameter, or a gathered return type, has no semantic; otherwise one input
      item per parameter and one output item for a gathered return type. */
  function Gathered(lookup: Lookup, f: FunctionDeclaration): Result<EntryPointItems, Error>
    requires FunctionDecl.MaybeStage(f).Some?
  {
    if !AllHaveSemantics(f.parameters) then Err(MissingSemantic)
    else if GathersReturnType(f) && FunctionDecl.MaybeReturnSemantic(f).None? then Err(MissingSemantic)
    else Ok(EntryPointItems(InputItems(lookup, f.parameters), OutputItems(lookup, f)))
  }

  /** The items of one more parameter follow those of the parameters before it. */
  lemma InputItemsSnoc(lookup: Lookup, parameters: seq<Parameter>, p: Parameter)
    requires AllHaveSemantics(parameters) && FunctionDecl.MaybeSemantic(p).Some?
    ensures AllHaveSemantics(parameters + [p])
    ensures InputItems(lookup, parameters + [p]) == InputItems(lookup, parameters) + [InputItem(lookup, p)]
  {
    var all := parameters + [p];
    assert forall j :: 0 <= j < |parameters| ==> all[j] == parameters[j];
    assert all[|parameters|] == p;
  }

  // ---------------------------------------------------------------- the gatherer

  /** Gatherer: a visitor over parameter and return types that records an item
      for each type it reaches under a semantic. */
  class Gatherer {
    var currentSemantic: Option<Attribute>
    var entryPointItems: seq<EntryPointItem>
    var path: seq<string>
    var error: Option<Error>
    const lookup: Lookup

    constructor (lookup: Lookup, semantic: Option<Attribute>)
      ensures this.lookup == lookup && currentSemantic == semantic
      ensures entryPointItems == [] && path == [] && error.None?
    {
      this.lookup := lookup;
      currentSemantic := semantic;
      entryPointItems := [];
      path := [];
      error := None;
    }

    predicate HasError()
      reads this
    {
      error.Some?
    }

    /** The failed result carrying the visitor's error. */
    method Error() returns (r: Result<EntryPointItems, Error>)
      requires HasError()
      ensures r == Err(error.value)
    {
      r := Err(error.value);
    }

    /** Moves the items out: the gatherer is left with none. */
    method TakeEntryPointItems() returns (items: seq<EntryPointItem>)
      modifies this
      ensures items == old(entryPointItems) && entryPointItems == []
      ensures currentSemantic == old(currentSemantic) && path == old(path) && error == old(error)
    {
      items := entryPointItems;
      entryPointItems := [];
    }

    /** Clears the current semantic between parameters. */
    method Reset()
      modifies this
      ensures currentSemantic.None?
      ensures entryPointItems == old(entryPointItems) && path == old(path) && error == old(error)
    {
      currentSemantic := None;
    }

    /** The array, named and parameterized type overrides: without a semantic the
        error is set and nothing is recorded; with one, exactly one item with the
        current path and semantic is recorded. Element types are not visited. */
    method VisitType(t: TypeName)
      modifies this
      ensures currentSemantic == old(currentSemantic) && path == old(path)
      ensures old(currentSemantic).None? ==>
        error == Some(MissingSemantic) && entryPointItems == old(entryPointItems)
      ensures old(currentSemantic).Some? ==>
        error == old(error)
        && entryPointItems == old(entryPointItems) + [EntryPointItem(path, ResolvedType(lookup, t), currentSemantic.value)]
    {
      if currentSemantic.None? {
        error := Some(MissingSemantic);
        return;
      }
      var resolved: Option<TypeHandle>;
      match t {
        case ArrayTypeName(_, _) => resolved := None;
        case NamedTypeName(name) => resolved := lookup(name);
        case ParameterizedTypeName(_, _) => resolved := lookup(TypeDecl.ToString(t));
      }
      entryPointItems := entryPointItems + [EntryPointItem(path, resolved, currentSemantic.value)];
    }

    /** checkErrorAndVisit: a type is visited only while there is no error. */
    method CheckErrorAndVisitType(t: TypeName)
      modifies this
      ensures currentSemantic == old(currentSemantic) && path == old(path)
      ensures old(error).Some? ==> error == old(error) && entryPointItems == old(entryPointItems)
      ensures old(error).None? && old(currentSemantic).None? ==>
        error == Some(MissingSemantic) && entryPointItems == old(entryPointItems)
      ensures old(error).None? && old(currentSemantic).Some? ==>
        error.None?
        && entryPointItems == old(entryPointItems) + [EntryPointItem(path, ResolvedType(lookup, t), currentSemantic.value)]
    {
      if !HasError() {
        VisitType(t);
      }
    }

    /** A parameter: its semantic becomes the current one, its name is pushed on
        the path while its type is visited, then popped. */
    method VisitParameter(p: Parameter)
      requires currentSemantic.None?
      modifies this
      ensures currentSemantic == FunctionDecl.MaybeSemantic(p) && path == old(path)
      ensures old(error).Some? ==> error == old(error) && entryPointItems == old(entryPointItems)
      ensures old(error).None? && FunctionDecl.MaybeSemantic(p).None? ==>
        error == Some(MissingSemantic) && entryPointItems == old(entryPointItems)
      ensures old(error).None? && FunctionDecl.MaybeSemantic(p).Some? ==>
        error.None?
        && entryPointItems == old(entryPointItems)
           + [EntryPointItem(old(path) + [p.name], ResolvedType(lookup, p.typeName), FunctionDecl.MaybeSemantic(p).value)]
    {
      var semantic := FunctionDecl.MaybeSemantic(p);
      if semantic.Some? {
        currentSemantic := semantic;
      }
      path := path + [p.name];
      CheckErrorAndVisitType(p.typeName);
      path := path[..|path| - 1];
    }
  }

  /** The input half of gatherEntryPointItems: one gatherer, reset before each
      parameter, visits the parameters in order and stops at the first error. */
  method GatherInputs(lookup: Lookup, parameters: seq<Parameter>) returns (r: Result<seq<EntryPointItem>, Error>)
    ensures AllHaveSemantics(parameters) ==> r == Ok(InputItems(lookup, parameters))
    ensures !AllHaveSemantics(parameters) ==> r == Err(MissingSemantic)
  {
    var inputGatherer := new Gatherer(lookup, None);
    var i := 0;
    while i < |parameters|
      invariant 0 <= i <= |parameters|
      invariant inputGatherer.lookup == lookup && inputGatherer.path == [] && inputGatherer.error.None?
      invariant AllHaveSemantics(parameters[..i])
      invariant inputGatherer.entryPointItems == InputItems(lookup, parameters[..i])
    {
      inputGatherer.Reset();
      inputGatherer.VisitParameter(parameters[i]);
      if inputGatherer.HasError() {
        assert FunctionDecl.MaybeSemantic(parameters[i]).None?;
        var failed := inputGatherer.Error();
        return Err(failed.error);
      }
      assert [] + [parameters[i].name] == [parameters[i].name];
      InputItemsSnoc(lookup, parameters[..i], parameters[i]);
      assert parameters[..i + 1] == parameters[..i] + [parameters[i]];
      i := i + 1;
    }
    assert parameters[..i] == parameters;
    var inputs := inputGatherer.TakeEntryPointItems();
    r := Ok(inputs);
  }

  /** gatherEntryPointItems: the inputs from the parameters; then the output from
      the return type, gathered only for a non-compute stage, under the function's
      return semantic. */
  method GatherEntryPointItems(lookup: Lookup, f: FunctionDeclaration) returns (r: Result<EntryPointItems, Error>)
    requires FunctionDecl.MaybeStage(f).Some?
    ensures r == Gathered(lookup, f)
  {
    var inputs := GatherInputs(lookup, f.parameters);
    if inputs.Err? {
      return Err(inputs.error);
    }
    var outputGatherer := new Gatherer(lookup, FunctionDecl.MaybeReturnSemantic(f));
    if f.maybeReturnType.Some? && FunctionDecl.StageOf(f) != Compute {
      outputGatherer.CheckErrorAndVisitType(f.maybeReturnType.value);
    }
    if outputGatherer.HasError() {
      r := outputGatherer.Error();
      return;
    }
    var outputs := outputGatherer.TakeEntryPointItems();
    if GathersReturnType(f) {
      assert outputs == [] + OutputItems(lookup, f);
    }
    assert outputs == OutputItems(lookup, f);
    GatheredWhenAllHaveSemantics(lookup, f);
    r := Ok(EntryPointItems(inputs.value, outputs));
  }

  /** With every semantic present, the items are the inputs and outputs. */
  lemma GatheredWhenAllHaveSemantics(lookup: Lookup, f: FunctionDeclaration)
    requires FunctionDecl.MaybeStage(f).Some? && AllHaveSemantics(f.parameters)
    requires GathersReturnType(f) ==> FunctionDecl.MaybeReturnSemantic(f).Some?
    ensures Gathered(lookup, f) == Ok(EntryPointItems(InputItems(lookup, f.parameters), OutputItems(lookup, f)))
  {
  }

  // ---------------------------------------------------------------- properties

  /** Some attribute of the list is `@builtin(...)` or `@location(...)`. */
  predicate HasSemanticAttribute(attributes: seq<Attribute>)
  {
    exists a :: a in attributes && FunctionDecl.IsSemantic(a)
  }

  /** Gathering succeeds exactly when every parameter has a `@builtin` or
      `@location` attribute, and so do the return attributes whenever the return
      type is gathered; the only failure is the missing-semantic error. */
  lemma GatheredSucceedsIff(lookup: Lookup, f: FunctionDeclaration)
    requires FunctionDecl.MaybeStage(f).Some?
    ensures Gathered(lookup, f).Ok? <==>
      (forall j :: 0 <= j < |f.parameters| ==> HasSemanticAttribute(f.parameters[j].attributes))
      && (GathersReturnType(f) ==> HasSemanticAttribute(f.returnAttributes))
    ensures Gathered(lookup, f).Err? ==> Gathered(lookup, f).error == MissingSemantic
  {
    forall j | 0 <= j < |f.parameters|
      ensures FunctionDecl.MaybeSemantic(f.parameters[j]).Some? <==> HasSemanticAttribute(f.parameters[j].attributes)
    {
      var s := FunctionDecl.MaybeSemantic(f.parameters[j]);
      if s.Some? {
        assert s.value in f.parameters[j].attributes;
      }
    }
    var s := FunctionDecl.MaybeReturnSemantic(f);
    if s.Some? {
      assert s.value in f.returnAttributes;
    }
  }

  /** One input per parameter, in order: the parameter's name as a one-element
      path, the type looked up for its type name, and its first semantic. */
  lemma GatheredInputs(lookup: Lookup, f: FunctionDeclaration, j: nat)
    requires FunctionDecl.MaybeStage(f).Some? && Gathered(lookup, f).Ok?
    requires j < |f.parameters|
    ensures |Gathered(lookup, f).value.inputs| == |f.parameters|
    ensures var item := Gathered(lookup, f).value.inputs[j];
      item.path == [f.parameters[j].name]
      && item.resolvedType == ResolvedType(lookup, f.parameters[j].typeName)
      && item.semantic in f.parameters[j].attributes && FunctionDecl.IsSemantic(item.semantic)
      && Some(item.semantic) == FunctionDecl.FirstSemantic(f.parameters[j].attributes)
  {
  }

  /** At most one output, present exactly when the return type is gathered, with
      an empty path and a semantic taken from the return attributes. */
  lemma GatheredOutputs(lookup: Lookup, f: FunctionDeclaration)
    requires FunctionDecl.MaybeStage(f).Some? && Gathered(lookup, f).Ok?
    ensures var outputs := Gathered(lookup, f).value.outputs;
      |outputs| <= 1 && (|outputs| == 1 <==> GathersReturnType(f))
      && (|outputs| == 1 ==>
            outputs[0].path == [] && outputs[0].semantic in f.returnAttributes
            && outputs[0].resolvedType == ResolvedType(lookup, f.maybeReturnType.value))
  {
  }

  /** A compute entry point has no outputs, whatever its return type. */
  lemma ComputeHasNoOutputs(lookup: Lookup, f: FunctionDeclaration)
    requires FunctionDecl.MaybeStage(f) == Some(Compute) && Gathered(lookup, f).Ok?
    ensures Gathered(lookup, f).value.outputs == []
  {
  }

  /** The vertex entry point of the trivial graphics shader: one input, the
      `vertex_index` builtin at path ["VertexIndex"], and one output. */
  lemma TrivialVertexEntryPoint(lookup: Lookup, body: seq<Statement>)
    ensures var f := FunctionDeclaration("main", [StageAttribute(Vertex)],
                                         [Parameter("VertexIndex", NamedTypeName("u32"), [BuiltinAttribute("vertex_index")])],
                                         [BuiltinAttribute("position")],
                                         Some(ParameterizedTypeName(Vec4, NamedTypeName("f32"))), body);
      FunctionDecl.MaybeStage(f).Some?
      && Gathered(lookup, f) == Ok(EntryPointItems(
           [EntryPointItem(["VertexIndex"], lookup("u32"), BuiltinAttribute("vertex_index"))],
           [EntryPointItem([], lookup("vec4<f32>"), BuiltinAttribute("position"))]))
  {
    var f := FunctionDeclaration("main", [StageAttribute(Vertex)],
                                 [Parameter("VertexIndex", NamedTypeName("u32"), [BuiltinAttribute("vertex_index")])],
                                 [BuiltinAttribute("position")],
                                 Some(ParameterizedTypeName(Vec4, NamedTypeName("f32"))), body);
    assert f.attributes[0] == StageAttribute(Vertex);
    assert f.parameters[0].attributes[0] == BuiltinAttribute("vertex_index");
    assert f.returnAttributes[0] == BuiltinAttribute("position");
    assert FunctionDecl.MaybeSemantic(f.parameters[0]) == Some(BuiltinAttribute("vertex_index"));
    assert FunctionDecl.MaybeReturnSemantic(f) == Some(BuiltinAttribute("position"));
    TypeDecl.ParameterizedOverF32(Vec4);
    assert TypeDecl.BaseName(Vec4) == "vec4";
    assert "vec4" + "<f32>" == "vec4<f32>";
    var inputs := InputItems(lookup, f.parameters);
    assert inputs == [EntryPointItem(["VertexIndex"], lookup("u32"), BuiltinAttribute("vertex_index"))];
  }

  /** The fragment entry point of the trivial graphics shader: no parameters, so
      no inputs, and one output for its `@location(0)` return type. */
  lemma TrivialFragmentEntryPoint(lookup: Lookup, body: seq<Statement>)
    ensures var f := FunctionDeclaration("main", [StageAttribute(Fragment)], [], [LocationAttribute(0)],
                                         Some(ParameterizedTypeName(Vec4, NamedTypeName("f32"))), body);
      FunctionDecl.MaybeStage(f).Some?
      && Gathered(lookup, f).Ok? && Gathered(lookup, f).value.inputs == []
      && |Gathered(lookup, f).value.outputs| == 1
  {
    var f := FunctionDeclaration("main", [StageAttribute(Fragment)], [], [LocationAttribute(0)],
                                 Some(ParameterizedTypeName(Vec4, NamedTypeName("f32"))), body);
    assert f.attributes[0] == StageAttribute(Fragment);
    assert f.returnAttributes[0] == LocationAttribute(0);
  }
}
