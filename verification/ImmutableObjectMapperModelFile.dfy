/** The model file for the ImmutableObjectMapper library: for each property
    of a model it generates the declaration, description, decoder, encoder,
    key constant and initialiser, and appends them to its component. */
module ImmutableObjectMapper {
  import opened ModelComponents

  /** Name of the library the generated file imports. */
  function ModuleName(): (r: string)
    ensures r == "ImmutableObjectMapper"
  {
    "ImmutableObjectMapper"
  }

  /** The protocol every generated model conforms to; this library has one. */
  function BaseElementName(): (r: Option<string>)
    ensures r.Some? && r.value == "ImmutableMappable"
  {
    Some("ImmutableMappable")
  }

  /** Template the renderer fills with the generated fragments. */
  function MainBodyTemplateFileName(): (r: string)
    ensures r == "ImmutableObjectMapperTemplate"
  {
    "ImmutableObjectMapperTemplate"
  }

  /** The initialiser line: assigns the field `name` the value found under the
      key constant, with a non-throwing `try?` lookup so that a missing or
      mistyped value leaves the field nil instead of failing the whole map. */
  function GenInitializerForVariable(name: string, constantName: string): (r: string)
    ensures |r| == |name| + |constantName| + 24
    ensures r[..5 + |name|] == "self." + name
    ensures r[5 + |name|..23 + |name|] == " = try? map.value("
    ensures r[23 + |name|..] == constantName + ")"
  {
    var r := "self." + name + " = try? map.value(" + constantName + ")";
    assert r == ("self." + name) + " = try? map.value(" + (constantName + ")");
    r
  }

  /** The character right after the field name is a space. */
  lemma SpaceEndsFieldName(name: string, constantName: string)
    ensures |GenInitializerForVariable(name, constantName)| > 5 + |name|
    ensures GenInitializerForVariable(name, constantName)[5 + |name|] == ' '
  {
  }

  /** Two properties whose names contain no space never share an initialiser
      line: the line determines both the field and the key constant. */
  lemma {:induction false} InitializerInjective(name1: string, constantName1: string, name2: string, constantName2: string)
    requires ' ' !in name1 && ' ' !in name2
    requires GenInitializerForVariable(name1, constantName1) == GenInitializerForVariable(name2, constantName2)
    ensures name1 == name2 && constantName1 == constantName2
  {
    var r := GenInitializerForVariable(name1, constantName1);
    assert r == GenInitializerForVariable(name2, constantName2);
    // The first space after "self." ends the field name.
    if |name1| < |name2| {
      SpaceEndsFieldName(name1, constantName1);
      assert false;
    } else if |name2| < |name1| {
      SpaceEndsFieldName(name2, constantName2);
      assert false;
    }
    assert "self." + name1 == "self." + name2;
    assert name1 == ("self." + name1)[5..];
    assert name2 == ("self." + name2)[5..];
    assert constantName1 + ")" == constantName2 + ")";
    assert constantName1 == (constantName1 + ")")[..|constantName1|];
    assert constantName2 == (constantName2 + ")")[..|constantName2|];
  }

  /** The categories whose declaration and decoder are generated for an array. */
  predicate IsArrayCategory(t: PropertyType) {
    t.ValueTypeArray? || t.ObjectTypeArray? || t.EmptyArray?
  }

  /** The type handed to the declaration, decoder and encoder generators:
      an empty array has no element type, so it is declared over `Any`. */
  function TypeArgument(p: PropertyComponent): string {
    if p.propertyType.EmptyArray? then "Any" else p.typeName
  }

  /** The description line; it is chosen by the category alone. */
  function DescriptionFor(g: Generators, p: PropertyComponent): string
    requires !p.propertyType.NullType?
  {
    match p.propertyType
    case ValueType => g.descriptionForPrimitive(p.name, p.typeName, p.constantName)
    case ValueTypeArray => g.descriptionForPrimitiveArray(p.name, p.constantName)
    case EmptyArray => g.descriptionForPrimitiveArray(p.name, p.constantName)
    case ObjectType => g.descriptionForObject(p.name, p.constantName)
    case ObjectTypeArray => g.descriptionForObjectArray(p.name, p.constantName)
  }

  /** What one property contributes to the component, stated per category
      rather than per branch: None for a null property, otherwise one
      fragment for each of the six sequences. */
  function FragmentsFor(g: Generators, p: PropertyComponent): (r: Option<Fragments>)
    ensures r.None? <==> p.propertyType.NullType?
  {
    if p.propertyType.NullType? then None
    else
      var isArray := IsArrayCategory(p.propertyType);
      Some(Fragments(
        g.variableDeclaration(p.name, TypeArgument(p), isArray),
        DescriptionFor(g, p),
        g.decoder(p.name, TypeArgument(p), p.constantName, isArray),
        g.encoder(p.name, TypeArgument(p), p.constantName),
        g.stringConstant(p.constantName, p.key),
        GenInitializerForVariable(p.name, p.constantName)))
  }

  /** The component after one property has been processed. */
  function AddComponentsFor(g: Generators, c: ModelComponent, p: PropertyComponent): (r: ModelComponent)
    ensures p.propertyType.NullType? ==> r == c
    ensures forall column ::
      && |r.Entries(column)| == |c.Entries(column)| + (if p.propertyType.NullType? then 0 else 1)
      && r.Entries(column)[..|c.Entries(column)|] == c.Entries(column)
    ensures c.Aligned() ==> r.Aligned()
  {
    match FragmentsFor(g, p)
    case None => c
    case Some(f) => c.Push(f)
  }

  /** The array flag given to the declaration and decoder generators. */
  lemma ArrayFlagByCategory(g: Generators, p: PropertyComponent)
    requires !p.propertyType.NullType?
    ensures var f := FragmentsFor(g, p).value;
      (p.propertyType in {ValueTypeArray, ObjectTypeArray, EmptyArray} ==>
        && f.declaration == g.variableDeclaration(p.name, TypeArgument(p), true)
        && f.decoder == g.decoder(p.name, TypeArgument(p), p.constantName, true))
      && (p.propertyType in {ValueType, ObjectType} ==>
        && f.declaration == g.variableDeclaration(p.name, p.typeName, false)
        && f.decoder == g.decoder(p.name, p.typeName, p.constantName, false))
  {
  }

  /** An empty array is declared, decoded and encoded over `Any`, and its own
      type name has no effect on anything generated for it. */
  lemma EmptyArrayIsUntyped(g: Generators, p: PropertyComponent, otherType: string)
    requires p.propertyType.EmptyArray?
    ensures var f := FragmentsFor(g, p).value;
      && f.declaration == g.variableDeclaration(p.name, "Any", true)
      && f.decoder == g.decoder(p.name, "Any", p.constantName, true)
      && f.encoder == g.encoder(p.name, "Any", p.constantName)
    ensures FragmentsFor(g, p.(typeName := otherType)) == FragmentsFor(g, p)
  {
  }

  /** The description generator used for each category. */
  lemma DescriptionByCategory(g: Generators, p: PropertyComponent)
    requires !p.propertyType.NullType?
    ensures var d := FragmentsFor(g, p).value.description;
      && (p.propertyType.ValueType? ==> d == g.descriptionForPrimitive(p.name, p.typeName, p.constantName))
      && (p.propertyType in {ValueTypeArray, EmptyArray} ==> d == g.descriptionForPrimitiveArray(p.name, p.constantName))
      && (p.propertyType.ObjectType? ==> d == g.descriptionForObject(p.name, p.constantName))
      && (p.propertyType.ObjectTypeArray? ==> d == g.descriptionForObjectArray(p.name, p.constantName))
  {
  }

  /** The JSON key reaches only the key constant: decoders and encoders refer
      to the constant's name, so changing the key changes nothing else. */
  lemma KeyOnlyInStringConstant(g: Generators, p: PropertyComponent, otherKey: string)
    requires !p.propertyType.NullType?
    ensures var f, h := FragmentsFor(g, p).value, FragmentsFor(g, p.(key := otherKey)).value;
      && f.stringConstant == g.stringConstant(p.constantName, p.key)
      && h == f.(stringConstant := g.stringConstant(p.constantName, otherKey))
  {
  }

  /** The model file itself. The generators of the shared protocol are fixed
      for its lifetime, so they are a constant given at construction. */
  class ImmutableObjectMapperModelFile {
    const generators: Generators
    var fileName: string
    var constructType: ConstructType
    var component: ModelComponent
    var sourceJSON: Json
    var configuration: Option<ModelGenerationConfiguration>

    constructor (generators: Generators)
      ensures this.generators == generators
      ensures fileName == "" && constructType == StructType
      ensures component == EmptyComponent()
      ensures sourceJSON == JsonArray([]) && configuration == None
    {
      this.generators := generators;
      fileName := "";
      constructType := StructType;
      component := ModelComponent([], [], [], [], [], []);
      sourceJSON := JsonArray([]);
      configuration := None;
    }

    method SetInfo(fileName: string, configuration: ModelGenerationConfiguration)
      modifies this`fileName, this`constructType, this`configuration
      ensures this.fileName == fileName
      ensures constructType == configuration.constructType
      ensures this.configuration == Some(configuration)
      ensures component == old(component) && sourceJSON == old(sourceJSON)
    {
      this.fileName := fileName;
      constructType := configuration.constructType;
      this.configuration := Some(configuration);
    }

    /** Dispatches on the category: a null property adds nothing; every other
        category adds one entry at the end of each of the six sequences. */
    method GenerateAndAddComponentsFor(property: PropertyComponent)
      modifies this`component
      ensures component == AddComponentsFor(generators, old(component), property)
      ensures property.propertyType.NullType? ==> component == old(component)
      ensures !property.propertyType.NullType? ==> forall column ::
        component.Entries(column) == old(component).Entries(column) + [FragmentsFor(generators, property).value.At(column)]
    {
      var p := property;
      match p.propertyType
      case ValueType =>
        component := component.(declarations := component.declarations + [generators.variableDeclaration(p.name, p.typeName, false)]);
        component := component.(description := component.description + [generators.descriptionForPrimitive(p.name, p.typeName, p.constantName)]);
        component := component.(decoders := component.decoders + [generators.decoder(p.name, p.typeName, p.constantName, false)]);
        component := component.(encoders := component.encoders + [generators.encoder(p.name, p.typeName, p.constantName)]);
        GenerateCommonComponentsFor(p);
      case ValueTypeArray =>
        component := component.(description := component.description + [generators.descriptionForPrimitiveArray(p.name, p.constantName)]);
        component := component.(declarations := component.declarations + [generators.variableDeclaration(p.name, p.typeName, true)]);
        component := component.(decoders := component.decoders + [generators.decoder(p.name, p.typeName, p.constantName, true)]);
        component := component.(encoders := component.encoders + [generators.encoder(p.name, p.typeName, p.constantName)]);
        GenerateCommonComponentsFor(p);
      case ObjectType =>
        component := component.(description := component.description + [generators.descriptionForObject(p.name, p.constantName)]);
        component := component.(declarations := component.declarations + [generators.variableDeclaration(p.name, p.typeName, false)]);
        component := component.(decoders := component.decoders + [generators.decoder(p.name, p.typeName, p.constantName, false)]);
        component := component.(encoders := component.encoders + [generators.encoder(p.name, p.typeName, p.constantName)]);
        GenerateCommonComponentsFor(p);
      case ObjectTypeArray =>
        component := component.(declarations := component.declarations + [generators.variableDeclaration(p.name, p.typeName, true)]);
        component := component.(description := component.description + [generators.descriptionForObjectArray(p.name, p.constantName)]);
        component := component.(decoders := component.decoders + [generators.decoder(p.name, p.typeName, p.constantName, true)]);
        component := component.(encoders := component.encoders + [generators.encoder(p.name, p.typeName, p.constantName)]);
        GenerateCommonComponentsFor(p);
      case EmptyArray =>
        component := component.(declarations := component.declarations + [generators.variableDeclaration(p.name, "Any", true)]);
        component := component.(description := component.description + [generators.descriptionForPrimitiveArray(p.name, p.constantName)]);
        component := component.(decoders := component.decoders + [generators.decoder(p.name, "Any", p.constantName, true)]);
        component := component.(encoders := component.encoders + [generators.encoder(p.name, "Any", p.constantName)]);
        GenerateCommonComponentsFor(p);
      case NullType =>
        // null values are not handled: nothing is generated
    }

    /** Appends the key constant and the initialiser, which every non-null
        category shares; the other four sequences are left as they are. */
    method GenerateCommonComponentsFor(property: PropertyComponent)
      modifies this`component
      ensures component == old(component).(
        stringConstants := old(component.stringConstants) + [generators.stringConstant(property.constantName, property.key)],
        initialisers := old(component.initialisers) + [GenInitializerForVariable(property.name, property.constantName)])
    {
      component := component.(stringConstants := component.stringConstants + [generators.stringConstant(property.constantName, property.key)]);
      component := component.(initialisers := component.initialisers + [GenInitializerForVariable(property.name, property.constantName)]);
    }
  }
}
