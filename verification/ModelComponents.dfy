/** The values a model file works with. They are declared elsewhere in the
    generator (the property classifier, the shared model-file protocol and
    its configuration); here they are plain datatypes. */
module ModelComponents {

  datatype Option<+T> = None | Some(value: T)

  /** The category the property classifier gives one JSON value. */
  datatype PropertyType =
    | ValueType        // a scalar: string, number, boolean
    | ValueTypeArray   // an array of scalars
    | ObjectType       // a nested object, generated as a model of its own
    | ObjectTypeArray  // an array of nested objects
    | EmptyArray       // an array seen with no element, so no element type is known
    | NullType         // a null value: no type can be inferred

  /** One property discovered in the sample document.
      `typeName` is the Swift `type` field (a reserved word in Dafny): the
      scalar type, or the element or object type for the other categories. */
  datatype PropertyComponent = PropertyComponent(
    name: string,
    typeName: string,
    constantName: string,
    key: string,
    propertyType: PropertyType)

  /** Whether the generated model is a struct or a class. */
  datatype ConstructType = ClassType | StructType

  /** The generation settings; only the construct type is read by a model file. */
  datatype ModelGenerationConfiguration = ModelGenerationConfiguration(constructType: ConstructType)

  /** Stand-in for the JSON library's value type; a model file only ever
      builds the empty array with it. */
  datatype Json = JsonArray(elements: seq<Json>)

  /** Names the six parallel sequences of a ModelComponent. */
  datatype Column =
    | Declarations | Description | Decoders | Encoders | StringConstants | Initialisers

  /** The fragments generated so far for one model file, one sequence per kind. */
  datatype ModelComponent = ModelComponent(
    declarations: seq<string>,
    description: seq<string>,
    decoders: seq<string>,
    encoders: seq<string>,
    stringConstants: seq<string>,
    initialisers: seq<string>)
  {
    function Entries(column: Column): seq<string> {
      match column
      case Declarations => declarations
      case Description => description
      case Decoders => decoders
      case Encoders => encoders
      case StringConstants => stringConstants
      case Initialisers => initialisers
    }

    /** The six sequences have one entry per processed property each. */
    predicate Aligned() {
      && |description| == |declarations|
      && |decoders| == |declarations|
      && |encoders| == |declarations|
      && |stringConstants| == |declarations|
      && |initialisers| == |declarations|
    }

    /** Appends one property's fragments, each to the end of its own sequence. */
    function Push(f: Fragments): (r: ModelComponent)
      ensures forall column :: r.Entries(column) == Entries(column) + [f.At(column)]
      ensures Aligned() ==> r.Aligned()
    {
      ModelComponent(
        declarations + [f.declaration],
        description + [f.description],
        decoders + [f.decoder],
        encoders + [f.encoder],
        stringConstants + [f.stringConstant],
        initialisers + [f.initialiser])
    }
  }

  /** The component a new model file starts with. */
  function EmptyComponent(): (c: ModelComponent)
    ensures forall column :: c.Entries(column) == []
    ensures c.Aligned()
  {
    ModelComponent([], [], [], [], [], [])
  }

  /** Everything generated for one property: one entry per Column. */
  datatype Fragments = Fragments(
    declaration: string,
    description: string,
    decoder: string,
    encoder: string,
    stringConstant: string,
    initialiser: string)
  {
    function At(column: Column): string {
      match column
      case Declarations => declaration
      case Description => description
      case Decoders => decoder
      case Encoders => encoder
      case StringConstants => stringConstant
      case Initialisers => initialiser
    }
  }

  /** The text generators a model file inherits from the shared model-file
      protocol. Their output text is defined outside this model, so they are
      arbitrary functions here, and every property of the model file is
      stated in terms of the arguments it passes them. */
  datatype Generators = Generators(
    // (name, type, isArray)
    variableDeclaration: (string, string, bool) -> string,
    // (name, type, constantName)
    descriptionForPrimitive: (string, string, string) -> string,
    // (name, constantName)
    descriptionForPrimitiveArray: (string, string) -> string,
    descriptionForObject: (string, string) -> string,
    descriptionForObjectArray: (string, string) -> string,
    // (name, type, constantName, isArray)
    decoder: (string, string, string, bool) -> string,
    // (name, type, constantName)
    encoder: (string, string, string) -> string,
    // (constantName, key)
    stringConstant: (string, string) -> string)
}
