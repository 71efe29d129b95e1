# ImmutableObjectMapper model file, in Dafny

SwiftyJSONAccelerator generates Swift model types from a sample JSON document.
For each model it creates a model file. The host walks the document's
properties in order and hands each one to the model file. This project models
the model file used for the ImmutableObjectMapper library.

For each property, the model file looks at the property's category: value,
value array, object, object array, empty array or null. It then appends
generated source fragments to six ordered sequences in its component:
declarations, description, decoders, encoders, string constants and
initialisers. A null property adds nothing. Every other category adds exactly
one entry to each of the six sequences.

Files:

- `ModelComponents.dfy` holds the values the model file works with: the
  property category, the property record, the construct type, the
  configuration, the component with its six sequences, and the per-property
  `Fragments` record. It also holds `Generators`, the text generators of the
  shared model-file protocol. Their bodies are not part of this model, so
  they are arbitrary functions here.
- `ImmutableObjectMapperModelFile.dfy` holds the model file class and its
  metadata functions. It also holds `GenInitializerForVariable`, whose
  string format is modelled exactly. `FragmentsFor` and `AddComponentsFor`
  are a reference definition stated per category: the array flag, the `Any`
  type for empty arrays, and the description generator. The class method
  `GenerateAndAddComponentsFor` follows the source's switch branch by branch.
  It is proved to produce exactly what the reference definition says.
- `PropertySequence.dfy` states what the component holds after a whole
  sequence of properties. `AddComponentsForAll` stands for the host calling
  `GenerateAndAddComponentsFor` once per property, in document order. It
  folds `AddComponentsFor` over the sequence, because each call of that method
  ends with `component == AddComponentsFor(generators, old(component), property)`.
  The sequences grow by the number of non-null properties. Earlier entries stay as a prefix. The k-th appended entry of
  every sequence comes from the k-th non-null property, counted in document
  order.

Naming: Swift's `type` is a reserved word in Dafny. The model file's field is
therefore `constructType`, and the property's field is `typeName`.

## Model

| member | source | states |
|---|---|---|
| `ModelComponents.EmptyComponent` | Core/Library-Extensions/ImmutableObjectMapperModelFile.swift:23 | a fresh component has all six sequences empty, and so they are aligned |
| `ModelComponents.ModelComponent.Push` | Core/Library-Extensions/ImmutableObjectMapperModelFile.swift:48-88 | appending one property's fragments adds exactly that fragment to the end of each of the six sequences and keeps them aligned |
| `ImmutableObjectMapper.ModuleName` | Core/Library-Extensions/ImmutableObjectMapperModelFile.swift:33-35 | the imported library is `ImmutableObjectMapper` |
| `ImmutableObjectMapper.BaseElementName` | Core/Library-Extensions/ImmutableObjectMapperModelFile.swift:37-39 | the optional base protocol is present and is `ImmutableMappable` |
| `ImmutableObjectMapper.MainBodyTemplateFileName` | Core/Library-Extensions/ImmutableObjectMapperModelFile.swift:41-43 | the template is `ImmutableObjectMapperTemplate` |
| `ImmutableObjectMapper.GenInitializerForVariable` | Core/Library-Extensions/ImmutableObjectMapperModelFile.swift:92-94 | the line assigns `self.<name>` and then does a non-throwing `try? map.value(` lookup of the key constant, closed by `)`; its length is the two names' lengths plus 24 |
| `ImmutableObjectMapper.InitializerInjective` | Core/Library-Extensions/ImmutableObjectMapperModelFile.swift:92-94 | when names contain no space, equal initialiser lines imply equal field names and equal key constants |
| `ImmutableObjectMapper.FragmentsFor` | Core/Library-Extensions/ImmutableObjectMapperModelFile.swift:45-83 | a property yields fragments exactly when its category is not null |
| `ImmutableObjectMapper.AddComponentsFor` | Core/Library-Extensions/ImmutableObjectMapperModelFile.swift:45-88 | a null property leaves the component unchanged; any other adds one entry to every sequence and keeps the old entries as a prefix; alignment is preserved |
| `ImmutableObjectMapper.ArrayFlagByCategory` | Core/Library-Extensions/ImmutableObjectMapperModelFile.swift:48-78 | the declaration and decoder generators get the array flag `true` for value arrays, object arrays and empty arrays, and `false` with the property's own type for values and objects |
| `ImmutableObjectMapper.EmptyArrayIsUntyped` | Core/Library-Extensions/ImmutableObjectMapperModelFile.swift:73-78 | an empty array is declared, decoded and encoded over `"Any"`; its own type name changes nothing that is generated |
| `ImmutableObjectMapper.DescriptionByCategory` | Core/Library-Extensions/ImmutableObjectMapperModelFile.swift:48-78 | the description generator is chosen by category: primitive for values, primitive array for value arrays and empty arrays, object for objects, object array for object arrays |
| `ImmutableObjectMapper.KeyOnlyInStringConstant` | Core/Library-Extensions/ImmutableObjectMapperModelFile.swift:45-88 | the JSON key reaches only the string constant; changing it leaves the declaration, description, decoder, encoder and initialiser unchanged |
| `ImmutableObjectMapper.ImmutableObjectMapperModelFile.constructor` | Core/Library-Extensions/ImmutableObjectMapperModelFile.swift:20-25 | a new model file has an empty file name, the struct construct type, an empty component, an empty-array JSON and no configuration |
| `ImmutableObjectMapper.ImmutableObjectMapperModelFile.SetInfo` | Core/Library-Extensions/ImmutableObjectMapperModelFile.swift:27-31 | sets the file name, takes the construct type from the configuration, stores the configuration, and leaves the component and JSON untouched |
| `ImmutableObjectMapper.ImmutableObjectMapperModelFile.GenerateAndAddComponentsFor` | Core/Library-Extensions/ImmutableObjectMapperModelFile.swift:45-83 | the source's per-branch appends give exactly the reference result: nothing for null, otherwise the property's fragment at the end of each of the six sequences; no other field changes |
| `ImmutableObjectMapper.ImmutableObjectMapperModelFile.GenerateCommonComponentsFor` | Core/Library-Extensions/ImmutableObjectMapperModelFile.swift:85-88 | appends the key constant for (constant name, key) and the initialiser for (name, constant name); the other four sequences are unchanged |
| `PropertySequence.NonNullProperties` | Core/Library-Extensions/ImmutableObjectMapperModelFile.swift:79-80 | every kept property is non-null and from the input, every non-null input is kept, and the result is no longer than the input |
| `PropertySequence.NonNullPropertiesAppend` | Core/Library-Extensions/ImmutableObjectMapperModelFile.swift:79-80 | filtering a concatenation gives the filtered parts in order; with the one-property case this makes the result the non-null properties in document order, duplicates included |
| `PropertySequence.NonNullPropertiesOfOne` | Core/Library-Extensions/ImmutableObjectMapperModelFile.swift:79-80 | a single property is kept exactly when its category is not null |
| `PropertySequence.AddComponentsForAllGrowth` | Core/Library-Extensions/ImmutableObjectMapperModelFile.swift:45-88 | over a sequence of properties, each of the six sequences grows by the number of non-null properties and keeps its earlier entries as a prefix |
| `PropertySequence.AddComponentsForAllEntry` | Core/Library-Extensions/ImmutableObjectMapperModelFile.swift:45-88 | the k-th entry appended to any of the six sequences is that sequence's fragment of the k-th non-null property |
| `PropertySequence.AddComponentsForAllCommonEntries` | Core/Library-Extensions/ImmutableObjectMapperModelFile.swift:85-94 | the k-th appended initialiser and key constant are generated from the k-th non-null property's name, constant name and key |
| `PropertySequence.AddComponentsForAllKeepsAligned` | Core/Library-Extensions/ImmutableObjectMapperModelFile.swift:45-88 | if the six sequences start with equal lengths, they still have equal lengths afterwards, grown by the number of non-null properties |
| `PropertySequence.NullPropertyIsSkipped` | Core/Library-Extensions/ImmutableObjectMapperModelFile.swift:79-80 | from an empty component, the properties [non-null a, null b, non-null d] leave each sequence holding exactly a's fragment and then d's |
| `PropertySequence.IdInitialiser` | Core/Library-Extensions/ImmutableObjectMapperModelFile.swift:48-53 | a value property `id` of type `Int` with constant `idKey` gets the initialiser `self.id = try? map.value(idKey)`, the constant for `("idKey", "id")`, and a non-array declaration and decoder over `Int` |

## Left out

- The bodies of the shared protocol's text generators (variable declaration, decoder, encoder, the four description generators, string constant) are not part of this model. They are the arbitrary functions of `Generators`, so the model says which arguments each receives and not what text it returns.
- `ImmutableObjectMapper.ImmutableObjectMapperModelFile.constructor` takes the generators as an argument. The Swift initialiser takes none, because the generators come from the conformance to the shared protocol.
- The JSON value held in `sourceJSON` belongs to an external JSON library. Here it is the placeholder `Json`, and only the empty array the initialiser stores is built with it.
- `ModelGenerationConfiguration` has only the construct type, the one field this file reads.
- Template rendering, file writing and property-type inference happen in other stages of the generator and are not part of this model. Whether the generated Swift compiles is not modelled either.
- The Swift model file is a struct with value semantics and `mutating` methods; the model makes it a class with reference semantics. Nothing in this file copies a model file, so no behaviour is lost, but copying a model file and mutating the copy independently is not modelled.
- Within one branch, the source appends to the six sequences in slightly different orders. Each append goes to a different sequence, so the order cannot be observed in the final component. The model proves the final state only.
