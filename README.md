# dsl-builder processor model

This project models the decisions made by the `GenerateBuilderProcessor`. That processor is a Kotlin Symbol Processing (KSP) processor. It generates a type-safe DSL builder class for every class annotated with `@GenerateBuilder`. The decisions modelled are:

- **Class and builder names.** A class nested once is named through its enclosing class. A builder is named `<Outer><Class>Builder` and lives in the class's package.
- **Parameter classification.** Each primary-constructor parameter becomes one of:
  - a dynamic-value parameter, which gets a plain property and two installer functions;
  - a `List`/`Set` parameter, which gets a private mutable collection and a function opening the shared multi-item builder of its element class;
  - a plain nullable property, which every parameter without a collection type also gets.
- **Collection-builder registry.** It holds one multi-item builder per element class. Builders for `kotlin.*` classes are relocated under `com.nicholasnassar.dslbuilder.kotlin`. The first requester fixes the element type of the entry, and every requester's file becomes a dependency.
- **Multi-item builders.** For each registry entry, `finish` writes a builder holding the collection it is handed. Its item type is the registered element type when the element class has no type parameters. For a generic element class, it is that class applied to its own type variables, whatever arguments the first requester used; a generic class registered without arguments stops the processor. The builder has a function adding an item, one appending function per fitting subtype of the element class (named by the subtype alone), and one opening the element class's own builder when that class is annotated.
- **`build` plan.** A `require` is emitted for each non-nullable parameter without a default. A default assignment (wrapped for dynamic values) is emitted for each one that has a default. Then comes the constructor call, with `!!` on the non-nullable arguments. A small evaluation semantics of that plan states what the generated `build` does with the values a user set.
- **Companion getter.** Each builder's companion `getImmediateDynamicValues` reads the dynamic-value parameters of the annotated class.
- **Subtype index.** Visiting a class appends it under every direct and transitive supertype, in the order the processor walks them.
- **Subtype delegation.** For a parameter whose type has annotated subtypes, the processor decides which subtypes fit. This includes the receiver-type computation with its variance rules and its rejection test. It then decides which builder functions `finish` adds, and their names.

The processor's state is the class `Processor.Processor`. It holds the three maps the processor mutates: the subtype index, the builders to write, and the collection builders to generate. Its methods follow the source's loops. Each is proved against a specification function, and the lemmas beside those functions state what the source promises.

Type names are an abstract datatype standing for KotlinPoet's: a class, a parameterized class, a type variable, or a wildcard. Two type names are equal as KotlinPoet's are, by the text they render to; a type variable renders as its name alone, so two type variables of the same name are equal whatever their bounds and variance. A type variable declared without a bound is bounded by `Any?`, the default KotlinPoet gives it. The symbol table is an input value (`SubtypeIndex.Facts`) that gives:

- each class's declared supertypes;
- the set of all supertypes, by qualified name;
- the declared variances of type parameters;
- an inheritance depth. The compiler guarantees the inheritance graph is acyclic, and the depth makes that explicit.

## Model

| member | source | states |
|---|---|---|
| Names.ClassName.TopLevel | processor/src/main/kotlin/com/nicholasnassar/dslbuilder/GenerateBuilderProcessor.kt:791 | the top-level class of a name is itself exactly when the name is not nested |
| Names.AsNullable | processor/src/main/kotlin/com/nicholasnassar/dslbuilder/GenerateBuilderProcessor.kt:563-567 | the nullable copy of a type is nullable, of the same kind, and differs from the type in nullability only |
| Names.Capitalize | processor/src/main/kotlin/com/nicholasnassar/dslbuilder/GenerateBuilderProcessor.kt:235 | only the first character changes: a lower-case letter becomes the matching upper-case letter, and nothing changes when it is not lower-case |
| Names.Decapitalize | processor/src/main/kotlin/com/nicholasnassar/dslbuilder/GenerateBuilderProcessor.kt:234 | only the first character changes: an upper-case letter becomes the matching lower-case letter, and nothing changes when it is not upper-case |
| Names.CapitalizeRoundTrip | processor/src/main/kotlin/com/nicholasnassar/dslbuilder/GenerateBuilderProcessor.kt:234-235 | decapitalising a capitalised name that starts with a lower-case letter gives it back, and the other way round |
| Names.EffectiveBounds | processor/src/main/kotlin/com/nicholasnassar/dslbuilder/GenerateBuilderProcessor.kt:438-446 | a type variable declared without a bound is bounded by `Any?` (KotlinPoet's default); declared bounds are kept |
| Names.StarIsNotAny | processor/src/main/kotlin/com/nicholasnassar/dslbuilder/GenerateBuilderProcessor.kt:196 | a star-projection slot is not the type name `Any`, so a receiver with one is kept |
| Naming.DeclaredClassName | processor/src/main/kotlin/com/nicholasnassar/dslbuilder/GenerateBuilderProcessor.kt:759-776 | a declaration's class name is in its package and is nested in its parent exactly when it has one |
| Naming.BuilderClassNameShape | processor/src/main/kotlin/com/nicholasnassar/dslbuilder/GenerateBuilderProcessor.kt:789-797 | a builder is top-level in its class's package and is named by the (outer and) simple name followed by `Builder` |
| Naming.BuilderClassNameInjective | processor/src/main/kotlin/com/nicholasnassar/dslbuilder/GenerateBuilderProcessor.kt:789-797 | distinct top-level classes get distinct builders |
| Naming.BuilderClassNameCollision | processor/src/main/kotlin/com/nicholasnassar/dslbuilder/GenerateBuilderProcessor.kt:789-797 | a nested `Outer.Inner` and a top-level `OuterInner` of one package get the same builder `OuterInnerBuilder` |
| Naming.MultiBuilderNameShape | processor/src/main/kotlin/com/nicholasnassar/dslbuilder/GenerateBuilderProcessor.kt:569-579 | the multi-item builder is top-level and named `<simple>sBuilder`; a `kotlin` package (the package itself or one below it) has its leading `kotlin` relocated, any other package is kept |
| Naming.MultiBuilderNameInjective | processor/src/main/kotlin/com/nicholasnassar/dslbuilder/GenerateBuilderProcessor.kt:569-579 | distinct top-level element classes outside the relocation target get distinct multi-item builders |
| Naming.SubtypeFunctionNameSpec | processor/src/main/kotlin/com/nicholasnassar/dslbuilder/GenerateBuilderProcessor.kt:234-241 | the function name starts with the decapitalised subtype name and ends with the capitalised parameter name, which is appended exactly when it is not already there |
| Naming.SubtypeFunctionNameCollision | processor/src/main/kotlin/com/nicholasnassar/dslbuilder/GenerateBuilderProcessor.kt:234-241 | the rule can give two subtypes the same function name (`Red` and `RedShape` for `shape`) |
| Naming.StaticPropertyName | processor/src/main/kotlin/com/nicholasnassar/dslbuilder/GenerateBuilderProcessor.kt:626 | the plain property's name with `DynamicValue` appended is the parameter name |
| Naming.RollingFunctionName | processor/src/main/kotlin/com/nicholasnassar/dslbuilder/GenerateBuilderProcessor.kt:646-650 | the rolling installer is `rolling` followed by the capitalised plain property name |
| Classify.DynamicAccessors | processor/src/main/kotlin/com/nicholasnassar/dslbuilder/GenerateBuilderProcessor.kt:625-653 | a parameter gets the dynamic-value property and functions exactly when its name and type mark it dynamic, with the names, value type and adapters the source uses |
| Classify.BackingStorageUnique | processor/src/main/kotlin/com/nicholasnassar/dslbuilder/GenerateBuilderProcessor.kt:656-669 | every parameter gets exactly one backing property, named after it, dynamic-value parameters included |
| Classify.BackingStorageShape | processor/src/main/kotlin/com/nicholasnassar/dslbuilder/GenerateBuilderProcessor.kt:547-567 | a `List`/`Set` parameter's backing property is a private `MutableList`/`MutableSet` of its element type initialised empty; any other is a nullable property |
| Classify.CollectionFunctionFor | processor/src/main/kotlin/com/nicholasnassar/dslbuilder/GenerateBuilderProcessor.kt:581-613 | exactly collection parameters get a function named like the parameter that opens the multi-item builder of the element class |
| Receiver.IndexOfName | processor/src/main/kotlin/com/nicholasnassar/dslbuilder/GenerateBuilderProcessor.kt:97-98 | the first builder type variable with the given name, or -1 when there is none |
| Receiver.StarSlots | processor/src/main/kotlin/com/nicholasnassar/dslbuilder/GenerateBuilderProcessor.kt:76-77 | one star-projection slot per builder type variable |
| Receiver.BoundAt | processor/src/main/kotlin/com/nicholasnassar/dslbuilder/GenerateBuilderProcessor.kt:94-120 | the bound a position is checked against, when its declared argument is not the same type name as the subtype's, is always a class, and `Any?` for a type variable declared without a bound |
| Receiver.Step | processor/src/main/kotlin/com/nicholasnassar/dslbuilder/GenerateBuilderProcessor.kt:79-134 | one position never changes the number of slots, and changes no slot but the one it writes |
| Receiver.ReceiverTypeArguments | processor/src/main/kotlin/com/nicholasnassar/dslbuilder/GenerateBuilderProcessor.kt:76-136 | a result, when there is one, has one slot per builder type variable |
| Receiver.ExcludedIff | processor/src/main/kotlin/com/nicholasnassar/dslbuilder/GenerateBuilderProcessor.kt:123-131 | the subtype is rejected exactly when some position's bound is neither the same type name as the subtype's argument nor one of that class's supertypes |
| Receiver.EqualArgumentsKeepStars | processor/src/main/kotlin/com/nicholasnassar/dslbuilder/GenerateBuilderProcessor.kt:93 | when every declared argument is the same type name as the subtype's (type variables compared by name only, as KotlinPoet compares rendered text), nothing is rejected and every slot stays a star projection |
| Receiver.UnwrittenSlotIsStar | processor/src/main/kotlin/com/nicholasnassar/dslbuilder/GenerateBuilderProcessor.kt:76-77 | a slot no differing type-variable position writes stays a star projection |
| Receiver.LastWriteWins | processor/src/main/kotlin/com/nicholasnassar/dslbuilder/GenerateBuilderProcessor.kt:100-106 | a slot holds the subtype's argument projected `out` (contravariant), `in` (covariant) or bare, as written by the last position naming its variable |
| Receiver.HandlePosition | processor/src/main/kotlin/com/nicholasnassar/dslbuilder/GenerateBuilderProcessor.kt:79-134 | one pass of the loop computes exactly the specified step: positions of the same type name change nothing, any other type-variable position writes its slot (every type variable has a bound), and a bound outside the argument's supertypes rejects |
| Receiver.HandleReceiverType | processor/src/main/kotlin/com/nicholasnassar/dslbuilder/GenerateBuilderProcessor.kt:71-137 | the loop computes the slots position by position and returns none exactly when some position rejects the subtype |
| SubtypeIndex.AddAllContents | processor/src/main/kotlin/com/nicholasnassar/dslbuilder/GenerateBuilderProcessor.kt:802-820 | after a visit every list is its old contents followed by the visited class once per time its key is reached; the keys are the old ones and the ones reached |
| SubtypeIndex.AppendOnly | processor/src/main/kotlin/com/nicholasnassar/dslbuilder/GenerateBuilderProcessor.kt:817 | visiting never removes or reorders anything in the index |
| SubtypeIndex.AddAllConcat | processor/src/main/kotlin/com/nicholasnassar/dslbuilder/GenerateBuilderProcessor.kt:802-820 | appending along two key lists is appending along their concatenation |
| SubtypeIndex.AddAllMembers | processor/src/main/kotlin/com/nicholasnassar/dslbuilder/GenerateBuilderProcessor.kt:817 | a visit adds no class but the visited one |
| SubtypeIndex.SuperKeysSnoc | processor/src/main/kotlin/com/nicholasnassar/dslbuilder/GenerateBuilderProcessor.kt:802-820 | walking a list of supertype references and then one more reaches the list's keys followed by that reference's keys |
| SubtypeIndex.DirectSupertypesRecorded | processor/src/main/kotlin/com/nicholasnassar/dslbuilder/GenerateBuilderProcessor.kt:803-817 | the raw class of every direct supertype reference is a key reached |
| SubtypeIndex.SupertypesClosed | processor/src/main/kotlin/com/nicholasnassar/dslbuilder/GenerateBuilderProcessor.kt:806-808 | the keys reached are closed under declared supertypes, so a class is recorded under every transitive supertype |
| Registry.RegisterAllConsistent | processor/src/main/kotlin/com/nicholasnassar/dslbuilder/GenerateBuilderProcessor.kt:594-596 | every registered builder stays filed under the multi-item builder name of its element class, which is its element type's class |
| Registry.RegisterAllExisting | processor/src/main/kotlin/com/nicholasnassar/dslbuilder/GenerateBuilderProcessor.kt:594-597 | a builder exists after registration exactly when it existed or was requested; an existing one keeps its element type and gains the requesting files |
| Registry.FirstRequesterWins | processor/src/main/kotlin/com/nicholasnassar/dslbuilder/GenerateBuilderProcessor.kt:594-597 | a new builder takes the element type of its first request and depends on exactly the files that requested it |
| BuildFunction.GenerateBuildFunction | processor/src/main/kotlin/com/nicholasnassar/dslbuilder/GenerateBuilderProcessor.kt:702-749 | the two loops produce the plan: one statement per non-nullable parameter in order, one constructor argument per parameter with `!!` on the non-nullable ones, and the class applied to its type variables as return type |
| BuildFunction.ExecStep | processor/src/main/kotlin/com/nicholasnassar/dslbuilder/GenerateBuilderProcessor.kt:707-722 | a required parameter that was not set stops `build` with its message; any other parameter has its default filled in and the rest run |
| BuildFunction.ExecContinues | processor/src/main/kotlin/com/nicholasnassar/dslbuilder/GenerateBuilderProcessor.kt:707-722 | the statements run through exactly when every required parameter is set, and then every default has been substituted |
| BuildFunction.ExecStops | processor/src/main/kotlin/com/nicholasnassar/dslbuilder/GenerateBuilderProcessor.kt:707-722 | when the statements stop, it is at the first required parameter not set, with that parameter's message |
| BuildFunction.ExecStatements | processor/src/main/kotlin/com/nicholasnassar/dslbuilder/GenerateBuilderProcessor.kt:707-722 | the statements stop at the first required parameter not set, with `<name> cannot be null!`, and otherwise substitute every default |
| BuildFunction.WithDefaultsLookup | processor/src/main/kotlin/com/nicholasnassar/dslbuilder/GenerateBuilderProcessor.kt:715-721 | after the defaults each parameter holds its set value, else its default (wrapped for dynamic values) if non-nullable, else null |
| BuildFunction.CallAllSet | processor/src/main/kotlin/com/nicholasnassar/dslbuilder/GenerateBuilderProcessor.kt:724-736 | with every `!!` argument set, the constructor receives each property's value in order |
| BuildFunction.BuildOutcome | processor/src/main/kotlin/com/nicholasnassar/dslbuilder/GenerateBuilderProcessor.kt:702-749 | the generated `build` never dereferences null, builds exactly when every required parameter is set, passes each parameter its expected value, and otherwise fails naming the first missing one |
| Delegation.RawOf | processor/src/main/kotlin/com/nicholasnassar/dslbuilder/GenerateBuilderProcessor.kt:143-151 | the raw class of a class or parameterized type |
| Delegation.FirstNaming | processor/src/main/kotlin/com/nicholasnassar/dslbuilder/GenerateBuilderProcessor.kt:161-166 | the first supertype reference naming the class, and none exactly when no reference names it |
| Delegation.SubtypeInfosConcat | processor/src/main/kotlin/com/nicholasnassar/dslbuilder/GenerateBuilderProcessor.kt:155-199 | subtypes are examined independently and the survivors keep the index order |
| Delegation.SubtypeInfosStep | processor/src/main/kotlin/com/nicholasnassar/dslbuilder/GenerateBuilderProcessor.kt:155-197 | examining one more subtype extends the survivors by that subtype's own result |
| Delegation.SubtypeInfosSound | processor/src/main/kotlin/com/nicholasnassar/dslbuilder/GenerateBuilderProcessor.kt:155-199 | every survivor is a recorded subtype that fits, carrying its own builder and the receiver its fit calls for |
| Delegation.SubtypeInfosComplete | processor/src/main/kotlin/com/nicholasnassar/dslbuilder/GenerateBuilderProcessor.kt:155-199 | every recorded subtype that fits survives |
| Delegation.SubtypeInfosSpec | processor/src/main/kotlin/com/nicholasnassar/dslbuilder/GenerateBuilderProcessor.kt:155-199 | the survivors are exactly the fitting subtypes, each with its own builder and the receiver its fit calls for |
| Delegation.ClassTypeKeepsAll | processor/src/main/kotlin/com/nicholasnassar/dslbuilder/GenerateBuilderProcessor.kt:189-191 | for a type without type arguments every recorded subtype survives, in order, without a receiver |
| Delegation.FitSpec | processor/src/main/kotlin/com/nicholasnassar/dslbuilder/GenerateBuilderProcessor.kt:170-196 | a subtype is dropped exactly when its direct reference exists and some position rejects it; otherwise its receiver is the computed slots, or none when every slot is `Any` or there is no direct parameterized reference; a receiver has one slot per type variable |
| Delegation.MatchingArgumentsFit | processor/src/main/kotlin/com/nicholasnassar/dslbuilder/GenerateBuilderProcessor.kt:170-187 | a subtype passing the same type names as the parameter's type arguments (a type variable of the same name whatever its bounds and variance) fits, with all-star receiver slots |
| Delegation.SameNamedVariableFits | processor/src/main/kotlin/com/nicholasnassar/dslbuilder/GenerateBuilderProcessor.kt:93 | `Circle<T : Number>` extending `Shape<T>` fits a parameter `Shape<T>` of a builder for `Holder<out T>`, with a star-projection receiver |
| Delegation.UnboundedVariableTakesArgument | processor/src/main/kotlin/com/nicholasnassar/dslbuilder/GenerateBuilderProcessor.kt:94-130 | `Square` extending `Shape<Int>` fits a parameter `Shape<T>` with `T` declared without a bound, and its receiver takes `Int` for `T` |
| Delegation.NonNullAnyArgumentDropped | processor/src/main/kotlin/com/nicholasnassar/dslbuilder/GenerateBuilderProcessor.kt:94-130 | `Anything` extending `Shape<Any>` is dropped for the same parameter, because `T`'s bound `Any?` is neither `Any` nor a supertype of it |
| Delegation.FinishShape | processor/src/main/kotlin/com/nicholasnassar/dslbuilder/GenerateBuilderProcessor.kt:215-268 | every function `finish` adds sets the parameter; one per fitting subtype named with the capitalised parameter name at its end, then one opening the parameter's own builder exactly when its class is annotated |
| Delegation.FinishCovers | processor/src/main/kotlin/com/nicholasnassar/dslbuilder/GenerateBuilderProcessor.kt:231-252 | every fitting subtype gets its builder function, with a receiver exactly when its fit calls for one |
| Delegation.FinishSources | processor/src/main/kotlin/com/nicholasnassar/dslbuilder/GenerateBuilderProcessor.kt:231-252 | every subtype builder function comes from a fitting subtype |
| Processor.DynamicValueNamesSpec | processor/src/main/kotlin/com/nicholasnassar/dslbuilder/GenerateBuilderProcessor.kt:835-862 | the companion getter reads exactly the dynamic-value parameters, none twice |
| Processor.ImmediateDynamicValuesGetter | processor/src/main/kotlin/com/nicholasnassar/dslbuilder/GenerateBuilderProcessor.kt:672-692 | the getter reads the given values of an instance of the annotated class, with a star projection for each of its type variables |
| Processor.Processor.constructor | processor/src/main/kotlin/com/nicholasnassar/dslbuilder/GenerateBuilderProcessor.kt:51-68 | the processor starts with three empty maps and its invariant holds |
| Processor.Processor.ResolveSuperTypes | processor/src/main/kotlin/com/nicholasnassar/dslbuilder/GenerateBuilderProcessor.kt:802-820 | the recursion appends the visited class under exactly the keys the supertype walk reaches, in order |
| Processor.Processor.GenerateCollectionLambda | processor/src/main/kotlin/com/nicholasnassar/dslbuilder/GenerateBuilderProcessor.kt:581-613 | the request is registered and the function opens the multi-item builder typed like the element |
| Processor.Processor.GenerateDynamicMembers | processor/src/main/kotlin/com/nicholasnassar/dslbuilder/GenerateBuilderProcessor.kt:625-653 | the dynamic-value branch adds exactly the plain property and the two installers the classification calls for |
| Processor.Processor.GenerateProperty | processor/src/main/kotlin/com/nicholasnassar/dslbuilder/GenerateBuilderProcessor.kt:616-670 | a parameter's members are its classification, and only a collection parameter registers a multi-item builder |
| Processor.Processor.GenerateProperties | processor/src/main/kotlin/com/nicholasnassar/dslbuilder/GenerateBuilderProcessor.kt:835-869 | the parameters are processed in order, each wrapped with its dynamic-value flag, and the names of the dynamic-value parameters are collected |
| Processor.Processor.Visit | processor/src/main/kotlin/com/nicholasnassar/dslbuilder/GenerateBuilderProcessor.kt:783-905 | a visit records the class under its supertypes, registers its collection builders, stores its builder with its members, `build` and companion getter, and keeps the invariant |
| Processor.Processor.ExamineSubtype | processor/src/main/kotlin/com/nicholasnassar/dslbuilder/GenerateBuilderProcessor.kt:156-196 | one pass of the loop keeps the subtype, with its builder and receiver, exactly as its fit says |
| Processor.Processor.GetSubtypeInfoFor | processor/src/main/kotlin/com/nicholasnassar/dslbuilder/GenerateBuilderProcessor.kt:141-200 | the loop yields exactly the specified survivors in index order |
| Processor.Processor.FinishParameter | processor/src/main/kotlin/com/nicholasnassar/dslbuilder/GenerateBuilderProcessor.kt:215-268 | the functions added for a parameter are the subtype functions of the survivors followed by the parameter's own builder function |
| Processor.Processor.SubtypeBuilderFunctions | processor/src/main/kotlin/com/nicholasnassar/dslbuilder/GenerateBuilderProcessor.kt:233-253 | one builder function per survivor, in order, named from the subtype and the parameter, with the enclosing builder as receiver when the survivor has receiver arguments |
| Processor.CollectionsNeverMissing | processor/src/main/kotlin/com/nicholasnassar/dslbuilder/GenerateBuilderProcessor.kt:547-567 | since a collection parameter's property always holds a collection, `build` builds exactly when every required parameter without a collection type is set, and a failed `require` never names a collection parameter |
| MultiBuilder.ValueTypeSpec | processor/src/main/kotlin/com/nicholasnassar/dslbuilder/GenerateBuilderProcessor.kt:302-314 | the item type is the registered type for a non-generic element class, the element class applied to its own type variables for a generic one, and missing exactly when a generic class was registered without arguments |
| MultiBuilder.GenericItemIgnoresRegisteredArguments | processor/src/main/kotlin/com/nicholasnassar/dslbuilder/GenerateBuilderProcessor.kt:302-314 | for a generic element class the multi-item builder does not depend on which arguments the registered element type had |
| MultiBuilder.MultiBuilderShape | processor/src/main/kotlin/com/nicholasnassar/dslbuilder/GenerateBuilderProcessor.kt:316-377 | the builder has the element class's type variables, keeps a `MutableCollection` of items, adds one item, then one appending function per fitting subtype named by the subtype alone, then, exactly when the element class is annotated, one appending an item from its own builder under the item function's name |
| MultiBuilder.MultiBuilderCovers | processor/src/main/kotlin/com/nicholasnassar/dslbuilder/GenerateBuilderProcessor.kt:338-352 | every fitting subtype of the element class gets an appending function named by the decapitalised subtype name, building with its builder, with the multi-item builder as receiver exactly when its fit calls for one |
| Processor.Processor.AppendingBuilderFunctions | processor/src/main/kotlin/com/nicholasnassar/dslbuilder/GenerateBuilderProcessor.kt:340-352 | the loop over the survivors yields exactly their appending functions, in order |
| Processor.Processor.GenerateMultiBuilder | processor/src/main/kotlin/com/nicholasnassar/dslbuilder/GenerateBuilderProcessor.kt:286-391 | the multi-item builder written for a registry entry is the specified one, or none when the processor stops on the entry |
| Processor.Processor.FinishClass | processor/src/main/kotlin/com/nicholasnassar/dslbuilder/GenerateBuilderProcessor.kt:203-268 | the functions added to a builder are those of its parameters, in order |

## Left out

- Symbol resolution is not modelled. Resolving types, finding annotated symbols, `validate`, `getAllSuperTypes` and `getClassDeclarationByName` all belong to the KSP API. The model takes their answers as an input value.
- Source emission is not modelled: KotlinPoet's builders, `createNewFile`, writing and closing files. Generated members are abstract records. Function bodies are captured only as far as the records describe them: assignment target, builder type, receiver.
- The KSP-to-KotlinPoet converters are not modelled; every type is given directly in the model's datatype.
- Option parsing in `init` is not modelled. The six configured classes are a `Config` value.
- Crash paths are preconditions: failed casts, `!!` on missing declarations, an index of -1, the `"???"` and `"????"` throws.
- Receiver.HandleReceiverType: requires every position to be comparable (`Receiver.PositionOk`). A position is checked only when its declared argument is not the same type name as the subtype's. The source crashes only on a malformed position it reaches before an early rejection.
- Processor.Processor.GetSubtypeInfoFor: requires, whenever a subtype passes type arguments directly to the raw class, the raw class's declaration and comparable positions. The source stops there with a failed cast, a `!!` on a missing declaration or an index of -1, unless an earlier position has already rejected the subtype.
- Processor.Processor.ExamineSubtype: requires the same of its one subtype. The specification function `Delegation.FitOf` counts a subtype that breaks this as dropped. That is what the source does when an earlier position rejects it; otherwise the source crashes there.
- Processor.Processor.Visit: assumes the `@GenerateBuilder` annotation has a `modifiers` argument. The annotation class declares none, so the `!!` at line 892 would stop the processor after the subtype index is updated and before the builder is stored. The `BuilderModifier` values are never acted on and are not modelled.
- The `Builder` superinterface and the DSL-marker annotation are not modelled: they are added to every builder unconditionally.
- `Names.SameType` compares class names by package, enclosing classes and simple name. KotlinPoet compares their canonical text, which differs only when a package and a class share a dotted path. Map keys (the subtype index, the registry) are compared the same way.
- Of the multi-item builder classes `finish` writes (lines 286-391), the model keeps the type variables, the item type, the collection property and the functions (`MultiBuilder.MultiBuilderFor`). The constructor that takes the collection, the DSL-marker annotation, the file and the order in which the registry is walked are not modelled. The element class's type parameters are an input, the answer of the `!!` lookup at line 290.
- Incremental-build `Dependencies` objects are reduced to the dependency file of each builder and the dependency files of each multi-item builder.
- The order in which `finish` walks the builders is not modelled. One builder is finished at a time. `finish` adds its functions to the class builder stored for each class (lines 243 and 264); the model returns these functions (`Processor.Processor.FinishClass`) rather than appending them to the stored members.
- The processor derives a builder's package from the declaration's file package and the class's package from the declaration. In Kotlin the two are the same, so the model uses one package.
- Case mapping is modelled for ASCII letters only. Kotlin's `capitalize` and `decapitalize` use Unicode case mapping.
- Class names carry at most one enclosing class, as the processor builds them. The multi-item builder name ignores that enclosing class, so nested element classes of the same simple name share one multi-item builder. `Naming.MultiBuilderNameInjective` is stated for top-level classes only.
