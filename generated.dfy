/** The processor's configuration and abstract descriptions of what it emits:
    the members of a generated builder class and the plan of its `build`
    function. The emitter library that renders them as source text is not
    part of this model. */
module Generated {
  import opened Names

  /** The six class names the processor is configured with (all required). */
  datatype Config = Config(
    contextClass: ClassName,
    dynamicValueClass: ClassName,
    staticDynamicValueClass: ClassName,
    computedDynamicValueClass: ClassName,
    rollingDynamicValueClass: ClassName,
    dslMarkerAnnotationClass: ClassName)

  /** One statement of a `build` function. */
  datatype Stmt =
    /** `require(name != null) { message }` */
    | RequireNotNull(name: string, message: string)
    /** `if (name == null) { name = value }`, the default expression wrapped in
        `wrapper(...)` when there is one. */
    | DefaultIfNull(name: string, value: string, wrapper: Option<ClassName>)

  /** One argument of the constructor call closing `build`: the backing
      property, with `!!` when `assertNotNull`. */
  datatype CtorArg = CtorArg(name: string, assertNotNull: bool)

  /** `override fun build(): returnType { stmts; return target(args) }` */
  datatype BuildPlan = BuildPlan(target: ClassName, returnType: TypeName, stmts: seq<Stmt>, args: seq<CtorArg>)

  /** The function `getImmediateDynamicValues(instance: instanceType)` of a
      builder's companion object: it returns the set of the non-null values
      of the properties `values` of `instance` (`emptySet()` when `values` is
      empty). */
  datatype DynamicValuesGetter = DynamicValuesGetter(instanceType: TypeName, values: seq<string>)

  /** A member of a generated builder class. */
  datatype Member =
    /** `var name: type = null` (type already nullable) */
    | NullableProperty(name: string, typeName: TypeName)
    /** `private val name: type = initializer` */
    | CollectionProperty(name: string, typeName: TypeName, initializer: string)
    /** `var name: type = null` whose setter also stores `adapter(value)` (or
        null) into the property `target` */
    | StaticDynamicProperty(name: string, typeName: TypeName, target: string, adapter: ClassName)
    /** `fun name(init: context.() -> valueType) { target = adapter(init) }` */
    | DynamicFunction(name: string, target: string, context: ClassName, valueType: TypeName, adapter: ClassName)
    /** `fun name(init: multiBuilder.() -> Unit) { multiBuilder(name).apply(init) }` */
    | CollectionFunction(name: string, multiBuilder: TypeName)
    /** `fun receiver.name(init: builder.() -> Unit)` that assigns (or, when
        `appends`, adds) `builder().apply(init).build()` to `target` */
    | BuilderFunction(name: string, target: string, builder: TypeName, receiver: Option<TypeName>, appends: bool)
    /** `fun name(value: valueType) { target.add(value) }` */
    | AddFunction(name: string, target: string, valueType: TypeName)
    /** the `build` function */
    | BuildFunction(plan: BuildPlan)
  {
    /** Members that hold a parameter's value in the builder. */
    predicate IsStorage() { NullableProperty? || CollectionProperty? }
  }

  /** A multi-item builder class `name<typeVariables>`: it takes the
      collection it fills as its constructor argument and keeps it in its
      first member; `valueType` is the type of the items it adds. */
  datatype MultiBuilderClass = MultiBuilderClass(name: ClassName, typeVariables: seq<TypeName>, valueType: TypeName, members: seq<Member>)
}
