/** The parameter-shape classifier: which properties and functions a
    constructor parameter gets in its builder, decided from its name and its
    declared type. */
module Classify {
  import opened Names
  import opened Naming
  import opened Generated

  /** The collection classes that get a mutable backing collection, with that
      collection's class. */
  const CollectionToMutable: map<ClassName, ClassName> :=
    map[ListClass := MutableListClass, SetClass := MutableSetClass]

  /** A dynamic-value parameter: its name ends with `DynamicValue` and its type
      is a parameterization of the configured dynamic-value class. */
  predicate IsDynamic(cfg: Config, name: string, t: TypeName)
  {
    EndsWith(name, DynamicValueSuffix) && t.Parameterized? && Canonical(t.raw) == Canonical(cfg.dynamicValueClass)
  }

  /** A collection parameter: a parameterized `kotlin.collections.List` or `Set`. */
  predicate IsCollection(t: TypeName)
  {
    t.Parameterized? && t.raw in CollectionToMutable
  }

  /** What the classifier relies on: a parameterized type has an argument (as
      every parameterized type does), and a collection's element is a class or
      a parameterized class rather than a type variable or projection. */
  predicate Classifiable(t: TypeName)
  {
    (t.Parameterized? ==> |t.args| > 0) && (IsCollection(t) ==> Raw(t.args[0]).Some?)
  }

  /** The type of the function that opens a multi-item builder for elements of
      type `element`: the multi-item builder, parameterized like the element. */
  function MultiBuilderType(element: TypeName): TypeName
    requires Raw(element).Some?
  {
    var multi := MultiBuilderName(Raw(element).value);
    if element.Parameterized? then Parameterized(multi, element.args, false) else Class(multi, false)
  }

  /** The plain property and the two installer functions of a dynamic-value parameter. */
  function DynamicMembers(cfg: Config, name: string, t: TypeName): seq<Member>
    requires IsDynamic(cfg, name, t) && |t.args| > 0
  {
    var staticName := StaticPropertyName(name);
    var valueType := t.args[0];
    [ StaticDynamicProperty(staticName, AsNullable(valueType), name, cfg.staticDynamicValueClass),
      DynamicFunction(staticName, name, cfg.contextClass, valueType, cfg.computedDynamicValueClass),
      DynamicFunction(RollingFunctionName(staticName), name, cfg.contextClass, valueType, cfg.rollingDynamicValueClass) ]
  }

  /** The private mutable collection and the multi-item builder function of a collection parameter. */
  function CollectionMembers(name: string, t: TypeName): seq<Member>
    requires IsCollection(t) && Classifiable(t)
  {
    var element := t.args[0];
    [ CollectionProperty(name, Parameterized(CollectionToMutable[t.raw], [element], false), "mutable" + t.raw.simple + "Of()"),
      CollectionFunction(name, MultiBuilderType(element)) ]
  }

  /** The dynamic-value accessors a parameter gets, if any. */
  function AccessorMembers(cfg: Config, name: string, t: TypeName): seq<Member>
    requires Classifiable(t)
  {
    if IsDynamic(cfg, name, t) then DynamicMembers(cfg, name, t) else []
  }

  /** The members holding a parameter's value, and the collection function. */
  function StorageMembers(name: string, t: TypeName): seq<Member>
    requires Classifiable(t)
  {
    if IsCollection(t) then CollectionMembers(name, t) else [NullableProperty(name, AsNullable(t))]
  }

  /** Everything a parameter named `name` of type `t` adds to its builder. */
  function PropertyMembers(cfg: Config, name: string, t: TypeName): seq<Member>
    requires Classifiable(t)
  {
    AccessorMembers(cfg, name, t) + StorageMembers(name, t)
  }

  /** The accessors are the three dynamic-value members of a dynamic-value
      parameter and nothing otherwise. */
  lemma AccessorParts(cfg: Config, name: string, t: TypeName)
    requires Classifiable(t)
    ensures var d := AccessorMembers(cfg, name, t);
            && |d| == (if IsDynamic(cfg, name, t) then 3 else 0)
            && forall k :: 0 <= k < |d| ==> (d[k].StaticDynamicProperty? <==> k == 0) && (d[k].DynamicFunction? <==> k > 0)
  {
  }

  /** The storage part starts with the backing property, named after the
      parameter; anything after it is the collection function. */
  lemma StorageParts(name: string, t: TypeName)
    requires Classifiable(t)
    ensures var shape := StorageMembers(name, t);
            && |shape| == (if IsCollection(t) then 2 else 1)
            && shape[0].IsStorage() && shape[0].name == name
            && (forall k :: 0 < k < |shape| ==> shape[k].CollectionFunction?)
            && (forall k :: 0 <= k < |shape| ==> !shape[k].StaticDynamicProperty? && !shape[k].DynamicFunction?)
  {
  }

  /** A member of a parameter lies in its accessor part or its storage part. */
  lemma PartOf(cfg: Config, name: string, t: TypeName, k: nat)
    requires Classifiable(t) && k < |PropertyMembers(cfg, name, t)|
    ensures var d := AccessorMembers(cfg, name, t);
            PropertyMembers(cfg, name, t)[k] == if k < |d| then d[k] else StorageMembers(name, t)[k - |d|]
  {
  }

  /** A parameter gets the dynamic-value accessors exactly when both its name
      and its type mark it as dynamic; they are named after the parameter name
      without the suffix (`rolling` + capitalised for the rolling one), take
      the type argument, and all three write the same parameter property. */
  lemma DynamicAccessors(cfg: Config, name: string, t: TypeName)
    requires Classifiable(t)
    ensures var ms := PropertyMembers(cfg, name, t);
            (exists k :: 0 <= k < |ms| && ms[k].StaticDynamicProperty?) <==> IsDynamic(cfg, name, t)
    ensures var ms := PropertyMembers(cfg, name, t);
            (exists k :: 0 <= k < |ms| && ms[k].DynamicFunction?) <==> IsDynamic(cfg, name, t)
    ensures IsDynamic(cfg, name, t) ==>
              var ms := PropertyMembers(cfg, name, t);
              var v := t.args[0];
              && ms[0].StaticDynamicProperty? && ms[0].name + DynamicValueSuffix == name
              && ms[0].typeName == AsNullable(v) && ms[0].target == name && ms[0].adapter == cfg.staticDynamicValueClass
              && ms[1] == DynamicFunction(ms[0].name, name, cfg.contextClass, v, cfg.computedDynamicValueClass)
              && ms[2] == DynamicFunction(RollingPrefix + Capitalize(ms[0].name), name, cfg.contextClass, v, cfg.rollingDynamicValueClass)
  {
    var ms := PropertyMembers(cfg, name, t);
    AccessorParts(cfg, name, t);
    StorageParts(name, t);
    if IsDynamic(cfg, name, t) {
      PartOf(cfg, name, t, 0);
      PartOf(cfg, name, t, 1);
      PartOf(cfg, name, t, 2);
    } else {
      forall k | 0 <= k < |ms| ensures !ms[k].StaticDynamicProperty? && !ms[k].DynamicFunction? {
        PartOf(cfg, name, t, k);
      }
    }
  }

  /** Every parameter gets exactly one backing property, named after it. */
  lemma BackingStorageUnique(cfg: Config, name: string, t: TypeName)
    requires Classifiable(t)
    ensures var ms := PropertyMembers(cfg, name, t);
            exists k :: 0 <= k < |ms| && ms[k].IsStorage() && ms[k].name == name
    ensures var ms := PropertyMembers(cfg, name, t);
            forall i, j :: 0 <= i < |ms| && 0 <= j < |ms| && ms[i].IsStorage() && ms[j].IsStorage() ==> i == j
  {
    var ms := PropertyMembers(cfg, name, t);
    var d := AccessorMembers(cfg, name, t);
    AccessorParts(cfg, name, t);
    StorageParts(name, t);
    forall k | 0 <= k < |ms| && ms[k].IsStorage() ensures k == |d| {
      PartOf(cfg, name, t, k);
    }
    PartOf(cfg, name, t, |d|);
  }

  /** The backing property is a private `MutableList`/`MutableSet` of the
      element type, initialised empty, for a list or set, and a nullable
      variable initialised to null for every other parameter, dynamic-value
      parameters included. */
  lemma BackingStorageShape(cfg: Config, name: string, t: TypeName, k: nat)
    requires Classifiable(t)
    requires k < |PropertyMembers(cfg, name, t)| && PropertyMembers(cfg, name, t)[k].IsStorage()
    ensures var m := PropertyMembers(cfg, name, t)[k];
            if t.Parameterized? && t.raw == ListClass then
              m == CollectionProperty(name, Parameterized(MutableListClass, [t.args[0]], false), "mutableListOf()")
            else if t.Parameterized? && t.raw == SetClass then
              m == CollectionProperty(name, Parameterized(MutableSetClass, [t.args[0]], false), "mutableSetOf()")
            else m == NullableProperty(name, AsNullable(t)) && m.typeName.nullable
  {
    var d := AccessorMembers(cfg, name, t);
    AccessorParts(cfg, name, t);
    StorageParts(name, t);
    PartOf(cfg, name, t, k);
    assert k == |d|;
    if t.Parameterized? && t.raw == ListClass {
      assert "mutable" + t.raw.simple + "Of()" == "mutableListOf()";
    } else if t.Parameterized? && t.raw == SetClass {
      assert "mutable" + t.raw.simple + "Of()" == "mutableSetOf()";
    }
  }

  /** A collection parameter also gets a function, named like the parameter,
      that opens the multi-item builder of its element class. */
  lemma CollectionFunctionFor(cfg: Config, name: string, t: TypeName)
    requires Classifiable(t)
    ensures var ms := PropertyMembers(cfg, name, t);
            (exists k :: 0 <= k < |ms| && ms[k].CollectionFunction?) <==> IsCollection(t)
    ensures IsCollection(t) ==>
              var ms := PropertyMembers(cfg, name, t);
              var f := ms[|ms| - 1];
              f.CollectionFunction? && f.name == name
              && Raw(f.multiBuilder) == Some(MultiBuilderName(Raw(t.args[0]).value))
  {
    var ms := PropertyMembers(cfg, name, t);
    AccessorParts(cfg, name, t);
    StorageParts(name, t);
    if !IsCollection(t) {
      forall k | 0 <= k < |ms| ensures !ms[k].CollectionFunction? {
        PartOf(cfg, name, t, k);
      }
    } else {
      PartOf(cfg, name, t, |ms| - 1);
    }
  }
}
