/** The multi-item builders `finish` writes after the class builders, one per
    entry of the collection-builder registry. Such a builder holds the
    collection a parameter's builder hands it and offers three kinds of
    functions that add to it: one taking an item, one per annotated subtype
    of the item class, and one opening the item class's own builder. */
module MultiBuilder {
  import opened Names
  import opened Naming
  import opened Generated
  import opened SubtypeIndex
  import opened Delegation
  import opened Registry

  /** The name of the collection a multi-item builder fills. */
  const ParentCollection := "parentCollection"

  /** The type of the items a multi-item builder adds. An item class without
      type parameters keeps the element type registered for it; a generic one
      is applied to its own type variables, whatever arguments the registered
      element type had; a generic item class registered with a plain class
      name stops the processor (None: "weird exception at collection stuff"). */
  function ValueType(collectionType: TypeName, parameters: seq<TypeName>): (r: Option<TypeName>)
    ensures r.Some? && Raw(collectionType).Some? ==> Raw(r.value) == Raw(collectionType)
  {
    if parameters == [] then Some(collectionType)
    else if collectionType.Parameterized? then Some(Parameterized(collectionType.raw, parameters, false))
    else None
  }

  /** The value type is missing exactly for a generic item class registered
      as a plain class; otherwise it is the registered type when the class
      has no type parameters, and the class applied to its type variables
      when it has some. */
  lemma ValueTypeSpec(collectionType: TypeName, parameters: seq<TypeName>)
    requires Raw(collectionType).Some?
    ensures ValueType(collectionType, parameters).None? <==> parameters != [] && collectionType.Class?
    ensures parameters == [] ==> ValueType(collectionType, parameters) == Some(collectionType)
    ensures parameters != [] && collectionType.Parameterized? ==>
              var v := ValueType(collectionType, parameters).value;
              v.Parameterized? && v.args == parameters && !v.nullable && v.raw == collectionType.raw
  {
  }

  /** What `finish` needs to write the multi-item builder of `info`: the
      registered element type is a class, and every subtype of the value
      type's class can be compared with it. */
  predicate MultiBuildable(f: Facts, subTypes: map<ClassName, seq<ClassName>>, info: CollectionBuilderInfo, parameters: seq<TypeName>)
  {
    && Raw(info.collectionType).Some?
    && var v := ValueType(info.collectionType, parameters);
       v.Some? ==> ResolvableAll(f, v.value, parameters, Get(subTypes, RawOf(v.value)))
  }

  /** One appending function per fitting subtype of the item class, named by
      the decapitalised subtype name alone, with the multi-item builder as
      receiver when the fit calls for one. */
  function AppendingSubtypeFunctions(owner: ClassName, infos: seq<SubtypeInfo>): seq<Member>
  {
    seq(|infos|, k requires 0 <= k < |infos| =>
      BuilderFunction(Decapitalize(infos[k].subType.simple), ParentCollection, Class(infos[k].builderClassName, false),
                      ReceiverOf(owner, infos[k].receiverTypeArguments), true))
  }

  lemma AppendingSubtypeFunctionsSnoc(owner: ClassName, infos: seq<SubtypeInfo>, k: nat)
    requires k < |infos|
    ensures AppendingSubtypeFunctions(owner, infos[..k + 1])
            == AppendingSubtypeFunctions(owner, infos[..k]) + AppendingSubtypeFunctions(owner, [infos[k]])
  {
    var longer := AppendingSubtypeFunctions(owner, infos[..k + 1]);
    var before := AppendingSubtypeFunctions(owner, infos[..k]);
    var last := AppendingSubtypeFunctions(owner, [infos[k]]);
    forall j | 0 <= j < |longer| ensures longer[j] == (before + last)[j] {
      if j < k {
        assert infos[..k + 1][j] == infos[..k][j];
      } else {
        assert infos[..k + 1][j] == [infos[k]][0];
      }
    }
  }

  /** The appending function opening the item class's own builder, when that
      class is annotated; it shares its name with the function taking an item. */
  function AppendingOwnBuilderFunction(visited: set<ClassName>, functionName: string, v: TypeName): seq<Member>
    requires v.Class? || v.Parameterized?
  {
    if RawOf(v) in visited then [BuilderFunction(functionName, ParentCollection, OwnBuilderType(v), None, true)]
    else []
  }

  /** The multi-item builder `name` that `finish` writes for the registry
      entry `info`, the item class having the type variables `parameters`;
      None when it stops the processor. */
  function MultiBuilderFor(f: Facts, subTypes: map<ClassName, seq<ClassName>>, visited: set<ClassName>,
                           name: ClassName, info: CollectionBuilderInfo, parameters: seq<TypeName>): Option<MultiBuilderClass>
    requires MultiBuildable(f, subTypes, info, parameters)
  {
    match ValueType(info.collectionType, parameters)
    case None => None
    case Some(v) =>
      var functionName := Decapitalize(info.rawTypeArgumentClass.simple);
      Some(MultiBuilderClass(name, parameters, v,
        [CollectionProperty(ParentCollection, Parameterized(MutableCollectionClass, [v], false), ParentCollection),
         AddFunction(functionName, ParentCollection, v)]
        + AppendingSubtypeFunctions(name, SubtypeInfos(f, v, parameters, Get(subTypes, RawOf(v))))
        + AppendingOwnBuilderFunction(visited, functionName, v)))
  }

  /** A multi-item builder has the item class's type variables and holds
      items of a type of the element class; its first member keeps the
      `MutableCollection` of items it was given, and the second adds one item. */
  lemma MultiBuilderShape(f: Facts, subTypes: map<ClassName, seq<ClassName>>, visited: set<ClassName>,
                          name: ClassName, info: CollectionBuilderInfo, parameters: seq<TypeName>)
    requires MultiBuildable(f, subTypes, info, parameters)
    requires MultiBuilderFor(f, subTypes, visited, name, info, parameters).Some?
    ensures var b := MultiBuilderFor(f, subTypes, visited, name, info, parameters).value;
            var v := b.valueType;
            var functionName := Decapitalize(info.rawTypeArgumentClass.simple);
            && b.name == name && b.typeVariables == parameters
            && Raw(v) == Raw(info.collectionType)
            && |b.members| >= 2
            && b.members[0] == CollectionProperty(ParentCollection, Parameterized(MutableCollectionClass, [v], false), ParentCollection)
            && b.members[1] == AddFunction(functionName, ParentCollection, v)
  {
  }

  /** After the two first members come the functions of the fitting
      subtypes, each adding to the collection and named by the subtype alone,
      and last, exactly when the item class is annotated, one adding an item
      built by its own builder, under the name of the item function. */
  lemma MultiBuilderFunctions(f: Facts, subTypes: map<ClassName, seq<ClassName>>, visited: set<ClassName>,
                              name: ClassName, info: CollectionBuilderInfo, parameters: seq<TypeName>)
    requires MultiBuildable(f, subTypes, info, parameters)
    requires MultiBuilderFor(f, subTypes, visited, name, info, parameters).Some?
    ensures var b := MultiBuilderFor(f, subTypes, visited, name, info, parameters).value;
            var v := b.valueType;
            var n := |SubtypeInfos(f, v, parameters, Get(subTypes, RawOf(v)))|;
            && |b.members| == 2 + n + (if RawOf(v) in visited then 1 else 0)
            && (forall k :: 2 <= k < |b.members| ==>
                  b.members[k].BuilderFunction? && b.members[k].target == ParentCollection && b.members[k].appends)
            && (forall k :: 0 <= k < n ==>
                  b.members[2 + k].name == Decapitalize(SubtypeInfos(f, v, parameters, Get(subTypes, RawOf(v)))[k].subType.simple))
            && (RawOf(v) in visited ==>
                  b.members[2 + n].name == Decapitalize(info.rawTypeArgumentClass.simple)
                  && b.members[2 + n].receiver.None? && b.members[2 + n].builder == OwnBuilderType(v))
  {
    MultiBuilderMembers(f, subTypes, visited, name, info, parameters);
    var v := ValueType(info.collectionType, parameters).value;
    var infos := SubtypeInfos(f, v, parameters, Get(subTypes, RawOf(v)));
    var fns := AppendingSubtypeFunctions(name, infos);
    var own := AppendingOwnBuilderFunction(visited, Decapitalize(info.rawTypeArgumentClass.simple), v);
    var ms := MultiBuilderFor(f, subTypes, visited, name, info, parameters).value.members;
    forall k | 2 <= k < |ms|
      ensures ms[k].BuilderFunction? && ms[k].target == ParentCollection && ms[k].appends
    {
      if k < 2 + |fns| {
        assert ms[k] == fns[k - 2];
      } else {
        assert ms[k] == own[k - 2 - |fns|];
      }
    }
    forall k | 0 <= k < |infos|
      ensures ms[2 + k].name == Decapitalize(infos[k].subType.simple)
    {
      assert ms[2 + k] == fns[k];
    }
    if RawOf(v) in visited {
      assert ms[2 + |infos|] == own[0];
    }
  }

  /** The members of a multi-item builder, part by part. */
  lemma MultiBuilderMembers(f: Facts, subTypes: map<ClassName, seq<ClassName>>, visited: set<ClassName>,
                            name: ClassName, info: CollectionBuilderInfo, parameters: seq<TypeName>)
    requires MultiBuildable(f, subTypes, info, parameters)
    requires MultiBuilderFor(f, subTypes, visited, name, info, parameters).Some?
    ensures var b := MultiBuilderFor(f, subTypes, visited, name, info, parameters).value;
            var v := ValueType(info.collectionType, parameters).value;
            var functionName := Decapitalize(info.rawTypeArgumentClass.simple);
            && b.valueType == v
            && b.members == [CollectionProperty(ParentCollection, Parameterized(MutableCollectionClass, [v], false), ParentCollection),
                             AddFunction(functionName, ParentCollection, v)]
                            + AppendingSubtypeFunctions(name, SubtypeInfos(f, v, parameters, Get(subTypes, RawOf(v))))
                            + AppendingOwnBuilderFunction(visited, functionName, v)
  {
  }

  /** A generic item class gets the same multi-item builder whichever
      parameterization of it was registered first: only its raw class counts. */
  lemma GenericItemIgnoresRegisteredArguments(f: Facts, subTypes: map<ClassName, seq<ClassName>>, visited: set<ClassName>,
                                              name: ClassName, info: CollectionBuilderInfo, other: TypeName, parameters: seq<TypeName>)
    requires MultiBuildable(f, subTypes, info, parameters)
    requires parameters != [] && info.collectionType.Parameterized?
    requires other.Parameterized? && other.raw == info.collectionType.raw
    ensures MultiBuildable(f, subTypes, info.(collectionType := other), parameters)
    ensures MultiBuilderFor(f, subTypes, visited, name, info.(collectionType := other), parameters)
            == MultiBuilderFor(f, subTypes, visited, name, info, parameters)
  {
    assert ValueType(other, parameters) == ValueType(info.collectionType, parameters);
  }

  /** Every fitting subtype among `subs` gets its appending function. */
  lemma AppendingCovers(owner: ClassName, f: Facts, t: TypeName, typeVariables: seq<TypeName>, subs: seq<ClassName>, i: nat)
    requires i < |subs| && FitOf(f, t, typeVariables, subs[i]).Fits?
    ensures BuilderFunction(Decapitalize(subs[i].simple), ParentCollection, Class(BuilderClassName(subs[i]), false),
                            ReceiverOf(owner, FitOf(f, t, typeVariables, subs[i]).receiver), true)
            in AppendingSubtypeFunctions(owner, SubtypeInfos(f, t, typeVariables, subs))
  {
    var infos := SubtypeInfos(f, t, typeVariables, subs);
    SubtypeInfosComplete(f, t, typeVariables, subs, i);
    var k :| 0 <= k < |infos| && infos[k].subType == subs[i];
    SubtypeInfosSound(f, t, typeVariables, subs);
    assert Survivor(f, t, typeVariables, subs, infos[k]);
    assert AppendingSubtypeFunctions(owner, infos)[k] == BuilderFunction(Decapitalize(subs[i].simple), ParentCollection,
      Class(BuilderClassName(subs[i]), false), ReceiverOf(owner, FitOf(f, t, typeVariables, subs[i]).receiver), true);
  }

  /** Every fitting subtype of the item class gets its appending function. */
  lemma MultiBuilderCovers(f: Facts, subTypes: map<ClassName, seq<ClassName>>, visited: set<ClassName>,
                           name: ClassName, info: CollectionBuilderInfo, parameters: seq<TypeName>, i: nat)
    requires MultiBuildable(f, subTypes, info, parameters)
    requires MultiBuilderFor(f, subTypes, visited, name, info, parameters).Some?
    requires var v := ValueType(info.collectionType, parameters).value;
             i < |Get(subTypes, RawOf(v))| && FitOf(f, v, parameters, Get(subTypes, RawOf(v))[i]).Fits?
    ensures var v := ValueType(info.collectionType, parameters).value;
            var sub := Get(subTypes, RawOf(v))[i];
            BuilderFunction(Decapitalize(sub.simple), ParentCollection, Class(BuilderClassName(sub), false),
                            ReceiverOf(name, FitOf(f, v, parameters, sub).receiver), true)
            in MultiBuilderFor(f, subTypes, visited, name, info, parameters).value.members
  {
    var v := ValueType(info.collectionType, parameters).value;
    AppendingCovers(name, f, v, parameters, Get(subTypes, RawOf(v)), i);
    MultiBuilderMembers(f, subTypes, visited, name, info, parameters);
  }
}
