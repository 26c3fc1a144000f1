/** The processor's state and the operations that change it. Visiting an
    annotated class records it under its supertypes, registers the
    multi-item builders its collection parameters need, and stores the
    description of its builder; at the end, every builder gets one function
    per fitting subtype of each parameter's type and one for the parameter's
    own builder. */
module Processor {
  import opened Names
  import opened Naming
  import opened Generated
  import opened Classify
  import opened Receiver
  import opened SubtypeIndex
  import opened Registry
  import opened BuildFunction
  import opened Delegation
  import opened MultiBuilder

  /** A type parameter of an annotated class: its name and declared bounds. */
  datatype TypeParameter = TypeParameter(name: string, bounds: seq<TypeName>)

  /** A primary-constructor parameter: name, declared type, whether that type
      is non-nullable, and the default of its `@NullValue` annotation. */
  datatype Parameter = Parameter(name: string, typeName: TypeName, notNull: bool, nullValue: Option<string>)

  /** An annotated class declaration as the symbol table presents it. */
  datatype ClassDecl = ClassDecl(
    pkg: string,
    parent: Option<string>,
    simple: string,
    typeParameters: seq<TypeParameter>,
    superTypes: seq<TypeName>,
    parameters: seq<Parameter>,
    file: string)

  /** What is kept about a class until its builder is written. */
  datatype ClassInfo = ClassInfo(builderClassName: ClassName, dependency: string, typeVariables: seq<TypeName>,
                                 members: seq<Member>, companion: DynamicValuesGetter, parameters: seq<Parameter>)

  function ClassNameOf(d: ClassDecl): ClassName
  {
    DeclaredClassName(d.pkg, d.parent, d.simple)
  }

  /** `TypeVariableName(name, bounds)` for each type parameter: the same
      names, with their bounds (`Any?` for one declared without) and without
      variance. */
  function TypeVariablesOf(tps: seq<TypeParameter>): (r: seq<TypeName>)
    ensures |r| == |tps|
    ensures forall i :: 0 <= i < |tps| ==>
              r[i].TypeVar? && r[i].name == tps[i].name && r[i].bounds == EffectiveBounds(tps[i].bounds)
              && r[i].variance == Invariant && !r[i].nullable
  {
    seq(|tps|, i requires 0 <= i < |tps| => TypeVar(tps[i].name, EffectiveBounds(tps[i].bounds), Invariant, false))
  }

  /** The builder's type variables: the class's own. */
  function TypeVariables(d: ClassDecl): seq<TypeName>
  {
    TypeVariablesOf(d.typeParameters)
  }

  function Wrap(cfg: Config, p: Parameter): WrappedParameter
  {
    WrappedParameter(p.name, p.notNull, p.nullValue, IsDynamic(cfg, p.name, p.typeName))
  }

  function WrapAll(cfg: Config, ps: seq<Parameter>): seq<WrappedParameter>
  {
    seq(|ps|, i requires 0 <= i < |ps| => Wrap(cfg, ps[i]))
  }

  predicate AllClassifiable(ps: seq<Parameter>)
  {
    forall i :: 0 <= i < |ps| ==> Classifiable(ps[i].typeName)
  }

  /** The members the parameters add, in order. */
  function PropertiesOf(cfg: Config, ps: seq<Parameter>): seq<Member>
    requires AllClassifiable(ps)
    decreases |ps|
  {
    if ps == [] then []
    else PropertiesOf(cfg, ps[..|ps| - 1]) + PropertyMembers(cfg, ps[|ps| - 1].name, ps[|ps| - 1].typeName)
  }

  /** The multi-item builder requests of the collection parameters, in order. */
  function CollectionRequests(file: string, ps: seq<Parameter>): (rs: seq<Request>)
    requires AllClassifiable(ps)
    ensures forall i :: 0 <= i < |rs| ==> Requestable(rs[i])
    decreases |ps|
  {
    if ps == [] then []
    else
      var last := ps[|ps| - 1];
      CollectionRequests(file, ps[..|ps| - 1]) + (if IsCollection(last.typeName) then [Request(file, last.typeName.args[0])] else [])
  }

  /** The members of the builder of `d`: its parameters' members, then `build`. */
  function BuilderMembers(cfg: Config, d: ClassDecl): seq<Member>
    requires AllClassifiable(d.parameters)
  {
    PropertiesOf(cfg, d.parameters)
    + [BuildFunction(PlanFor(cfg.staticDynamicValueClass, ClassNameOf(d), WrapAll(cfg, d.parameters), TypeVariables(d)))]
  }

  /** The builder's properties in a state its user can reach: the backing
      property of every collection parameter holds a collection (it starts
      as an empty mutable one and is never reassigned). */
  predicate CollectionsHeld(ps: seq<Parameter>, env: Env)
  {
    forall i :: 0 <= i < |ps| && IsCollection(ps[i].typeName) ==> ps[i].name in env
  }

  /** `build` never stops on a collection parameter: it builds exactly when
      every required parameter without a collection type was set, and a
      failed `require` names one of those. */
  lemma CollectionsNeverMissing(cfg: Config, d: ClassDecl, env: Env)
    requires Distinct(WrapAll(cfg, d.parameters))
    requires CollectionsHeld(d.parameters, env)
    ensures var o := RunBuild(PlanFor(cfg.staticDynamicValueClass, ClassNameOf(d), WrapAll(cfg, d.parameters), TypeVariables(d)), env);
            o.Built? <==> forall i :: (0 <= i < |d.parameters| && Required(Wrap(cfg, d.parameters[i]))
                                       && !IsCollection(d.parameters[i].typeName)) ==> d.parameters[i].name in env
    ensures var o := RunBuild(PlanFor(cfg.staticDynamicValueClass, ClassNameOf(d), WrapAll(cfg, d.parameters), TypeVariables(d)), env);
            o.RequireFailed? ==> exists i :: 0 <= i < |d.parameters| && !IsCollection(d.parameters[i].typeName)
                                              && o.message == NotSetMessage(d.parameters[i].name)
  {
    var params := WrapAll(cfg, d.parameters);
    BuildOutcome(cfg.staticDynamicValueClass, ClassNameOf(d), params, TypeVariables(d), env);
    assert forall i :: 0 <= i < |params| ==> params[i] == Wrap(cfg, d.parameters[i]);
  }

  /** The names of the dynamic-value parameters, in order and each once, as
      they are added to a set while the parameters are visited. */
  function DynamicValueNames(cfg: Config, ps: seq<Parameter>): seq<string>
    decreases |ps|
  {
    if ps == [] then []
    else
      var names := DynamicValueNames(cfg, ps[..|ps| - 1]);
      var p := ps[|ps| - 1];
      if IsDynamic(cfg, p.name, p.typeName) && p.name !in names then names + [p.name] else names
  }

  /** The getter reads exactly the dynamic-value parameters, none twice. */
  lemma {:induction false} DynamicValueNamesSpec(cfg: Config, ps: seq<Parameter>)
    ensures forall x :: x in DynamicValueNames(cfg, ps) <==>
              exists i :: 0 <= i < |ps| && ps[i].name == x && IsDynamic(cfg, x, ps[i].typeName)
    ensures forall i, j :: 0 <= i < j < |DynamicValueNames(cfg, ps)| ==>
              DynamicValueNames(cfg, ps)[i] != DynamicValueNames(cfg, ps)[j]
    decreases |ps|
  {
    if ps != [] {
      var pre := ps[..|ps| - 1];
      DynamicValueNamesSpec(cfg, pre);
      assert forall i :: 0 <= i < |pre| ==> pre[i] == ps[i];
      var before := DynamicValueNames(cfg, pre);
      var p := ps[|ps| - 1];
      if IsDynamic(cfg, p.name, p.typeName) && p.name !in before {
        var names := before + [p.name];
        forall i, j | 0 <= i < j < |names| ensures names[i] != names[j] {
          if j == |before| {
            assert names[i] == before[i] && before[i] in before;
          } else {
            assert names[i] == before[i] && names[j] == before[j];
          }
        }
      }
    }
  }

  /** `generateImmediateDynamicValuesGetter`: the instance is the annotated
      class, with a star projection for each of its type variables. */
  function ImmediateDynamicValuesGetter(base: ClassName, dynamicValues: seq<string>, typeVariableCount: nat): (g: DynamicValuesGetter)
    ensures g.values == dynamicValues
    ensures Raw(g.instanceType) == Some(base) && !g.instanceType.nullable
    ensures g.instanceType.Parameterized? <==> typeVariableCount > 0
    ensures g.instanceType.Parameterized? ==>
              |g.instanceType.args| == typeVariableCount && forall j :: 0 <= j < typeVariableCount ==> g.instanceType.args[j] == Star
  {
    DynamicValuesGetter(if typeVariableCount == 0 then Class(base, false) else Parameterized(base, StarSlots(typeVariableCount), false),
                        dynamicValues)
  }

  /** The companion object of the builder of `d`. */
  function CompanionOf(cfg: Config, d: ClassDecl): DynamicValuesGetter
  {
    ImmediateDynamicValuesGetter(ClassNameOf(d), DynamicValueNames(cfg, d.parameters), |d.typeParameters|)
  }

  lemma PrefixStep(cfg: Config, ps: seq<Parameter>, i: nat)
    requires AllClassifiable(ps) && i < |ps|
    ensures AllClassifiable(ps[..i]) && AllClassifiable(ps[..i + 1])
    ensures PropertiesOf(cfg, ps[..i + 1]) == PropertiesOf(cfg, ps[..i]) + PropertyMembers(cfg, ps[i].name, ps[i].typeName)
  {
    var pre := ps[..i + 1];
    assert pre[..i] == ps[..i] && pre[i] == ps[i];
  }

  lemma WrapAllStep(cfg: Config, ps: seq<Parameter>, i: nat)
    requires i < |ps|
    ensures WrapAll(cfg, ps[..i + 1]) == WrapAll(cfg, ps[..i]) + [Wrap(cfg, ps[i])]
  {
  }

  /** Registering the requests of one more parameter continues the left fold. */
  lemma RequestsStep(registry: map<ClassName, CollectionBuilderInfo>, file: string, ps: seq<Parameter>, i: nat)
    requires AllClassifiable(ps) && i < |ps|
    ensures AllClassifiable(ps[..i]) && AllClassifiable(ps[..i + 1]) && AllClassifiable([ps[i]])
    ensures RegisterAll(RegisterAll(registry, CollectionRequests(file, ps[..i])), CollectionRequests(file, [ps[i]]))
            == RegisterAll(registry, CollectionRequests(file, ps[..i + 1]))
  {
    var pre := ps[..i + 1];
    assert pre[..i] == ps[..i] && pre[i] == ps[i];
    assert [ps[i]][..0] == [];
    var before := CollectionRequests(file, ps[..i]);
    if IsCollection(ps[i].typeName) {
      var r := Request(file, ps[i].typeName.args[0]);
      assert CollectionRequests(file, [ps[i]]) == [r] && [r][1..] == [];
      RegisterAllSnoc(registry, before, r);
    } else {
      assert CollectionRequests(file, [ps[i]]) == [] && before + [] == before;
    }
  }

  /** What the processor needs of a declaration: the symbol table knows it with
      these supertypes, and its parameters can be classified. */
  predicate Processable(f: Facts, d: ClassDecl)
  {
    ClassNameOf(d) in f.superTypes && f.superTypes[ClassNameOf(d)] == d.superTypes
    && AllClassifiable(d.parameters)
  }

  /** What `finish` relies on for a parameter: its type is a class and every
      recorded subtype of it can be resolved. */
  predicate Finishable(f: Facts, subTypes: map<ClassName, seq<ClassName>>, typeVariables: seq<TypeName>, p: Parameter)
  {
    && (p.typeName.Class? || p.typeName.Parameterized?)
    && ResolvableAll(f, p.typeName, typeVariables, Get(subTypes, RawOf(p.typeName)))
  }

  predicate ClassTyped(ps: seq<Parameter>)
  {
    forall i :: 0 <= i < |ps| ==> ps[i].typeName.Class? || ps[i].typeName.Parameterized?
  }

  /** The functions `finish` adds to a builder for its parameters, in order. */
  function FinishedMembers(f: Facts, subTypes: map<ClassName, seq<ClassName>>, visited: set<ClassName>,
                           info: ClassInfo, ps: seq<Parameter>): seq<Member>
    requires ClassTyped(ps)
    decreases |ps|
  {
    if ps == [] then []
    else
      var p := ps[|ps| - 1];
      assert forall i :: 0 <= i < |ps| - 1 ==> ps[..|ps| - 1][i] == ps[i];
      FinishedMembers(f, subTypes, visited, info, ps[..|ps| - 1])
      + FinishMembers(f, subTypes, visited, info.builderClassName, info.typeVariables, p.name, p.typeName)
  }

  lemma FinishedStep(f: Facts, subTypes: map<ClassName, seq<ClassName>>, visited: set<ClassName>,
                     info: ClassInfo, ps: seq<Parameter>, i: nat)
    requires ClassTyped(ps) && i < |ps|
    ensures ClassTyped(ps[..i]) && ClassTyped(ps[..i + 1])
    ensures FinishedMembers(f, subTypes, visited, info, ps[..i + 1])
            == FinishedMembers(f, subTypes, visited, info, ps[..i])
               + FinishMembers(f, subTypes, visited, info.builderClassName, info.typeVariables, ps[i].name, ps[i].typeName)
  {
    var pre := ps[..i + 1];
    assert pre[..i] == ps[..i] && pre[i] == ps[i];
  }

  class Processor {
    const config: Config
    /** `subTypes`: raw supertype to the annotated classes below it */
    var subTypes: map<ClassName, seq<ClassName>>
    /** `builderClassesToWrite` */
    var builderClasses: map<ClassName, ClassInfo>
    /** `collectionBuildersToGenerate` */
    var collectionBuilders: map<ClassName, CollectionBuilderInfo>

    /** Every class recorded as a subtype has been visited, every registered
        multi-item builder is filed under its element class's name, and every
        visited class has the builder its name calls for. */
    ghost predicate Valid()
      reads this
    {
      && (forall key, sub :: key in subTypes && sub in subTypes[key] ==> sub in builderClasses)
      && Consistent(collectionBuilders)
      && (forall c :: c in builderClasses ==> builderClasses[c].builderClassName == BuilderClassName(c))
    }

    constructor(config: Config)
      ensures Valid()
      ensures this.config == config
      ensures subTypes == map[] && builderClasses == map[] && collectionBuilders == map[]
    {
      this.config := config;
      subTypes := map[];
      builderClasses := map[];
      collectionBuilders := map[];
    }

    /** `resolveSuperTypes`: for each reference, first the supertypes of its
        declaration, then the reference's raw class, each get `base` appended. */
    method ResolveSuperTypes(f: Facts, refs: seq<TypeName>, base: ClassName, ghost bound: nat)
      requires Acyclic(f) && Below(f, refs, bound)
      modifies this`subTypes
      ensures subTypes == AddAll(old(subTypes), SuperKeys(f, refs, bound), base)
      decreases bound
    {
      var i := 0;
      while i < |refs|
        invariant 0 <= i <= |refs|
        invariant subTypes == AddAll(old(subTypes), SuperKeys(f, refs[..i], bound), base)
      {
        var t := refs[i];
        assert refs[..i + 1] == refs[..i] + [t];
        assert forall j :: 0 <= j < i ==> refs[..i][j] == refs[j];
        SuperKeysSnoc(f, refs[..i], t, bound);
        ghost var before := SuperKeys(f, refs[..i], bound);
        match Raw(t) {
          case None =>
            assert before + [] == before;
          case Some(c) =>
            ghost var inner: seq<ClassName> := [];
            if c in f.superTypes {
              ResolveSuperTypes(f, f.superTypes[c], base, f.depth[c]);
              inner := SuperKeys(f, f.superTypes[c], f.depth[c]);
            }
            AppendThrough(old(subTypes), before, inner, c, base);
            subTypes := subTypes[c := Get(subTypes, c) + [base]];
        }
        i := i + 1;
      }
      assert refs[..|refs|] == refs;
    }

    /** `generateCollectionLambda`: registers the request (the first request
        for a multi-item builder fixes its element type; every request adds
        its file) and returns the function opening that builder. */
    method GenerateCollectionLambda(file: string, name: string, t: TypeName) returns (fn: Member)
      requires IsCollection(t) && Classifiable(t)
      modifies this`collectionBuilders
      ensures fn == CollectionFunction(name, MultiBuilderType(t.args[0]))
      ensures collectionBuilders == Register(old(collectionBuilders), Request(file, t.args[0]))
    {
      var typeArgument := t.args[0];
      var rawTypeArgumentClass := if typeArgument.Class? then typeArgument.cls else typeArgument.raw;
      assert Raw(typeArgument) == Some(rawTypeArgumentClass);
      var multiBuilderClass := MultiBuilderName(rawTypeArgumentClass);
      if multiBuilderClass !in collectionBuilders {
        collectionBuilders := collectionBuilders[multiBuilderClass := CollectionBuilderInfo(typeArgument, rawTypeArgumentClass, {})];
      }
      var info := collectionBuilders[multiBuilderClass];
      collectionBuilders := collectionBuilders[multiBuilderClass := info.(dependencyFiles := info.dependencyFiles + {file})];
      var returnType := if typeArgument.Parameterized? then Parameterized(multiBuilderClass, typeArgument.args, false)
                        else Class(multiBuilderClass, false);
      fn := CollectionFunction(name, returnType);
      assert {} + {file} == {file};
    }

    /** The dynamic-value branch of `generateProperty`: the plain property
        named without the suffix, and the computed and rolling installers. */
    method GenerateDynamicMembers(p: Parameter) returns (members: seq<Member>)
      requires IsDynamic(config, p.name, p.typeName) && |p.typeName.args| > 0
      ensures members == DynamicMembers(config, p.name, p.typeName)
    {
      var staticPropertyName := p.name[..|p.name| - |DynamicValueSuffix|];
      var staticValueType := p.typeName.args[0];
      members := [StaticDynamicProperty(staticPropertyName, AsNullable(staticValueType), p.name, config.staticDynamicValueClass)];
      members := members + [DynamicFunction(staticPropertyName, p.name, config.contextClass, staticValueType, config.computedDynamicValueClass)];
      members := members + [DynamicFunction(RollingPrefix + Capitalize(staticPropertyName), p.name, config.contextClass, staticValueType, config.rollingDynamicValueClass)];
    }

    /** `generateProperty`: the members of one parameter, registering a
        multi-item builder for a collection parameter. */
    method GenerateProperty(file: string, p: Parameter) returns (members: seq<Member>)
      requires Classifiable(p.typeName)
      modifies this`collectionBuilders
      ensures members == PropertyMembers(config, p.name, p.typeName)
      ensures collectionBuilders == RegisterAll(old(collectionBuilders), CollectionRequests(file, [p]))
    {
      var t := p.typeName;
      members := [];
      if EndsWith(p.name, DynamicValueSuffix) && t.Parameterized? && Canonical(t.raw) == Canonical(config.dynamicValueClass) {
        members := GenerateDynamicMembers(p);
      }
      ghost var dynamic := members;
      assert [p][..0] == [];
      if t.Parameterized? && t.raw in CollectionToMutable {
        var element := t.args[0];
        members := members + [CollectionProperty(p.name, Parameterized(CollectionToMutable[t.raw], [element], false), "mutable" + t.raw.simple + "Of()")];
        var fn := GenerateCollectionLambda(file, p.name, t);
        members := members + [fn];
        assert members == dynamic + CollectionMembers(p.name, t);
        assert CollectionRequests(file, [p]) == [Request(file, element)];
      } else {
        members := members + [NullableProperty(p.name, AsNullable(t))];
        assert CollectionRequests(file, [p]) == [];
      }
    }

    /** The parameters of a primary constructor, in order: each one's members
        and its wrapped description for `build`. */
    method GenerateProperties(file: string, ps: seq<Parameter>)
      returns (members: seq<Member>, wrapped: seq<WrappedParameter>, dynamicValues: seq<string>)
      requires AllClassifiable(ps)
      modifies this`collectionBuilders
      ensures members == PropertiesOf(config, ps)
      ensures wrapped == WrapAll(config, ps)
      ensures dynamicValues == DynamicValueNames(config, ps)
      ensures collectionBuilders == RegisterAll(old(collectionBuilders), CollectionRequests(file, ps))
    {
      members := [];
      wrapped := [];
      dynamicValues := [];
      var i := 0;
      while i < |ps|
        invariant 0 <= i <= |ps|
        invariant members == PropertiesOf(config, ps[..i])
        invariant wrapped == WrapAll(config, ps[..i])
        invariant dynamicValues == DynamicValueNames(config, ps[..i])
        invariant collectionBuilders == RegisterAll(old(collectionBuilders), CollectionRequests(file, ps[..i]))
      {
        var p := ps[i];
        var isDynamic := IsDynamic(config, p.name, p.typeName);
        assert ps[..i + 1][..i] == ps[..i];
        if isDynamic && p.name !in dynamicValues {
          dynamicValues := dynamicValues + [p.name];
        }
        var ms := GenerateProperty(file, p);
        PrefixStep(config, ps, i);
        WrapAllStep(config, ps, i);
        RequestsStep(old(collectionBuilders), file, ps, i);
        members := members + ms;
        wrapped := wrapped + [WrappedParameter(p.name, p.notNull, p.nullValue, isDynamic)];
        i := i + 1;
      }
      assert ps[..|ps|] == ps;
    }

    /** Visiting an annotated class: records it under all its supertypes,
        generates its parameters' members (registering multi-item builders),
        its `build` function, and stores its builder. */
    method Visit(f: Facts, d: ClassDecl)
      requires Valid() && Acyclic(f) && Processable(f, d)
      modifies this
      ensures Valid()
      ensures subTypes == AddAll(old(subTypes), SuperKeys(f, d.superTypes, f.depth[ClassNameOf(d)]), ClassNameOf(d))
      ensures collectionBuilders == RegisterAll(old(collectionBuilders), CollectionRequests(d.file, d.parameters))
      ensures builderClasses == old(builderClasses)[ClassNameOf(d) :=
                ClassInfo(BuilderClassName(ClassNameOf(d)), d.file, TypeVariables(d), BuilderMembers(config, d),
                          CompanionOf(config, d), d.parameters)]
    {
      var base := DeclaredClassName(d.pkg, d.parent, d.simple);
      var builderClassName := BuilderClassName(base);
      ghost var keys := SuperKeys(f, d.superTypes, f.depth[base]);
      if d.superTypes != [] {
        ResolveSuperTypes(f, d.superTypes, base, f.depth[base]);
      }
      var typeVariables := TypeVariables(d);
      var members, wrapped, dynamicValues := GenerateProperties(d.file, d.parameters);
      var plan := GenerateBuildFunction(config.staticDynamicValueClass, base, wrapped, typeVariables);
      var companion := ImmediateDynamicValuesGetter(base, dynamicValues, |typeVariables|);
      builderClasses := builderClasses[base := ClassInfo(builderClassName, d.file, typeVariables, members + [BuildFunction(plan)],
                                                         companion, d.parameters)];
      forall key, x | key in subTypes && x in subTypes[key] ensures x in builderClasses {
        AddAllMembers(old(subTypes), keys, base, key, x);
      }
      RegisterAllConsistent(old(collectionBuilders), CollectionRequests(d.file, d.parameters));
    }

    /** One pass of `getSubtypeInfoFor`'s loop: the subtype is kept, with its
        builder and receiver, exactly when it fits the parameter. */
    method ExamineSubtype(f: Facts, t: TypeName, typeVariables: seq<TypeName>, subType: ClassName) returns (found: seq<SubtypeInfo>)
      requires Valid() && subType in builderClasses
      requires Resolvable(f, t, typeVariables, subType)
      ensures found == InfoFor(f, t, typeVariables, subType)
    {
      var rawType := if t.Parameterized? then t.raw else t.cls;
      var receiverTypeArguments: seq<TypeName> := [AnyType];
      if t.Parameterized? {
        var superClassConstructorCall := FirstNaming(DeclaredSupers(f, subType), Canonical(rawType));
        if superClassConstructorCall.Some? {
          var result := HandleReceiverType(typeVariables, t.args, RefArguments(superClassConstructorCall.value),
                                           f.variances[Canonical(rawType)], f.allSuperTypes);
          if result.None? {
            return [];
          }
          receiverTypeArguments := result.value;
        }
      }
      var allAny := forall j :: 0 <= j < |receiverTypeArguments| ==> SameType(receiverTypeArguments[j], AnyType);
      found := [SubtypeInfo(subType, builderClasses[subType].builderClassName, if allAny then None else Some(receiverTypeArguments))];
    }

    /** `getSubtypeInfoFor`: the recorded subtypes of the parameter type's raw
        class that fit it, in order, with their builders and receivers. */
    method GetSubtypeInfoFor(f: Facts, t: TypeName, typeVariables: seq<TypeName>) returns (infos: seq<SubtypeInfo>)
      requires Valid()
      requires (t.Class? || t.Parameterized?) && ResolvableAll(f, t, typeVariables, Get(subTypes, RawOf(t)))
      ensures infos == SubtypeInfos(f, t, typeVariables, Get(subTypes, RawOf(t)))
    {
      var rawType := if t.Parameterized? then t.raw else t.cls;
      var subs := if rawType in subTypes then subTypes[rawType] else [];
      infos := [];
      var i := 0;
      while i < |subs|
        invariant 0 <= i <= |subs|
        invariant infos == SubtypeInfos(f, t, typeVariables, subs[..i])
      {
        var subType := subs[i];
        assert subType in subTypes[rawType];
        var found := ExamineSubtype(f, t, typeVariables, subType);
        SubtypeInfosStep(f, t, typeVariables, subs, i);
        infos := infos + found;
        i := i + 1;
      }
      assert subs[..|subs|] == subs;
    }

    /** The loop of `finish` over the fitting subtypes of one parameter: one
        builder function each, named after the subtype and the parameter. */
    method SubtypeBuilderFunctions(owner: ClassName, parameterName: string, subtypeInfo: seq<SubtypeInfo>) returns (members: seq<Member>)
      ensures members == SubtypeFunctions(owner, parameterName, subtypeInfo)
    {
      members := [];
      var k := 0;
      while k < |subtypeInfo|
        invariant 0 <= k <= |subtypeInfo|
        invariant members == SubtypeFunctions(owner, parameterName, subtypeInfo[..k])
      {
        var info := subtypeInfo[k];
        var functionName := Decapitalize(info.subType.simple);
        var fixedParameterName := Capitalize(parameterName);
        var newFunctionName := if EndsWith(functionName, fixedParameterName) then functionName else functionName + fixedParameterName;
        var receiver := if info.receiverTypeArguments.Some?
                        then Some(Parameterized(owner, info.receiverTypeArguments.value, false)) else None;
        SubtypeFunctionsSnoc(owner, parameterName, subtypeInfo, k);
        members := members + [BuilderFunction(newFunctionName, parameterName, Class(info.builderClassName, false), receiver, false)];
        k := k + 1;
      }
      assert subtypeInfo[..|subtypeInfo|] == subtypeInfo;
    }

    /** The functions `finish` adds for one parameter of the builder of `c`:
        one per fitting subtype, then one for the parameter's own builder. */
    method FinishParameter(f: Facts, c: ClassName, p: Parameter) returns (members: seq<Member>)
      requires Valid() && c in builderClasses
      requires Finishable(f, subTypes, builderClasses[c].typeVariables, p)
      ensures members == FinishMembers(f, subTypes, builderClasses.Keys, builderClasses[c].builderClassName,
                                       builderClasses[c].typeVariables, p.name, p.typeName)
    {
      var classInfo := builderClasses[c];
      var t := p.typeName;
      var rawType := if t.Parameterized? then t.raw else t.cls;
      var subtypeInfo := GetSubtypeInfoFor(f, t, classInfo.typeVariables);
      members := SubtypeBuilderFunctions(classInfo.builderClassName, p.name, subtypeInfo);
      if rawType in builderClasses {
        var builderClassName := if t.Parameterized? then Parameterized(builderClasses[rawType].builderClassName, t.args, false)
                                else Class(builderClasses[rawType].builderClassName, false);
        members := members + [BuilderFunction(p.name, p.name, builderClassName, None, false)];
      }
    }

    /** The loop of `finish` over the fitting subtypes of a multi-item
        builder's item class: one function each, adding to the collection. */
    method AppendingBuilderFunctions(owner: ClassName, subtypeInfo: seq<SubtypeInfo>) returns (members: seq<Member>)
      ensures members == AppendingSubtypeFunctions(owner, subtypeInfo)
    {
      members := [];
      var k := 0;
      while k < |subtypeInfo|
        invariant 0 <= k <= |subtypeInfo|
        invariant members == AppendingSubtypeFunctions(owner, subtypeInfo[..k])
      {
        var info := subtypeInfo[k];
        var receiver := if info.receiverTypeArguments.Some?
                        then Some(Parameterized(owner, info.receiverTypeArguments.value, false)) else None;
        AppendingSubtypeFunctionsSnoc(owner, subtypeInfo, k);
        members := members + [BuilderFunction(Decapitalize(info.subType.simple), ParentCollection,
                                              Class(info.builderClassName, false), receiver, true)];
        k := k + 1;
      }
      assert subtypeInfo[..|subtypeInfo|] == subtypeInfo;
    }

    /** One multi-item builder of `finish`'s second loop, for the registry
        entry `builderClassName`; `itemTypeParameters` are the type parameters
        the symbol table gives for the item class. None when the processor
        stops on a generic item class registered as a plain class. */
    method GenerateMultiBuilder(f: Facts, builderClassName: ClassName, itemTypeParameters: seq<TypeParameter>)
      returns (r: Option<MultiBuilderClass>)
      requires Valid() && builderClassName in collectionBuilders
      requires MultiBuildable(f, subTypes, collectionBuilders[builderClassName], TypeVariablesOf(itemTypeParameters))
      ensures r == MultiBuilderFor(f, subTypes, builderClasses.Keys, builderClassName,
                                   collectionBuilders[builderClassName], TypeVariablesOf(itemTypeParameters))
    {
      var info := collectionBuilders[builderClassName];
      var parameters := TypeVariablesOf(itemTypeParameters);
      var collectionType := info.collectionType;
      var valueType: TypeName;
      if parameters == [] {
        valueType := collectionType;
      } else if collectionType.Parameterized? {
        valueType := Parameterized(collectionType.raw, parameters, false);
      } else {
        return None;
      }
      assert ValueType(collectionType, parameters) == Some(valueType);
      var mutableCollectionType := Parameterized(MutableCollectionClass, [valueType], false);
      var functionName := Decapitalize(info.rawTypeArgumentClass.simple);
      var members := [CollectionProperty(ParentCollection, mutableCollectionType, ParentCollection),
                      AddFunction(functionName, ParentCollection, valueType)];
      var subtypeInfo := GetSubtypeInfoFor(f, valueType, parameters);
      var appending := AppendingBuilderFunctions(builderClassName, subtypeInfo);
      members := members + appending;
      var rawValueType := if valueType.Parameterized? then valueType.raw else valueType.cls;
      if rawValueType in builderClasses {
        var returnType := if valueType.Parameterized? then Parameterized(builderClasses[rawValueType].builderClassName, valueType.args, false)
                          else Class(builderClasses[rawValueType].builderClassName, false);
        assert returnType == OwnBuilderType(valueType);
        members := members + [BuilderFunction(functionName, ParentCollection, returnType, None, true)];
      }
      assert rawValueType == RawOf(valueType);
      assert subtypeInfo == SubtypeInfos(f, valueType, parameters, Get(subTypes, RawOf(valueType)));
      assert members == [CollectionProperty(ParentCollection, mutableCollectionType, ParentCollection),
                         AddFunction(functionName, ParentCollection, valueType)]
                        + AppendingSubtypeFunctions(builderClassName, subtypeInfo)
                        + AppendingOwnBuilderFunction(builderClasses.Keys, functionName, valueType);
      return Some(MultiBuilderClass(builderClassName, parameters, valueType, members));
    }

    /** The functions `finish` adds to the builder of `c`, parameter by parameter. */
    method FinishClass(f: Facts, c: ClassName) returns (members: seq<Member>)
      requires Valid() && c in builderClasses && ClassTyped(builderClasses[c].parameters)
      requires forall i :: 0 <= i < |builderClasses[c].parameters| ==>
                 Finishable(f, subTypes, builderClasses[c].typeVariables, builderClasses[c].parameters[i])
      ensures members == FinishedMembers(f, subTypes, builderClasses.Keys, builderClasses[c], builderClasses[c].parameters)
    {
      var ps := builderClasses[c].parameters;
      members := [];
      var i := 0;
      while i < |ps|
        invariant 0 <= i <= |ps|
        invariant members == FinishedMembers(f, subTypes, builderClasses.Keys, builderClasses[c], ps[..i])
      {
        var ms := FinishParameter(f, c, ps[i]);
        FinishedStep(f, subTypes, builderClasses.Keys, builderClasses[c], ps, i);
        members := members + ms;
        i := i + 1;
      }
      assert ps[..|ps|] == ps;
    }
  }
}
