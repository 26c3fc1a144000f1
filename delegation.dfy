/** Subtype delegation: which annotated subtypes of a parameter's type get a
    builder function in the enclosing builder, with which receiver, and the
    functions `finish` adds for a parameter. */
module Delegation {
  import opened Names
  import opened Naming
  import opened Generated
  import opened Receiver
  import opened SubtypeIndex

  /** A subtype that fits a parameter, its builder, and the type arguments of
      the receiver its builder function needs (none: no receiver). */
  datatype SubtypeInfo = SubtypeInfo(subType: ClassName, builderClassName: ClassName, receiverTypeArguments: Option<seq<TypeName>>)

  /** `Raw` for a type known to be a class or parameterized. */
  function RawOf(t: TypeName): (c: ClassName)
    requires t.Class? || t.Parameterized?
    ensures Raw(t) == Some(c)
  {
    Raw(t).value
  }

  predicate NamesClass(t: TypeName, name: string)
  {
    Raw(t).Some? && Canonical(Raw(t).value) == name
  }

  /** The first of `refs` naming the class `name`. */
  function FirstNaming(refs: seq<TypeName>, name: string): (r: Option<TypeName>)
    ensures r.None? <==> forall i :: 0 <= i < |refs| ==> !NamesClass(refs[i], name)
    ensures r.Some? ==> exists i :: 0 <= i < |refs| && refs[i] == r.value && NamesClass(refs[i], name)
                                    && forall j :: 0 <= j < i ==> !NamesClass(refs[j], name)
  {
    if refs == [] then None
    else if NamesClass(refs[0], name) then Some(refs[0])
    else
      var r := FirstNaming(refs[1..], name);
      assert forall i :: 1 <= i < |refs| ==> refs[i] == refs[1..][i - 1];
      r
  }

  /** The type arguments a supertype reference passes. */
  function RefArguments(ref: TypeName): seq<TypeName>
  {
    if ref.Parameterized? then ref.args else []
  }

  /** The reference through which `sub` directly extends the raw class of `t`, if any. */
  function DirectSuperRef(f: Facts, t: TypeName, sub: ClassName): Option<TypeName>
    requires t.Class? || t.Parameterized?
  {
    FirstNaming(DeclaredSupers(f, sub), Canonical(RawOf(t)))
  }

  /** Whether the parameter's type arguments can be compared with those the
      reference `ref` passes: the declaration of the parameter's raw class is
      known and every position can be compared. */
  predicate Comparable(f: Facts, t: TypeName, typeVariables: seq<TypeName>, ref: TypeName)
    requires t.Parameterized?
  {
    && Canonical(t.raw) in f.variances
    && WellFormed(typeVariables, t.args, RefArguments(ref), f.variances[Canonical(t.raw)], f.allSuperTypes)
  }

  /** What the resolver assumes of a subtype (anything else stops it): the
      parameter's type is a class, and when `sub` passes type arguments
      directly to its parameterized raw class, they can be compared. */
  predicate Resolvable(f: Facts, t: TypeName, typeVariables: seq<TypeName>, sub: ClassName)
  {
    && (t.Class? || t.Parameterized?)
    && (t.Parameterized? && DirectSuperRef(f, t, sub).Some? ==> Comparable(f, t, typeVariables, DirectSuperRef(f, t, sub).value))
  }

  predicate ResolvableAll(f: Facts, t: TypeName, typeVariables: seq<TypeName>, subs: seq<ClassName>)
  {
    forall i :: 0 <= i < |subs| ==> Resolvable(f, t, typeVariables, subs[i])
  }

  /** Every receiver slot is the non-null `Any`. */
  predicate AllAny(slots: seq<TypeName>)
  {
    forall j :: 0 <= j < |slots| ==> SameType(slots[j], AnyType)
  }

  datatype Fit = Dropped | Fits(receiver: Option<seq<TypeName>>)

  /** Whether `sub` fits a parameter of type `t`, and with which receiver. A
      subtype whose arguments cannot be compared stops the processor before
      this point (see `Resolvable`); it is counted as dropped here. */
  function FitOf(f: Facts, t: TypeName, typeVariables: seq<TypeName>, sub: ClassName): Fit
  {
    if t.Parameterized? && DirectSuperRef(f, t, sub).Some? then
      var ref := DirectSuperRef(f, t, sub).value;
      if !Comparable(f, t, typeVariables, ref) then Dropped
      else
        match ReceiverTypeArguments(typeVariables, t.args, RefArguments(ref), f.variances[Canonical(t.raw)], f.allSuperTypes, |t.args|)
        case None => Dropped
        case Some(slots) => Fits(if AllAny(slots) then None else Some(slots))
    else Fits(None)
  }

  /** For a resolvable subtype passing type arguments directly, the fit is
      read off the receiver computation. */
  lemma FitOfCompared(f: Facts, t: TypeName, typeVariables: seq<TypeName>, sub: ClassName)
    requires Resolvable(f, t, typeVariables, sub) && t.Parameterized? && DirectSuperRef(f, t, sub).Some?
    ensures FitOf(f, t, typeVariables, sub)
            == match ReceiverTypeArguments(typeVariables, t.args, RefArguments(DirectSuperRef(f, t, sub).value),
                                           f.variances[Canonical(t.raw)], f.allSuperTypes, |t.args|)
               case None => Dropped
               case Some(slots) => Fits(if AllAny(slots) then None else Some(slots))
  {
  }

  function InfoFor(f: Facts, t: TypeName, typeVariables: seq<TypeName>, sub: ClassName): seq<SubtypeInfo>
  {
    match FitOf(f, t, typeVariables, sub)
    case Dropped => []
    case Fits(r) => [SubtypeInfo(sub, BuilderClassName(sub), r)]
  }

  /** The results of examining each of `subs` in turn, concatenated. */
  function FlatMap(examine: ClassName -> seq<SubtypeInfo>, subs: seq<ClassName>): seq<SubtypeInfo>
    decreases |subs|
  {
    if subs == [] then [] else examine(subs[0]) + FlatMap(examine, subs[1..])
  }

  /** The fitting subtypes among `subs`, in order. */
  function SubtypeInfos(f: Facts, t: TypeName, typeVariables: seq<TypeName>, subs: seq<ClassName>): seq<SubtypeInfo>
  {
    FlatMap(sub => InfoFor(f, t, typeVariables, sub), subs)
  }

  lemma {:induction false} FlatMapConcat(examine: ClassName -> seq<SubtypeInfo>, a: seq<ClassName>, b: seq<ClassName>)
    ensures FlatMap(examine, a + b) == FlatMap(examine, a) + FlatMap(examine, b)
    decreases |a|
  {
    if a == [] {
      assert a + b == b;
    } else {
      assert (a + b)[0] == a[0] && (a + b)[1..] == a[1..] + b;
      FlatMapConcat(examine, a[1..], b);
    }
  }

  /** The subtypes are examined one after another: the result for a
      concatenation is the concatenation of the results, so the survivors keep
      the index's order. */
  lemma SubtypeInfosConcat(f: Facts, t: TypeName, typeVariables: seq<TypeName>, a: seq<ClassName>, b: seq<ClassName>)
    ensures SubtypeInfos(f, t, typeVariables, a + b) == SubtypeInfos(f, t, typeVariables, a) + SubtypeInfos(f, t, typeVariables, b)
  {
    FlatMapConcat(sub => InfoFor(f, t, typeVariables, sub), a, b);
  }

  /** Examining one more subtype of the index extends the survivors by its own result. */
  lemma SubtypeInfosStep(f: Facts, t: TypeName, typeVariables: seq<TypeName>, subs: seq<ClassName>, i: nat)
    requires i < |subs|
    ensures SubtypeInfos(f, t, typeVariables, subs[..i + 1])
            == SubtypeInfos(f, t, typeVariables, subs[..i]) + InfoFor(f, t, typeVariables, subs[i])
  {
    assert subs[..i + 1] == subs[..i] + [subs[i]];
    SubtypeInfosConcat(f, t, typeVariables, subs[..i], [subs[i]]);
    var examine := sub => InfoFor(f, t, typeVariables, sub);
    assert [subs[i]][1..] == [];
    assert FlatMap(examine, [subs[i]]) == examine(subs[i]) + FlatMap(examine, []);
  }

  /** `info` describes a fitting subtype from `subs`, with its own builder and
      the receiver its fit calls for. */
  predicate Survivor(f: Facts, t: TypeName, typeVariables: seq<TypeName>, subs: seq<ClassName>, info: SubtypeInfo)
  {
    && info.subType in subs
    && FitOf(f, t, typeVariables, info.subType) == Fits(info.receiverTypeArguments)
    && info.builderClassName == BuilderClassName(info.subType)
  }

  /** Every survivor is a fitting subtype from the index, with its own
      builder and the receiver its fit calls for. */
  lemma {:induction false} SubtypeInfosSound(f: Facts, t: TypeName, typeVariables: seq<TypeName>, subs: seq<ClassName>)
    ensures forall k :: 0 <= k < |SubtypeInfos(f, t, typeVariables, subs)| ==>
              Survivor(f, t, typeVariables, subs, SubtypeInfos(f, t, typeVariables, subs)[k])
    decreases |subs|
  {
    if subs != [] {
      SubtypeInfosSound(f, t, typeVariables, subs[1..]);
      var head := InfoFor(f, t, typeVariables, subs[0]);
      var tail := SubtypeInfos(f, t, typeVariables, subs[1..]);
      var infos := SubtypeInfos(f, t, typeVariables, subs);
      assert infos == head + tail;
      forall k | 0 <= k < |infos| ensures Survivor(f, t, typeVariables, subs, infos[k]) {
        if k >= |head| {
          assert infos[k] == tail[k - |head|];
          assert Survivor(f, t, typeVariables, subs[1..], tail[k - |head|]);
        }
      }
    }
  }

  /** Every fitting subtype in the index survives. */
  lemma {:induction false} SubtypeInfosComplete(f: Facts, t: TypeName, typeVariables: seq<TypeName>, subs: seq<ClassName>, i: nat)
    requires i < |subs| && FitOf(f, t, typeVariables, subs[i]).Fits?
    ensures exists k :: 0 <= k < |SubtypeInfos(f, t, typeVariables, subs)| && SubtypeInfos(f, t, typeVariables, subs)[k].subType == subs[i]
    decreases |subs|
  {
    var head := InfoFor(f, t, typeVariables, subs[0]);
    var tail := SubtypeInfos(f, t, typeVariables, subs[1..]);
    var infos := SubtypeInfos(f, t, typeVariables, subs);
    assert infos == head + tail;
    if i == 0 {
      assert infos[0].subType == subs[0];
    } else {
      assert subs[1..][i - 1] == subs[i];
      SubtypeInfosComplete(f, t, typeVariables, subs[1..], i - 1);
      var k :| 0 <= k < |tail| && tail[k].subType == subs[i];
      assert infos[k + |head|] == tail[k];
    }
  }

  /** The survivors are exactly the fitting subtypes: each carries its own
      builder and the receiver its fit calls for. */
  lemma SubtypeInfosSpec(f: Facts, t: TypeName, typeVariables: seq<TypeName>, subs: seq<ClassName>)
    ensures var infos := SubtypeInfos(f, t, typeVariables, subs);
            forall k :: 0 <= k < |infos| ==> Survivor(f, t, typeVariables, subs, infos[k])
    ensures var infos := SubtypeInfos(f, t, typeVariables, subs);
            forall i :: 0 <= i < |subs| ==>
              (FitOf(f, t, typeVariables, subs[i]).Fits? <==> exists k :: 0 <= k < |infos| && infos[k].subType == subs[i])
  {
    SubtypeInfosSound(f, t, typeVariables, subs);
    forall i | 0 <= i < |subs| && FitOf(f, t, typeVariables, subs[i]).Fits?
      ensures exists k :: 0 <= k < |SubtypeInfos(f, t, typeVariables, subs)| && SubtypeInfos(f, t, typeVariables, subs)[k].subType == subs[i]
    {
      SubtypeInfosComplete(f, t, typeVariables, subs, i);
    }
  }

  /** For a parameter whose type takes no type arguments every subtype in the
      index fits, in order, without a receiver. */
  lemma {:induction false} ClassTypeKeepsAll(f: Facts, t: TypeName, typeVariables: seq<TypeName>, subs: seq<ClassName>)
    requires t.Class?
    ensures var infos := SubtypeInfos(f, t, typeVariables, subs);
            |infos| == |subs| && forall k :: 0 <= k < |subs| ==> infos[k] == SubtypeInfo(subs[k], BuilderClassName(subs[k]), None)
    decreases |subs|
  {
    if subs != [] {
      assert forall i :: 0 <= i < |subs[1..]| ==> subs[1..][i] == subs[i + 1];
      ClassTypeKeepsAll(f, t, typeVariables, subs[1..]);
    }
  }

  /** A subtype is dropped exactly when it passes type arguments directly to
      the parameter's raw class and some position rejects them; a receiver,
      when there is one, has one slot per type variable of the builder and
      some slot other than `Any`. */
  lemma FitSpec(f: Facts, t: TypeName, typeVariables: seq<TypeName>, sub: ClassName)
    requires Resolvable(f, t, typeVariables, sub)
    ensures FitOf(f, t, typeVariables, sub).Dropped? <==>
              && t.Parameterized? && DirectSuperRef(f, t, sub).Some?
              && exists i :: 0 <= i < |t.args|
                             && RejectsAt(typeVariables, t.args, RefArguments(DirectSuperRef(f, t, sub).value),
                                          f.variances[Canonical(t.raw)], f.allSuperTypes, i)
    ensures !t.Parameterized? || DirectSuperRef(f, t, sub).None? ==> FitOf(f, t, typeVariables, sub) == Fits(None)
    ensures FitOf(f, t, typeVariables, sub).Fits? && FitOf(f, t, typeVariables, sub).receiver.Some? ==>
              var r := FitOf(f, t, typeVariables, sub).receiver.value;
              |r| == |typeVariables| && !AllAny(r)
    ensures t.Parameterized? && DirectSuperRef(f, t, sub).Some? ==>
              var slots := ReceiverTypeArguments(typeVariables, t.args, RefArguments(DirectSuperRef(f, t, sub).value),
                                                 f.variances[Canonical(t.raw)], f.allSuperTypes, |t.args|);
              slots.Some? ==> FitOf(f, t, typeVariables, sub) == Fits(if AllAny(slots.value) then None else Some(slots.value))
  {
    if t.Parameterized? && DirectSuperRef(f, t, sub).Some? {
      FitOfCompared(f, t, typeVariables, sub);
      ExcludedIff(typeVariables, t.args, RefArguments(DirectSuperRef(f, t, sub).value),
                  f.variances[Canonical(t.raw)], f.allSuperTypes, |t.args|);
    }
  }

  /** A subtype passing the parameter's type arguments (the same text at every
      position, so a type variable of the same name whatever its bounds and
      variance) fits, and its receiver leaves every type variable a star
      projection. */
  lemma MatchingArgumentsFit(f: Facts, t: TypeName, typeVariables: seq<TypeName>, sub: ClassName)
    requires Resolvable(f, t, typeVariables, sub)
    requires t.Parameterized? && DirectSuperRef(f, t, sub).Some?
    requires var arguments := RefArguments(DirectSuperRef(f, t, sub).value);
             |t.args| <= |arguments| && forall i :: 0 <= i < |t.args| ==> SameType(t.args[i], arguments[i])
    ensures FitOf(f, t, typeVariables, sub) == Fits(if typeVariables == [] then None else Some(StarSlots(|typeVariables|)))
  {
    FitOfCompared(f, t, typeVariables, sub);
    var arguments := RefArguments(DirectSuperRef(f, t, sub).value);
    var variances := f.variances[Canonical(t.raw)];
    EqualArgumentsKeepStars(typeVariables, t.args, arguments, variances, f.allSuperTypes, |t.args|);
    var stars := StarSlots(|typeVariables|);
    assert ReceiverTypeArguments(typeVariables, t.args, arguments, variances, f.allSuperTypes, |t.args|) == Some(stars);
    if typeVariables != [] {
      StarIsNotAny();
      assert !SameType(stars[0], AnyType);
    }
  }

  /** A parameter `shape: Shape<T>` of a builder for `Holder<out T>`, and an
      annotated `Circle<T : Number>` extending `Shape<T>`: the two `T`s differ
      in bounds and variance but are the same type name, so Circle fits with
      a receiver that leaves `T` a star projection. */
  lemma SameNamedVariableFits()
    ensures var shape := ClassName("shapes", [], "Shape");
            var circle := ClassName("shapes", [], "Circle");
            var number := Class(ClassName("kotlin", [], "Number"), false);
            var f := Facts(map[circle := [Parameterized(shape, [TypeVar("T", [number], Invariant, false)], false)]],
                           map[], map["shapes.Shape" := [Invariant]], map[circle := 1]);
            FitOf(f, Parameterized(shape, [TypeVar("T", [], Covariant, false)], false),
                  [TypeVar("T", [], Invariant, false)], circle)
            == Fits(Some([Star]))
  {
    var shape := ClassName("shapes", [], "Shape");
    var circle := ClassName("shapes", [], "Circle");
    var number := Class(ClassName("kotlin", [], "Number"), false);
    var f := Facts(map[circle := [Parameterized(shape, [TypeVar("T", [number], Invariant, false)], false)]],
                   map[], map["shapes.Shape" := [Invariant]], map[circle := 1]);
    var t := Parameterized(shape, [TypeVar("T", [], Covariant, false)], false);
    var typeVariables := [TypeVar("T", [], Invariant, false)];
    assert Canonical(shape) == "shapes.Shape";
    assert DirectSuperRef(f, t, circle) == Some(f.superTypes[circle][0]);
    assert PositionOk(typeVariables, t.args, RefArguments(f.superTypes[circle][0]), [Invariant], map[], 0);
    MatchingArgumentsFit(f, t, typeVariables, circle);
    assert StarSlots(1) == [Star];
  }

  /** A parameter `shape: Shape<T>` of a builder for `Holder<T>`, where `T`
      is declared without a bound, and an annotated `Square` extending
      `Shape<Int>`: `T`'s bound is `Any?`, a supertype of `Int`, so Square
      fits and its receiver takes `Int` for `T`. */
  lemma UnboundedVariableTakesArgument()
    ensures var shape := ClassName("shapes", [], "Shape");
            var square := ClassName("shapes", [], "Square");
            var intType := Class(ClassName("kotlin", [], "Int"), false);
            var f := Facts(map[square := [Parameterized(shape, [intType], false)]],
                           map["kotlin.Int" := {"kotlin.Any", "kotlin.Number", "kotlin.Comparable"}],
                           map["shapes.Shape" := [Invariant]], map[square := 1]);
            FitOf(f, Parameterized(shape, [TypeVar("T", [], Invariant, false)], false),
                  [TypeVar("T", EffectiveBounds([]), Invariant, false)], square)
            == Fits(Some([intType]))
  {
    var shape := ClassName("shapes", [], "Shape");
    var square := ClassName("shapes", [], "Square");
    var intType := Class(ClassName("kotlin", [], "Int"), false);
    var supers := map["kotlin.Int" := {"kotlin.Any", "kotlin.Number", "kotlin.Comparable"}];
    var f := Facts(map[square := [Parameterized(shape, [intType], false)]], supers,
                   map["shapes.Shape" := [Invariant]], map[square := 1]);
    var t := Parameterized(shape, [TypeVar("T", [], Invariant, false)], false);
    var typeVariables := [TypeVar("T", EffectiveBounds([]), Invariant, false)];
    assert Canonical(shape) == "shapes.Shape";
    assert Canonical(intType.cls) == "kotlin.Int";
    assert Canonical(AnyClass) == "kotlin.Any";
    assert DirectSuperRef(f, t, square) == Some(f.superTypes[square][0]);
    var arguments := RefArguments(f.superTypes[square][0]);
    assert arguments == [intType];
    assert IndexOfName(typeVariables, "T") == 0;
    assert PositionOk(typeVariables, t.args, arguments, [Invariant], supers, 0);
    assert !RejectsAt(typeVariables, t.args, arguments, [Invariant], supers, 0);
    assert StarSlots(1) == [Star];
    assert PositionVariance(t.args[0], [Invariant], 0) == Invariant;
    assert [Star][0 := intType] == [intType];
    assert Step(typeVariables, t.args, arguments, [Invariant], supers, 0, [Star]) == Some([intType]);
    assert ReceiverTypeArguments(typeVariables, t.args, arguments, [Invariant], supers, 1) == Some([intType]);
    assert !AllAny([intType]);
  }

  /** The same parameter and an annotated `Anything` extending `Shape<Any>`:
      `T`'s bound `Any?` is neither `Any` itself nor one of `Any`'s
      supertypes, so Anything is dropped. */
  lemma NonNullAnyArgumentDropped()
    ensures var shape := ClassName("shapes", [], "Shape");
            var anything := ClassName("shapes", [], "Anything");
            var f := Facts(map[anything := [Parameterized(shape, [AnyType], false)]],
                           map["kotlin.Any" := {}], map["shapes.Shape" := [Invariant]], map[anything := 1]);
            FitOf(f, Parameterized(shape, [TypeVar("T", [], Invariant, false)], false),
                  [TypeVar("T", EffectiveBounds([]), Invariant, false)], anything)
            == Dropped
  {
    var shape := ClassName("shapes", [], "Shape");
    var anything := ClassName("shapes", [], "Anything");
    var supers: map<string, set<string>> := map["kotlin.Any" := {}];
    var f := Facts(map[anything := [Parameterized(shape, [AnyType], false)]], supers,
                   map["shapes.Shape" := [Invariant]], map[anything := 1]);
    var t := Parameterized(shape, [TypeVar("T", [], Invariant, false)], false);
    var typeVariables := [TypeVar("T", EffectiveBounds([]), Invariant, false)];
    assert Canonical(shape) == "shapes.Shape";
    assert Canonical(AnyClass) == "kotlin.Any";
    assert DirectSuperRef(f, t, anything) == Some(f.superTypes[anything][0]);
    var arguments := RefArguments(f.superTypes[anything][0]);
    assert arguments == [AnyType];
    assert IndexOfName(typeVariables, "T") == 0;
    assert PositionOk(typeVariables, t.args, arguments, [Invariant], supers, 0);
    assert RejectsAt(typeVariables, t.args, arguments, [Invariant], supers, 0);
  }

  // ---------------------------------------------------------------------
  // The builder functions `finish` adds for one parameter.

  /** The receiver of a subtype's builder function: the enclosing builder
      applied to the receiver type arguments, when there are any. */
  function ReceiverOf(owner: ClassName, receiverTypeArguments: Option<seq<TypeName>>): Option<TypeName>
  {
    match receiverTypeArguments
    case None => None
    case Some(args) => Some(Parameterized(owner, args, false))
  }

  /** One builder function per fitting subtype. */
  function SubtypeFunctions(owner: ClassName, parameterName: string, infos: seq<SubtypeInfo>): seq<Member>
  {
    seq(|infos|, k requires 0 <= k < |infos| =>
      BuilderFunction(SubtypeFunctionName(infos[k].subType.simple, parameterName), parameterName,
                      Class(infos[k].builderClassName, false), ReceiverOf(owner, infos[k].receiverTypeArguments), false))
  }

  lemma SubtypeFunctionsSnoc(owner: ClassName, parameterName: string, infos: seq<SubtypeInfo>, k: nat)
    requires k < |infos|
    ensures SubtypeFunctions(owner, parameterName, infos[..k + 1])
            == SubtypeFunctions(owner, parameterName, infos[..k]) + SubtypeFunctions(owner, parameterName, [infos[k]])
  {
    var longer := SubtypeFunctions(owner, parameterName, infos[..k + 1]);
    var before := SubtypeFunctions(owner, parameterName, infos[..k]);
    var last := SubtypeFunctions(owner, parameterName, [infos[k]]);
    forall j | 0 <= j < |longer| ensures longer[j] == (before + last)[j] {
      if j < k {
        assert infos[..k + 1][j] == infos[..k][j];
      } else {
        assert infos[..k + 1][j] == [infos[k]][0];
      }
    }
  }

  /** The builder of `t`'s own class, applied to `t`'s type arguments. */
  function OwnBuilderType(t: TypeName): TypeName
    requires t.Class? || t.Parameterized?
  {
    if t.Parameterized? then Parameterized(BuilderClassName(RawOf(t)), t.args, false) else Class(BuilderClassName(RawOf(t)), false)
  }

  /** The function opening the builder of the parameter's own class, when that class is annotated. */
  function OwnBuilderFunction(visited: set<ClassName>, parameterName: string, t: TypeName): seq<Member>
    requires t.Class? || t.Parameterized?
  {
    if RawOf(t) in visited then [BuilderFunction(parameterName, parameterName, OwnBuilderType(t), None, false)]
    else []
  }

  /** The members `finish` adds to the builder `owner` for the parameter `parameterName: t`. */
  function FinishMembers(f: Facts, subTypes: map<ClassName, seq<ClassName>>, visited: set<ClassName>, owner: ClassName,
                         typeVariables: seq<TypeName>, parameterName: string, t: TypeName): seq<Member>
    requires t.Class? || t.Parameterized?
  {
    SubtypeFunctions(owner, parameterName, SubtypeInfos(f, t, typeVariables, Get(subTypes, RawOf(t))))
    + OwnBuilderFunction(visited, parameterName, t)
  }

  /** The function of a fitting subtype `sub` for the parameter `parameterName`. */
  function SubtypeFunctionFor(f: Facts, t: TypeName, typeVariables: seq<TypeName>, owner: ClassName, parameterName: string, sub: ClassName): Member
  {
    BuilderFunction(SubtypeFunctionName(sub.simple, parameterName), parameterName, Class(BuilderClassName(sub), false),
                    ReceiverOf(owner, if FitOf(f, t, typeVariables, sub).Fits? then FitOf(f, t, typeVariables, sub).receiver else None), false)
  }

  /** The first functions are those of the fitting subtypes, in order; the
      last, if any, opens the parameter's own builder. */
  lemma FinishMembersAt(f: Facts, subTypes: map<ClassName, seq<ClassName>>, visited: set<ClassName>, owner: ClassName,
                        typeVariables: seq<TypeName>, parameterName: string, t: TypeName, k: nat)
    requires t.Class? || t.Parameterized?
    requires k < |SubtypeInfos(f, t, typeVariables, Get(subTypes, RawOf(t)))|
    ensures var infos := SubtypeInfos(f, t, typeVariables, Get(subTypes, RawOf(t)));
            var ms := FinishMembers(f, subTypes, visited, owner, typeVariables, parameterName, t);
            k < |ms| && ms[k] == SubtypeFunctions(owner, parameterName, infos)[k]
  {
  }

  /** Every function `finish` adds for a parameter sets that parameter; one
      per fitting subtype, each named with the capitalised parameter name at
      its end, then one opening the parameter's own builder exactly when its
      class is annotated. */
  lemma FinishShape(f: Facts, subTypes: map<ClassName, seq<ClassName>>, visited: set<ClassName>, owner: ClassName,
                    typeVariables: seq<TypeName>, parameterName: string, t: TypeName)
    requires t.Class? || t.Parameterized?
    ensures var ms := FinishMembers(f, subTypes, visited, owner, typeVariables, parameterName, t);
            forall k :: 0 <= k < |ms| ==> ms[k].BuilderFunction? && ms[k].target == parameterName && !ms[k].appends
    ensures var ms := FinishMembers(f, subTypes, visited, owner, typeVariables, parameterName, t);
            var n := |SubtypeInfos(f, t, typeVariables, Get(subTypes, RawOf(t)))|;
            && |ms| == n + (if RawOf(t) in visited then 1 else 0)
            && (forall k :: 0 <= k < n ==> EndsWith(ms[k].name, Capitalize(parameterName)))
            && (RawOf(t) in visited ==> ms[n].name == parameterName && ms[n].receiver.None?
                                        && Raw(ms[n].builder) == Some(BuilderClassName(RawOf(t))))
  {
    var infos := SubtypeInfos(f, t, typeVariables, Get(subTypes, RawOf(t)));
    var ms := FinishMembers(f, subTypes, visited, owner, typeVariables, parameterName, t);
    forall k | 0 <= k < |infos| ensures EndsWith(ms[k].name, Capitalize(parameterName)) {
      FinishMembersAt(f, subTypes, visited, owner, typeVariables, parameterName, t, k);
      SubtypeFunctionNameSpec(infos[k].subType.simple, parameterName);
    }
  }

  /** Every fitting subtype of the parameter's type gets its function: named
      after the subtype and the parameter, building with the subtype's
      builder, with a receiver exactly when its fit calls for one. */
  lemma FinishCovers(f: Facts, subTypes: map<ClassName, seq<ClassName>>, visited: set<ClassName>, owner: ClassName,
                     typeVariables: seq<TypeName>, parameterName: string, t: TypeName, i: nat)
    requires t.Class? || t.Parameterized?
    requires i < |Get(subTypes, RawOf(t))| && FitOf(f, t, typeVariables, Get(subTypes, RawOf(t))[i]).Fits?
    ensures SubtypeFunctionFor(f, t, typeVariables, owner, parameterName, Get(subTypes, RawOf(t))[i])
            in FinishMembers(f, subTypes, visited, owner, typeVariables, parameterName, t)
  {
    var subs := Get(subTypes, RawOf(t));
    var infos := SubtypeInfos(f, t, typeVariables, subs);
    SubtypeInfosSpec(f, t, typeVariables, subs);
    var k :| 0 <= k < |infos| && infos[k].subType == subs[i];
    FinishMembersAt(f, subTypes, visited, owner, typeVariables, parameterName, t, k);
  }

  /** Conversely, every subtype function comes from a fitting subtype. */
  lemma FinishSources(f: Facts, subTypes: map<ClassName, seq<ClassName>>, visited: set<ClassName>, owner: ClassName,
                      typeVariables: seq<TypeName>, parameterName: string, t: TypeName, k: nat)
    requires t.Class? || t.Parameterized?
    requires k < |SubtypeInfos(f, t, typeVariables, Get(subTypes, RawOf(t)))|
    ensures var subs := Get(subTypes, RawOf(t));
            exists i :: 0 <= i < |subs| && FitOf(f, t, typeVariables, subs[i]).Fits?
                        && FinishMembers(f, subTypes, visited, owner, typeVariables, parameterName, t)[k]
                           == SubtypeFunctionFor(f, t, typeVariables, owner, parameterName, subs[i])
  {
    var subs := Get(subTypes, RawOf(t));
    var infos := SubtypeInfos(f, t, typeVariables, subs);
    SubtypeInfosSpec(f, t, typeVariables, subs);
    FinishMembersAt(f, subTypes, visited, owner, typeVariables, parameterName, t, k);
    var i :| 0 <= i < |subs| && subs[i] == infos[k].subType;
  }
}
