/** The receiver-type computation of the subtype-delegation resolver: given the
    type arguments a builder parameter declares for a generic supertype and
    the arguments a subtype passes to that supertype, decide whether the
    subtype fits and, if so, which type arguments the receiver of its builder
    function takes (one slot per type variable of the enclosing builder). */
module Receiver {
  import opened Names

  /** The position of the first type variable called `name`, or -1. */
  function IndexOfName(typeVariables: seq<TypeName>, name: string): (r: int)
    ensures -1 <= r < |typeVariables|
    ensures r >= 0 ==> typeVariables[r].TypeVar? && typeVariables[r].name == name
    ensures r >= 0 ==> forall j :: 0 <= j < r ==> !(typeVariables[j].TypeVar? && typeVariables[j].name == name)
    ensures r == -1 <==> forall j :: 0 <= j < |typeVariables| ==> !(typeVariables[j].TypeVar? && typeVariables[j].name == name)
  {
    if typeVariables == [] then -1
    else if typeVariables[0].TypeVar? && typeVariables[0].name == name then 0
    else
      var r := IndexOfName(typeVariables[1..], name);
      assert forall j :: 1 <= j < |typeVariables| ==> typeVariables[j] == typeVariables[1..][j - 1];
      if r < 0 then -1 else r + 1
  }

  /** Every slot starts as the star projection. */
  function StarSlots(n: nat): (r: seq<TypeName>)
    ensures |r| == n && forall j :: 0 <= j < n ==> r[j] == Star
  {
    seq(n, _ => Star)
  }

  /** The variance that governs position `i`: a projection's own direction
      (`in` contravariant, otherwise covariant), else the variance the
      supertype declares for that type parameter. */
  function PositionVariance(declared: TypeName, declaredVariances: seq<Variance>, i: nat): Variance
    requires declared.Wildcard? || i < |declaredVariances|
  {
    if declared.Wildcard? then (if |declared.inTypes| > 0 then Contravariant else Covariant)
    else declaredVariances[i]
  }

  /** What the processor assumes of a position whose declared argument is not
      the same type name (`SameType`) as the subtype's (anything else stops it
      with a failed cast or lookup): the subtype's argument is a class known
      to the symbol table, a type variable is one of the builder's own with a
      class as first bound, a projection projects a class, and a plain
      argument is a class. The declared variances are read for every
      non-projection position. */
  predicate PositionOk(typeVariables: seq<TypeName>, declared: seq<TypeName>, arguments: seq<TypeName>,
                       declaredVariances: seq<Variance>, supers: map<string, set<string>>, i: nat)
    requires i < |declared| <= |arguments|
  {
    && (declared[i].Wildcard? || i < |declaredVariances|)
    && (!SameType(declared[i], arguments[i]) ==>
          && arguments[i].Class? && Canonical(arguments[i].cls) in supers
          && match declared[i]
             case TypeVar(name, bounds, _, _) => EffectiveBounds(bounds)[0].Class? && IndexOfName(typeVariables, name) >= 0
             case Wildcard(ins, outs, _) => if |ins| > 0 then ins[0].Class? else |outs| > 0 && outs[0].Class?
             case Class(_, _) => true
             case Parameterized(_, _, _) => false)
  }

  predicate WellFormed(typeVariables: seq<TypeName>, declared: seq<TypeName>, arguments: seq<TypeName>,
                       declaredVariances: seq<Variance>, supers: map<string, set<string>>)
  {
    |declared| <= |arguments|
    && forall i :: 0 <= i < |declared| ==> PositionOk(typeVariables, declared, arguments, declaredVariances, supers, i)
  }

  /** The class a differing position is checked against: a type variable's
      first bound (`Any?` when it is declared without one, see
      `EffectiveBounds`), a projection's `in` or `out` type, or the declared
      argument itself. */
  function BoundAt(typeVariables: seq<TypeName>, declared: seq<TypeName>, arguments: seq<TypeName>,
                   declaredVariances: seq<Variance>, supers: map<string, set<string>>, i: nat): (b: TypeName)
    requires WellFormed(typeVariables, declared, arguments, declaredVariances, supers)
    requires i < |declared| && !SameType(declared[i], arguments[i])
    ensures b.Class?
    ensures declared[i].TypeVar? && declared[i].bounds == [] ==> b == NullableAnyType
  {
    assert PositionOk(typeVariables, declared, arguments, declaredVariances, supers, i);
    match declared[i]
    case TypeVar(_, bounds, _, _) => EffectiveBounds(bounds)[0]
    case Wildcard(ins, outs, _) => if |ins| > 0 then ins[0] else outs[0]
    case Class(_, _) => declared[i]
  }

  /** Position `i` excludes the subtype: its arguments differ and the bound is
      neither the same type name as the subtype's argument nor one of that
      class's supertypes. */
  predicate RejectsAt(typeVariables: seq<TypeName>, declared: seq<TypeName>, arguments: seq<TypeName>,
                      declaredVariances: seq<Variance>, supers: map<string, set<string>>, i: nat)
    requires WellFormed(typeVariables, declared, arguments, declaredVariances, supers)
    requires i < |declared|
  {
    assert PositionOk(typeVariables, declared, arguments, declaredVariances, supers, i);
    !SameType(declared[i], arguments[i])
    && var b := BoundAt(typeVariables, declared, arguments, declaredVariances, supers, i);
       !SameType(b, arguments[i]) && Canonical(b.cls) !in supers[Canonical(arguments[i].cls)]
  }

  /** Position `i` writes slot `j`: it differs and declares a type variable
      whose first occurrence among the builder's variables is `j` (every type
      variable has a bound, so every such position writes its slot). */
  predicate WritesSlot(typeVariables: seq<TypeName>, declared: seq<TypeName>, arguments: seq<TypeName>, i: nat, j: int)
    requires i < |declared| <= |arguments|
  {
    !SameType(declared[i], arguments[i]) && declared[i].TypeVar?
    && IndexOfName(typeVariables, declared[i].name) == j
  }

  /** The effect of position `i` on the slots. */
  function Step(typeVariables: seq<TypeName>, declared: seq<TypeName>, arguments: seq<TypeName>,
                declaredVariances: seq<Variance>, supers: map<string, set<string>>, i: nat,
                slots: seq<TypeName>): (r: Option<seq<TypeName>>)
    requires WellFormed(typeVariables, declared, arguments, declaredVariances, supers)
    requires i < |declared| && |slots| == |typeVariables|
    ensures r.Some? ==> |r.value| == |slots|
    ensures r.Some? ==> forall j :: 0 <= j < |slots| && !WritesSlot(typeVariables, declared, arguments, i, j) ==> r.value[j] == slots[j]
  {
    assert PositionOk(typeVariables, declared, arguments, declaredVariances, supers, i);
    if SameType(declared[i], arguments[i]) then Some(slots)
    else
      var written :=
        if declared[i].TypeVar? then
          var a := arguments[i];
          slots[IndexOfName(typeVariables, declared[i].name) :=
                  match PositionVariance(declared[i], declaredVariances, i)
                  case Contravariant => ProducerOf(a)
                  case Covariant => ConsumerOf(a)
                  case Invariant => a]
        else slots;
      if RejectsAt(typeVariables, declared, arguments, declaredVariances, supers, i) then None
      else Some(written)
  }

  /** The receiver type arguments after the first `k` positions, or None once a
      position has excluded the subtype. */
  function ReceiverTypeArguments(typeVariables: seq<TypeName>, declared: seq<TypeName>, arguments: seq<TypeName>,
                                 declaredVariances: seq<Variance>, supers: map<string, set<string>>, k: nat): (r: Option<seq<TypeName>>)
    requires WellFormed(typeVariables, declared, arguments, declaredVariances, supers)
    requires k <= |declared|
    ensures r.Some? ==> |r.value| == |typeVariables|
  {
    if k == 0 then Some(StarSlots(|typeVariables|))
    else
      match ReceiverTypeArguments(typeVariables, declared, arguments, declaredVariances, supers, k - 1)
      case None => None
      case Some(slots) => Step(typeVariables, declared, arguments, declaredVariances, supers, k - 1, slots)
  }

  /** The subtype is excluded exactly when some position rejects it. */
  lemma {:induction false} ExcludedIff(typeVariables: seq<TypeName>, declared: seq<TypeName>, arguments: seq<TypeName>,
                                       declaredVariances: seq<Variance>, supers: map<string, set<string>>, k: nat)
    requires WellFormed(typeVariables, declared, arguments, declaredVariances, supers)
    requires k <= |declared|
    ensures ReceiverTypeArguments(typeVariables, declared, arguments, declaredVariances, supers, k).None?
            <==> exists i :: 0 <= i < k && RejectsAt(typeVariables, declared, arguments, declaredVariances, supers, i)
  {
    if k > 0 {
      ExcludedIff(typeVariables, declared, arguments, declaredVariances, supers, k - 1);
    }
  }

  /** When every declared argument is the same type name as the subtype's
      (type variables match by name alone), nothing is excluded and every
      slot stays the star projection. */
  lemma {:induction false} EqualArgumentsKeepStars(typeVariables: seq<TypeName>, declared: seq<TypeName>, arguments: seq<TypeName>,
                                                   declaredVariances: seq<Variance>, supers: map<string, set<string>>, k: nat)
    requires WellFormed(typeVariables, declared, arguments, declaredVariances, supers)
    requires k <= |declared|
    requires forall i :: 0 <= i < k ==> SameType(declared[i], arguments[i])
    ensures ReceiverTypeArguments(typeVariables, declared, arguments, declaredVariances, supers, k) == Some(StarSlots(|typeVariables|))
  {
    if k > 0 {
      EqualArgumentsKeepStars(typeVariables, declared, arguments, declaredVariances, supers, k - 1);
    }
  }

  /** A slot that no position writes stays the star projection. */
  lemma {:induction false} UnwrittenSlotIsStar(typeVariables: seq<TypeName>, declared: seq<TypeName>, arguments: seq<TypeName>,
                                               declaredVariances: seq<Variance>, supers: map<string, set<string>>, k: nat, j: nat)
    requires WellFormed(typeVariables, declared, arguments, declaredVariances, supers)
    requires k <= |declared| && j < |typeVariables|
    requires ReceiverTypeArguments(typeVariables, declared, arguments, declaredVariances, supers, k).Some?
    requires forall i :: 0 <= i < k ==> !WritesSlot(typeVariables, declared, arguments, i, j)
    ensures ReceiverTypeArguments(typeVariables, declared, arguments, declaredVariances, supers, k).value[j] == Star
  {
    if k > 0 {
      var prev := ReceiverTypeArguments(typeVariables, declared, arguments, declaredVariances, supers, k - 1);
      assert prev.Some?;
      UnwrittenSlotIsStar(typeVariables, declared, arguments, declaredVariances, supers, k - 1, j);
      assert !WritesSlot(typeVariables, declared, arguments, k - 1, j);
    }
  }

  /** The slot of a type variable holds what the last position writing it put
      there: the subtype's argument projected `out` when that position is
      contravariant, `in` when covariant, and the bare argument otherwise. */
  lemma {:induction false} LastWriteWins(typeVariables: seq<TypeName>, declared: seq<TypeName>, arguments: seq<TypeName>,
                                         declaredVariances: seq<Variance>, supers: map<string, set<string>>, k: nat, i: nat, j: nat)
    requires WellFormed(typeVariables, declared, arguments, declaredVariances, supers)
    requires i < k <= |declared| && j < |typeVariables|
    requires ReceiverTypeArguments(typeVariables, declared, arguments, declaredVariances, supers, k).Some?
    requires WritesSlot(typeVariables, declared, arguments, i, j)
    requires forall i' :: i < i' < k ==> !WritesSlot(typeVariables, declared, arguments, i', j)
    ensures declared[i].Wildcard? || i < |declaredVariances|
    ensures ReceiverTypeArguments(typeVariables, declared, arguments, declaredVariances, supers, k).value[j]
            == match PositionVariance(declared[i], declaredVariances, i)
               case Contravariant => Wildcard([], [arguments[i]], false)
               case Covariant => Wildcard([arguments[i]], [], false)
               case Invariant => arguments[i]
  {
    assert PositionOk(typeVariables, declared, arguments, declaredVariances, supers, i);
    var prev := ReceiverTypeArguments(typeVariables, declared, arguments, declaredVariances, supers, k - 1);
    assert prev.Some?;
    if i < k - 1 {
      LastWriteWins(typeVariables, declared, arguments, declaredVariances, supers, k - 1, i, j);
      assert !WritesSlot(typeVariables, declared, arguments, k - 1, j);
    }
  }

  /** One position of `handleReceiverType`'s loop: when the declared argument
      is not the same type name as the subtype's, a type variable writes its
      slot (its bound list is never empty, so the source's `ANY` fallback for
      an unbounded variable is never taken), and the position rejects the subtype when its bound is
      neither the subtype's argument nor one of its supertypes. */
  method HandlePosition(typeVariables: seq<TypeName>, declared: seq<TypeName>, arguments: seq<TypeName>,
                        declaredVariances: seq<Variance>, supers: map<string, set<string>>, i: nat, slots: seq<TypeName>)
    returns (r: Option<seq<TypeName>>)
    requires WellFormed(typeVariables, declared, arguments, declaredVariances, supers)
    requires i < |declared| && |slots| == |typeVariables|
    ensures r == Step(typeVariables, declared, arguments, declaredVariances, supers, i, slots)
  {
    assert PositionOk(typeVariables, declared, arguments, declaredVariances, supers, i);
    var parameter := declared[i];
    var argument := arguments[i];
    var variance := if parameter.Wildcard? then (if |parameter.inTypes| > 0 then Contravariant else Covariant)
                    else declaredVariances[i];
    if SameType(parameter, argument) {
      return Some(slots);
    }
    var written := slots;
    var bound: TypeName;
    if parameter.TypeVar? {
      var index := IndexOfName(typeVariables, parameter.name);
      var bounds := EffectiveBounds(parameter.bounds);
      written := slots[index := match variance
                                case Contravariant => ProducerOf(argument)
                                case Covariant => ConsumerOf(argument)
                                case Invariant => argument];
      bound := bounds[0];
    } else if parameter.Wildcard? {
      bound := if variance == Contravariant then parameter.inTypes[0] else parameter.outTypes[0];
    } else {
      bound := parameter;
    }
    assert bound == BoundAt(typeVariables, declared, arguments, declaredVariances, supers, i);
    if !SameType(bound, argument) && Canonical(bound.cls) !in supers[Canonical(argument.cls)] {
      return None;
    }
    return Some(written);
  }

  /** `handleReceiverType`: fills one slot per type variable of the builder,
      position by position, and gives up (None) at the first position that
      excludes the subtype. */
  method HandleReceiverType(typeVariables: seq<TypeName>, declared: seq<TypeName>, arguments: seq<TypeName>,
                            declaredVariances: seq<Variance>, supers: map<string, set<string>>)
    returns (r: Option<seq<TypeName>>)
    requires WellFormed(typeVariables, declared, arguments, declaredVariances, supers)
    ensures r == ReceiverTypeArguments(typeVariables, declared, arguments, declaredVariances, supers, |declared|)
    ensures r.Some? ==> |r.value| == |typeVariables|
    ensures r.None? <==> exists i :: 0 <= i < |declared| && RejectsAt(typeVariables, declared, arguments, declaredVariances, supers, i)
  {
    var slots := StarSlots(|typeVariables|);
    var i := 0;
    while i < |declared|
      invariant 0 <= i <= |declared|
      invariant ReceiverTypeArguments(typeVariables, declared, arguments, declaredVariances, supers, i) == Some(slots)
    {
      var next := HandlePosition(typeVariables, declared, arguments, declaredVariances, supers, i, slots);
      if next.None? {
        assert RejectsAt(typeVariables, declared, arguments, declaredVariances, supers, i);
        ExcludedIff(typeVariables, declared, arguments, declaredVariances, supers, |declared|);
        return None;
      }
      slots := next.value;
      i := i + 1;
    }
    ExcludedIff(typeVariables, declared, arguments, declaredVariances, supers, |declared|);
    return Some(slots);
  }
}
