/** Type names as the code generator sees them (KotlinPoet's ClassName,
    ParameterizedTypeName, TypeVariableName and WildcardTypeName), the
    well-known classes the processor refers to, and the string helpers
    (suffix and prefix tests, ASCII capitalisation) its naming rules use. */
module Names {

  datatype Option<+T> = None | Some(value: T)

  /** A class name: its package, the simple names of the classes enclosing it
      (outermost first) and its own simple name. */
  datatype ClassName = ClassName(pkg: string, outer: seq<string>, simple: string)
  {
    function SimpleNames(): seq<string> { outer + [simple] }

    /** The outermost class of a nested class name; the name itself when it is top-level. */
    function TopLevel(): (r: ClassName)
      ensures r.outer == [] && r.pkg == pkg
      ensures r == this <==> outer == []
    {
      if outer == [] then this else ClassName(pkg, [], outer[0])
    }
  }

  /** Declaration-site variance of a type parameter (`out` is covariant, `in` contravariant). */
  datatype Variance = Invariant | Covariant | Contravariant

  /** A type as the emitter describes it. KotlinPoet compares two type names
      by the text they render to (see `SameType`), not by their structure. A
      type variable's `bounds` are those it is declared with; an empty list
      stands for KotlinPoet's default bound `Any?` (see `EffectiveBounds`). */
  datatype TypeName =
    | Class(cls: ClassName, nullable: bool)
    | Parameterized(raw: ClassName, args: seq<TypeName>, nullable: bool)
    | TypeVar(name: string, bounds: seq<TypeName>, variance: Variance, nullable: bool)
    | Wildcard(inTypes: seq<TypeName>, outTypes: seq<TypeName>, nullable: bool)

  const AnyClass := ClassName("kotlin", [], "Any")

  /** `kotlin.Any`, not nullable. */
  const AnyType := Class(AnyClass, false)

  /** `kotlin.Any?`. */
  const NullableAnyType := Class(AnyClass, true)

  /** The bounds a `TypeVariableName` carries: KotlinPoet replaces an empty
      list of bounds with `[Any?]`, so a type variable declared without a
      bound is still bounded, by `Any?`. */
  function EffectiveBounds(declared: seq<TypeName>): (r: seq<TypeName>)
    ensures |r| > 0
    ensures declared != [] ==> r == declared
    ensures declared == [] ==> r == [NullableAnyType]
  {
    if declared == [] then [NullableAnyType] else declared
  }

  /** `out T`. */
  function ProducerOf(t: TypeName): TypeName { Wildcard([], [t], false) }

  /** `in T`. */
  function ConsumerOf(t: TypeName): TypeName { Wildcard([t], [], false) }

  /** The star projection `out Any?`. */
  const Star := ProducerOf(NullableAnyType)

  const CollectionsPackage := "kotlin.collections"
  const ListClass := ClassName(CollectionsPackage, [], "List")
  const SetClass := ClassName(CollectionsPackage, [], "Set")
  const MutableListClass := ClassName(CollectionsPackage, [], "MutableList")
  const MutableSetClass := ClassName(CollectionsPackage, [], "MutableSet")
  const MutableCollectionClass := ClassName(CollectionsPackage, [], "MutableCollection")

  /** The same type marked nullable (`copy(nullable = true)`). */
  function AsNullable(t: TypeName): (r: TypeName)
    ensures r.nullable
    ensures r.Class? == t.Class? && r.Parameterized? == t.Parameterized?
    ensures r.TypeVar? == t.TypeVar? && r.Wildcard? == t.Wildcard?
    ensures r.(nullable := t.nullable) == t
  {
    t.(nullable := true)
  }

  /** KotlinPoet's equality of type names, which compares the text they render
      to where they are used: classes by name, type arguments position by
      position, projections by their `in` and `out` types, nullability
      everywhere, and a type variable by its name alone (its bounds and
      variance are rendered only where it is declared). */
  predicate SameType(a: TypeName, b: TypeName)
    decreases a
  {
    a.nullable == b.nullable
    && match a
       case Class(c, _) => b.Class? && b.cls == c
       case Parameterized(c, args, _) =>
         b.Parameterized? && b.raw == c && |b.args| == |args|
         && forall i :: 0 <= i < |args| ==> SameType(args[i], b.args[i])
       case TypeVar(name, _, _, _) => b.TypeVar? && b.name == name
       case Wildcard(ins, outs, _) =>
         b.Wildcard? && |b.inTypes| == |ins| && |b.outTypes| == |outs|
         && (forall i :: 0 <= i < |ins| ==> SameType(ins[i], b.inTypes[i]))
         && (forall i :: 0 <= i < |outs| ==> SameType(outs[i], b.outTypes[i]))
  }

  /** The star projection is not `Any`. */
  lemma StarIsNotAny()
    ensures !SameType(Star, AnyType)
  {
  }

  /** The class behind a type: itself for a class, its raw class when parameterized. */
  function Raw(t: TypeName): Option<ClassName>
  {
    match t
    case Class(c, _) => Some(c)
    case Parameterized(c, _, _) => Some(c)
    case _ => None
  }

  /** Simple names joined by dots. */
  function JoinDots(names: seq<string>): string
  {
    if names == [] then ""
    else if |names| == 1 then names[0]
    else names[0] + "." + JoinDots(names[1..])
  }

  /** The canonical (fully qualified) name, `pkg.Outer.Simple`, or without the
      package part when the package is the default one. */
  function Canonical(c: ClassName): string
  {
    if c.pkg == "" then JoinDots(c.SimpleNames())
    else c.pkg + "." + JoinDots(c.SimpleNames())
  }

  predicate EndsWith(s: string, suffix: string)
  {
    |suffix| <= |s| && s[|s| - |suffix|..] == suffix
  }

  predicate StartsWith(s: string, prefix: string)
  {
    |prefix| <= |s| && s[..|prefix|] == prefix
  }

  predicate IsLower(c: char) { 'a' <= c <= 'z' }

  predicate IsUpper(c: char) { 'A' <= c <= 'Z' }

  function ToUpper(c: char): char
  {
    if IsLower(c) then (c as int - 'a' as int + 'A' as int) as char else c
  }

  function ToLower(c: char): char
  {
    if IsUpper(c) then (c as int - 'A' as int + 'a' as int) as char else c
  }

  /** The string with its first character upper-cased when it is a lower-case letter. */
  function Capitalize(s: string): (r: string)
    ensures |r| == |s| && (s != [] ==> r[1..] == s[1..])
    ensures s != [] ==> !IsLower(r[0])
    ensures s != [] && !IsLower(s[0]) ==> r == s
    ensures s != [] && IsLower(s[0]) ==> IsUpper(r[0]) && r[0] as int == s[0] as int - ('a' as int - 'A' as int)
  {
    if s == [] then s else [ToUpper(s[0])] + s[1..]
  }

  /** The string with its first character lower-cased when it is not already lower case. */
  function Decapitalize(s: string): (r: string)
    ensures |r| == |s| && (s != [] ==> r[1..] == s[1..])
    ensures s != [] ==> !IsUpper(r[0])
    ensures s != [] && !IsUpper(s[0]) ==> r == s
    ensures s != [] && IsUpper(s[0]) ==> IsLower(r[0]) && r[0] as int == s[0] as int + ('a' as int - 'A' as int)
  {
    if s == [] then s else [ToLower(s[0])] + s[1..]
  }

  /** Capitalising a name that starts with a lower-case letter and
      decapitalising the result gives the name back, and the other way round. */
  lemma CapitalizeRoundTrip(s: string)
    ensures s != [] && IsLower(s[0]) ==> Decapitalize(Capitalize(s)) == s
    ensures s != [] && IsUpper(s[0]) ==> Capitalize(Decapitalize(s)) == s
  {
    if s != [] && IsLower(s[0]) {
      assert Decapitalize(Capitalize(s))[1..] == s[1..];
    }
    if s != [] && IsUpper(s[0]) {
      assert Capitalize(Decapitalize(s))[1..] == s[1..];
    }
  }

  /** Replaces the first occurrence of `pattern` in `s` by `replacement`; `s`
      itself when `pattern` does not occur. */
  function ReplaceFirst(s: string, pattern: string, replacement: string): (r: string)
    requires pattern != []
    decreases |s|
  {
    if |s| < |pattern| then s
    else if s[..|pattern|] == pattern then replacement + s[|pattern|..]
    else [s[0]] + ReplaceFirst(s[1..], pattern, replacement)
  }

  /** Appending a suffix and testing for it agree, and the suffix can be taken off again. */
  lemma AppendedSuffix(s: string, suffix: string)
    ensures EndsWith(s + suffix, suffix)
    ensures (s + suffix)[..|s|] == s
  {
    assert (s + suffix)[|s + suffix| - |suffix|..] == suffix;
  }
}
