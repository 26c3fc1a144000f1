/** The subtype index: for every raw supertype, the list of annotated classes
    that extend it, directly or through other supertypes. Visiting a class
    appends its name under every supertype it has; nothing is ever removed. */
module SubtypeIndex {
  import opened Names

  /** What the compiler's symbol table tells the processor. */
  datatype Facts = Facts(
    /** the declared direct supertypes of each class declaration, in order */
    superTypes: map<ClassName, seq<TypeName>>,
    /** the qualified names of all supertypes of a class, by its qualified name */
    allSuperTypes: map<string, set<string>>,
    /** the declared variance of each type parameter of a class, by its qualified name */
    variances: map<string, seq<Variance>>,
    /** the inheritance depth of each class declaration */
    depth: map<ClassName, nat>)

  /** The declared supertypes of `c`; none when it has no declaration. */
  function DeclaredSupers(f: Facts, c: ClassName): seq<TypeName>
  {
    if c in f.superTypes then f.superTypes[c] else []
  }

  /** The inheritance graph has no cycles, as the compiler guarantees: every
      declared supertype with a declaration lies strictly less deep. */
  predicate Acyclic(f: Facts)
  {
    forall c :: c in f.superTypes ==> c in f.depth && Below(f, f.superTypes[c], f.depth[c])
  }

  /** A reference whose class has a declaration lies less deep than `bound`. */
  predicate RefBelow(f: Facts, t: TypeName, bound: nat)
  {
    Raw(t).Some? && Raw(t).value in f.superTypes ==> Raw(t).value in f.depth && f.depth[Raw(t).value] < bound
  }

  /** Every reference in `refs` lies less deep than `bound`. */
  predicate Below(f: Facts, refs: seq<TypeName>, bound: nat)
  {
    forall i :: 0 <= i < |refs| ==> RefBelow(f, refs[i], bound)
  }

  /** The keys `resolveSuperTypes` appends under, in order: for each supertype
      reference in turn, those of `RefKeys`. */
  function SuperKeys(f: Facts, refs: seq<TypeName>, bound: nat): seq<ClassName>
    requires Acyclic(f) && Below(f, refs, bound)
    decreases bound, |refs|
  {
    if refs == [] then [] else RefKeys(f, refs[0], bound) + SuperKeys(f, refs[1..], bound)
  }

  /** The keys of one supertype reference: first those of its declaration's
      own supertypes (recursively), then its raw class. A reference to a type
      parameter contributes nothing. */
  function RefKeys(f: Facts, t: TypeName, bound: nat): seq<ClassName>
    requires Acyclic(f) && RefBelow(f, t, bound)
    decreases bound, 0
  {
    match Raw(t)
    case None => []
    case Some(c) => (if c in f.superTypes then SuperKeys(f, f.superTypes[c], f.depth[c]) else []) + [c]
  }

  /** The list recorded under `key`, empty when there is none. */
  function Get(index: map<ClassName, seq<ClassName>>, key: ClassName): seq<ClassName>
  {
    if key in index then index[key] else []
  }

  /** Appends `sub` to the list of every key in turn (`getOrPut(key) { [] }.add(sub)`). */
  function AddAll(index: map<ClassName, seq<ClassName>>, keys: seq<ClassName>, sub: ClassName): map<ClassName, seq<ClassName>>
    decreases |keys|
  {
    if keys == [] then index
    else AddAll(index[keys[0] := Get(index, keys[0]) + [sub]], keys[1..], sub)
  }

  function Count(keys: seq<ClassName>, key: ClassName): nat
  {
    if keys == [] then 0 else (if keys[0] == key then 1 else 0) + Count(keys[1..], key)
  }

  function Repeat(x: ClassName, n: nat): (r: seq<ClassName>)
    ensures |r| == n && forall i :: 0 <= i < n ==> r[i] == x
  {
    if n == 0 then [] else [x] + Repeat(x, n - 1)
  }

  /** The index after the visit: every key's list is its old list followed by
      the visited class once per occurrence of the key; keys appear exactly
      when they were there before or are appended under. */
  lemma {:induction false} AddAllContents(index: map<ClassName, seq<ClassName>>, keys: seq<ClassName>, sub: ClassName, key: ClassName)
    ensures key in AddAll(index, keys, sub) <==> key in index || key in keys
    ensures Get(AddAll(index, keys, sub), key) == Get(index, key) + Repeat(sub, Count(keys, key))
    decreases |keys|
  {
    if keys != [] {
      var next := index[keys[0] := Get(index, keys[0]) + [sub]];
      AddAllContents(next, keys[1..], sub, key);
      assert keys == [keys[0]] + keys[1..];
      if keys[0] == key {
        assert Get(next, key) == Get(index, key) + [sub];
        assert Repeat(sub, Count(keys, key)) == [sub] + Repeat(sub, Count(keys[1..], key));
      }
    }
  }

  /** Visiting never removes anything: every old list is a prefix of the new one. */
  lemma AppendOnly(index: map<ClassName, seq<ClassName>>, keys: seq<ClassName>, sub: ClassName, key: ClassName)
    requires key in index
    ensures key in AddAll(index, keys, sub)
    ensures index[key] <= AddAll(index, keys, sub)[key]
  {
    AddAllContents(index, keys, sub, key);
  }

  /** Appending along two lists of keys is appending along their concatenation. */
  lemma {:induction false} AddAllConcat(index: map<ClassName, seq<ClassName>>, k1: seq<ClassName>, k2: seq<ClassName>, sub: ClassName)
    ensures AddAll(AddAll(index, k1, sub), k2, sub) == AddAll(index, k1 + k2, sub)
    decreases |k1|
  {
    if k1 != [] {
      AddAllConcat(index[k1[0] := Get(index, k1[0]) + [sub]], k1[1..], k2, sub);
      assert (k1 + k2)[0] == k1[0] && (k1 + k2)[1..] == k1[1..] + k2;
    } else {
      assert k1 + k2 == k2;
    }
  }

  /** The raw class of every direct supertype reference is a key. */
  lemma {:induction false} DirectSupertypesRecorded(f: Facts, refs: seq<TypeName>, bound: nat, t: TypeName)
    requires Acyclic(f) && Below(f, refs, bound)
    requires t in refs && Raw(t).Some?
    ensures Raw(t).value in SuperKeys(f, refs, bound)
    decreases |refs|
  {
    if refs[0] != t {
      DirectSupertypesRecorded(f, refs[1..], bound, t);
    }
  }

  /** The keys are closed under the supertype relation: with a class, the raw
      classes of all its declared supertypes are keys too, so the visited class
      is recorded under every transitive supertype. */
  lemma {:induction false} SupertypesClosed(f: Facts, refs: seq<TypeName>, bound: nat, c: ClassName, t: TypeName)
    requires Acyclic(f) && Below(f, refs, bound)
    requires c in SuperKeys(f, refs, bound) && c in f.superTypes
    requires t in f.superTypes[c] && Raw(t).Some?
    ensures Raw(t).value in SuperKeys(f, refs, bound)
    decreases bound, |refs|
  {
    var tail := SuperKeys(f, refs[1..], bound);
    match Raw(refs[0])
    case None =>
      SupertypesClosed(f, refs[1..], bound, c, t);
    case Some(d) =>
      var inner := if d in f.superTypes then SuperKeys(f, f.superTypes[d], f.depth[d]) else [];
      assert SuperKeys(f, refs, bound) == inner + [d] + tail;
      if c in inner {
        SupertypesClosed(f, f.superTypes[d], f.depth[d], c, t);
      } else if c == d {
        DirectSupertypesRecorded(f, f.superTypes[d], f.depth[d], t);
      } else {
        SupertypesClosed(f, refs[1..], bound, c, t);
      }
  }

  /** A single reference yields its own keys. */
  lemma SuperKeysSingle(f: Facts, t: TypeName, bound: nat)
    requires Acyclic(f) && RefBelow(f, t, bound)
    ensures Below(f, [t], bound)
    ensures SuperKeys(f, [t], bound) == RefKeys(f, t, bound)
  {
    assert [t][1..] == [];
  }

  /** Resolving a list of references followed by one more is resolving the
      list, then the extra reference. */
  lemma {:induction false} SuperKeysSnoc(f: Facts, refs: seq<TypeName>, t: TypeName, bound: nat)
    requires Acyclic(f) && Below(f, refs, bound) && RefBelow(f, t, bound)
    ensures Below(f, refs + [t], bound)
    ensures SuperKeys(f, refs + [t], bound) == SuperKeys(f, refs, bound) + RefKeys(f, t, bound)
    decreases |refs|
  {
    assert forall i :: 0 <= i < |refs| ==> (refs + [t])[i] == refs[i];
    if refs != [] {
      var rest := refs[1..] + [t];
      assert (refs + [t])[0] == refs[0] && (refs + [t])[1..] == rest;
      SuperKeysSnoc(f, refs[1..], t, bound);
    } else {
      SuperKeysSingle(f, t, bound);
    }
  }

  /** Appending along `before`, then `inner`, then under `c` alone is
      appending along their concatenation. */
  lemma AppendThrough(index: map<ClassName, seq<ClassName>>, before: seq<ClassName>, inner: seq<ClassName>, c: ClassName, sub: ClassName)
    ensures var mid := AddAll(AddAll(index, before, sub), inner, sub);
            mid[c := Get(mid, c) + [sub]] == AddAll(index, before + (inner + [c]), sub)
  {
    var mid := AddAll(AddAll(index, before, sub), inner, sub);
    AddAllConcat(index, before, inner, sub);
    AddAllConcat(index, before + inner, [c], sub);
    assert AddAll(mid, [c], sub) == mid[c := Get(mid, c) + [sub]];
    assert before + inner + [c] == before + (inner + [c]);
  }

  /** A visit adds nothing but the visited class to any list. */
  lemma AddAllMembers(index: map<ClassName, seq<ClassName>>, keys: seq<ClassName>, sub: ClassName, key: ClassName, x: ClassName)
    requires x in Get(AddAll(index, keys, sub), key)
    ensures x in Get(index, key) || x == sub
  {
    AddAllContents(index, keys, sub, key);
    var old_ := Get(index, key);
    var i :| 0 <= i < |Get(AddAll(index, keys, sub), key)| && Get(AddAll(index, keys, sub), key)[i] == x;
    if i >= |old_| {
      assert Repeat(sub, Count(keys, key))[i - |old_|] == x;
    }
  }
}
