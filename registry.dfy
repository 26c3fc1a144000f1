/** The collection-builder registry: one shared multi-item builder per element
    class, keyed by the builder's class name. The first parameter that asks
    for a builder fixes its element type; every request adds the requesting
    source file to the builder's dependencies. */
module Registry {
  import opened Names
  import opened Naming

  /** A pending multi-item builder: the element type that first asked for it,
      that type's class, and the source files that asked for it. */
  datatype CollectionBuilderInfo = CollectionBuilderInfo(collectionType: TypeName, rawTypeArgumentClass: ClassName, dependencyFiles: set<string>)

  /** A request from a collection parameter declared in `file` with element type `element`. */
  datatype Request = Request(file: string, element: TypeName)

  predicate Requestable(r: Request) { Raw(r.element).Some? }

  /** The multi-item builder a request is filed under. */
  function KeyOf(r: Request): ClassName
    requires Requestable(r)
  {
    MultiBuilderName(Raw(r.element).value)
  }

  /** One request (`getOrPut(name) { info }.dependencyFiles.add(file)`). */
  function Register(registry: map<ClassName, CollectionBuilderInfo>, r: Request): map<ClassName, CollectionBuilderInfo>
    requires Requestable(r)
  {
    var key := KeyOf(r);
    if key in registry then registry[key := registry[key].(dependencyFiles := registry[key].dependencyFiles + {r.file})]
    else registry[key := CollectionBuilderInfo(r.element, Raw(r.element).value, {r.file})]
  }

  /** Requests processed in order. */
  function RegisterAll(registry: map<ClassName, CollectionBuilderInfo>, rs: seq<Request>): map<ClassName, CollectionBuilderInfo>
    requires forall i :: 0 <= i < |rs| ==> Requestable(rs[i])
    decreases |rs|
  {
    if rs == [] then registry else RegisterAll(Register(registry, rs[0]), rs[1..])
  }

  /** The files among `rs` that requested `key`. */
  function FilesFor(rs: seq<Request>, key: ClassName): set<string>
    requires forall i :: 0 <= i < |rs| ==> Requestable(rs[i])
  {
    set i | 0 <= i < |rs| && KeyOf(rs[i]) == key :: rs[i].file
  }

  /** Every entry is filed under the multi-item builder of its element class,
      and that class is the element type's class. */
  predicate Consistent(registry: map<ClassName, CollectionBuilderInfo>)
  {
    forall key :: key in registry ==>
      key == MultiBuilderName(registry[key].rawTypeArgumentClass)
      && Raw(registry[key].collectionType) == Some(registry[key].rawTypeArgumentClass)
  }

  lemma FilesForSplit(rs: seq<Request>, key: ClassName)
    requires rs != [] && forall i :: 0 <= i < |rs| ==> Requestable(rs[i])
    ensures FilesFor(rs, key) == (if KeyOf(rs[0]) == key then {rs[0].file} else {}) + FilesFor(rs[1..], key)
  {
    var tail := rs[1..];
    forall x | x in FilesFor(rs, key) ensures x in (if KeyOf(rs[0]) == key then {rs[0].file} else {}) + FilesFor(tail, key) {
      var i :| 0 <= i < |rs| && KeyOf(rs[i]) == key && rs[i].file == x;
      if i > 0 { assert tail[i - 1] == rs[i]; }
    }
    forall x | x in FilesFor(tail, key) ensures x in FilesFor(rs, key) {
      var i :| 0 <= i < |tail| && KeyOf(tail[i]) == key && tail[i].file == x;
      assert rs[i + 1] == tail[i];
    }
  }

  /** Registration keeps the registry consistent. */
  lemma {:induction false} RegisterAllConsistent(registry: map<ClassName, CollectionBuilderInfo>, rs: seq<Request>)
    requires Consistent(registry)
    requires forall i :: 0 <= i < |rs| ==> Requestable(rs[i])
    ensures Consistent(RegisterAll(registry, rs))
    decreases |rs|
  {
    if rs != [] {
      RegisterAllConsistent(Register(registry, rs[0]), rs[1..]);
    }
  }

  /** An entry that already exists keeps its element type; its dependencies
      grow by the files of the later requests for it. A builder exists
      afterwards exactly when it existed or was requested. */
  lemma {:induction false} RegisterAllExisting(registry: map<ClassName, CollectionBuilderInfo>, rs: seq<Request>, key: ClassName)
    requires forall i :: 0 <= i < |rs| ==> Requestable(rs[i])
    ensures key in RegisterAll(registry, rs) <==> key in registry || exists i :: 0 <= i < |rs| && KeyOf(rs[i]) == key
    ensures key in registry ==>
              RegisterAll(registry, rs)[key]
              == registry[key].(dependencyFiles := registry[key].dependencyFiles + FilesFor(rs, key))
    decreases |rs|
  {
    if rs != [] {
      var next := Register(registry, rs[0]);
      RegisterAllExisting(next, rs[1..], key);
      FilesForSplit(rs, key);
      forall i | 0 <= i < |rs[1..]| ensures rs[1..][i] == rs[i + 1] { }
    } else {
      assert FilesFor(rs, key) == {};
    }
  }

  /** A builder first requested by request `i` keeps that request's element
      type and class, and depends on exactly the files that requested it. */
  lemma {:induction false} FirstRequesterWins(registry: map<ClassName, CollectionBuilderInfo>, rs: seq<Request>, i: nat)
    requires forall j :: 0 <= j < |rs| ==> Requestable(rs[j])
    requires i < |rs| && KeyOf(rs[i]) !in registry
    requires forall j :: 0 <= j < i ==> KeyOf(rs[j]) != KeyOf(rs[i])
    ensures KeyOf(rs[i]) in RegisterAll(registry, rs)
    ensures RegisterAll(registry, rs)[KeyOf(rs[i])]
            == CollectionBuilderInfo(rs[i].element, Raw(rs[i].element).value, FilesFor(rs, KeyOf(rs[i])))
    decreases |rs|
  {
    var key := KeyOf(rs[i]);
    var next := Register(registry, rs[0]);
    FilesForSplit(rs, key);
    forall j | 0 <= j < |rs[1..]| ensures rs[1..][j] == rs[j + 1] { }
    if i == 0 {
      RegisterAllExisting(next, rs[1..], key);
    } else {
      FirstRequesterWins(next, rs[1..], i - 1);
    }
  }

  /** Registering one more request after a batch. */
  lemma {:induction false} RegisterAllSnoc(registry: map<ClassName, CollectionBuilderInfo>, rs: seq<Request>, r: Request)
    requires forall i :: 0 <= i < |rs| ==> Requestable(rs[i])
    requires Requestable(r)
    ensures forall i :: 0 <= i < |rs + [r]| ==> Requestable((rs + [r])[i])
    ensures RegisterAll(registry, rs + [r]) == Register(RegisterAll(registry, rs), r)
    decreases |rs|
  {
    if rs == [] {
      assert rs + [r] == [r];
    } else {
      assert (rs + [r])[0] == rs[0] && (rs + [r])[1..] == rs[1..] + [r];
      RegisterAllSnoc(Register(registry, rs[0]), rs[1..], r);
    }
  }
}
