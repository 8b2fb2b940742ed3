/**
 * The file class mapper: an extensible table from a filesystem file class to
 * the temporary wrapper class that presents files of that class, with a
 * lookup that falls back to the nearest mapped ancestor.
 */
module ClassMapping {
  import opened Wrappers
  import opened Classes

  /** The mapper's table, from a source file class to its wrapper class. */
  type Entries = map<ClassName, ClassName>

  const ModelFile: ClassName := "Gidato\\Filesystem\\Model\\File"
  const ModelJsonFile: ClassName := "Gidato\\Filesystem\\Model\\JsonFile"
  const BasicFile: ClassName := "Gidato\\TemporaryPath\\BasicFile"
  const JsonFile: ClassName := "Gidato\\TemporaryPath\\JsonFile"

  /** The table a new mapper starts with. */
  function DefaultEntries(): (m: Entries)
    ensures m.Keys == {ModelFile, ModelJsonFile}
    ensures m[ModelFile] == BasicFile && m[ModelJsonFile] == JsonFile
    ensures Invariant(m)
  {
    map[ModelJsonFile := JsonFile, ModelFile := BasicFile]
  }

  /** `!empty($this->map[$c])`: the key is present and its value is not PHP-empty. */
  predicate HasEntry(m: Entries, c: ClassName)
  {
    c in m && !PhpEmpty(m[c])
  }

  /** What every table of a mapper satisfies: the base file class always has a usable entry. */
  predicate Invariant(m: Entries)
  {
    HasEntry(m, ModelFile)
  }

  /** The three `InvalidArgumentException`s the mapper can throw. */
  datatype MapperError =
    | DoesNotExist(name: ClassName)
    | AlreadySetUp(name: ClassName)
    | NotSetUp(name: ClassName)

  /** The exception message for each error: "Class ", the offending class, then what is wrong with it. */
  function Message(e: MapperError): (s: string)
    ensures |s| > 6 + |e.name| && s[..6] == "Class " && s[6..6 + |e.name|] == e.name
    ensures e.DoesNotExist? ==> s[6 + |e.name|..] == " does not exist"
    ensures e.AlreadySetUp? ==> s[6 + |e.name|..] == " already set up"
    ensures e.NotSetUp? ==> s[6 + |e.name|..] == " has not been set up"
  {
    match e
    case DoesNotExist(n) => "Class " + n + " does not exist"
    case AlreadySetUp(n) => "Class " + n + " already set up"
    case NotSetUp(n) => "Class " + n + " has not been set up"
  }

  /** The table after `addMapping(from, to)`, or the error it throws. */
  function Added(h: Hierarchy, m: Entries, from: ClassName, to: ClassName): (r: Result<Entries, MapperError>)
    // the checks come in a fixed order: `from` exists, `to` exists, `from` is not set up yet
    ensures !ClassExists(h, from) ==> r == Failure(DoesNotExist(from))
    ensures ClassExists(h, from) && !ClassExists(h, to) ==> r == Failure(DoesNotExist(to))
    ensures ClassExists(h, from) && ClassExists(h, to) && HasEntry(m, from) ==> r == Failure(AlreadySetUp(from))
    ensures r.Success? <==> ClassExists(h, from) && ClassExists(h, to) && !HasEntry(m, from)
    // on success `from` now maps to `to` and every other entry is as it was
    ensures r.Success? ==> from in r.value && r.value[from] == to
    ensures r.Success? ==> r.value.Keys == m.Keys + {from}
    ensures r.Success? ==> forall k :: k in m && k != from ==> r.value[k] == m[k]
    ensures WellFormed(h) && r.Success? ==> HasEntry(r.value, from)
    ensures Invariant(m) && r.Success? ==> Invariant(r.value)
  {
    if !ClassExists(h, from) then Failure(DoesNotExist(from))
    else if !ClassExists(h, to) then Failure(DoesNotExist(to))
    else if HasEntry(m, from) then Failure(AlreadySetUp(from))
    else Success(m[from := to])
  }

  /** The table after `replaceMapping(from, to)`, or the error it throws. */
  function Replaced(h: Hierarchy, m: Entries, from: ClassName, to: ClassName): (r: Result<Entries, MapperError>)
    // the checks come in a fixed order: `from` exists, `to` exists, `from` is already set up
    ensures !ClassExists(h, from) ==> r == Failure(DoesNotExist(from))
    ensures ClassExists(h, from) && !ClassExists(h, to) ==> r == Failure(DoesNotExist(to))
    ensures ClassExists(h, from) && ClassExists(h, to) && !HasEntry(m, from) ==> r == Failure(NotSetUp(from))
    ensures r.Success? <==> ClassExists(h, from) && ClassExists(h, to) && HasEntry(m, from)
    // on success only the entry of `from` changes, and no key is added
    ensures r.Success? ==> r.value.Keys == m.Keys && r.value[from] == to
    ensures r.Success? ==> forall k :: k in m && k != from ==> r.value[k] == m[k]
    ensures WellFormed(h) && Invariant(m) && r.Success? ==> Invariant(r.value)
  {
    if !ClassExists(h, from) then Failure(DoesNotExist(from))
    else if !ClassExists(h, to) then Failure(DoesNotExist(to))
    else if !HasEntry(m, from) then Failure(NotSetUp(from))
    else Success(m[from := to])
  }

  /** `c` is a declared subclass of the base file class, so `map` can be asked about it. */
  predicate Resolvable(h: Hierarchy, m: Entries, c: ClassName)
  {
    WellFormed(h) && c in h.known && Invariant(m) && IsA(h, c, ModelFile)
  }

  /** The class whose entry `map` uses for `c`: `c` itself if it has one, otherwise the nearest ancestor that has one. */
  function ResolvedClass(h: Hierarchy, m: Entries, c: ClassName): (k: ClassName)
    requires Resolvable(h, m, c)
    ensures HasEntry(m, k) && k in h.known
    ensures IsA(h, c, k) && IsA(h, k, ModelFile)
    decreases h.depth[c]
  {
    if HasEntry(m, c) then c else ResolvedClass(h, m, h.parent[c])
  }

  /** The wrapper class `map` returns for a file of class `c`. */
  function Resolve(h: Hierarchy, m: Entries, c: ClassName): (w: ClassName)
    requires Resolvable(h, m, c)
    ensures !PhpEmpty(w) && w in m.Values
  {
    m[ResolvedClass(h, m, c)]
  }

  /** The resolved class is the first class on the ancestry chain of `c` that has an entry. */
  lemma {:induction false} ResolvedIsNearest(h: Hierarchy, m: Entries, c: ClassName) returns (n: nat)
    requires Resolvable(h, m, c)
    ensures Ancestor(h, c, n) == Some(ResolvedClass(h, m, c))
    ensures forall j :: 0 <= j < n ==> Ancestor(h, c, j).Some? && !HasEntry(m, Ancestor(h, c, j).value)
    decreases h.depth[c]
  {
    if HasEntry(m, c) {
      n := 0;
    } else {
      var p := h.parent[c];
      var n' := ResolvedIsNearest(h, m, p);
      n := n' + 1;
      forall j | 0 <= j < n
        ensures Ancestor(h, c, j).Some? && !HasEntry(m, Ancestor(h, c, j).value)
      {
        if j > 0 {
          assert Ancestor(h, c, j) == Ancestor(h, p, j - 1);
        }
      }
    }
  }

  /** Conversely, the first class on the chain of `c` that has an entry is the resolved class. */
  lemma {:induction false} NearestIsResolved(h: Hierarchy, m: Entries, c: ClassName, n: nat, k: ClassName)
    requires Resolvable(h, m, c)
    requires Ancestor(h, c, n) == Some(k) && HasEntry(m, k)
    requires forall j :: 0 <= j < n ==> Ancestor(h, c, j).Some? && !HasEntry(m, Ancestor(h, c, j).value)
    ensures ResolvedClass(h, m, c) == k
    decreases n
  {
    if n > 0 {
      assert Ancestor(h, c, 0) == Some(c);
      var p := h.parent[c];
      forall j | 0 <= j < n - 1
        ensures Ancestor(h, p, j).Some? && !HasEntry(m, Ancestor(h, p, j).value)
      {
        assert Ancestor(h, c, j + 1) == Ancestor(h, p, j);
      }
      NearestIsResolved(h, m, p, n - 1, k);
    }
  }

  /**
   * Fallback: when no class on the chain of `c` below the base file class has
   * an entry, `map` returns the base file class's wrapper.
   */
  lemma FallbackToBase(h: Hierarchy, m: Entries, c: ClassName, n: nat)
    requires Resolvable(h, m, c) && Ancestor(h, c, n) == Some(ModelFile)
    requires forall j :: 0 <= j < n ==> Ancestor(h, c, j).Some? && !HasEntry(m, Ancestor(h, c, j).value)
    ensures Resolve(h, m, c) == m[ModelFile]
  {
    NearestIsResolved(h, m, c, n, ModelFile);
  }

  /** Resolution depends only on which classes have an entry, not on what the entries are. */
  lemma {:induction false} SameKeysSameResolvedClass(h: Hierarchy, m1: Entries, m2: Entries, c: ClassName)
    requires Resolvable(h, m1, c) && Resolvable(h, m2, c)
    requires forall k :: HasEntry(m1, k) <==> HasEntry(m2, k)
    ensures ResolvedClass(h, m1, c) == ResolvedClass(h, m2, c)
    decreases h.depth[c]
  {
    if !HasEntry(m1, c) {
      SameKeysSameResolvedClass(h, m1, m2, h.parent[c]);
    }
  }

  /**
   * After a successful `replaceMapping(from, to)`, every file class whose
   * lookup used the entry of `from` now gets `to`, and every other lookup is
   * unchanged.
   */
  lemma ReplaceRedirects(h: Hierarchy, m: Entries, from: ClassName, to: ClassName, c: ClassName)
    requires Resolvable(h, m, c) && Replaced(h, m, from, to).Success?
    ensures Resolvable(h, Replaced(h, m, from, to).value, c)
    ensures Resolve(h, Replaced(h, m, from, to).value, c) ==
            if ResolvedClass(h, m, c) == from then to else Resolve(h, m, c)
  {
    var m' := Replaced(h, m, from, to).value;
    assert forall k :: HasEntry(m, k) <==> HasEntry(m', k);
    SameKeysSameResolvedClass(h, m, m', c);
  }

  /**
   * After a successful `addMapping(from, to)`, a file class resolves to `to`
   * exactly when it is `from` or a subclass of it and `from` sits below the
   * class its lookup used before; every other lookup is unchanged.
   */
  lemma {:induction false} AddRedirectsSubclasses(h: Hierarchy, m: Entries, from: ClassName, to: ClassName, c: ClassName)
    requires Resolvable(h, m, c) && Added(h, m, from, to).Success?
    ensures Resolvable(h, Added(h, m, from, to).value, c)
    ensures ResolvedClass(h, Added(h, m, from, to).value, c) ==
            if IsA(h, c, from) && IsA(h, from, ResolvedClass(h, m, c)) then from else ResolvedClass(h, m, c)
    ensures Resolve(h, Added(h, m, from, to).value, c) ==
            if IsA(h, c, from) && IsA(h, from, ResolvedClass(h, m, c)) then to else Resolve(h, m, c)
    decreases h.depth[c]
  {
    var m' := Added(h, m, from, to).value;
    if HasEntry(m, c) {
      if IsA(h, c, from) && IsA(h, from, c) {
        IsADepth(h, c, from);
        IsADepth(h, from, c);
      }
    } else if c != from {
      AddRedirectsSubclasses(h, m, from, to, h.parent[c]);
    }
  }

  /** A mapper object: the `$map` field, updated in place by `addMapping` and `replaceMapping`. */
  class FileClassMapper {
    var entries: Entries

    ghost predicate Valid()
      reads this
    {
      Invariant(entries)
    }

    constructor()
      ensures Valid() && entries == DefaultEntries()
    {
      entries := DefaultEntries();
    }

    /** Registers a wrapper class for a file class that has none yet. */
    method AddMapping(h: Hierarchy, from: ClassName, to: ClassName) returns (outcome: Outcome<MapperError>)
      requires Valid()
      modifies this
      ensures Valid()
      ensures match Added(h, old(entries), from, to)
        case Success(m) => outcome == Pass && entries == m
        case Failure(e) => outcome == Fail(e) && entries == old(entries)
    {
      if !ClassExists(h, from) {
        return Fail(DoesNotExist(from));
      }
      if !ClassExists(h, to) {
        return Fail(DoesNotExist(to));
      }
      if HasEntry(entries, from) {
        return Fail(AlreadySetUp(from));
      }
      entries := entries[from := to];
      outcome := Pass;
    }

    /** Changes the wrapper class of a file class that already has one. */
    method ReplaceMapping(h: Hierarchy, from: ClassName, to: ClassName) returns (outcome: Outcome<MapperError>)
      requires Valid() && WellFormed(h)
      modifies this
      ensures Valid()
      ensures match Replaced(h, old(entries), from, to)
        case Success(m) => outcome == Pass && entries == m
        case Failure(e) => outcome == Fail(e) && entries == old(entries)
    {
      if !ClassExists(h, from) {
        return Fail(DoesNotExist(from));
      }
      if !ClassExists(h, to) {
        return Fail(DoesNotExist(to));
      }
      if !HasEntry(entries, from) {
        return Fail(NotSetUp(from));
      }
      entries := entries[from := to];
      outcome := Pass;
    }

    /** The wrapper class for a file whose concrete class is `fileClass`: walks up the parents until one has an entry. */
    method Map(h: Hierarchy, fileClass: ClassName) returns (wrapper: ClassName)
      requires Valid() && WellFormed(h) && fileClass in h.known && IsA(h, fileClass, ModelFile)
      ensures wrapper == Resolve(h, entries, fileClass)
    {
      var c := fileClass;
      while !HasEntry(entries, c)
        invariant Resolvable(h, entries, c)
        invariant ResolvedClass(h, entries, c) == ResolvedClass(h, entries, fileClass)
        decreases h.depth[c]
      {
        var p := ParentOf(h, c);
        c := p.value;
      }
      wrapper := entries[c];
    }
  }
}
