/**
 * The part of PHP's runtime class system that the file class mapper relies on:
 * which class names exist (`class_exists`) and what each class's parent is
 * (`get_parent_class`). Classes are identified by their fully qualified names.
 */
module Classes {
  import opened Wrappers

  /** A fully qualified PHP class name, such as `Gidato\Filesystem\Model\File`. */
  type ClassName = string

  /** PHP's `empty()` applied to a string: true exactly for "" and "0". */
  predicate PhpEmpty(s: string)
  {
    s == "" || s == "0"
  }

  /**
   * The declared classes, the parent of every class that has one, and the
   * depth of every declared class in the inheritance tree. The depth map is
   * the model's witness that every ancestry chain is finite.
   */
  datatype Hierarchy = Hierarchy(known: set<ClassName>, parent: map<ClassName, ClassName>, depth: map<ClassName, nat>)

  /**
   * A hierarchy PHP could actually have: no declared class is named "" or "0",
   * every parent is a declared class, and a parent is strictly shallower than
   * its child (so no class is its own ancestor).
   */
  predicate WellFormed(h: Hierarchy)
  {
    (forall c :: c in h.known ==> !PhpEmpty(c) && c in h.depth) &&
    (forall c :: c in h.parent ==> c in h.known && h.parent[c] in h.known && h.depth[h.parent[c]] < h.depth[c])
  }

  /** `class_exists($c)`. */
  predicate ClassExists(h: Hierarchy, c: ClassName)
  {
    c in h.known
  }

  /** `get_parent_class($c)`, with PHP's `false` as `None`. */
  function ParentOf(h: Hierarchy, c: ClassName): (p: Option<ClassName>)
    requires WellFormed(h)
    ensures p.Some? <==> c in h.parent
    ensures p.Some? ==> p.value == h.parent[c]
    ensures p.Some? ==> ClassExists(h, p.value) && h.depth[p.value] < h.depth[c]
  {
    if c in h.parent then Some(h.parent[c]) else None
  }

  /** `c` is `base` or a subclass of it (PHP's `instanceof` on class names). */
  predicate IsA(h: Hierarchy, c: ClassName, base: ClassName)
    requires WellFormed(h) && c in h.known
    decreases h.depth[c]
  {
    c == base || (c in h.parent && IsA(h, h.parent[c], base))
  }

  /** The `n`-th class up the ancestry chain of `c` (`c` itself for `n == 0`), if the chain is that long. */
  function Ancestor(h: Hierarchy, c: ClassName, n: nat): (a: Option<ClassName>)
    requires WellFormed(h) && c in h.known
    ensures a.Some? ==> a.value in h.known
    decreases n
  {
    if n == 0 then Some(c)
    else if c in h.parent then Ancestor(h, h.parent[c], n - 1)
    else None
  }

  /** Being a subclass means appearing somewhere on the ancestry chain: one direction. */
  lemma {:induction false} IsAHasAncestorIndex(h: Hierarchy, c: ClassName, base: ClassName) returns (n: nat)
    requires WellFormed(h) && c in h.known && IsA(h, c, base)
    ensures Ancestor(h, c, n) == Some(base)
    decreases h.depth[c]
  {
    if c == base {
      n := 0;
    } else {
      var m := IsAHasAncestorIndex(h, h.parent[c], base);
      n := m + 1;
    }
  }

  /** Being a subclass means appearing somewhere on the ancestry chain: the other direction. */
  lemma {:induction false} AncestorIsA(h: Hierarchy, c: ClassName, base: ClassName, n: nat)
    requires WellFormed(h) && c in h.known && Ancestor(h, c, n) == Some(base)
    ensures IsA(h, c, base)
    decreases n
  {
    if n > 0 {
      AncestorIsA(h, h.parent[c], base, n - 1);
    }
  }

  /** An ancestor is never deeper than its subclass, and only the class itself is as deep. */
  lemma {:induction false} IsADepth(h: Hierarchy, c: ClassName, base: ClassName)
    requires WellFormed(h) && c in h.known && IsA(h, c, base)
    ensures base in h.depth && h.depth[base] <= h.depth[c]
    ensures h.depth[base] == h.depth[c] ==> base == c
    decreases h.depth[c]
  {
    if c != base {
      IsADepth(h, h.parent[c], base);
    }
  }
}
