/**
  The run-time type information of src/object.h. `DEFINE_OBJECT` gives each
  class a `TypeID` by post-incrementing the shared counter `m_TypeCount`;
  `DECLARE_OBJECT(Class, Parent)` makes `IsA(t)` compare `t` with the class's
  own id and otherwise, unless the class is `Object`, ask the parent; and
  `DYNAMIC_CAST` yields the object when it is non-null and `IsA` the target,
  null otherwise. The class hierarchy is a value: each id with its parent's
  id, `Object` being its own parent.
 */
module Objects {
  import opened Numeric

  /** The declared classes: `parent` maps each class's id to its parent's
      id and `depth` to its distance from `root`, the id of `Object`. */
  datatype Hierarchy = Hierarchy(parent: map<int, int>, depth: map<int, nat>, root: int)

  /** Every class's parent is declared, `Object` is its own parent, and every
      other class is one step further from `Object` than its parent (so the
      parent chains end at `Object`). */
  predicate WellFormed(h: Hierarchy)
  {
    h.root in h.parent && h.parent[h.root] == h.root &&
    h.parent.Keys == h.depth.Keys && h.depth[h.root] == 0 &&
    forall c :: c in h.parent && c != h.root ==>
      h.parent[c] in h.parent && h.depth[c] == h.depth[h.parent[c]] + 1
  }

  /** `IsA(typeID)` on an object whose class has id `c`. */
  function IsA(h: Hierarchy, c: int, t: int): bool
    requires WellFormed(h) && c in h.parent
    decreases h.depth[c]
  {
    if c == t then true
    else if c == h.root then false
    else IsA(h, h.parent[c], t)
  }

  /** The class `n` steps up the parent chain from `c`. */
  function Ancestor(h: Hierarchy, c: int, n: nat): (a: int)
    requires WellFormed(h) && c in h.parent && n <= h.depth[c]
    ensures a in h.parent && h.depth[a] == h.depth[c] - n
    decreases n
  {
    if n == 0 then c else Ancestor(h, h.parent[c], n - 1)
  }

  /** `IsA(t)` holds exactly when `t` is on the class's parent chain, the
      class itself and `Object` included. */
  lemma {:induction false} IsAIffOnChain(h: Hierarchy, c: int, t: int)
    requires WellFormed(h) && c in h.parent
    ensures IsA(h, c, t) <==> exists n :: 0 <= n <= h.depth[c] && Ancestor(h, c, n) == t
    decreases h.depth[c]
  {
    if c == t {
      assert Ancestor(h, c, 0) == t;
    } else if c == h.root {
      forall n | 0 <= n <= h.depth[c] ensures Ancestor(h, c, n) != t {
        assert n == 0;
      }
    } else {
      var p := h.parent[c];
      IsAIffOnChain(h, p, t);
      assert IsA(h, c, t) == IsA(h, p, t);
      if IsA(h, c, t) {
        var n :| 0 <= n <= h.depth[p] && Ancestor(h, p, n) == t;
        assert Ancestor(h, c, n + 1) == Ancestor(h, p, n);
        assert 0 <= n + 1 <= h.depth[c];
      } else {
        forall n | 0 <= n <= h.depth[c] ensures Ancestor(h, c, n) != t {
          if n > 0 {
            assert Ancestor(h, c, n) == Ancestor(h, p, n - 1);
          }
        }
      }
    }
  }

  /** Every class is its own type. */
  lemma IsAOwnType(h: Hierarchy, c: int)
    requires WellFormed(h) && c in h.parent
    ensures IsA(h, c, c)
  {
  }

  /** `Object` is only an `Object`. */
  lemma RootIsOnlyItself(h: Hierarchy, t: int)
    requires WellFormed(h)
    ensures IsA(h, h.root, t) <==> t == h.root
  {
  }

  /** Every class is an `Object`. */
  lemma {:induction false} EveryClassIsObject(h: Hierarchy, c: int)
    requires WellFormed(h) && c in h.parent
    ensures IsA(h, c, h.root)
    decreases h.depth[c]
  {
    if c != h.root {
      EveryClassIsObject(h, h.parent[c]);
    }
  }

  /** A class is every type its parent is. */
  lemma IsAInherited(h: Hierarchy, c: int, t: int)
    requires WellFormed(h) && c in h.parent
    ensures IsA(h, h.parent[c], t) ==> IsA(h, c, t)
  {
    if c == h.root {
      assert h.parent[c] == c;
    }
  }

  /** `IsA` is transitive along the hierarchy. */
  lemma {:induction false} IsATransitive(h: Hierarchy, c: int, d: int, t: int)
    requires WellFormed(h) && c in h.parent && d in h.parent
    requires IsA(h, c, d) && IsA(h, d, t)
    ensures IsA(h, c, t)
    decreases h.depth[c]
  {
    if c != d {
      assert c != h.root;
      IsATransitive(h, h.parent[c], d, t);
    }
  }

  /** `DYNAMIC_CAST(object, Target)`: the object itself when it is non-null
      and its class (`typeOf`) `IsA` the target, null otherwise. */
  function DynamicCast<O>(h: Hierarchy, obj: Option<O>, typeOf: O -> int, target: int): (r: Option<O>)
    requires WellFormed(h) && (obj.Some? ==> typeOf(obj.value) in h.parent)
    ensures r.Some? <==> obj.Some? && IsA(h, typeOf(obj.value), target)
    ensures r.Some? ==> r == obj
  {
    if obj.Some? && IsA(h, typeOf(obj.value), target) then obj else None
  }

  /** Casting to `Object` succeeds on every non-null object and casting
      to the object's own class too. */
  lemma CastToObjectOrOwnClass<O>(h: Hierarchy, o: O, typeOf: O -> int)
    requires WellFormed(h) && typeOf(o) in h.parent
    ensures DynamicCast(h, Some(o), typeOf, h.root) == Some(o)
    ensures DynamicCast(h, Some(o), typeOf, typeOf(o)) == Some(o)
  {
    EveryClassIsObject(h, typeOf(o));
  }

  /** The counter `m_TypeCount` and the ids `DEFINE_OBJECT` has handed out. */
  class TypeCounter {
    var typeCount: int
    var typeIds: map<string, int>

    /** The ids handed out are distinct and below the counter, which does
        not go below zero. */
    ghost predicate Valid()
      reads this
    {
      0 <= typeCount &&
      (forall n :: n in typeIds ==> 0 <= typeIds[n] < typeCount) &&
      (forall n, m :: n in typeIds && m in typeIds && n != m ==> typeIds[n] != typeIds[m])
    }

    /** The static counter starts at zero, with no class defined. */
    constructor ()
      ensures Valid() && typeCount == 0 && typeIds == map[]
    {
      typeCount, typeIds := 0, map[];
    }

    /** `DEFINE_OBJECT(name)`: the class gets the counter's value, and the
        counter moves on by one. */
    method Define(name: string) returns (id: int)
      requires Valid() && name !in typeIds
      modifies this
      ensures Valid()
      ensures id == old(typeCount) && typeCount == old(typeCount) + 1
      ensures typeIds == old(typeIds)[name := id]
      ensures forall n :: n in old(typeIds) ==> old(typeIds)[n] < id
    {
      id := typeCount;
      typeCount := typeCount + 1;
      typeIds := typeIds[name := id];
    }
  }
}
