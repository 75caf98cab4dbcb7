/**
  The entity-component store of src/entity.h, src/entities.cpp and
  src/components.cpp with src/components.h. An `Entity` keeps at most one
  component per type id; `Entities` hands out entities under the keys
  0, 1, 2, ...; `Components::extract` runs `preUpdate` on every component
  and files it in the bucket of its type, and `ofType` returns a copy of a
  bucket.

  Components are one class here: `typeId` is the id of the component's
  class and `transform` is the transform state when the component is a
  `Transform` (whose `preUpdate` marks its world matrix stale); every other
  component's `preUpdate` does nothing. The two registries are static in
  the source and explicit objects here.
 */
module Ecs {
  import opened Transforms

  class Component {
    const typeId: int
    const transform: Transform?
    /** `_entity`, set by `Entity::setComponent`. */
    var entity: Entity?

    constructor (typeId: int, transform: Transform?)
      ensures this.typeId == typeId && this.transform == transform && entity == null
    {
      this.typeId, this.transform := typeId, transform;
      entity := null;
    }

    /** `preUpdate()`: a transform marks its world matrix stale. */
    method PreUpdate()
      modifies transform
      ensures transform != null ==> transform.dirty
      ensures transform != null ==>
        transform.position == old(transform.position) &&
        transform.rotation == old(transform.rotation) && transform.scale == old(transform.scale)
    {
      if transform != null {
        transform.PreUpdate();
      }
    }
  }

  class Entity {
    /** `_components`: the component of each type id. */
    var components: map<int, Component>

    /** Every component sits under the id of its own type. */
    ghost predicate Typed()
      reads this
    {
      forall t :: t in components ==> components[t].typeId == t
    }

    constructor ()
      ensures components == map[] && Typed()
    {
      components := map[];
    }

    /** `setComponent<T>(args...)`: a new component of type `typeId`, owned
        by this entity, replaces any component of that type. */
    method SetComponent(typeId: int, transform: Transform?) returns (self: Entity, c: Component)
      requires Typed()
      modifies this
      ensures Typed() && self == this
      ensures fresh(c) && c.typeId == typeId && c.transform == transform && c.entity == this
      ensures components == old(components)[typeId := c]
    {
      c := new Component(typeId, transform);
      c.entity := this;
      components := components[typeId := c];
      self := this;
    }

    /** `getComponentByTypeId(typeId)`: the component of that type, null when
        there is none (the `at` lookup throws and the exception is caught). */
    function GetComponentByTypeId(typeId: int): (r: Component?)
      reads this
      ensures r == null <==> typeId !in components
      ensures r != null ==> r == components[typeId]
    {
      if typeId in components then components[typeId] else null
    }

    /** `clearComponent<T>()`: the component of that type is dropped, if any. */
    method ClearComponent(typeId: int)
      requires Typed()
      modifies this
      ensures Typed() && components == old(components) - {typeId}
      ensures GetComponentByTypeId(typeId) == null
    {
      components := components - {typeId};
    }
  }

  /** Setting a component makes it the one found under its type and leaves
      every other type as it was. */
  method SetThenGet(e: Entity, typeId: int, other: int, transform: Transform?) returns (c: Component)
    requires e.Typed() && other != typeId
    modifies e
    ensures e.GetComponentByTypeId(typeId) == c && c.typeId == typeId
    ensures e.GetComponentByTypeId(other) == old(e.GetComponentByTypeId(other))
  {
    var self;
    self, c := e.SetComponent(typeId, transform);
  }

  class Entities {
    /** `_entities`. */
    var entities: map<int, Entity>

    /** The keys are 0 up to the number of entities, and every entity keeps
        its components under their types. */
    ghost predicate Valid()
      reads this, entities.Values
    {
      (forall k :: k in entities <==> 0 <= k < |entities|) &&
      (forall k :: k in entities ==> entities[k].Typed())
    }

    constructor ()
      ensures Valid() && entities == map[]
    {
      entities := map[];
    }

    /** The component maps of the entities, in key order. */
    ghost function Snapshot(): (snap: seq<map<int, Component>>)
      reads this, entities.Values
      requires Valid()
      ensures |snap| == |entities|
    {
      var es := entities;
      seq(|es|, i requires 0 <= i < |es| reads es.Values => es[i].components)
    }

    /** `create()`: a new entity under the key equal to the current number
        of entities. `insert` keeps an existing entry under that key, and the
        key is never taken, as `Valid` shows. */
    method Create() returns (e: Entity)
      requires Valid()
      modifies this
      ensures Valid() && fresh(e) && e.components == map[]
      ensures entities == old(entities)[|old(entities)| := e]
    {
      var size := |entities|;
      e := new Entity();
      if size !in entities {
        entities := entities[size := e];
      }
      assert size !in old(entities);
    }
  }

  /** The components of type `t` in the first `n` entities of `snap`, in
      entity order. */
  ghost function Collect(snap: seq<map<int, Component>>, n: nat, t: int): seq<Component>
    requires n <= |snap|
  {
    if n == 0 then []
    else Collect(snap, n - 1, t) + (if t in snap[n - 1] then [snap[n - 1][t]] else [])
  }

  /** Each entity contributes at most one component to a bucket. */
  lemma {:induction false} CollectLength(snap: seq<map<int, Component>>, n: nat, t: int)
    requires n <= |snap|
    ensures |Collect(snap, n, t)| <= n
  {
    if n > 0 {
      CollectLength(snap, n - 1, t);
    }
  }

  /** A component is in the bucket of `t` exactly when one of the entities
      holds it under `t`. */
  lemma {:induction false} CollectMembers(snap: seq<map<int, Component>>, n: nat, t: int, c: Component)
    requires n <= |snap|
    ensures c in Collect(snap, n, t) <==> exists i :: 0 <= i < n && t in snap[i] && snap[i][t] == c
  {
    if n > 0 {
      CollectMembers(snap, n - 1, t, c);
      if c in Collect(snap, n, t) && c !in Collect(snap, n - 1, t) {
        assert t in snap[n - 1] && snap[n - 1][t] == c;
      }
    }
  }

  /** A bucket is empty exactly when no entity has a component of its type. */
  lemma {:induction false} CollectEmpty(snap: seq<map<int, Component>>, n: nat, t: int)
    requires n <= |snap|
    ensures Collect(snap, n, t) == [] <==> forall i :: 0 <= i < n ==> t !in snap[i]
  {
    if n > 0 {
      CollectEmpty(snap, n - 1, t);
    }
  }

  /** A non-empty set has an element to pick. */
  lemma {:induction false} HasMember(s: set<int>)
    requires |s| > 0
    ensures exists x :: x in s
  {
    if forall x :: x !in s {
      assert false;
    }
  }

  /** The bucket of `t` in `m`, empty when there is none. */
  function BucketOf(m: map<int, seq<Component>>, t: int): seq<Component>
  {
    if t in m then m[t] else []
  }

  /** The buckets `b` after filing every component of `comps` under its key. */
  function AddEntity(b: map<int, seq<Component>>, comps: map<int, Component>): map<int, seq<Component>>
  {
    map t | t in b.Keys + comps.Keys :: BucketOf(b, t) + (if t in comps then [comps[t]] else [])
  }

  /** The buckets after filing the first `n` entities of `snap`, starting
      from none. */
  ghost function Filed(snap: seq<map<int, Component>>, n: nat): map<int, seq<Component>>
    requires n <= |snap|
  {
    if n == 0 then map[] else AddEntity(Filed(snap, n - 1), snap[n - 1])
  }

  /** Filing no components leaves the buckets as they are. */
  lemma AddNothing(b: map<int, seq<Component>>)
    ensures AddEntity(b, map[]) == b
  {
    var r := AddEntity(b, map[]);
    assert r.Keys == b.Keys;
    forall t | t in b ensures r[t] == b[t] { }
  }

  /** Filing one more component appends it to the bucket of its key. */
  lemma AddOne(b: map<int, seq<Component>>, m: map<int, Component>, t: int, c: Component)
    requires t !in m
    ensures AddEntity(b, m[t := c]) == AddEntity(b, m)[t := BucketOf(AddEntity(b, m), t) + [c]]
  {
    var l := AddEntity(b, m[t := c]);
    var r := AddEntity(b, m)[t := BucketOf(AddEntity(b, m), t) + [c]];
    assert l.Keys == r.Keys;
    forall u | u in l ensures l[u] == r[u] {
      if u == t {
        assert BucketOf(AddEntity(b, m), t) == BucketOf(b, t);
      }
    }
  }

  /** The filed bucket of each type is the per-type specification. */
  lemma {:induction false} FiledIsCollect(snap: seq<map<int, Component>>, n: nat, t: int)
    requires n <= |snap|
    ensures BucketOf(Filed(snap, n), t) == Collect(snap, n, t)
  {
    if n > 0 {
      var prev := Filed(snap, n - 1);
      var extra := if t in snap[n - 1] then [snap[n - 1][t]] else [];
      assert Filed(snap, n) == AddEntity(prev, snap[n - 1]);
      AddEntityAt(prev, snap[n - 1], t);
      assert BucketOf(Filed(snap, n), t) == BucketOf(prev, t) + extra;
      FiledIsCollect(snap, n - 1, t);
      assert Collect(snap, n, t) == Collect(snap, n - 1, t) + extra;
    }
  }

  /** The bucket of `t` after filing `comps`. */
  lemma AddEntityAt(b: map<int, seq<Component>>, comps: map<int, Component>, t: int)
    ensures t in AddEntity(b, comps) <==> t in b || t in comps
    ensures BucketOf(AddEntity(b, comps), t) == BucketOf(b, t) + (if t in comps then [comps[t]] else [])
  {
  }

  /** Filing creates a bucket only to put a component in it: a type has a
      bucket exactly when some entity has a component of that type. */
  lemma {:induction false} FiledKeys(snap: seq<map<int, Component>>, n: nat, t: int)
    requires n <= |snap|
    ensures t in Filed(snap, n) <==> |Collect(snap, n, t)| > 0
  {
    if n > 0 {
      var prev := Filed(snap, n - 1);
      FiledKeys(snap, n - 1, t);
      AddEntityAt(prev, snap[n - 1], t);
      assert Filed(snap, n) == AddEntity(prev, snap[n - 1]);
      assert |Collect(snap, n, t)| == |Collect(snap, n - 1, t)| + (if t in snap[n - 1] then 1 else 0);
    }
  }

  /** `ts` holds every transform behind a component of the first `n`
      entities of `snap`. */
  predicate Covers(snap: seq<map<int, Component>>, n: nat, ts: set<Transform>)
    requires n <= |snap|
  {
    forall i, t :: 0 <= i < n && t in snap[i] && snap[i][t].transform != null ==>
      snap[i][t].transform in ts
  }

  /** What covering all of `snap` says about entity `k`. */
  lemma CoversEntity(snap: seq<map<int, Component>>, k: nat, ts: set<Transform>)
    requires k < |snap| && Covers(snap, |snap|, ts)
    ensures forall t :: t in snap[k] && snap[k][t].transform != null ==> snap[k][t].transform in ts
  {
  }

  /** Covering one more entity takes its own transforms. */
  lemma CoversStep(snap: seq<map<int, Component>>, k: nat, ts: set<Transform>, ts': set<Transform>)
    requires k < |snap| && Covers(snap, k, ts) && ts <= ts'
    requires forall t :: t in snap[k] && snap[k][t].transform != null ==> snap[k][t].transform in ts'
    ensures Covers(snap, k + 1, ts')
  {
  }

  /** Every transform in `ts` has its world matrix marked stale. */
  ghost predicate AllDirty(ts: set<Transform>)
    reads ts
  {
    forall x :: x in ts ==> x.dirty
  }

  /** When every transform of `snap` is among the stale ones, each
      component's transform is stale. */
  lemma CoveredAreDirty(snap: seq<map<int, Component>>, ts: set<Transform>)
    requires Covers(snap, |snap|, ts) && AllDirty(ts)
    ensures forall i, t :: 0 <= i < |snap| && t in snap[i] && snap[i][t].transform != null ==>
      snap[i][t].transform.dirty
  {
    forall i, t | 0 <= i < |snap| && t in snap[i] && snap[i][t].transform != null
      ensures snap[i][t].transform.dirty
    {
      assert snap[i][t].transform in ts;
    }
  }

  /** No transform in `ts` has moved, turned or been rescaled. */
  twostate predicate Kept(ts: set<Transform>)
    reads ts
  {
    forall x :: x in ts ==>
      x.position == old(x.position) && x.rotation == old(x.rotation) && x.scale == old(x.scale)
  }

  class Components {
    /** `_components`: the bucket of each type id. */
    var buckets: map<int, seq<Component>>

    constructor ()
      ensures buckets == map[]
    {
      buckets := map[];
    }

    /** A type with no bucket reads as an empty one. */
    function Bucket(t: int): seq<Component>
      reads this
    {
      BucketOf(buckets, t)
    }

    /** The body of `extract()`'s inner loop for one component: its
        `preUpdate` runs and it is appended to the bucket of its type. */
    method File(c: Component, ghost seen: set<Transform>) returns (ghost seen': set<Transform>)
      requires AllDirty(seen)
      modifies this, c.transform
      ensures buckets == old(buckets)[c.typeId := BucketOf(old(buckets), c.typeId) + [c]]
      ensures seen' == if c.transform != null then seen + {c.transform} else seen
      ensures AllDirty(seen')
      ensures c.transform != null ==>
        c.transform.position == old(c.transform.position) &&
        c.transform.rotation == old(c.transform.rotation) && c.transform.scale == old(c.transform.scale)
    {
      c.PreUpdate();
      seen' := if c.transform != null then seen + {c.transform} else seen;
      var id := c.typeId;
      buckets := buckets[id := BucketOf(buckets, id) + [c]];
    }

    /** One entity's turn in `extract()`: each of its components, in
        whatever order the map yields them, goes through `File`. `seen`
        grows by the entity's transforms, all of them now marked stale. */
    method FileComponents(comps: map<int, Component>, ghost all: set<Transform>, ghost seen: set<Transform>)
      returns (ghost seen': set<Transform>)
      requires forall t :: t in comps ==> comps[t].typeId == t
      requires forall t :: t in comps && comps[t].transform != null ==> comps[t].transform in all
      requires AllDirty(seen)
      modifies this, all
      ensures buckets == AddEntity(old(buckets), comps)
      ensures seen <= seen'
      ensures forall t :: t in comps && comps[t].transform != null ==> comps[t].transform in seen'
      ensures AllDirty(seen')
      ensures Kept(all)
    {
      seen' := seen;
      var left := comps.Keys;
      assert comps - left == map[];
      AddNothing(buckets);
      while |left| > 0
        invariant left <= comps.Keys
        invariant buckets == AddEntity(old(buckets), comps - left)
        invariant seen <= seen'
        invariant forall t :: t in comps && t !in left && comps[t].transform != null ==> comps[t].transform in seen'
        invariant AllDirty(seen')
        invariant Kept(all)
        decreases left
      {
        HasMember(left);
        var t :| t in left;
        var c := comps[t];
        assert comps - (left - {t}) == (comps - left)[t := c];
        AddOne(old(buckets), comps - left, t, c);
        seen' := File(c, seen');
        left := left - {t};
      }
      assert comps - left == comps;
    }

    /** The loop of `extract()` over the entities `es`, whose component maps
        are `snap`, from empty buckets. */
    method FileAll(es: map<int, Entity>, ghost snap: seq<map<int, Component>>, ghost transforms: set<Transform>)
      requires |es| == |snap|
      requires forall i :: 0 <= i < |snap| ==> i in es && es[i].components == snap[i]
      requires forall i, t :: 0 <= i < |snap| && t in snap[i] ==> snap[i][t].typeId == t
      requires Covers(snap, |snap|, transforms)
      requires buckets == map[]
      modifies this, transforms
      ensures buckets == Filed(snap, |snap|)
      ensures forall i, t :: 0 <= i < |snap| && t in snap[i] && snap[i][t].transform != null ==>
        snap[i][t].transform.dirty
      ensures Kept(transforms)
    {
      ghost var seen: set<Transform> := {};
      var n := |es|;
      var k := 0;
      while k < n
        invariant 0 <= k <= n
        invariant buckets == Filed(snap, k)
        invariant Covers(snap, k, seen)
        invariant AllDirty(seen)
        invariant Kept(transforms)
      {
        var comps := es[k].components;
        assert comps == snap[k];
        CoversEntity(snap, k, transforms);
        ghost var seen' := FileComponents(comps, transforms, seen);
        CoversStep(snap, k, seen, seen');
        seen := seen';
        k := k + 1;
      }
      CoveredAreDirty(snap, seen);
    }

    /** `extract()`: the buckets are rebuilt from scratch. Entities are
        visited in key order (the source's `unordered_map` fixes no order);
        the order within an entity does not matter, since an entity holds at
        most one component per type. Every component's `preUpdate` runs;
        `transforms` names the transforms this may touch. */
    method Extract(reg: Entities, ghost transforms: set<Transform>)
      requires reg.Valid() && Covers(reg.Snapshot(), |reg.entities|, transforms)
      modifies this, transforms
      ensures buckets == Filed(reg.Snapshot(), |reg.entities|)
      ensures forall t :: Bucket(t) == Collect(reg.Snapshot(), |reg.entities|, t)
      ensures forall t :: t in buckets ==> buckets[t] != []
      ensures var snap := reg.Snapshot();
        forall i, t :: 0 <= i < |snap| && t in snap[i] && snap[i][t].transform != null ==>
          snap[i][t].transform.dirty
      ensures Kept(transforms)
    {
      ghost var snap := reg.Snapshot();
      buckets := map[];
      FileAll(reg.entities, snap, transforms);
      assert reg.Snapshot() == snap;
      forall t ensures Bucket(t) == Collect(snap, |snap|, t) && (t in buckets ==> buckets[t] != []) {
        FiledIsCollect(snap, |snap|, t);
        FiledKeys(snap, |snap|, t);
      }
    }

    /** `ofType<T>()`: a copy of the bucket of `t`; `operator[]` adds an
        empty bucket when there is none. */
    method OfType(t: int) returns (r: seq<Component>)
      modifies this
      ensures r == old(Bucket(t)) && Bucket(t) == old(Bucket(t))
      ensures buckets == if t in old(buckets) then old(buckets) else old(buckets)[t := []]
    {
      if t !in buckets {
        buckets := buckets[t := []];
      }
      r := buckets[t];
    }
  }
}
