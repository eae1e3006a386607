/** The size of a page's content: a worklist over a graph of PDF objects that may be cyclic. */
module PdfTraversal {

  type Id = (int, int)

  datatype Value = Indirect(id: Id) | Array(items: seq<Value>) | Stream(size: nat) | Other

  type File = map<Id, Value>

  const MAX_OBJECTS := 10_000

  /** What a reference resolves to; a missing object, or one that is again a reference, counts for nothing. */
  function Content(file: File, id: Id): Value {
    if id in file && !file[id].Indirect? then file[id] else Other
  }

  // ---- What a value holds directly, that is without following references

  function Bytes(v: Value): nat {
    match v case Stream(n) => n case Array(items) => AllBytes(items) case _ => 0
  }

  function AllBytes(vs: seq<Value>): nat {
    if vs == [] then 0 else AllBytes(vs[..|vs| - 1]) + Bytes(vs[|vs| - 1])
  }

  function Nodes(v: Value): (n: nat)
    ensures n >= 1
  {
    match v case Array(items) => 1 + AllNodes(items) case _ => 1
  }

  function AllNodes(vs: seq<Value>): nat {
    if vs == [] then 0 else AllNodes(vs[..|vs| - 1]) + Nodes(vs[|vs| - 1])
  }

  function Refs(v: Value): set<Id> {
    match v case Indirect(id) => {id} case Array(items) => AllRefs(items) case _ => {}
  }

  function AllRefs(vs: seq<Value>): set<Id> {
    if vs == [] then {} else AllRefs(vs[..|vs| - 1]) + Refs(vs[|vs| - 1])
  }

  // ---- Everything reachable, each reference once

  /** Contains the references of the root and of every object it contains. */
  ghost predicate Closed(file: File, root: Value, ids: set<Id>) {
    Refs(root) <= ids && forall id :: id in ids ==> Refs(Content(file, id)) <= ids
  }

  function Mentioned(file: File, root: Value): set<Id> {
    Refs(root) + set id, r | id in file && r in Refs(file[id]) :: r
  }

  /** The least closed set. */
  ghost function Reachable(file: File, root: Value): set<Id> {
    set id | id in Mentioned(file, root) && InEvery(file, root, id)
  }

  ghost predicate InEvery(file: File, root: Value, id: Id) {
    forall ids :: Closed(file, root, ids) ==> id in ids
  }

  lemma ReachableIsLeast(file: File, root: Value)
    ensures Closed(file, root, Reachable(file, root))
    ensures forall ids :: Closed(file, root, ids) ==> Reachable(file, root) <= ids
  {
    var reach := Reachable(file, root);
    forall id, r | id in reach && r in Refs(Content(file, id)) ensures r in reach {
      assert r in Mentioned(file, root);
      forall ids | Closed(file, root, ids) ensures r in ids { assert id in ids; }
      assert InEvery(file, root, r);
    }
    forall r | r in Refs(root) ensures r in reach {
      assert r in Mentioned(file, root);
      forall ids | Closed(file, root, ids) ensures r in ids {}
      assert InEvery(file, root, r);
    }
    forall ids, id | Closed(file, root, ids) && id in reach ensures id in ids { assert InEvery(file, root, id); }
  }

  ghost function Sum(ids: set<Id>, f: Id -> nat): nat {
    if ids == {} then 0 else var id :| id in ids; f(id) + Sum(ids - {id}, f)
  }

  lemma {:induction false} SumWithout(ids: set<Id>, f: Id -> nat, x: Id)
    requires x in ids
    ensures Sum(ids, f) == f(x) + Sum(ids - {x}, f)
    decreases |ids|
  {
    var id :| id in ids && Sum(ids, f) == f(id) + Sum(ids - {id}, f);
    if id != x {
      SumWithout(ids - {id}, f, x);
      SumWithout(ids - {x}, f, id);
      assert ids - {id} - {x} == ids - {x} - {id};
    }
  }

  function ContentBytes(file: File): Id -> nat { id => Bytes(Content(file, id)) }

  function ContentNodes(file: File): Id -> nat { id => Nodes(Content(file, id)) - 1 }

  /** The bytes of all reachable streams, each indirect object counted once. */
  ghost function TotalBytes(file: File, root: Value): nat {
    Bytes(root) + Sum(Reachable(file, root), ContentBytes(file))
  }

  /** The values looked at when each indirect object is expanded once. */
  ghost function TotalNodes(file: File, root: Value): nat {
    Nodes(root) + Sum(Reachable(file, root), ContentNodes(file))
  }

  // ---- The traversal

  /** What was counted, what is pending and what is still unvisited make up the whole. */
  ghost predicate Accounted(file: File, root: Value, pending: seq<Value>, visited: set<Id>, total: nat, objects: nat) {
    var left := Reachable(file, root) - visited;
    && TotalBytes(file, root) == total + AllBytes(pending) + Sum(left, ContentBytes(file))
    && TotalNodes(file, root) == objects + AllNodes(pending) + Sum(left, ContentNodes(file))
  }

  /** Only reachable references are seen, and what is still missing is pending. */
  ghost predicate Covered(file: File, root: Value, pending: seq<Value>, visited: set<Id>) {
    && visited <= Reachable(file, root) && AllRefs(pending) <= Reachable(file, root)
    && Refs(root) <= visited + AllRefs(pending)
    && forall id :: id in visited ==> Refs(Content(file, id)) <= visited + AllRefs(pending)
  }

  lemma Pop(pending: seq<Value>)
    requires pending != []
    ensures var rest, v := pending[..|pending| - 1], pending[|pending| - 1];
            && AllBytes(pending) == AllBytes(rest) + Bytes(v)
            && AllNodes(pending) == AllNodes(rest) + Nodes(v)
            && AllRefs(pending) == AllRefs(rest) + Refs(v)
  {}

  lemma Nothing()
    ensures AllBytes([]) == 0 && AllNodes([]) == 0 && AllRefs([]) == {}
  {}

  lemma {:induction false} Extend(pending: seq<Value>, items: seq<Value>)
    ensures AllBytes(pending + items) == AllBytes(pending) + AllBytes(items)
    ensures AllNodes(pending + items) == AllNodes(pending) + AllNodes(items)
    ensures AllRefs(pending + items) == AllRefs(pending) + AllRefs(items)
    decreases |items|
  {
    if items == [] {
      assert pending + items == pending;
    } else {
      var rest := items[..|items| - 1];
      Extend(pending, rest);
      assert (pending + items)[..|pending + items| - 1] == pending + rest;
    }
  }

  lemma Begin(file: File, root: Value)
    ensures Accounted(file, root, [root], {}, 0, 0) && Covered(file, root, [root], {})
  {
    hide Reachable, Sum, AllBytes, AllNodes, AllRefs;
    ReachableIsLeast(file, root);
    Pop([root]);
    Nothing();
    assert [root][..0] == [];
    assert Reachable(file, root) - {} == Reachable(file, root);
  }

  /** A reference that was already visited adds nothing. */
  lemma SkipVisited(file: File, root: Value, pending: seq<Value>, visited: set<Id>, total: nat, objects: nat)
    requires pending != [] && pending[|pending| - 1].Indirect? && pending[|pending| - 1].id in visited
    requires Accounted(file, root, pending, visited, total, objects) && Covered(file, root, pending, visited)
    ensures Accounted(file, root, pending[..|pending| - 1], visited, total, objects + 1)
    ensures Covered(file, root, pending[..|pending| - 1], visited)
  {
    hide Reachable, Sum, TotalBytes, TotalNodes, AllBytes, AllNodes, AllRefs;
    Pop(pending);
  }

  /** What one popped value contributes: itself, or the content of a reference seen for the first time. */
  function Resolved(file: File, v: Value): Value { if v.Indirect? then Content(file, v.id) else v }

  /** A reference seen for the first time can be replaced by its content. */
  lemma Follow(file: File, root: Value, pending: seq<Value>, visited: set<Id>, total: nat, objects: nat)
    requires pending != [] && pending[|pending| - 1].Indirect? && pending[|pending| - 1].id !in visited
    requires Accounted(file, root, pending, visited, total, objects) && Covered(file, root, pending, visited)
    ensures var id := pending[|pending| - 1].id;
            var next := pending[..|pending| - 1] + [Content(file, id)];
            Accounted(file, root, next, visited + {id}, total, objects) && Covered(file, root, next, visited + {id})
  {
    hide Reachable, Sum, TotalBytes, TotalNodes, AllBytes, AllNodes, AllRefs, Content;
    var rest, id := pending[..|pending| - 1], pending[|pending| - 1].id;
    var next := rest + [Content(file, id)];
    Pop(pending);
    Pop(next);
    assert next[..|next| - 1] == rest;
    ReachableIsLeast(file, root);
    var left := Reachable(file, root) - visited;
    SumWithout(left, ContentBytes(file), id);
    SumWithout(left, ContentNodes(file), id);
    assert Reachable(file, root) - (visited + {id}) == left - {id};
  }

  /** A value that is not a reference is replaced by its items, or counted. */
  lemma Unpack(file: File, root: Value, pending: seq<Value>, visited: set<Id>, total: nat, objects: nat)
    requires pending != [] && !pending[|pending| - 1].Indirect?
    requires Accounted(file, root, pending, visited, total, objects) && Covered(file, root, pending, visited)
    ensures var rest, v := pending[..|pending| - 1], pending[|pending| - 1];
            var next := if v.Array? then rest + v.items else rest;
            && Accounted(file, root, next, visited, if v.Stream? then total + v.size else total, objects + 1)
            && Covered(file, root, next, visited)
  {
    hide Reachable, Sum, TotalBytes, TotalNodes, AllBytes, AllNodes, AllRefs, Content;
    Pop(pending);
    var rest, v := pending[..|pending| - 1], pending[|pending| - 1];
    if v.Array? { Extend(rest, v.items); }
  }

  lemma Expand(file: File, root: Value, pending: seq<Value>, visited: set<Id>, total: nat, objects: nat)
    requires pending != []
    requires Accounted(file, root, pending, visited, total, objects) && Covered(file, root, pending, visited)
    requires pending[|pending| - 1].Indirect? ==> pending[|pending| - 1].id !in visited
    ensures var rest, v := pending[..|pending| - 1], pending[|pending| - 1];
            var now, r := if v.Indirect? then visited + {v.id} else visited, Resolved(file, v);
            var next := if r.Array? then rest + r.items else rest;
            && Accounted(file, root, next, now, if r.Stream? then total + r.size else total, objects + 1)
            && Covered(file, root, next, now)
  {
    hide Accounted, Covered;
    var v := pending[|pending| - 1];
    if v.Indirect? {
      Follow(file, root, pending, visited, total, objects);
      var next := pending[..|pending| - 1] + [Content(file, v.id)];
      Unpack(file, root, next, visited + {v.id}, total, objects);
      assert next[..|next| - 1] == pending[..|pending| - 1];
    } else {
      Unpack(file, root, pending, visited, total, objects);
    }
  }

  lemma Finished(file: File, root: Value, visited: set<Id>, total: nat, objects: nat)
    requires Accounted(file, root, [], visited, total, objects) && Covered(file, root, [], visited)
    ensures total == TotalBytes(file, root) && objects == TotalNodes(file, root)
  {
    ReachableIsLeast(file, root);
    assert Closed(file, root, visited);
    assert Reachable(file, root) - visited == {};
  }

  /** The result is within the limit exactly when all reachable streams are, and the traversal within its cap;
      then it is their exact size. */
  method RawContentBytes(file: File, root: Value, limit: int) returns (r: int)
    ensures r <= limit <==> TotalBytes(file, root) <= limit && TotalNodes(file, root) <= MAX_OBJECTS
    ensures r <= limit ==> r == TotalBytes(file, root)
  {
    hide Accounted, Covered, TotalBytes, TotalNodes, Content;
    var total: nat := 0;
    var visited: set<Id> := {};
    var pending := [root];
    var objects: nat := 0;
    Begin(file, root);
    while pending != []
      invariant Accounted(file, root, pending, visited, total, objects) && Covered(file, root, pending, visited)
      invariant objects <= MAX_OBJECTS && (total > 0 ==> total <= limit)
      decreases MAX_OBJECTS - objects
    {
      var current := pending[|pending| - 1];
      Bounds(file, root, pending, visited, total, objects);
      ghost var before := pending;
      objects := objects + 1;
      if objects > MAX_OBJECTS {
        return limit + 1;
      }
      pending := pending[..|pending| - 1];
      if current.Indirect? && current.id in visited {
        SkipVisited(file, root, before, visited, total, objects - 1);
        continue;
      }
      Expand(file, root, before, visited, total, objects - 1);
      if current.Indirect? {
        visited := visited + {current.id};
      }
      match Resolved(file, current)
      case Array(items) => pending := pending + items;
      case Stream(n) =>
        total := total + n;
        if total > limit {
          Bounds(file, root, pending, visited, total, objects);
          return total;
        }
      case _ =>
    }
    Finished(file, root, visited, total, objects);
    r := total;
  }

  lemma Bounds(file: File, root: Value, pending: seq<Value>, visited: set<Id>, total: nat, objects: nat)
    requires Accounted(file, root, pending, visited, total, objects)
    ensures total <= TotalBytes(file, root)
    ensures pending != [] ==> objects + 1 <= TotalNodes(file, root)
    ensures objects <= TotalNodes(file, root)
  {}

  // ---- What is counted

  /** A page whose content is a reference to a stream has that stream's bytes. */
  lemma ReferencedStreamCounts(file: File, id: Id, n: nat)
    requires id in file && file[id] == Stream(n)
    ensures TotalBytes(file, Indirect(id)) == n && TotalNodes(file, Indirect(id)) == 1
  {
    OneReachable(file, id);
    SumOfOne(id, ContentBytes(file));
    SumOfOne(id, ContentNodes(file));
  }

  /** A missing object, and one that is itself a reference, has none. */
  lemma DanglingReferenceIsEmpty(file: File, id: Id)
    requires id !in file || file[id].Indirect?
    ensures TotalBytes(file, Indirect(id)) == 0 && TotalNodes(file, Indirect(id)) == 1
  {
    OneReachable(file, id);
    SumOfOne(id, ContentBytes(file));
    SumOfOne(id, ContentNodes(file));
  }

  lemma OneReachable(file: File, id: Id)
    requires Refs(Content(file, id)) == {}
    ensures Reachable(file, Indirect(id)) == {id}
  {
    assert Closed(file, Indirect(id), {id});
    ReachableIsLeast(file, Indirect(id));
  }

  lemma SumOfOne(id: Id, f: Id -> nat)
    ensures Sum({id}, f) == f(id)
  {
    SumWithout({id}, f, id);
    assert {id} - {id} == {};
  }

  /** Two references to one stream in an array, or an object that refers to itself, count it once. */
  lemma SharedStreamCountsOnce(file: File, id: Id, n: nat)
    requires id in file && file[id] == Stream(n)
    ensures TotalBytes(file, Array([Indirect(id), Indirect(id)])) == n
  {
    var root := Array([Indirect(id), Indirect(id)]);
    var items := root.items;
    var one := [Indirect(id)];
    assert items[..1] == one && one[..0] == [];
    Pop(items);
    Pop(one);
    Nothing();
    assert AllRefs(items) == {id} && AllBytes(items) == 0;
    assert Closed(file, root, {id});
    ReachableIsLeast(file, root);
    assert Reachable(file, root) == {id};
    SumOfOne(id, ContentBytes(file));
  }

  // ---- Content that is refused although it has no bytes at all

  function Others(n: nat): seq<Value> { seq(n, _ => Other) }

  lemma {:induction false} OthersHoldNothing(n: nat)
    ensures AllBytes(Others(n)) == 0 && AllNodes(Others(n)) == n && AllRefs(Others(n)) == {}
  {
    if n > 0 {
      OthersHoldNothing(n - 1);
      assert Others(n)[..n - 1] == Others(n - 1);
    }
  }

  /** An array of 10 000 values without any stream is over the cap: with the array itself 10 001 values are looked
      at, so it is refused whatever the limit. */
  lemma WideArrayIsRefused(file: File, n: nat)
    requires n >= MAX_OBJECTS
    ensures TotalBytes(file, Array(Others(n))) == 0 && TotalNodes(file, Array(Others(n))) == n + 1 > MAX_OBJECTS
  {
    var root := Array(Others(n));
    OthersHoldNothing(n);
    hide AllBytes, AllNodes, AllRefs, Others;
    assert Closed(file, root, {});
    ReachableIsLeast(file, root);
    assert Reachable(file, root) == {};
  }
}
