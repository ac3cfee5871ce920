/** Inserting a caller-built knowledge graph: the deduplicated batch writes against the serial
    upserts of the whole input. */
module CustomKg {
  import opened KgModel

  /** Attributes by name. An upsert overwrites the attributes it gives and keeps the others. */
  type Attrs = map<string, string>

  datatype Item<K, V> = Item(key: K, value: V)

  type Decl = Item<Name, Attrs>

  /** The attributes of an edge, and those of the placeholder node written for an endpoint
      that does not exist. */
  datatype Edge = Edge(src: Name, tgt: Name, data: Attrs, placeholder: Attrs)

  /** Keyed by the endpoints in sorted order. */
  type Rel = Item<Obj, Edge>

  datatype Graph = Graph(nodes: map<Name, Attrs>, edges: map<Obj, Attrs>)

  /** Node records all set the same attributes, and so do edge records. */
  ghost predicate Uniform(decls: seq<Decl>, rels: seq<Rel>, nodeKeys: set<string>, edgeKeys: set<string>) {
    UniformNodes(decls, nodeKeys) && UniformEdges(rels, edgeKeys)
    && forall r :: r in rels ==> r.value.placeholder.Keys == nodeKeys
  }

  ghost predicate UniformNodes(decls: seq<Decl>, keys: set<string>) {
    forall d :: d in decls ==> d.value.Keys == keys
  }

  ghost predicate UniformEdges(rels: seq<Rel>, keys: set<string>) {
    forall r :: r in rels ==> r.value.data.Keys == keys && r.key == PairKey(r.value.src, r.value.tgt)
  }

  // ----- keeping the last of each key -----

  function Without<K(==), V>(s: seq<Item<K, V>>, k: K): (r: seq<Item<K, V>>)
    ensures |r| <= |s|
  {
    if s == [] then []
    else Without(s[..|s| - 1], k) + if s[|s| - 1].key == k then [] else [s[|s| - 1]]
  }

  /** A dictionary filled in order, each key moved to the back when it comes again. */
  function KeepLast<K(==), V>(s: seq<Item<K, V>>): seq<Item<K, V>> {
    if s == [] then []
    else Without(KeepLast(s[..|s| - 1]), s[|s| - 1].key) + [s[|s| - 1]]
  }

  function LastWith<K(==), V>(s: seq<Item<K, V>>, k: K): (r: Option<V>)
    ensures r.Some? ==> Item(k, r.value) in s
  {
    if s == [] then None
    else if s[|s| - 1].key == k then Some(s[|s| - 1].value)
    else
      assert s == s[..|s| - 1] + [s[|s| - 1]];
      LastWith(s[..|s| - 1], k)
  }

  lemma LastOfLonger<K, V>(front: seq<Item<K, V>>, last: Item<K, V>, k: K)
    ensures LastWith(front + [last], k) == if last.key == k then Some(last.value) else LastWith(front, k)
  {
    assert (front + [last])[..|front|] == front;
  }

  lemma {:induction false} LastWithout<K, V>(s: seq<Item<K, V>>, gone: K, k: K)
    ensures LastWith(Without(s, gone), k) == if k == gone then None else LastWith(s, k)
  {
    if s != [] {
      var front, last := s[..|s| - 1], s[|s| - 1];
      LastWithout(front, gone, k);
      if last.key == gone {
        assert Without(s, gone) == Without(front, gone);
      } else {
        LastOfLonger(Without(front, gone), last, k);
      }
    }
  }

  /** Deduplication keeps, for every key, exactly its last occurrence. */
  lemma {:induction false} KeepLastKeepsTheLast<K, V>(s: seq<Item<K, V>>, k: K)
    ensures LastWith(KeepLast(s), k) == LastWith(s, k)
  {
    if s != [] {
      var front, last := s[..|s| - 1], s[|s| - 1];
      KeepLastKeepsTheLast(front, k);
      LastWithout(KeepLast(front), last.key, k);
      LastOfLonger(Without(KeepLast(front), last.key), last, k);
    }
  }

  lemma {:induction false} WithoutMembers<K(!new), V(!new)>(s: seq<Item<K, V>>, k: K)
    ensures forall x :: x in Without(s, k) <==> x in s && x.key != k
  {
    if s != [] {
      WithoutMembers(s[..|s| - 1], k);
      assert s == s[..|s| - 1] + [s[|s| - 1]];
    }
  }

  lemma {:induction false} KeepLastMembers<K(!new), V(!new)>(s: seq<Item<K, V>>)
    ensures forall x :: x in KeepLast(s) ==> x in s
    ensures Distinct(KeepLast(s))
  {
    if s != [] {
      var front, last := s[..|s| - 1], s[|s| - 1];
      KeepLastMembers(front);
      WithoutMembers(KeepLast(front), last.key);
      WithoutKeepsDistinct(KeepLast(front), last.key);
      assert s == front + [last];
      DistinctWithOneMore(Without(KeepLast(front), last.key), last);
    }
  }

  ghost predicate Distinct<K(!new), V(!new)>(s: seq<Item<K, V>>) {
    forall i, j :: 0 <= i < j < |s| ==> s[i].key != s[j].key
  }

  lemma DistinctWithOneMore<K(!new), V(!new)>(s: seq<Item<K, V>>, x: Item<K, V>)
    requires Distinct(s) && forall y :: y in s ==> y.key != x.key
    ensures Distinct(s + [x])
  {
    forall i | 0 <= i < |s|
      ensures s[i].key != x.key
    {
      assert s[i] in s;
    }
  }

  lemma {:induction false} WithoutKeepsDistinct<K(!new), V(!new)>(s: seq<Item<K, V>>, k: K)
    requires Distinct(s)
    ensures Distinct(Without(s, k))
  {
    if s != [] {
      var front, last := s[..|s| - 1], s[|s| - 1];
      WithoutKeepsDistinct(front, k);
      WithoutMembers(front, k);
      if last.key == k {
        assert Without(s, k) == Without(front, k);
      } else {
        DistinctWithOneMore(Without(front, k), last);
      }
    }
  }

  /** A later record has the key of the first one. */
  predicate Replaced<K(==), V>(s: seq<Item<K, V>>)
    requires s != []
  {
    exists i :: 1 <= i < |s| && s[i].key == s[0].key
  }

  /** The records that no later one replaces, in input order. */
  function LastOnes<K(==), V>(s: seq<Item<K, V>>): seq<Item<K, V>> {
    if s == [] then []
    else if Replaced(s) then LastOnes(s[1..])
    else [s[0]] + LastOnes(s[1..])
  }

  lemma {:induction false} WithoutOfConcat<K, V>(a: seq<Item<K, V>>, b: seq<Item<K, V>>, k: K)
    ensures Without(a + b, k) == Without(a, k) + Without(b, k)
  {
    if b == [] {
      assert a + b == a;
    } else {
      var n, all := |b| - 1, a + b;
      var front, last := a + b[..n], if b[n].key == k then [] else [b[n]];
      assert all != [] && all[..|all| - 1] == front && all[|all| - 1] == b[n];
      WithoutOfConcat(a, b[..n], k);
      assert Without(all, k) == Without(front, k) + last;
      assert Without(b, k) == Without(b[..n], k) + last;
    }
  }

  lemma WithoutOfOne<K, V>(x: Item<K, V>, k: K)
    ensures Without([x], k) == if x.key == k then [] else [x]
  {
    assert Without([x], k) == Without([x][..0], k) + if x.key == k then [] else [x];
  }

  lemma ReplacedByMore<K, V>(s: seq<Item<K, V>>, x: Item<K, V>)
    requires s != []
    ensures Replaced(s + [x]) <==> Replaced(s) || x.key == s[0].key
  {
    var all := s + [x];
    assert all[0] == s[0] && all[|s|] == x;
    if i :| 1 <= i < |s| && s[i].key == s[0].key {
      assert all[i] == s[i];
    }
    if i :| 1 <= i < |all| && all[i].key == all[0].key {
      assert i < |s| ==> all[i] == s[i];
    }
  }

  lemma {:induction false} LastOnesOfMore<K, V>(s: seq<Item<K, V>>, x: Item<K, V>)
    ensures LastOnes(s + [x]) == Without(LastOnes(s), x.key) + [x]
  {
    if s == [] {
      assert s + [x] == [x] && [x][1..] == [] && !Replaced([x]);
      assert [x] + [] == [x] == [] + [x];
    } else {
      LastOnesOfMore(s[1..], x);
      FirstInFront(s, x, LastOnes(s[1..]));
    }
  }

  lemma FirstInFront<K, V>(s: seq<Item<K, V>>, x: Item<K, V>, tail: seq<Item<K, V>>)
    requires s != [] && tail == LastOnes(s[1..]) && LastOnes(s[1..] + [x]) == Without(tail, x.key) + [x]
    ensures LastOnes(s + [x]) == Without(LastOnes(s), x.key) + [x]
  {
    var all := s + [x];
    assert all[0] == s[0] && all[1..] == s[1..] + [x];
    ReplacedByMore(s, x);
    if !Replaced(s) {
      FirstStays(s[0], x, tail);
    }
  }

  lemma FirstStays<K, V>(first: Item<K, V>, x: Item<K, V>, tail: seq<Item<K, V>>)
    ensures Without([first] + tail, x.key) + [x]
      == if first.key == x.key then Without(tail, x.key) + [x] else [first] + (Without(tail, x.key) + [x])
  {
    WithoutOfConcat([first], tail, x.key);
    WithoutOfOne(first, x.key);
  }

  /** Deduplication keeps exactly the records that no later one replaces, in input order. */
  lemma {:induction false} KeepLastKeepsOrder<K, V>(s: seq<Item<K, V>>)
    ensures KeepLast(s) == LastOnes(s)
  {
    if s != [] {
      var n := |s| - 1;
      KeepLastKeepsOrder(s[..n]);
      LastOnesOfMore(s[..n], s[n]);
      assert s[..n] + [s[n]] == s;
    }
  }

  // ----- serial upserts -----

  function Old<K(==)>(m: map<K, Attrs>, k: K): Attrs {
    if k in m then m[k] else map[]
  }

  function Upsert<K(==)>(m: map<K, Attrs>, k: K, data: Attrs): map<K, Attrs> {
    m[k := Old(m, k) + data]
  }

  function UpsertNodes(nodes: map<Name, Attrs>, decls: seq<Decl>): map<Name, Attrs> {
    if decls == [] then nodes
    else Upsert(UpsertNodes(nodes, decls[..|decls| - 1]), decls[|decls| - 1].key, decls[|decls| - 1].value)
  }

  function UpsertEdges(edges: map<Obj, Attrs>, rels: seq<Rel>): map<Obj, Attrs> {
    if rels == [] then edges
    else Upsert(UpsertEdges(edges, rels[..|rels| - 1]), rels[|rels| - 1].key, rels[|rels| - 1].value.data)
  }

  function EnsureNode(nodes: map<Name, Attrs>, name: Name, placeholder: Attrs): map<Name, Attrs> {
    if name in nodes then nodes else nodes[name := placeholder]
  }

  /** The nodes after one relationship after the other made sure of its endpoints. */
  function EnsureEndpoints(nodes: map<Name, Attrs>, rels: seq<Rel>): map<Name, Attrs> {
    if rels == [] then nodes
    else
      var r := rels[|rels| - 1].value;
      EnsureNode(EnsureNode(EnsureEndpoints(nodes, rels[..|rels| - 1]), r.src, r.placeholder), r.tgt, r.placeholder)
  }

  /** The reference: every declaration, then every relationship with its missing endpoints,
      upserted in input order. */
  function Serial(g: Graph, decls: seq<Decl>, rels: seq<Rel>): Graph {
    Graph(EnsureEndpoints(UpsertNodes(g.nodes, decls), rels), UpsertEdges(g.edges, rels))
  }

  // ----- the batch -----

  function Endpoints(rels: seq<Rel>): set<Name> {
    (set r | r in rels :: r.value.src) + (set r | r in rels :: r.value.tgt)
  }

  /** The placeholders a batch writes: first mention in list order, source before target. */
  function Missing(known: set<Name>, rels: seq<Rel>): seq<Decl> {
    if rels == [] then []
    else
      var r, seen := rels[|rels| - 1].value, known + Endpoints(rels[..|rels| - 1]);
      Missing(known, rels[..|rels| - 1])
      + (if r.src in seen then [] else [Item(r.src, r.placeholder)])
      + (if r.tgt in seen + {r.src} then [] else [Item(r.tgt, r.placeholder)])
  }

  function Batch(g: Graph, decls: seq<Decl>, rels: seq<Rel>): Graph {
    var declared := UpsertNodes(g.nodes, KeepLast(decls));
    var kept := KeepLast(rels);
    Graph(UpsertNodes(declared, Missing(declared.Keys, kept)), UpsertEdges(g.edges, kept))
  }

  // ----- what each of them does, key by key -----

  /** A key ends with what it had plus its last record. */
  ghost predicate Upserted<K>(before: map<K, Attrs>, after: map<K, Attrs>, k: K, last: Option<Attrs>) {
    && (k in after <==> k in before || last.Some?)
    && (last.Some? ==> k in after && after[k] == Old(before, k) + last.value)
    && (last.None? && k in before ==> k in after && after[k] == before[k])
  }

  lemma OneMoreUpsert<K>(before: map<K, Attrs>, after: map<K, Attrs>, k: K, last: Option<Attrs>, key: K, data: Attrs)
    requires Upserted(before, after, k, last)
    requires last.Some? ==> last.value.Keys == data.Keys
    ensures Upserted(before, Upsert(after, key, data), k, if key == k then Some(data) else last)
  {
    if key == k && last.Some? {
      assert (Old(before, k) + last.value) + data == Old(before, k) + data;
    }
  }

  lemma {:induction false} NodesAfterUpserts(nodes: map<Name, Attrs>, decls: seq<Decl>, n: Name, keys: set<string>)
    requires UniformNodes(decls, keys)
    ensures Upserted(nodes, UpsertNodes(nodes, decls), n, LastWith(decls, n))
  {
    if decls != [] {
      var front, d := decls[..|decls| - 1], decls[|decls| - 1];
      assert decls == front + [d];
      NodesAfterUpserts(nodes, front, n, keys);
      OneMoreUpsert(nodes, UpsertNodes(nodes, front), n, LastWith(front, n), d.key, d.value);
    }
  }

  function DataOf(last: Option<Edge>): Option<Attrs> {
    if last.Some? then Some(last.value.data) else None
  }

  lemma {:induction false} EdgesAfterUpserts(edges: map<Obj, Attrs>, rels: seq<Rel>, e: Obj, keys: set<string>)
    requires UniformEdges(rels, keys)
    ensures Upserted(edges, UpsertEdges(edges, rels), e, DataOf(LastWith(rels, e)))
  {
    if rels != [] {
      var front, r := rels[..|rels| - 1], rels[|rels| - 1];
      assert rels == front + [r];
      EdgesAfterUpserts(edges, front, e, keys);
      OneMoreUpsert(edges, UpsertEdges(edges, front), e, DataOf(LastWith(front, e)), r.key, r.value.data);
    }
  }

  /** The placeholder for `n` is that of the first relationship mentioning it. */
  function FirstMention(rels: seq<Rel>, n: Name): (first: Option<Attrs>)
    ensures first.Some? <==> n in Endpoints(rels)
  {
    if rels == [] then None
    else
      var front, r := FirstMention(rels[..|rels| - 1], n), rels[|rels| - 1].value;
      assert rels == rels[..|rels| - 1] + [rels[|rels| - 1]];
      if front.Some? then front
      else if r.src == n || r.tgt == n then Some(r.placeholder)
      else None
  }

  /** `n` ends as it was, or as its placeholder if it was missing and is mentioned. */
  ghost predicate Ensured(before: map<Name, Attrs>, after: map<Name, Attrs>, n: Name, first: Option<Attrs>) {
    && (n in after <==> n in before || first.Some?)
    && (n in before ==> n in after && after[n] == before[n])
    && (n !in before && first.Some? ==> n in after && after[n] == first.value)
  }

  lemma {:induction false} NodesAfterEnsuring(nodes: map<Name, Attrs>, rels: seq<Rel>, n: Name)
    ensures Ensured(nodes, EnsureEndpoints(nodes, rels), n, FirstMention(rels, n))
  {
    if rels != [] {
      NodesAfterEnsuring(nodes, rels[..|rels| - 1], n);
    }
  }

  lemma {:induction false} MissingIsFirstMention(known: set<Name>, rels: seq<Rel>, n: Name)
    ensures LastWith(Missing(known, rels), n) == if n in known then None else FirstMention(rels, n)
  {
    if rels != [] {
      var front, r := rels[..|rels| - 1], rels[|rels| - 1].value;
      MissingIsFirstMention(known, front, n);
      var before, seen := Missing(known, front), known + Endpoints(front);
      var one := before + (if r.src in seen then [] else [Item(r.src, r.placeholder)]);
      if r.src !in seen {
        LastOfLonger(before, Item(r.src, r.placeholder), n);
      } else {
        assert one == before;
      }
      if r.tgt !in seen + {r.src} {
        LastOfLonger(one, Item(r.tgt, r.placeholder), n);
      } else {
        assert Missing(known, rels) == one;
      }
    }
  }

  lemma {:induction false} MissingIsUniform(known: set<Name>, rels: seq<Rel>, keys: set<string>)
    requires forall r :: r in rels ==> r.value.placeholder.Keys == keys
    ensures UniformNodes(Missing(known, rels), keys)
  {
    if rels != [] {
      assert rels == rels[..|rels| - 1] + [rels[|rels| - 1]];
      MissingIsUniform(known, rels[..|rels| - 1], keys);
    }
  }

  // ----- batch and serial compared -----

  lemma {:induction false} SameEndpoints(rels: seq<Rel>, keys: set<string>)
    requires UniformEdges(rels, keys)
    ensures Endpoints(KeepLast(rels)) == Endpoints(rels)
  {
    var kept := KeepLast(rels);
    KeepLastMembers(rels);
    forall n | n in Endpoints(rels)
      ensures n in Endpoints(kept)
    {
      var r :| r in rels && (r.value.src == n || r.value.tgt == n);
      KeepLastKeepsTheLast(rels, r.key);
      OccursLast(rels, r);
      var last := LastWith(kept, r.key).value;
      assert Item(r.key, last) in kept && Item(r.key, last) in rels;
      assert r.key == PairKey(last.src, last.tgt) == PairKey(r.value.src, r.value.tgt);
    }
    forall n | n in Endpoints(kept)
      ensures n in Endpoints(rels)
    {
      var r :| r in kept && (r.value.src == n || r.value.tgt == n);
      assert r in rels;
    }
  }

  lemma {:induction false} OccursLast<K, V>(s: seq<Item<K, V>>, x: Item<K, V>)
    requires x in s
    ensures LastWith(s, x.key).Some?
  {
    assert s == s[..|s| - 1] + [s[|s| - 1]];
    if s[|s| - 1].key != x.key {
      OccursLast(s[..|s| - 1], x);
    }
  }

  /** Every edge comes out the same. */
  lemma SameEdges(g: Graph, rels: seq<Rel>, keys: set<string>)
    requires UniformEdges(rels, keys)
    ensures UpsertEdges(g.edges, KeepLast(rels)) == UpsertEdges(g.edges, rels)
  {
    KeepLastMembers(rels);
    var a, b := UpsertEdges(g.edges, KeepLast(rels)), UpsertEdges(g.edges, rels);
    forall e
      ensures e in a <==> e in b
      ensures e in a ==> a[e] == b[e]
    {
      KeepLastKeepsTheLast(rels, e);
      EdgesAfterUpserts(g.edges, rels, e, keys);
      EdgesAfterUpserts(g.edges, KeepLast(rels), e, keys);
    }
  }

  lemma SameDeclared(nodes: map<Name, Attrs>, decls: seq<Decl>, keys: set<string>)
    requires UniformNodes(decls, keys)
    ensures UpsertNodes(nodes, KeepLast(decls)) == UpsertNodes(nodes, decls)
  {
    KeepLastMembers(decls);
    var a, b := UpsertNodes(nodes, KeepLast(decls)), UpsertNodes(nodes, decls);
    forall n
      ensures n in a <==> n in b
      ensures n in a ==> a[n] == b[n]
    {
      KeepLastKeepsTheLast(decls, n);
      NodesAfterUpserts(nodes, decls, n, keys);
      NodesAfterUpserts(nodes, KeepLast(decls), n, keys);
    }
  }

  /** What the batch leaves of one node. */
  lemma NodeAfterBatch(g: Graph, decls: seq<Decl>, rels: seq<Rel>, n: Name, nodeKeys: set<string>, edgeKeys: set<string>)
    requires Uniform(decls, rels, nodeKeys, edgeKeys)
    ensures Ensured(UpsertNodes(g.nodes, decls), Batch(g, decls, rels).nodes, n, FirstMention(KeepLast(rels), n))
  {
    var declared, kept := UpsertNodes(g.nodes, decls), KeepLast(rels);
    SameDeclared(g.nodes, decls, nodeKeys);
    KeepLastMembers(rels);
    MissingIsUniform(declared.Keys, kept, nodeKeys);
    NodesAfterUpserts(declared, Missing(declared.Keys, kept), n, nodeKeys);
    MissingIsFirstMention(declared.Keys, kept, n);
    assert forall data: Attrs :: map[] + data == data;
  }

  /** The endpoints that get a placeholder get the same one from the kept relationships as
      from all of them. */
  ghost predicate PlaceholdersAgree(g: Graph, decls: seq<Decl>, rels: seq<Rel>) {
    forall n :: n in Endpoints(rels) && n !in UpsertNodes(g.nodes, decls) ==>
      FirstMention(KeepLast(rels), n) == FirstMention(rels, n)
  }

  lemma CompareNode(g: Graph, decls: seq<Decl>, rels: seq<Rel>, n: Name, nodeKeys: set<string>, edgeKeys: set<string>)
    requires Uniform(decls, rels, nodeKeys, edgeKeys)
    ensures var declared := UpsertNodes(g.nodes, decls);
      var batch, serial := Batch(g, decls, rels).nodes, Serial(g, decls, rels).nodes;
      && (n in declared ==> n in batch && n in serial && batch[n] == serial[n])
      && (n !in declared ==> (n in batch <==> n in Endpoints(rels)) && (n in serial <==> n in Endpoints(rels)))
      && (n !in declared && n in Endpoints(rels) ==>
            Some(batch[n]) == FirstMention(KeepLast(rels), n) && Some(serial[n]) == FirstMention(rels, n))
  {
    SameEndpoints(rels, edgeKeys);
    NodeAfterBatch(g, decls, rels, n, nodeKeys, edgeKeys);
    NodesAfterEnsuring(UpsertNodes(g.nodes, decls), rels, n);
  }

  /** The batch means the serial upserts: the same edges, the same nodes, the same attributes
      on every node but placeholders; and on all of them exactly when the kept relationships
      mention each missing endpoint first with the same record. */
  lemma BatchMeansSerial(g: Graph, decls: seq<Decl>, rels: seq<Rel>, nodeKeys: set<string>, edgeKeys: set<string>)
    requires Uniform(decls, rels, nodeKeys, edgeKeys)
    ensures var batch, serial := Batch(g, decls, rels), Serial(g, decls, rels);
      && batch.edges == serial.edges
      && batch.nodes.Keys == serial.nodes.Keys
      && (forall n :: n in UpsertNodes(g.nodes, decls) ==>
            n in batch.nodes && n in serial.nodes && batch.nodes[n] == serial.nodes[n])
      && (batch == serial <==> PlaceholdersAgree(g, decls, rels))
  {
    SameEdges(g, rels, edgeKeys);
    var batch, serial, declared := Batch(g, decls, rels).nodes, Serial(g, decls, rels).nodes, UpsertNodes(g.nodes, decls);
    forall n
      ensures n in batch <==> n in serial
      ensures n in declared ==> n in batch && n in serial && batch[n] == serial[n]
      ensures n !in declared && n in batch ==> n in Endpoints(rels)
      ensures n !in declared && n in Endpoints(rels) ==>
        n in batch && n in serial
        && (batch[n] == serial[n] <==> FirstMention(KeepLast(rels), n) == FirstMention(rels, n))
    {
      CompareNode(g, decls, rels, n, nodeKeys, edgeKeys);
    }
  }

  /** Where it fails: a pair given twice, the second time from the other end and from another
      source, with an endpoint that is missing. The batch has forgotten the first record by
      the time it makes the placeholder. */
  lemma RepeatedPairChangesPlaceholder(g: Graph, first: Rel, second: Rel, n: Name)
    requires first.key == second.key && first.value.src == n && second.value.tgt == n
    requires n !in g.nodes && first.value.placeholder != second.value.placeholder
    ensures !PlaceholdersAgree(g, [], [first, second])
  {
    KeptOfTwo(first, second);
    FirstMentionOfTwo(first, second, n);
    assert first in [first, second] && n in Endpoints([first, second]);
  }

  lemma KeptOfTwo(first: Rel, second: Rel)
    requires first.key == second.key
    ensures KeepLast([first, second]) == [second]
  {
    assert [first, second][..1] == [first] && [first][..0] == [];
    assert KeepLast([first]) == Without(KeepLast([]), first.key) + [first];
    assert Without([first], first.key) == Without([], first.key) + [];
  }

  lemma FirstMentionOfTwo(first: Rel, second: Rel, n: Name)
    requires first.value.src == n && second.value.tgt == n
    ensures FirstMention([first, second], n) == Some(first.value.placeholder)
    ensures FirstMention([second], n) == Some(second.value.placeholder)
  {
    assert [first, second][..1] == [first] && [first][..0] == [] && [second][..0] == [];
    assert FirstMention([first], n) == Some(first.value.placeholder);
  }

  lemma NodeKept(g: Graph, decls: seq<Decl>, rels: seq<Rel>, n: Name, nodeKeys: set<string>, edgeKeys: set<string>)
    requires Uniform(decls, rels, nodeKeys, edgeKeys)
    ensures var after, last := Batch(g, decls, rels).nodes, LastWith(decls, n);
      && (n in g.nodes && last.None? ==> n in after && after[n] == g.nodes[n])
      && (last.Some? ==> n in after && after[n] == Old(g.nodes, n) + last.value)
      && (n in Endpoints(rels) ==> n in after)
  {
    CompareNode(g, decls, rels, n, nodeKeys, edgeKeys);
    NodeAfterBatch(g, decls, rels, n, nodeKeys, edgeKeys);
    NodesAfterUpserts(g.nodes, decls, n, nodeKeys);
  }

  /** Afterwards every relationship has its endpoints and its edge, no node that existed or
      was declared took an attribute from a placeholder, and no edge that is new is a
      self-loop. */
  lemma BatchKeepsGraphSound(g: Graph, decls: seq<Decl>, rels: seq<Rel>, nodeKeys: set<string>, edgeKeys: set<string>)
    requires Uniform(decls, rels, nodeKeys, edgeKeys)
    requires forall r :: r in rels ==> r.value.src != r.value.tgt
    ensures var after := Batch(g, decls, rels);
      && (forall r :: r in rels ==> r.value.src in after.nodes && r.value.tgt in after.nodes && r.key in after.edges)
      && (forall n :: n in g.nodes && LastWith(decls, n).None? ==> n in after.nodes && after.nodes[n] == g.nodes[n])
      && (forall n :: LastWith(decls, n).Some? ==>
            n in after.nodes && after.nodes[n] == Old(g.nodes, n) + LastWith(decls, n).value)
      && (forall e :: e in after.edges && e !in g.edges ==> e.Relation? && e.lo < e.hi)
      && (forall e :: e in g.edges && LastWith(rels, e).None? ==> e in after.edges && after.edges[e] == g.edges[e])
      && (forall e :: LastWith(rels, e).Some? ==>
            e in after.edges && after.edges[e] == Old(g.edges, e) + LastWith(rels, e).value.data)
      && (forall n :: n in after.nodes && n !in g.nodes && LastWith(decls, n).None? ==>
            FirstMention(KeepLast(rels), n) == Some(after.nodes[n]))
  {
    var after := Batch(g, decls, rels);
    SameEdges(g, rels, edgeKeys);
    forall n
      ensures n in g.nodes && LastWith(decls, n).None? ==> n in after.nodes && after.nodes[n] == g.nodes[n]
      ensures LastWith(decls, n).Some? ==> n in after.nodes && after.nodes[n] == Old(g.nodes, n) + LastWith(decls, n).value
      ensures n in Endpoints(rels) ==> n in after.nodes
      ensures n in after.nodes && n !in g.nodes && LastWith(decls, n).None? ==>
        FirstMention(KeepLast(rels), n) == Some(after.nodes[n])
    {
      NodeKept(g, decls, rels, n, nodeKeys, edgeKeys);
      NodeAfterBatch(g, decls, rels, n, nodeKeys, edgeKeys);
      NodesAfterUpserts(g.nodes, decls, n, nodeKeys);
    }
    forall e
      ensures e in g.edges && LastWith(rels, e).None? ==> e in after.edges && after.edges[e] == g.edges[e]
      ensures LastWith(rels, e).Some? ==>
        e in after.edges && after.edges[e] == Old(g.edges, e) + LastWith(rels, e).value.data
    {
      EdgesAfterUpserts(g.edges, rels, e, edgeKeys);
    }
    forall r | r in rels
      ensures r.value.src in after.nodes && r.value.tgt in after.nodes && r.key in after.edges
    {
      assert r.value.src in Endpoints(rels) && r.value.tgt in Endpoints(rels);
      OccursLast(rels, r);
      EdgesAfterUpserts(g.edges, rels, r.key, edgeKeys);
    }
    forall e | e in after.edges && e !in g.edges
      ensures e.Relation? && e.lo < e.hi
    {
      EdgesAfterUpserts(g.edges, rels, e, edgeKeys);
    }
  }
}
