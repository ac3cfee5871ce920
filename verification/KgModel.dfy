/** The knowledge-graph side of the stores: graph objects, their source-chunk lists in
    the graph, and the chunk-tracking rows kept beside it. Entities and relations are
    classified by the same code in the program, so both are `Obj` here and the two
    tracking stores are one map whose keys never collide. */
module KgModel {

  type DocId = nat
  type Name = nat       // a normalized entity name; names are totally ordered

  /** Chunk ids are hashes; only their injectivity matters, so an id is its own preimage. */
  datatype Chunk =
    | CustomChunk(doc: DocId, text: string)
    | PipelineChunk(doc: DocId, ordinal: nat)

  datatype Obj =
    | Entity(name: Name)
    | Relation(lo: Name, hi: Name)

  /** The graph is undirected: a pair is stored under its sorted endpoints. */
  function PairKey(a: Name, b: Name): Obj {
    if a <= b then Relation(a, b) else Relation(b, a)
  }

  datatype Option<+T> = None | Some(value: T)

  /** What an anchor row names; a missing row names nothing. */
  function Listed(row: Option<set<Obj>>): set<Obj> {
    if row.Some? then row.value else {}
  }

  datatype Kg = Kg(graph: map<Obj, seq<Chunk>>, tracking: map<Obj, seq<Chunk>>)

  /** `rollback` rebuilds every surviving candidate; `best_effort` only those that changed. */
  datatype Policy = BestEffort | Rollback

  function Ids(s: seq<Chunk>): set<Chunk> {
    set c | c in s
  }

  lemma IdsOfConcat(a: seq<Chunk>, b: seq<Chunk>)
    ensures Ids(a + b) == Ids(a) + Ids(b)
  {
    assert forall c :: c in a + b <==> c in a || c in b;
  }

  /** Order-preserving difference. */
  function Subtract(ids: seq<Chunk>, gone: set<Chunk>): (r: seq<Chunk>)
    ensures Ids(r) == Ids(ids) - gone
    ensures |r| <= |ids|
    ensures r == ids <==> Ids(ids) !! gone
  {
    if ids == [] then []
    else
      var rest := Subtract(ids[1..], gone);
      assert ids == [ids[0]] + ids[1..];
      assert Ids(ids) == {ids[0]} + Ids(ids[1..]) by { IdsOfConcat([ids[0]], ids[1..]); }
      if ids[0] in gone then rest
      else
        IdsOfConcat([ids[0]], rest);
        [ids[0]] + rest
  }

  /** What stays keeps its order: the difference is taken element by element. */
  lemma {:induction false} SubtractKeepsOrder(a: seq<Chunk>, b: seq<Chunk>, gone: set<Chunk>)
    ensures Subtract(a + b, gone) == Subtract(a, gone) + Subtract(b, gone)
  {
    if a == [] {
      assert a + b == b;
    } else {
      var all, rest := a + b, a[1..] + b;
      assert all[0] == a[0] && all[1..] == rest;
      SubtractKeepsOrder(a[1..], b, gone);
      var head := if a[0] in gone then [] else [a[0]];
      assert Subtract(all, gone) == head + Subtract(rest, gone);
      assert Subtract(a, gone) == head + Subtract(a[1..], gone);
    }
  }

  lemma SubtractTwice(ids: seq<Chunk>, gone: set<Chunk>)
    ensures Subtract(Subtract(ids, gone), gone) == Subtract(ids, gone)
  {
    assert Ids(Subtract(ids, gone)) !! gone;
  }

  /** First-occurrence order without duplicates. */
  function Dedup(ids: seq<Chunk>): (r: seq<Chunk>)
    ensures Ids(r) == Ids(ids)
    ensures forall i, j :: 0 <= i < j < |r| ==> r[i] != r[j]
  {
    if ids == [] then []
    else
      var n := |ids| - 1;
      var front := Dedup(ids[..n]);
      assert ids == ids[..n] + [ids[n]];
      IdsOfConcat(ids[..n], [ids[n]]);
      if ids[n] in front then front
      else
        IdsOfConcat(front, [ids[n]]);
        front + [ids[n]]
  }

  /** First occurrences, in order: more ids never change what the front of the list gives. */
  lemma {:induction false} DedupKeepsFront(ids: seq<Chunk>, more: seq<Chunk>)
    ensures Dedup(ids) <= Dedup(ids + more)
  {
    if more == [] {
      assert ids + more == ids;
    } else {
      var n := |more| - 1;
      assert (ids + more)[..|ids| + n] == ids + more[..n];
      DedupKeepsFront(ids, more[..n]);
    }
  }

  /** What is there stays in front, what is new is appended. */
  function MergeIds(existing: seq<Chunk>, added: seq<Chunk>): (r: seq<Chunk>)
    ensures Ids(r) == Ids(existing) + Ids(added)
  {
    IdsOfConcat(existing, added);
    Dedup(existing + added)
  }

  lemma {:induction false} DedupOfDistinct(ids: seq<Chunk>)
    requires forall i, j :: 0 <= i < j < |ids| ==> ids[i] != ids[j]
    ensures Dedup(ids) == ids
  {
    if ids != [] {
      var n := |ids| - 1;
      DedupOfDistinct(ids[..n]);
      assert ids == ids[..n] + [ids[n]];
    }
  }

  lemma {:induction false} DedupAbsorbs(ids: seq<Chunk>, more: seq<Chunk>)
    requires forall i, j :: 0 <= i < j < |ids| ==> ids[i] != ids[j]
    requires Ids(more) <= Ids(ids)
    ensures Dedup(ids + more) == ids
  {
    if more == [] {
      assert ids + more == ids;
      DedupOfDistinct(ids);
    } else {
      var n := |more| - 1;
      assert more[n] in Ids(more) && (ids + more)[..|ids| + n] == ids + more[..n];
      DedupAbsorbs(ids, more[..n]);
    }
  }

  lemma MergingKeepsFront(existing: seq<Chunk>, added: seq<Chunk>)
    ensures Dedup(existing) <= MergeIds(existing, added)
  {
    DedupKeepsFront(existing, added);
  }

  /** New ids come in the order they are given. */
  lemma MergingAppends(existing: seq<Chunk>, added: seq<Chunk>)
    requires forall i, j :: 0 <= i < j < |existing + added| ==> (existing + added)[i] != (existing + added)[j]
    ensures MergeIds(existing, added) == existing + added
  {
    DedupOfDistinct(existing + added);
  }

  /** Merging the same ids a second time changes nothing. */
  lemma MergedAlready(existing: seq<Chunk>, added: seq<Chunk>)
    ensures MergeIds(MergeIds(existing, added), added) == MergeIds(existing, added)
  {
    DedupAbsorbs(MergeIds(existing, added), added);
  }

  /** Tracking rows win over the graph's own list unless they are absent or empty. */
  function Sources(kg: Kg, o: Obj): seq<Chunk> {
    if o in kg.tracking && kg.tracking[o] != [] then kg.tracking[o]
    else if o in kg.graph then kg.graph[o]
    else []
  }

  function SourceSet(kg: Kg, o: Obj): set<Chunk> {
    Ids(Sources(kg, o))
  }

  lemma EmptyIds(s: seq<Chunk>)
    ensures Ids(s) == {} <==> s == []
  {
    if s != [] {
      assert s[0] in Ids(s);
    }
  }

  // ----- hypotheses about a graph -----

  /** A non-empty tracking row names every source the graph lists. */
  ghost predicate TrackingCovers(kg: Kg) {
    forall o :: o in kg.graph && o in kg.tracking && kg.tracking[o] != [] ==>
      Ids(kg.graph[o]) <= Ids(kg.tracking[o])
  }

  /** No source list was capped: tracking and graph agree as sets. */
  ghost predicate Uncapped(kg: Kg) {
    forall o :: o in kg.graph && o in kg.tracking && kg.tracking[o] != [] ==>
      Ids(kg.graph[o]) == Ids(kg.tracking[o])
  }

  ghost predicate EndpointsPresent(kg: Kg) {
    forall o :: o in kg.graph && o.Relation? ==>
      Entity(o.lo) in kg.graph && Entity(o.hi) in kg.graph
  }

  /** Every edge's sources are sources of both endpoints. */
  ghost predicate EdgesSupported(kg: Kg) {
    && EndpointsPresent(kg)
    && forall o :: o in kg.graph && o.Relation? ==>
        && SourceSet(kg, o) <= SourceSet(kg, Entity(o.lo))
        && SourceSet(kg, o) <= SourceSet(kg, Entity(o.hi))
  }

  /** Every edge's sources outside `gone` are sources of both endpoints: an unfinished merge
      may have put its own chunks on an edge before its endpoints. */
  ghost predicate EdgesSupportedOutside(kg: Kg, gone: set<Chunk>) {
    && EndpointsPresent(kg)
    && forall o :: o in kg.graph && o.Relation? ==>
        && SourceSet(kg, o) - gone <= SourceSet(kg, Entity(o.lo))
        && SourceSet(kg, o) - gone <= SourceSet(kg, Entity(o.hi))
  }

  /** No listed source is a member of `gone`. */
  ghost predicate NamesNone(kg: Kg, gone: set<Chunk>) {
    forall o :: o in kg.graph ==> Ids(kg.graph[o]) !! gone
  }

  /** Every object whose graph list names a chunk of `gone` is a candidate. */
  ghost predicate GraphCovered(kg: Kg, candidates: set<Obj>, gone: set<Chunk>) {
    forall o :: o in kg.graph && !(Ids(kg.graph[o]) !! gone) ==> o in candidates
  }

  /** Every object supported by a chunk of `gone`, by either list, is a candidate. */
  ghost predicate SourceCovered(kg: Kg, candidates: set<Obj>, gone: set<Chunk>) {
    forall o :: o in kg.graph && !(SourceSet(kg, o) !! gone) ==> o in candidates
  }
}
