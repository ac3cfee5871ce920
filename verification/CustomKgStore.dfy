/** The custom-KG insert over a mutable graph: validate everything, deduplicate, write nodes,
    placeholders and edges in batches. */
module CustomKgStore {
  import opened KgModel
  import opened CustomKg

  datatype RawEntity = RawEntity(name: string, data: Attrs)

  datatype RawRel = RawRel(src: string, tgt: string, data: Attrs, placeholder: Attrs)

  /** Name normalization; `None` is a name that is not a string or comes out empty. */
  type Normalize = string -> Option<Name>

  function Declared(raw: seq<RawEntity>, normalize: Normalize): Option<seq<Decl>> {
    if raw == [] then Some([])
    else
      var front, e := Declared(raw[..|raw| - 1], normalize), raw[|raw| - 1];
      if front.None? || normalize(e.name).None? then None
      else Some(front.value + [Item(normalize(e.name).value, e.data)])
  }

  /** Two spellings of one name are the same self-loop, and a self-loop is refused. */
  function Related(raw: seq<RawRel>, normalize: Normalize): Option<seq<Rel>> {
    if raw == [] then Some([])
    else
      var front, r := Related(raw[..|raw| - 1], normalize), raw[|raw| - 1];
      var src, tgt := normalize(r.src), normalize(r.tgt);
      if front.None? || src.None? || tgt.None? || src == tgt then None
      else Some(front.value + [Item(PairKey(src.value, tgt.value), Edge(src.value, tgt.value, r.data, r.placeholder))])
  }

  lemma {:induction false} RelPrefixFails(raw: seq<RawRel>, normalize: Normalize, k: nat)
    requires k <= |raw| && Related(raw[..k], normalize).None?
    ensures Related(raw, normalize).None?
  {
    if k < |raw| {
      assert raw[..|raw| - 1][..k] == raw[..k];
      RelPrefixFails(raw[..|raw| - 1], normalize, k);
    } else {
      assert raw[..k] == raw;
    }
  }

  lemma {:induction false} EntityPrefixFails(raw: seq<RawEntity>, normalize: Normalize, k: nat)
    requires k <= |raw| && Declared(raw[..k], normalize).None?
    ensures Declared(raw, normalize).None?
  {
    if k < |raw| {
      assert raw[..|raw| - 1][..k] == raw[..k];
      EntityPrefixFails(raw[..|raw| - 1], normalize, k);
    } else {
      assert raw[..k] == raw;
    }
  }

  predicate ValidRel(r: RawRel, normalize: Normalize) {
    normalize(r.src).Some? && normalize(r.tgt).Some? && normalize(r.src) != normalize(r.tgt)
  }

  /** Entities are accepted when every name is, and each declares its own data. */
  lemma {:induction false} DeclaredIsPointwise(raw: seq<RawEntity>, normalize: Normalize)
    ensures Declared(raw, normalize).Some? <==> forall i :: 0 <= i < |raw| ==> normalize(raw[i].name).Some?
    ensures Declared(raw, normalize).Some? ==>
      var decls := Declared(raw, normalize).value;
      && |decls| == |raw|
      && forall i :: 0 <= i < |raw| ==> Some(decls[i].key) == normalize(raw[i].name) && decls[i].value == raw[i].data
  {
    if raw != [] {
      var n := |raw| - 1;
      DeclaredIsPointwise(raw[..n], normalize);
      assert forall i :: 0 <= i < n ==> raw[..n][i] == raw[i];
      if front: nat :| front < n && normalize(raw[front].name).None? {
        assert raw[..n][front] == raw[front];
      }
    }
  }

  /** What validation lets through: relationships between two different names, each as it was
      given, under its sorted pair; and it lets every such input through. */
  lemma {:induction false} RelatedIsSound(raw: seq<RawRel>, normalize: Normalize)
    ensures Related(raw, normalize).Some? <==> forall i :: 0 <= i < |raw| ==> ValidRel(raw[i], normalize)
    ensures Related(raw, normalize).Some? ==>
      var rels := Related(raw, normalize).value;
      && |rels| == |raw|
      && forall i :: 0 <= i < |raw| ==>
          var given, r := raw[i], rels[i].value;
          && Some(r.src) == normalize(given.src) && Some(r.tgt) == normalize(given.tgt) && r.src != r.tgt
          && r.data == given.data && r.placeholder == given.placeholder && rels[i].key == PairKey(r.src, r.tgt)
  {
    if raw != [] {
      var n := |raw| - 1;
      RelatedIsSound(raw[..n], normalize);
      assert forall i :: 0 <= i < n ==> raw[..n][i] == raw[i];
      if front: nat :| front < n && !ValidRel(raw[front], normalize) {
        assert raw[..n][front] == raw[front];
      }
    }
  }

  lemma OneMoreMissing(known: set<Name>, rels: seq<Rel>, i: nat)
    requires i < |rels|
    ensures var r, seen := rels[i].value, known + Endpoints(rels[..i]);
      && r.src in Endpoints(rels) && r.tgt in Endpoints(rels)
      && known + Endpoints(rels[..i + 1]) == seen + {r.src, r.tgt}
      && Missing(known, rels[..i + 1])
         == Missing(known, rels[..i])
            + (if r.src in seen then [] else [Item(r.src, r.placeholder)])
            + (if r.tgt in seen + {r.src} then [] else [Item(r.tgt, r.placeholder)])
  {
    var upTo := rels[..i + 1];
    assert upTo[..i] == rels[..i] && upTo == rels[..i] + [rels[i]];
    assert rels[i] in rels && rels[i] in upTo;
    forall n
      ensures n in Endpoints(upTo) <==> n in Endpoints(rels[..i]) || n == rels[i].value.src || n == rels[i].value.tgt
    {
      EndpointsGrow(rels[..i], rels[i], n);
    }
  }

  lemma EndpointsGrow(front: seq<Rel>, last: Rel, n: Name)
    ensures n in Endpoints(front + [last]) <==> n in Endpoints(front) || n == last.value.src || n == last.value.tgt
  {
    var all := front + [last];
    assert last in all && forall r :: r in front ==> r in all;
  }

  class GraphStore {
    var nodes: map<Name, Attrs>
    var edges: map<Obj, Attrs>

    ghost function State(): Graph
      reads this
    {
      Graph(nodes, edges)
    }

    constructor (g: Graph)
      ensures State() == g
    {
      nodes, edges := g.nodes, g.edges;
    }

    method NormalizeEntities(raw: seq<RawEntity>, normalize: Normalize) returns (decls: Option<seq<Decl>>)
      ensures decls == Declared(raw, normalize)
    {
      var done: seq<Decl> := [];
      for i := 0 to |raw|
        invariant Some(done) == Declared(raw[..i], normalize)
      {
        assert raw[..i + 1][..i] == raw[..i];
        var name := normalize(raw[i].name);
        if name.None? {
          EntityPrefixFails(raw, normalize, i + 1);
          return None;
        }
        done := done + [Item(name.value, raw[i].data)];
      }
      assert raw[..|raw|] == raw;
      return Some(done);
    }

    method NormalizeRelationships(raw: seq<RawRel>, normalize: Normalize) returns (rels: Option<seq<Rel>>)
      ensures rels == Related(raw, normalize)
    {
      var done: seq<Rel> := [];
      for i := 0 to |raw|
        invariant Some(done) == Related(raw[..i], normalize)
      {
        assert raw[..i + 1][..i] == raw[..i];
        var src, tgt := normalize(raw[i].src), normalize(raw[i].tgt);
        if src.None? || tgt.None? || src.value == tgt.value {
          RelPrefixFails(raw, normalize, i + 1);
          return None;
        }
        done := done + [Item(PairKey(src.value, tgt.value), Edge(src.value, tgt.value, raw[i].data, raw[i].placeholder))];
      }
      assert raw[..|raw|] == raw;
      return Some(done);
    }

    /** `pop` a key from an ordered dictionary. */
    method Pop<K(==), V>(s: seq<Item<K, V>>, k: K) returns (r: seq<Item<K, V>>)
      ensures r == Without(s, k)
    {
      r := [];
      for i := 0 to |s|
        invariant r == Without(s[..i], k)
      {
        assert s[..i + 1][..i] == s[..i];
        if s[i].key != k {
          r := r + [s[i]];
        }
      }
      assert s[..|s|] == s;
    }

    method Deduplicate<K(==), V>(s: seq<Item<K, V>>) returns (kept: seq<Item<K, V>>)
      ensures kept == KeepLast(s)
    {
      kept := [];
      for i := 0 to |s|
        invariant kept == KeepLast(s[..i])
      {
        assert s[..i + 1][..i] == s[..i];
        kept := Pop(kept, s[i].key);
        kept := kept + [s[i]];
      }
      assert s[..|s|] == s;
    }

    method UpsertNodesBatch(decls: seq<Decl>)
      modifies this`nodes
      ensures nodes == UpsertNodes(old(nodes), decls)
    {
      for i := 0 to |decls|
        invariant nodes == UpsertNodes(old(nodes), decls[..i])
      {
        assert decls[..i + 1][..i] == decls[..i];
        nodes := Upsert(nodes, decls[i].key, decls[i].value);
      }
      assert decls[..|decls|] == decls;
    }

    method UpsertEdgesBatch(rels: seq<Rel>)
      modifies this`edges
      ensures edges == UpsertEdges(old(edges), rels)
    {
      for i := 0 to |rels|
        invariant edges == UpsertEdges(old(edges), rels[..i])
      {
        assert rels[..i + 1][..i] == rels[..i];
        edges := Upsert(edges, rels[i].key, rels[i].value.data);
      }
      assert rels[..|rels|] == rels;
    }

    /** Placeholders for endpoints the graph does not have, each once. */
    method FindMissing(rels: seq<Rel>) returns (missing: seq<Decl>)
      ensures missing == Missing(nodes.Keys, rels)
    {
      var needed := Endpoints(rels);
      var existing := needed * nodes.Keys;
      missing := [];
      ghost var known, seen := nodes.Keys, nodes.Keys;
      assert Endpoints(rels[..0]) == {};
      for i := 0 to |rels|
        invariant seen == known + Endpoints(rels[..i])
        invariant forall n :: n in needed ==> (n in existing <==> n in seen)
        invariant missing == Missing(known, rels[..i])
      {
        OneMoreMissing(known, rels, i);
        missing, existing := NoteEndpoints(rels[i].value, missing, existing, needed, seen);
        seen := seen + {rels[i].value.src, rels[i].value.tgt};
      }
      assert rels[..|rels|] == rels;
    }

    method NoteEndpoints(r: Edge, missing: seq<Decl>, existing: set<Name>, ghost needed: set<Name>, ghost seen: set<Name>)
      returns (more: seq<Decl>, known: set<Name>)
      requires r.src in needed && r.tgt in needed
      requires forall n :: n in needed ==> (n in existing <==> n in seen)
      ensures forall n :: n in needed ==> (n in known <==> n in seen + {r.src, r.tgt})
      ensures more == missing
        + (if r.src in seen then [] else [Item(r.src, r.placeholder)])
        + (if r.tgt in seen + {r.src} then [] else [Item(r.tgt, r.placeholder)])
    {
      more, known := missing, existing;
      if r.src !in known {
        more, known := more + [Item(r.src, r.placeholder)], known + {r.src};
      }
      if r.tgt !in known {
        more, known := more + [Item(r.tgt, r.placeholder)], known + {r.tgt};
      }
    }

    /** Nothing is written unless the whole input is valid; then the graph is the batch of the
        declarations and relationships. */
    method InsertCustomKg(entities: seq<RawEntity>, relationships: seq<RawRel>, normalize: Normalize)
      returns (accepted: bool)
      modifies this
      ensures accepted <==> Declared(entities, normalize).Some? && Related(relationships, normalize).Some?
      ensures !accepted ==> State() == old(State())
      ensures accepted ==>
        State() == Batch(old(State()), Declared(entities, normalize).value, Related(relationships, normalize).value)
    {
      var decls := NormalizeEntities(entities, normalize);
      if decls.None? { return false; }
      var rels := NormalizeRelationships(relationships, normalize);
      if rels.None? { return false; }
      var keptDecls := Deduplicate(decls.value);
      var keptRels := Deduplicate(rels.value);
      UpsertNodesBatch(keptDecls);
      var missing := FindMissing(keptRels);
      UpsertNodesBatch(missing);
      UpsertEdgesBatch(keptRels);
      return true;
    }
  }
}
