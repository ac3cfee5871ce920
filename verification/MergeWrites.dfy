/** The durable writes of a merge, one at a time. An object's tracking row is written before the
    object; an edge is written after its endpoints, each of which takes over the edge's whole
    tracked list, the sources it had before included. */
module MergeWrites {
  import opened KgModel

  datatype KgWrite =
    | Track(o: Obj, added: seq<Chunk>)
    | Upsert(o: Obj, added: seq<Chunk>)
    | CreateEnd(edge: Obj, end: Name, tracked: bool)
    | TrackEnd(edge: Obj, end: Name)
    | UpsertEnd(edge: Obj, end: Name)

  /** Every chunk id either list of an object names; an object need not be in the graph. */
  function Mentions(kg: Kg, o: Obj): set<Chunk> {
    (if o in kg.graph then Ids(kg.graph[o]) else {}) + (if o in kg.tracking then Ids(kg.tracking[o]) else {})
  }

  function Row(kg: Kg, o: Obj): seq<Chunk> {
    if o in kg.tracking then kg.tracking[o] else []
  }

  /** The object a write changes. */
  function Target(w: KgWrite): Obj {
    match w
    case Track(o, _) => o
    case Upsert(o, _) => o
    case CreateEnd(_, end, _) => Entity(end)
    case TrackEnd(_, end) => Entity(end)
    case UpsertEnd(_, end) => Entity(end)
  }

  /** The extracted object a write is made for. */
  function Subject(w: KgWrite): Obj {
    match w
    case Track(o, _) => o
    case Upsert(o, _) => o
    case CreateEnd(edge, _, _) => edge
    case TrackEnd(edge, _) => edge
    case UpsertEnd(edge, _) => edge
  }

  /** What the write adds to the sources of its target. */
  function Incoming(kg: Kg, w: KgWrite): seq<Chunk> {
    match w
    case Track(_, added) => added
    case Upsert(_, added) => added
    case _ => Row(kg, Subject(w))
  }

  /** A new endpoint gets exactly the edge's list; anything else is merged into what is there. */
  function Result(kg: Kg, w: KgWrite): seq<Chunk> {
    if w.CreateEnd? then Incoming(kg, w) else MergeIds(Sources(kg, Target(w)), Incoming(kg, w))
  }

  predicate WritesGraph(w: KgWrite) {
    w.Upsert? || w.CreateEnd? || w.UpsertEnd?
  }

  /** A new endpoint's tracking row follows its node; an attempt may stop in between. */
  predicate WritesTracking(w: KgWrite) {
    w.Track? || (w.CreateEnd? && w.tracked) || w.TrackEnd?
  }

  function Written(kg: Kg, w: KgWrite): Kg {
    Kg(if WritesGraph(w) then kg.graph[Target(w) := Result(kg, w)] else kg.graph,
       if WritesTracking(w) then kg.tracking[Target(w) := Result(kg, w)] else kg.tracking)
  }

  /** A pair of one name with itself is never merged. */
  predicate Mergeable(o: Obj) {
    o.Relation? ==> o.lo != o.hi
  }

  predicate IsEnd(edge: Obj, end: Name) {
    edge.Relation? && (end == edge.lo || end == edge.hi)
  }

  /** Both endpoints are in the graph and have taken over the edge's tracked list. */
  predicate EndsReady(kg: Kg, edge: Obj) {
    edge.Relation? ==>
      && Entity(edge.lo) in kg.graph && Ids(Row(kg, edge)) <= SourceSet(kg, Entity(edge.lo))
      && Entity(edge.hi) in kg.graph && Ids(Row(kg, edge)) <= SourceSet(kg, Entity(edge.hi))
  }

  /** What a merge of the staged chunks may write next: on extracted candidates only, and in
      the order the program keeps. */
  predicate Permitted(kg: Kg, sample: set<Obj>, staged: set<Chunk>, w: KgWrite) {
    && Subject(w) in sample && Mergeable(Subject(w))
    && match w
       case Track(o, added) => added != [] && Ids(added) <= staged
       case Upsert(o, added) =>
         added != [] && Ids(added) <= staged && Ids(added) <= Ids(Row(kg, o)) && EndsReady(kg, o)
       case CreateEnd(edge, end, _) =>
         IsEnd(edge, end) && !(Ids(Row(kg, edge)) !! staged) && Entity(end) !in kg.graph
       case TrackEnd(edge, end) =>
         && IsEnd(edge, end) && !(Ids(Row(kg, edge)) !! staged) && Entity(end) in kg.graph
         && MergeIds(Sources(kg, Entity(end)), Row(kg, edge)) != Sources(kg, Entity(end))
       case UpsertEnd(edge, end) =>
         && IsEnd(edge, end) && !(Ids(Row(kg, edge)) !! staged) && Entity(end) in kg.graph
         && Ids(Row(kg, edge)) <= SourceSet(kg, Entity(end))
  }

  // ----- what one write does -----

  lemma OthersUntouched(kg: Kg, w: KgWrite, p: Obj)
    requires p != Target(w)
    ensures Mentions(Written(kg, w), p) == Mentions(kg, p)
    ensures Sources(Written(kg, w), p) == Sources(kg, p)
    ensures p in Written(kg, w).graph <==> p in kg.graph
    ensures p in Written(kg, w).tracking <==> p in kg.tracking
    ensures p in kg.graph ==> Written(kg, w).graph[p] == kg.graph[p]
    ensures p in kg.tracking ==> Written(kg, w).tracking[p] == kg.tracking[p]
  {
  }

  /** The target gains what comes in and nothing else. */
  lemma TargetMentions(kg: Kg, w: KgWrite)
    ensures Mentions(Written(kg, w), Target(w)) <= Mentions(kg, Target(w)) + Ids(Incoming(kg, w))
  {
    assert SourceSet(kg, Target(w)) <= Mentions(kg, Target(w));
  }

  /** An endpoint that exists, and any object of the merge, keeps every source it had. */
  lemma TargetKeepsSources(kg: Kg, w: KgWrite)
    requires !w.CreateEnd?
    ensures SourceSet(kg, Target(w)) <= SourceSet(Written(kg, w), Target(w))
    ensures SourceSet(Written(kg, w), Target(w)) <= SourceSet(kg, Target(w)) + Ids(Incoming(kg, w))
    ensures Target(w) in kg.graph ==> Target(w) in Written(kg, w).graph
  {
    var o, after := Target(w), Written(kg, w);
    EmptyIds(Sources(kg, o));
    EmptyIds(Result(kg, w));
    if w.Upsert? || w.UpsertEnd? {
      assert o in after.tracking <==> o in kg.tracking;
      if o in kg.tracking && kg.tracking[o] != [] {
        assert Sources(after, o) == Sources(kg, o);
      }
    }
  }

  /** A new endpoint has the sources of the edge's row, unless a row of its own outlived it. */
  lemma CreatedSources(kg: Kg, w: KgWrite)
    requires w.CreateEnd? && Target(w) !in kg.graph
    ensures SourceSet(Written(kg, w), Target(w))
      == if !w.tracked && Row(kg, Target(w)) != [] then SourceSet(kg, Target(w)) else Ids(Incoming(kg, w))
  {
  }

  /** An existing endpoint's row takes the edge's list over, once. */
  lemma TrackedEnd(kg: Kg, edge: Obj, end: Name)
    requires edge.Relation? && Row(kg, edge) != []
    ensures var after, merged := Written(kg, TrackEnd(edge, end)), MergeIds(Sources(kg, Entity(end)), Row(kg, edge));
      && Row(after, edge) == Row(kg, edge)
      && Sources(after, Entity(end)) == merged == MergeIds(merged, Row(kg, edge))
  {
    MergedAlready(Sources(kg, Entity(end)), Row(kg, edge));
    EmptyIds(Row(kg, edge));
    EmptyIds(MergeIds(Sources(kg, Entity(end)), Row(kg, edge)));
  }

  /** No graph object goes and none loses a source. */
  ghost predicate Grows(before: Kg, kg: Kg) {
    forall o :: o in before.graph ==> o in kg.graph && SourceSet(before, o) <= SourceSet(kg, o)
  }

  lemma WriteGrows(kg: Kg, sample: set<Obj>, staged: set<Chunk>, w: KgWrite)
    requires Permitted(kg, sample, staged, w)
    ensures Grows(kg, Written(kg, w))
  {
    forall o | o in kg.graph
      ensures o in Written(kg, w).graph && SourceSet(kg, o) <= SourceSet(Written(kg, w), o)
    {
      if o == Target(w) {
        TargetKeepsSources(kg, w);
      } else {
        OthersUntouched(kg, w, o);
      }
    }
  }
}
