/** The paged rollback sweep over the status rows. Pages come in `(created_at, id)` order and
    each page is rolled back before the next is read, so the store changes under the sweep. */
module RollbackSweep {
  import opened KgModel

  /** `active` rows are FAILED or PROCESSING; `journaled` rows carry an unfinished operation. */
  datatype Row = Row(created: nat, active: bool, journaled: bool)

  type Rows = map<DocId, Row>

  datatype Key = Key(created: nat, id: DocId)

  datatype Position = Start | After(key: Key) | End

  /** What rolling one row back does to it. */
  datatype Fate = Restored | Removed | LeftFailed

  predicate Before(a: Key, b: Key) {
    a.created < b.created || (a.created == b.created && a.id < b.id)
  }

  function KeyOf(rows: Rows, id: DocId): Key
    requires id in rows
  {
    Key(rows[id].created, id)
  }

  predicate Beyond(position: Position, key: Key) {
    match position
    case Start => true
    case After(k) => Before(k, key)
    case End => false
  }

  predicate Ordered(rows: Rows, ids: seq<DocId>) {
    && (forall i :: 0 <= i < |ids| ==> ids[i] in rows)
    && forall i, j :: 0 <= i < j < |ids| ==> Before(KeyOf(rows, ids[i]), KeyOf(rows, ids[j]))
  }

  /** The contract of a page: active rows past the position in key order, every active row up
      to the next position among them, and at least one stored row consumed. */
  ghost predicate IsPage(rows: Rows, position: Position, ids: seq<DocId>, next: Position) {
    && Ordered(rows, ids)
    && (forall id :: id in ids ==> rows[id].active && Beyond(position, KeyOf(rows, id)) && !Beyond(next, KeyOf(rows, id)))
    && (forall id :: id in rows && rows[id].active && Beyond(position, KeyOf(rows, id)) && !Beyond(next, KeyOf(rows, id)) ==>
          id in ids)
    && next != Start
    && (next.After? ==> exists id :: id in rows && KeyOf(rows, id) == next.key && Beyond(position, next.key))
  }

  function RolledBack(row: Row, fate: Fate): Option<Row> {
    match fate
    case Restored => Some(row.(active := false, journaled := false))
    case Removed => None
    case LeftFailed => Some(row)
  }

  /** The rows after every journaled row of `ids` met its fate. */
  function RollBackAll(rows: Rows, ids: seq<DocId>, fate: DocId -> Fate): Rows {
    map id | id in rows && !(id in ids && rows[id].journaled && fate(id).Removed?) ::
      if id in ids && rows[id].journaled && fate(id).Restored? then rows[id].(active := false, journaled := false)
      else rows[id]
  }

  function Scanned(rows: Rows): set<DocId> {
    set id | id in rows && rows[id].active && rows[id].journaled
  }

  function Pick(rows: Rows, ids: seq<DocId>): (r: seq<DocId>)
    ensures forall id :: id in r <==> id in ids && id in rows && rows[id].journaled
    ensures |r| <= |ids|
  {
    if ids == [] then []
    else
      var last := ids[|ids| - 1];
      Pick(rows, ids[..|ids| - 1]) + (if last in rows && rows[last].journaled then [last] else [])
  }

  lemma OneMorePick(rows: Rows, ids: seq<DocId>, id: DocId)
    ensures Pick(rows, ids + [id]) == Pick(rows, ids) + if id in rows && rows[id].journaled then [id] else []
  {
    assert (ids + [id])[..|ids|] == ids;
  }

  lemma {:induction false} PickIsOrdered(rows: Rows, ids: seq<DocId>)
    requires Ordered(rows, ids)
    ensures Ordered(rows, Pick(rows, ids))
  {
    if ids != [] {
      var front := ids[..|ids| - 1];
      PickIsOrdered(rows, front);
      forall i | 0 <= i < |Pick(rows, front)|
        ensures Before(KeyOf(rows, Pick(rows, front)[i]), KeyOf(rows, ids[|ids| - 1]))
      {
        assert Pick(rows, front)[i] in Pick(rows, front) && Pick(rows, front)[i] in front;
      }
    }
  }

  /** What the sweep has done when it stands at a position: it handled, in order, exactly the
      journaled active rows up to there, and left the rows beyond as they were. */
  ghost predicate SweepInv(rows0: Rows, rows: Rows, position: Position, handled: seq<DocId>, fate: DocId -> Fate) {
    && Ordered(rows0, handled)
    && (forall id :: id in handled <==> id in Scanned(rows0) && !Beyond(position, KeyOf(rows0, id)))
    && rows == RollBackAll(rows0, handled, fate)
  }

  lemma RowsBeyondAreUntouched(rows0: Rows, rows: Rows, position: Position, handled: seq<DocId>, fate: DocId -> Fate, id: DocId)
    requires SweepInv(rows0, rows, position, handled, fate)
    ensures id in rows ==> id in rows0 && KeyOf(rows, id) == KeyOf(rows0, id)
    ensures id in rows0 && Beyond(position, KeyOf(rows0, id)) ==> id in rows && rows[id] == rows0[id]
  {
  }

  function WithFate(rows: Rows, id: DocId, fate: Fate): Rows {
    if id in rows && rows[id].journaled then
      match RolledBack(rows[id], fate)
      case Some(row) => rows[id := row]
      case None => rows - {id}
    else rows
  }

  lemma OneMoreRow(rows: Rows, ids: seq<DocId>, id: DocId, fate: DocId -> Fate)
    requires id !in ids
    ensures RollBackAll(rows, ids + [id], fate) == WithFate(RollBackAll(rows, ids, fate), id, fate(id))
    ensures id in RollBackAll(rows, ids, fate) <==> id in rows
    ensures id in rows ==> RollBackAll(rows, ids, fate)[id] == rows[id]
  {
    var one, two := RollBackAll(rows, ids + [id], fate), WithFate(RollBackAll(rows, ids, fate), id, fate(id));
    forall d
      ensures d in one <==> d in two
      ensures d in one ==> one[d] == two[d]
    {
      assert d in ids + [id] <==> d in ids || d == id;
    }
  }

  /** Rolling back a later batch after an earlier one is rolling back both. */
  lemma BatchesCompose(rows0: Rows, handled: seq<DocId>, ids: seq<DocId>, fate: DocId -> Fate)
    requires forall id :: id in ids ==> id !in handled
    ensures var rows := RollBackAll(rows0, handled, fate);
      RollBackAll(rows, ids, fate) == RollBackAll(rows0, handled + Pick(rows, ids), fate)
  {
    var rows := RollBackAll(rows0, handled, fate);
    var picked := Pick(rows, ids);
    assert forall id :: id in handled + picked <==> id in handled || id in picked;
    assert forall id :: id in ids && id in rows0 ==> id in rows && rows[id] == rows0[id];
  }

  lemma HandledUpToNext(rows0: Rows, rows: Rows, position: Position, handled: seq<DocId>, fate: DocId -> Fate,
                        ids: seq<DocId>, next: Position, id: DocId)
    requires SweepInv(rows0, rows, position, handled, fate)
    requires IsPage(rows, position, ids, next)
    ensures id in handled + Pick(rows, ids) <==> id in Scanned(rows0) && !Beyond(next, KeyOf(rows0, id))
  {
    PositionAdvances(rows, position, ids, next);
    RowsBeyondAreUntouched(rows0, rows, position, handled, fate, id);
    if id in Pick(rows, ids) {
      assert Beyond(position, KeyOf(rows, id));
    }
  }

  /** One page and its rollbacks keep the invariant, whatever each rollback's fate. */
  lemma PageKeepsSweep(rows0: Rows, rows: Rows, position: Position, handled: seq<DocId>, fate: DocId -> Fate,
                       ids: seq<DocId>, next: Position)
    requires SweepInv(rows0, rows, position, handled, fate)
    requires IsPage(rows, position, ids, next)
    ensures SweepInv(rows0, RollBackAll(rows, ids, fate), next, handled + Pick(rows, ids), fate)
  {
    forall id
      ensures id in handled + Pick(rows, ids) <==> id in Scanned(rows0) && !Beyond(next, KeyOf(rows0, id))
    {
      HandledUpToNext(rows0, rows, position, handled, fate, ids, next, id);
    }
    forall id | id in ids
      ensures id !in handled
    {
      RowsBeyondAreUntouched(rows0, rows, position, handled, fate, id);
    }
    BatchesCompose(rows0, handled, ids, fate);
    SweepStaysOrdered(rows0, rows, position, handled, fate, ids, next);
  }

  lemma SweepStaysOrdered(rows0: Rows, rows: Rows, position: Position, handled: seq<DocId>, fate: DocId -> Fate,
                          ids: seq<DocId>, next: Position)
    requires SweepInv(rows0, rows, position, handled, fate)
    requires IsPage(rows, position, ids, next)
    ensures Ordered(rows0, handled + Pick(rows, ids))
  {
    var picked := Pick(rows, ids);
    PickIsOrdered(rows, ids);
    forall i | 0 <= i < |picked|
      ensures picked[i] in rows0 && KeyOf(rows0, picked[i]) == KeyOf(rows, picked[i])
      ensures Beyond(position, KeyOf(rows0, picked[i]))
    {
      assert picked[i] in picked;
      RowsBeyondAreUntouched(rows0, rows, position, handled, fate, picked[i]);
    }
    PickedFollowHandled(rows0, position, handled, picked);
  }

  lemma PositionAdvances(rows: Rows, position: Position, ids: seq<DocId>, next: Position)
    requires IsPage(rows, position, ids, next)
    ensures forall key :: Beyond(next, key) ==> Beyond(position, key)
  {
  }

  lemma PickedFollowHandled(rows0: Rows, position: Position, handled: seq<DocId>, picked: seq<DocId>)
    requires Ordered(rows0, handled) && Ordered(rows0, picked)
    requires forall id :: id in handled ==> !Beyond(position, KeyOf(rows0, id))
    requires forall id :: id in picked ==> Beyond(position, KeyOf(rows0, id))
    ensures Ordered(rows0, handled + picked)
  {
    forall i, j | 0 <= i < |handled| && 0 <= j < |picked|
      ensures Before(KeyOf(rows0, handled[i]), KeyOf(rows0, picked[j]))
    {
      assert handled[i] in handled && picked[j] in picked;
      if position.After? && KeyOf(rows0, handled[i]) != position.key {
        assert Before(KeyOf(rows0, handled[i]), position.key);
      }
    }
  }

  // ----- progress -----

  function RowsBeyond(rows: Rows, position: Position): set<DocId> {
    set id | id in rows && Beyond(position, KeyOf(rows, id))
  }

  /** A page that does not end the sweep leaves strictly fewer rows beyond its position, and
      rolling rows back never adds one. */
  lemma PagesMakeProgress(rows: Rows, position: Position, ids: seq<DocId>, next: Position, fate: DocId -> Fate)
    requires IsPage(rows, position, ids, next) && next.After?
    ensures |RowsBeyond(RollBackAll(rows, ids, fate), next)| < |RowsBeyond(rows, position)|
  {
    var now, before := RowsBeyond(RollBackAll(rows, ids, fate), next), RowsBeyond(rows, position);
    var consumed :| consumed in rows && KeyOf(rows, consumed) == next.key && Beyond(position, next.key);
    PositionAdvances(rows, position, ids, next);
    assert now <= before - {consumed};
    Smaller(now, before - {consumed});
  }

  lemma {:induction false} Smaller(a: set<DocId>, b: set<DocId>)
    requires a <= b
    ensures |a| <= |b|
  {
    if a != {} {
      var x :| x in a;
      Smaller(a - {x}, b - {x});
    }
  }

  /** At the end the sweep has handled what the single scan finds, and left what it leaves. */
  lemma SweepEndsAsTheScan(rows0: Rows, rows: Rows, handled: seq<DocId>, fate: DocId -> Fate, scan: seq<DocId>)
    requires SweepInv(rows0, rows, End, handled, fate)
    requires forall id :: id in scan <==> id in Scanned(rows0)
    ensures forall id :: id in handled <==> id in scan
    ensures rows == RollBackAll(rows0, scan, fate)
    ensures |handled| == |Scanned(rows0)|
  {
    assert RollBackAll(rows0, handled, fate) == RollBackAll(rows0, scan, fate);
    DistinctCount(handled, Scanned(rows0));
  }

  lemma {:induction false} DistinctCount(ids: seq<DocId>, all: set<DocId>)
    requires forall i, j :: 0 <= i < j < |ids| ==> ids[i] != ids[j]
    requires forall id :: id in ids <==> id in all
    ensures |ids| == |all|
  {
    if ids == [] {
      assert all == {};
    } else {
      var front, last := ids[..|ids| - 1], ids[|ids| - 1];
      assert ids == front + [last];
      DistinctCount(front, all - {last});
    }
  }

  /** Older rows come first, rows of one age by their ids. */
  ghost predicate InAgeOrder(rows: Rows, ids: seq<DocId>) {
    && (forall id :: id in ids ==> id in rows)
    && forall i, j :: 0 <= i < j < |ids| ==>
        rows[ids[i]].created < rows[ids[j]].created || (rows[ids[i]].created == rows[ids[j]].created && ids[i] < ids[j])
  }

  lemma OrderedIsAgeOrder(rows: Rows, ids: seq<DocId>)
    requires Ordered(rows, ids)
    ensures InAgeOrder(rows, ids)
  {
    forall i, j | 0 <= i < j < |ids|
      ensures rows[ids[i]].created < rows[ids[j]].created || (rows[ids[i]].created == rows[ids[j]].created && ids[i] < ids[j])
    {
      assert Before(KeyOf(rows, ids[i]), KeyOf(rows, ids[j]));
    }
  }

  /** What the sweep leaves: a journaled active row is gone, at rest, or as it was, by its fate,
      and every other row is as it was. */
  ghost predicate Settled(before: Rows, after: Rows, fate: DocId -> Fate) {
    && after.Keys <= before.Keys
    && forall id :: id in before ==>
        if before[id].active && before[id].journaled then
          match fate(id)
          case Restored => id in after && !after[id].active && !after[id].journaled && after[id].created == before[id].created
          case Removed => id !in after
          case LeftFailed => id in after && after[id] == before[id]
        else id in after && after[id] == before[id]
  }

  lemma SweptRowsAreSettled(rows0: Rows, rows: Rows, handled: seq<DocId>, fate: DocId -> Fate)
    requires rows == RollBackAll(rows0, handled, fate) && forall id :: id in handled <==> id in Scanned(rows0)
    ensures Settled(rows0, rows, fate)
  {
  }

  // ----- targeted updates -----

  /** The fields a targeted status update gives; fields it leaves out are not touched. */
  datatype Update = Update(created: Option<nat>, active: Option<bool>, journaled: Option<bool>)

  datatype UpdateOutcome = Applied | Refused | NotFound | Skipped

  function Or<T>(given: Option<T>, otherwise: T): T {
    if given.Some? then given.value else otherwise
  }

  // ----- the sweep itself -----

  class StatusStore {
    var rows: Rows

    constructor (rows: Rows)
      ensures this.rows == rows
    {
      this.rows := rows;
    }

    /** The sort key is refused; an unknown row is an error unless the caller allows it. */
    method UpdateFields(id: DocId, fields: Update, missingOk: bool) returns (outcome: UpdateOutcome)
      modifies this
      ensures outcome.Refused? <==> fields.created.Some?
      ensures outcome.NotFound? <==> fields.created.None? && id !in old(rows) && !missingOk
      ensures outcome.Applied? <==> fields.created.None? && id in old(rows)
      ensures rows == if outcome.Applied?
        then old(rows)[id := Row(old(rows)[id].created, Or(fields.active, old(rows)[id].active),
                                 Or(fields.journaled, old(rows)[id].journaled))]
        else old(rows)
    {
      if fields.created.Some? { return Refused; }
      if id !in rows { return if missingOk then Skipped else NotFound; }
      var merged := rows[id];
      if fields.active.Some? { merged := merged.(active := fields.active.value); }
      if fields.journaled.Some? { merged := merged.(journaled := fields.journaled.value); }
      rows := rows[id := merged];
      return Applied;
    }

    /** The active row with the least key beyond a position, if there is one. */
    method FirstBeyond(position: Position) returns (found: Option<DocId>)
      ensures found.None? <==> forall id :: id in rows && rows[id].active ==> !Beyond(position, KeyOf(rows, id))
      ensures found.Some? ==>
        && found.value in rows && rows[found.value].active && Beyond(position, KeyOf(rows, found.value))
        && forall id :: id in rows && rows[id].active && Before(KeyOf(rows, id), KeyOf(rows, found.value)) ==>
            !Beyond(position, KeyOf(rows, id))
    {
      found := None;
      var todo := rows.Keys;
      while todo != {}
        invariant todo <= rows.Keys
        invariant found.None? ==> forall id :: id in rows.Keys - todo && rows[id].active ==> !Beyond(position, KeyOf(rows, id))
        invariant found.Some? ==>
          && found.value in rows && rows[found.value].active && Beyond(position, KeyOf(rows, found.value))
          && forall id :: id in rows.Keys - todo && rows[id].active && Before(KeyOf(rows, id), KeyOf(rows, found.value)) ==>
              !Beyond(position, KeyOf(rows, id))
        decreases todo
      {
        var id :| id in todo;
        if rows[id].active && Beyond(position, KeyOf(rows, id)) {
          if found.None? || Before(KeyOf(rows, id), KeyOf(rows, found.value)) {
            found := Some(id);
          }
        }
        todo := todo - {id};
      }
    }

    /** At most `limit` active rows in key order, and where to go on from. */
    method NextPage(limit: nat, position: Position) returns (ids: seq<DocId>, next: Position)
      requires limit > 0 && position != End
      ensures IsPage(rows, position, ids, next) && |ids| <= limit
    {
      ids, next := [], position;
      while |ids| < limit
        invariant |ids| <= limit && Ordered(rows, ids)
        invariant next == if ids == [] then position else After(KeyOf(rows, ids[|ids| - 1]))
        invariant forall id :: id in ids ==>
          rows[id].active && Beyond(position, KeyOf(rows, id)) && !Beyond(next, KeyOf(rows, id))
        invariant forall id ::
          id in rows && rows[id].active && Beyond(position, KeyOf(rows, id)) && !Beyond(next, KeyOf(rows, id)) ==>
            id in ids
        decreases limit - |ids|
      {
        var found := FirstBeyond(next);
        if found.None? {
          return ids, End;
        }
        forall i | 0 <= i < |ids|
          ensures Before(KeyOf(rows, ids[i]), KeyOf(rows, found.value))
        {
          assert ids[i] in ids;
        }
        ids, next := ids + [found.value], After(KeyOf(rows, found.value));
      }
    }

    /** Re-read the row: the operation may be gone since the page was read. */
    method RollBackOne(id: DocId, fate: Fate) returns (journaled: bool)
      modifies this
      ensures rows == WithFate(old(rows), id, fate)
      ensures journaled <==> id in old(rows) && old(rows)[id].journaled
    {
      journaled := id in rows && rows[id].journaled;
      if journaled {
        match RolledBack(rows[id], fate)
        case Some(row) => rows := rows[id := row];
        case None => rows := rows - {id};
      }
    }

    /** Roll back one page's documents in order. */
    method RollBackBatch(ids: seq<DocId>, fate: DocId -> Fate) returns (handled: seq<DocId>)
      requires forall i, j :: 0 <= i < j < |ids| ==> ids[i] != ids[j]
      modifies this
      ensures rows == RollBackAll(old(rows), ids, fate) && handled == Pick(old(rows), ids)
    {
      handled := [];
      for i := 0 to |ids|
        invariant rows == RollBackAll(old(rows), ids[..i], fate)
        invariant handled == Pick(old(rows), ids[..i])
      {
        var id := ids[i];
        ghost var front := ids[..i];
        assert ids[..i + 1] == front + [id] && id !in front;
        OneMoreRow(old(rows), front, id, fate);
        OneMorePick(old(rows), front, id);
        var journaled := RollBackOne(id, fate(id));
        if journaled {
          handled := handled + [id];
        }
      }
      assert ids[..|ids|] == ids;
    }

    /** Every journaled row that was active when the sweep began is handled exactly once, in
        `(created_at, id)` order, and the store ends as one scan would leave it. */
    method Sweep(pageSize: nat, fate: DocId -> Fate) returns (handled: seq<DocId>)
      requires pageSize > 0
      modifies this
      ensures Ordered(old(rows), handled)
      ensures forall id :: id in handled <==> id in Scanned(old(rows))
      ensures rows == RollBackAll(old(rows), handled, fate)
      ensures InAgeOrder(old(rows), handled) && Settled(old(rows), rows, fate)
    {
      var position := Start;
      handled := [];
      while position != End
        invariant SweepInv(old(rows), rows, position, handled, fate)
        decreases position != End, |RowsBeyond(rows, position)|
      {
        var ids, next := NextPage(pageSize, position);
        ghost var before := rows;
        var batch := RollBackBatch(ids, fate);
        PageKeepsSweep(old(rows), before, position, handled, fate, ids, next);
        if next.After? {
          PagesMakeProgress(before, position, ids, next, fate);
        }
        handled, position := handled + batch, next;
      }
      OrderedIsAgeOrder(old(rows), handled);
      SweptRowsAreSettled(old(rows), rows, handled, fate);
    }

    /** Paging disabled: one scan finds every row to handle, in no particular order. */
    method LegacyScan(fate: DocId -> Fate) returns (handled: seq<DocId>)
      modifies this
      ensures forall id :: id in handled <==> id in Scanned(old(rows))
      ensures rows == RollBackAll(old(rows), handled, fate) && Settled(old(rows), rows, fate)
    {
      var found: seq<DocId> := [];
      var todo := rows.Keys;
      while todo != {}
        invariant todo <= rows.Keys && rows == old(rows)
        invariant forall id :: id in found <==> id in Scanned(rows) && id !in todo
        invariant forall i, j :: 0 <= i < j < |found| ==> found[i] != found[j]
        decreases todo
      {
        var id :| id in todo;
        if rows[id].active && rows[id].journaled {
          found := found + [id];
        }
        todo := todo - {id};
      }
      handled := RollBackBatch(found, fate);
      assert RollBackAll(old(rows), found, fate) == RollBackAll(old(rows), handled, fate);
      SweptRowsAreSettled(old(rows), rows, handled, fate);
    }
  }
}
