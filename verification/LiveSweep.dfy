/** The sweep while other writers are at work. Between two pages rows may change, go, or come;
    all that is asked is that a row keeps its creation time, which updates may not touch. */
module LiveSweep {
  import opened KgModel
  import opened RollbackSweep

  /** One page as it was read: the rows at that moment, what was on it, where it left off. */
  datatype Visit = Visit(rows: Rows, ids: seq<DocId>, next: Position)

  ghost predicate Visits(visits: seq<Visit>, position: Position)
    decreases visits
  {
    visits != [] ==>
      IsPage(visits[0].rows, position, visits[0].ids, visits[0].next) && Visits(visits[1..], visits[0].next)
  }

  /** The rows the sweep rolls back, in order. */
  function Handled(visits: seq<Visit>): seq<DocId>
    decreases visits
  {
    if visits == [] then [] else Pick(visits[0].rows, visits[0].ids) + Handled(visits[1..])
  }

  function PageKeys(rows: Rows, ids: seq<DocId>): seq<Key>
    requires forall id :: id in ids ==> id in rows
  {
    seq(|ids|, i requires 0 <= i < |ids| => KeyOf(rows, ids[i]))
  }

  /** The sort keys they had when they were read. */
  function HandledKeys(visits: seq<Visit>): (r: seq<Key>)
    ensures |r| == |Handled(visits)| && forall i :: 0 <= i < |r| ==> r[i].id == Handled(visits)[i]
    decreases visits
  {
    if visits == [] then []
    else PageKeys(visits[0].rows, Pick(visits[0].rows, visits[0].ids)) + HandledKeys(visits[1..])
  }

  /** Whatever happens between the pages, the sweep only moves forward. */
  lemma {:induction false} SweepMovesForward(visits: seq<Visit>, position: Position)
    requires Visits(visits, position)
    ensures forall i :: 0 <= i < |HandledKeys(visits)| ==> Beyond(position, HandledKeys(visits)[i])
    ensures forall i, j :: 0 <= i < j < |HandledKeys(visits)| ==> Before(HandledKeys(visits)[i], HandledKeys(visits)[j])
    decreases visits
  {
    if visits != [] {
      var v := visits[0];
      var picked := Pick(v.rows, v.ids);
      SweepMovesForward(visits[1..], v.next);
      PositionAdvances(v.rows, position, v.ids, v.next);
      PickIsOrdered(v.rows, v.ids);
      forall i | 0 <= i < |picked|
        ensures Beyond(position, KeyOf(v.rows, picked[i])) && !Beyond(v.next, KeyOf(v.rows, picked[i]))
      {
        assert picked[i] in picked;
      }
      KeysJoin(PageKeys(v.rows, picked), HandledKeys(visits[1..]), v.next);
    }
  }

  /** Keys up to a position come before keys beyond it. */
  lemma KeysJoin(page: seq<Key>, rest: seq<Key>, next: Position)
    requires forall i, j :: 0 <= i < j < |page| ==> Before(page[i], page[j])
    requires forall i, j :: 0 <= i < j < |rest| ==> Before(rest[i], rest[j])
    requires forall i :: 0 <= i < |page| ==> !Beyond(next, page[i])
    requires forall i :: 0 <= i < |rest| ==> Beyond(next, rest[i])
    ensures forall i, j :: 0 <= i < j < |page + rest| ==> Before((page + rest)[i], (page + rest)[j])
  {
    forall i, j | 0 <= i < |page| && 0 <= j < |rest|
      ensures Before(page[i], rest[j])
    {
      assert !Beyond(next, page[i]) && Beyond(next, rest[j]);
    }
  }

  ghost predicate KeepsCreationTimes(visits: seq<Visit>) {
    forall i, j, id :: 0 <= i < |visits| && 0 <= j < |visits| && id in visits[i].rows && id in visits[j].rows ==>
      visits[i].rows[id].created == visits[j].rows[id].created
  }

  lemma {:induction false} HandledWasThere(visits: seq<Visit>, n: nat) returns (i: nat)
    requires n < |Handled(visits)|
    ensures i < |visits| && var id := Handled(visits)[n];
      && id in visits[i].ids && id in visits[i].rows && visits[i].rows[id].journaled
      && HandledKeys(visits)[n] == KeyOf(visits[i].rows, id)
    decreases visits
  {
    var picked := Pick(visits[0].rows, visits[0].ids);
    if n < |picked| {
      assert picked[n] in picked;
      i := 0;
    } else {
      var k := HandledWasThere(visits[1..], n - |picked|);
      i := k + 1;
    }
  }

  /** Every row handled was active and journaled when its page was read, and none is handled
      twice. */
  lemma EachRowOnce(visits: seq<Visit>)
    requires Visits(visits, Start) && KeepsCreationTimes(visits)
    ensures forall i, j :: 0 <= i < j < |Handled(visits)| ==> Handled(visits)[i] != Handled(visits)[j]
    ensures forall id :: id in Handled(visits) ==>
      exists i :: 0 <= i < |visits| && id in visits[i].rows && visits[i].rows[id].active && visits[i].rows[id].journaled
  {
    SweepMovesForward(visits, Start);
    forall i, j | 0 <= i < j < |Handled(visits)|
      ensures Handled(visits)[i] != Handled(visits)[j]
    {
      var p := HandledWasThere(visits, i);
      var q := HandledWasThere(visits, j);
      assert Before(HandledKeys(visits)[i], HandledKeys(visits)[j]);
    }
    forall id | id in Handled(visits)
      ensures exists i :: 0 <= i < |visits| && id in visits[i].rows && visits[i].rows[id].active && visits[i].rows[id].journaled
    {
      var n :| 0 <= n < |Handled(visits)| && Handled(visits)[n] == id;
      var i := HandledWasThere(visits, n);
      VisitIsPage(visits, Start, i);
    }
  }

  lemma {:induction false} VisitIsPage(visits: seq<Visit>, position: Position, i: nat)
    requires Visits(visits, position) && i < |visits|
    ensures forall id :: id in visits[i].ids ==> id in visits[i].rows && visits[i].rows[id].active
    decreases visits
  {
    if i > 0 {
      VisitIsPage(visits[1..], visits[0].next, i - 1);
    }
  }

  /** A row that stays active and journaled until the sweep has ended is handled, wherever it
      sorts and whenever it came. */
  lemma {:induction false} StayingRowIsHandled(visits: seq<Visit>, position: Position, id: DocId, key: Key)
    requires Visits(visits, position) && visits != [] && visits[|visits| - 1].next == End
    requires Beyond(position, key)
    requires forall i :: 0 <= i < |visits| ==>
      id in visits[i].rows && KeyOf(visits[i].rows, id) == key && visits[i].rows[id].active && visits[i].rows[id].journaled
    ensures id in Handled(visits)
    decreases visits
  {
    if !Beyond(visits[0].next, key) {
      assert id in Pick(visits[0].rows, visits[0].ids);
    } else {
      StayingRowIsHandled(visits[1..], visits[0].next, id, key);
    }
  }
}
