/** The walk over the atoms of a text, from the target outwards, whatever an atom may give. */
module ContextWalk {
  import opened KgModel
  import opened TokenBudget
  import opened TextAtoms
  import opened FillText

  /** What an atom may give next to the text that is there: a part of it or nothing, and whether
      the walk goes on. */
  type Gives = (Atom, string, Option<string>, bool) -> bool

  /** The parts are what the nearest atoms give one after the other, each next to what the nearer
      ones gave; `goesOn` says whether the walk gets past the last of them. */
  ghost predicate Walked(gives: Gives, atoms: seq<Atom>, side: Side, parts: seq<string>, goesOn: bool) {
    && |parts| <= |atoms|
    && (parts == [] ==> goesOn)
    && forall k {:trigger SegmentAt(atoms, k, side)} :: 0 <= k < |parts| ==>
         gives(SegmentAt(atoms, k, side), Run(parts, k, side), Some(SegmentAt(parts, k, side)),
               k + 1 < |parts| || goesOn)
  }

  /** The walk took every atom, or was told to stop, or came to an atom with nothing to give. */
  ghost predicate WalkEnded(gives: Gives, atoms: seq<Atom>, side: Side, parts: seq<string>) {
    || Walked(gives, atoms, side, parts, false)
    || (Walked(gives, atoms, side, parts, true)
        && (|parts| < |atoms| ==> gives(SegmentAt(atoms, |parts|, side), Run(parts, |parts|, side), None, false)))
  }

  // ----- one step of the walk -----

  /** The parts with one more, on the far side. */
  function WithPart(side: Side, part: string, parts: seq<string>): (r: seq<string>)
    ensures |r| == |parts| + 1 && SegmentAt(r, |parts|, side) == part
    ensures forall k :: 0 <= k < |parts| ==> SegmentAt(r, k, side) == SegmentAt(parts, k, side)
  {
    if side == Tail then [part] + parts else parts + [part]
  }

  lemma {:induction false} SameNearSameRun(few: seq<string>, more: seq<string>, k: nat, side: Side)
    requires k <= |few| <= |more|
    requires forall j :: 0 <= j < k ==> SegmentAt(few, j, side) == SegmentAt(more, j, side)
    ensures Run(few, k, side) == Run(more, k, side)
  {
    if k > 0 {
      SameNearSameRun(few, more, k - 1, side);
    }
  }

  lemma RunWithPart(side: Side, part: string, parts: seq<string>)
    ensures Run(WithPart(side, part, parts), |parts| + 1, side) == Beside(side, part, Run(parts, |parts|, side))
  {
    SameNearSameRun(parts, WithPart(side, part, parts), |parts|, side);
  }

  lemma OneStepOn(gives: Gives, atoms: seq<Atom>, side: Side, parts: seq<string>, part: string, more: bool)
    requires Walked(gives, atoms, side, parts, true) && |parts| < |atoms|
    requires gives(SegmentAt(atoms, |parts|, side), Run(parts, |parts|, side), Some(part), more)
    ensures Walked(gives, atoms, side, WithPart(side, part, parts), more)
  {
    var all := WithPart(side, part, parts);
    forall k | 0 <= k < |all|
      ensures gives(SegmentAt(atoms, k, side), Run(all, k, side), Some(SegmentAt(all, k, side)), k + 1 < |all| || more)
    {
      SameNearSameRun(parts, all, k, side);
    }
  }

  // ----- what holds of every walk -----

  /** What every step keeps holds of the text a walk has gathered. */
  lemma {:induction false} WalkKeeps(gives: Gives, atoms: seq<Atom>, side: Side, parts: seq<string>, goesOn: bool,
                                     holds: string -> bool, k: nat)
    requires Walked(gives, atoms, side, parts, goesOn) && k <= |parts| && holds("")
    requires forall a, existing, part, more ::
      a in atoms && holds(existing) && gives(a, existing, Some(part), more) ==> holds(Beside(side, part, existing))
    ensures holds(Run(parts, k, side))
  {
    if k > 0 {
      WalkKeeps(gives, atoms, side, parts, goesOn, holds, k - 1);
      assert SegmentAt(atoms, k - 1, side) in atoms;
    }
  }

  /** An atom gives its whole text or, when that makes the text full, may be the last one to. */
  ghost predicate GivesAll(gives: Gives, a: Atom, text: string, near: string, all: string, full: string -> bool) {
    forall part, more :: gives(a, near, part, more) ==> part == Some(text) && (more || full(all))
  }

  ghost predicate GiveAll(gives: Gives, atoms: seq<Atom>, texts: seq<string>, side: Side, full: string -> bool) {
    && |texts| == |atoms|
    && forall k {:trigger SegmentAt(atoms, k, side)} :: 0 <= k < |atoms| ==>
         GivesAll(gives, SegmentAt(atoms, k, side), SegmentAt(texts, k, side), Run(texts, k, side),
                  Run(texts, k + 1, side), full)
  }

  lemma WholePart(gives: Gives, atoms: seq<Atom>, texts: seq<string>, side: Side, full: string -> bool, k: nat,
                  near: string, part: Option<string>, more: bool)
    requires GiveAll(gives, atoms, texts, side, full) && k < |atoms| && near == Run(texts, k, side)
    requires gives(SegmentAt(atoms, k, side), near, part, more)
    ensures part == Some(SegmentAt(texts, k, side)) && (more || full(Run(texts, k + 1, side)))
  {
    assert GivesAll(gives, SegmentAt(atoms, k, side), SegmentAt(texts, k, side), near, Run(texts, k + 1, side), full);
  }

  /** When every atom gives its whole text next to those of all the nearer ones, the walk gathers
      whole texts. */
  lemma {:induction false} WholeTextsStayWhole(gives: Gives, atoms: seq<Atom>, texts: seq<string>, side: Side,
                                               parts: seq<string>, goesOn: bool, full: string -> bool, k: nat)
    requires Walked(gives, atoms, side, parts, goesOn) && GiveAll(gives, atoms, texts, side, full) && k <= |parts|
    ensures forall j :: 0 <= j < k ==> SegmentAt(parts, j, side) == SegmentAt(texts, j, side)
  {
    if k > 0 {
      WholeTextsStayWhole(gives, atoms, texts, side, parts, goesOn, full, k - 1);
      SameNearSameRun(parts, texts, k - 1, side);
      WholePart(gives, atoms, texts, side, full, k - 1, Run(parts, k - 1, side), Some(SegmentAt(parts, k - 1, side)),
                k < |parts| || goesOn);
    }
  }

  /** Where it stops the text is full. */
  lemma StopsWhenFull(gives: Gives, atoms: seq<Atom>, texts: seq<string>, side: Side, parts: seq<string>,
                      full: string -> bool)
    requires Walked(gives, atoms, side, parts, false) && GiveAll(gives, atoms, texts, side, full)
    ensures full(Run(texts, |parts|, side))
  {
    var last := |parts| - 1;
    WholeTextsStayWhole(gives, atoms, texts, side, parts, false, full, last);
    SameNearSameRun(parts, texts, last, side);
    WholePart(gives, atoms, texts, side, full, last, Run(parts, last, side), Some(SegmentAt(parts, last, side)), false);
  }

  lemma NeverStopsShort(gives: Gives, atoms: seq<Atom>, texts: seq<string>, side: Side, parts: seq<string>,
                        full: string -> bool)
    requires WalkEnded(gives, atoms, side, parts) && GiveAll(gives, atoms, texts, side, full)
    requires Run(parts, |parts|, side) == Run(texts, |parts|, side)
    ensures Walked(gives, atoms, side, parts, false) || |parts| == |texts|
  {
    if |parts| < |atoms| && gives(SegmentAt(atoms, |parts|, side), Run(parts, |parts|, side), None, false) {
      WholePart(gives, atoms, texts, side, full, |parts|, Run(parts, |parts|, side), None, false);
    }
  }

  /** Then the finished walk has all the texts, or stopped where they are full. */
  lemma WholeWalk(gives: Gives, atoms: seq<Atom>, texts: seq<string>, side: Side, parts: seq<string>,
                  full: string -> bool)
    requires WalkEnded(gives, atoms, side, parts) && GiveAll(gives, atoms, texts, side, full)
    ensures IsEnd(Concat(parts), Concat(texts), side)
    ensures Concat(parts) == Concat(texts) || full(Concat(parts))
  {
    var stopped := Walked(gives, atoms, side, parts, false);
    WholeTextsStayWhole(gives, atoms, texts, side, parts, !stopped, full, |parts|);
    SameNearSameRun(parts, texts, |parts|, side);
    NeverStopsShort(gives, atoms, texts, side, parts, full);
    if stopped {
      StopsWhenFull(gives, atoms, texts, side, parts, full);
    }
    RunIsEnd(Concat(texts), texts, |parts|, side);
    RunOfAll(parts, side);
    RunOfAll(texts, side);
  }
}
