/** As much of one text as fits next to what is there: whole segments first, then weaker
    separators, then characters. */
module FillText {
  import opened KgModel
  import opened TokenBudget
  import opened TextAtoms

  /** `near` on the side of `existing` that lies away from the target. */
  function Beside(side: Side, near: string, existing: string): string {
    if side == Tail then near + existing else existing + near
  }

  lemma BesideKeepsEnd(side: Side, near: string, existing: string)
    ensures IsEnd(existing, Beside(side, near, existing), side)
  {
    if side == Tail {
      assert (near + existing)[|near|..] == existing;
    }
  }

  lemma EndOfEnd(part: string, whole: string, text: string, side: Side)
    requires IsEnd(part, whole, side) && IsEnd(whole, text, side)
    ensures IsEnd(part, text, side)
  {
    if side == Tail {
      assert text[|text| - |part|..] == whole[|whole| - |part|..];
    }
  }

  // ----- runs of segments -----

  /** Number `k` from the target outwards. */
  function SegmentAt<T>(segments: seq<T>, k: nat, side: Side): T
    requires k < |segments|
  {
    if side == Tail then segments[|segments| - 1 - k] else segments[k]
  }

  /** The `k` segments nearest to the target. */
  function Run(segments: seq<string>, k: nat, side: Side): string
    requires k <= |segments|
  {
    if k == 0 then "" else Beside(side, SegmentAt(segments, k - 1, side), Run(segments, k - 1, side))
  }

  lemma {:induction false} RunIsConcat(segments: seq<string>, k: nat, side: Side)
    requires k <= |segments|
    ensures Run(segments, k, side) == Concat(if side == Tail then segments[|segments| - k..] else segments[..k])
  {
    if k > 0 {
      RunIsConcat(segments, k - 1, side);
      var n := |segments|;
      if side == Tail {
        assert segments[n - k..] == [segments[n - k]] + segments[n - k + 1..];
        ConcatCons(segments[n - k], segments[n - k + 1..]);
      } else {
        assert segments[..k] == segments[..k - 1] + [segments[k - 1]];
        ConcatSnoc(segments[..k - 1], segments[k - 1]);
      }
    }
  }

  lemma RunOfAll(segments: seq<string>, side: Side)
    ensures Run(segments, |segments|, side) == Concat(segments)
  {
    RunIsConcat(segments, |segments|, side);
    assert segments[0..] == segments == segments[..|segments|];
  }

  lemma RunOfOne(segments: seq<string>, side: Side)
    requires segments != []
    ensures Run(segments, 1, side) == SegmentAt(segments, 0, side)
  {
    var nearest := SegmentAt(segments, 0, side);
    assert Run(segments, 1, side) == Beside(side, nearest, Run(segments, 0, side));
    assert nearest + "" == "" + nearest == nearest;
  }

  lemma {:induction false} RunGrows(segments: seq<string>, few: nat, more: nat, side: Side)
    requires few <= more <= |segments|
    ensures IsEnd(Run(segments, few, side), Run(segments, more, side), side)
  {
    if few < more {
      RunGrows(segments, few, more - 1, side);
      BesideKeepsEnd(side, SegmentAt(segments, more - 1, side), Run(segments, more - 1, side));
      EndOfEnd(Run(segments, few, side), Run(segments, more - 1, side), Run(segments, more, side), side);
    } else {
      EndOfItself(Run(segments, few, side), side);
    }
  }

  lemma EndOfItself(text: string, side: Side)
    ensures IsEnd(text, text, side)
  {
    assert text[0..] == text;
  }

  lemma RunIsEnd(text: string, segments: seq<string>, k: nat, side: Side)
    requires Concat(segments) == text && k <= |segments|
    ensures IsEnd(Run(segments, k, side), text, side)
  {
    RunOfAll(segments, side);
    RunGrows(segments, k, |segments|, side);
  }

  lemma RunIsNotEmpty(segments: seq<string>, k: nat, side: Side)
    requires 1 <= k <= |segments| && forall p :: p in segments ==> p != ""
    ensures Run(segments, k, side) != ""
  {
    assert SegmentAt(segments, k - 1, side) in segments;
  }

  /** Whether a text still fits next to what is there. */
  type Fits = string -> bool

  /** How many of the nearest segments fit, one after the other, when `k` of them do. */
  function FitRun(fits: Fits, segments: seq<string>, k: nat, side: Side): (r: nat)
    requires k <= |segments|
    ensures k <= r <= |segments|
    decreases |segments| - k
  {
    if k < |segments| && fits(Run(segments, k + 1, side)) then FitRun(fits, segments, k + 1, side) else k
  }

  /** Every run up to that one fits, and with one segment more it does not. */
  lemma {:induction false} FitRunIsMaximal(fits: Fits, segments: seq<string>, k: nat, side: Side)
    requires k <= |segments|
    ensures var r := FitRun(fits, segments, k, side);
      && (forall j :: k < j <= r ==> fits(Run(segments, j, side)))
      && (r < |segments| ==> !fits(Run(segments, r + 1, side)))
    decreases |segments| - k
  {
    if k < |segments| && fits(Run(segments, k + 1, side)) {
      FitRunIsMaximal(fits, segments, k + 1, side);
    }
  }

  lemma {:induction false} AllRunsFit(fits: Fits, segments: seq<string>, k: nat, side: Side)
    requires k <= |segments| && forall j :: k < j <= |segments| ==> fits(Run(segments, j, side))
    ensures FitRun(fits, segments, k, side) == |segments|
    decreases |segments| - k
  {
    if k < |segments| {
      AllRunsFit(fits, segments, k + 1, side);
    }
  }

  /** Take segments from the target outwards until one does not fit any more. */
  method TakeRun(fits: Fits, segments: seq<string>, side: Side) returns (buf: string, k: nat)
    ensures k == FitRun(fits, segments, 0, side) && buf == Run(segments, k, side)
  {
    buf := "";
    for i := 0 to |segments|
      invariant buf == Run(segments, i, side) && FitRun(fits, segments, 0, side) == FitRun(fits, segments, i, side)
    {
      var candidate := Beside(side, SegmentAt(segments, i, side), buf);
      if !fits(candidate) { return buf, i; }
      buf := candidate;
    }
    k := |segments|;
  }

  /** The best cut of a segment by characters, in the tokens that are left. */
  ghost predicate CutFills(tok: Tokenizer, segment: string, left: nat, side: Side, cut: string, r: Option<string>) {
    BestCut(tok, segment, left, side, cut) && r == if cut == "" then None else Some(cut)
  }

  function Nearest(segments: seq<string>, side: Side): string {
    if segments == [] then "" else SegmentAt(segments, 0, side)
  }

  /** As much of `text` as fits: the nearest segments, one after the other, up to the first that
      does not fit any more; if that is the very nearest, as much of it as fits by weaker
      separators, and in the end by characters, of which there is no question with no tokens
      left. */
  ghost predicate Fills(fits: Fits, tok: Tokenizer, left: nat, text: string, separators: seq<string>, side: Side,
                        r: Option<string>)
    decreases |separators|, 1
  {
    var segments := SegmentsOf(text, separators);
    var k := FitRun(fits, segments, 0, side);
    if k > 0 then r == Some(Run(segments, k, side))
    else FillsSegment(fits, tok, left, Nearest(segments, side), Weaker(text, separators), side, r)
  }

  ghost predicate FillsSegment(fits: Fits, tok: Tokenizer, left: nat, segment: string, weaker: seq<string>, side: Side,
                               r: Option<string>)
    decreases |weaker|, if weaker == [] then 0 else 2
  {
    if weaker != [] then Fills(fits, tok, left, segment, weaker, side, r)
    else if left == 0 then r.None?
    else exists cut :: CutFills(tok, segment, left, side, cut, r)
  }

  /** What fills the room is some of the text on its near side, and either fits or is within the
      tokens that are left. */
  lemma {:induction false} FillingIsAnEnd(fits: Fits, tok: Tokenizer, left: nat, text: string, separators: seq<string>,
                                          side: Side, r: string)
    requires text != "" && Fills(fits, tok, left, text, separators, side, Some(r))
    ensures r != "" && IsEnd(r, text, side) && (fits(r) || Count(tok, r) <= left)
    decreases |separators|, 1
  {
    var segments := SegmentsOf(text, separators);
    SegmentsAreLossless(text, separators);
    var k := FitRun(fits, segments, 0, side);
    if k > 0 {
      FitRunIsMaximal(fits, segments, 0, side);
      RunIsEnd(text, segments, k, side);
      RunIsNotEmpty(segments, k, side);
    } else {
      FilledSegmentIsAnEnd(fits, tok, left, text, separators, side, r);
    }
  }

  lemma {:induction false} FilledSegmentIsAnEnd(fits: Fits, tok: Tokenizer, left: nat, text: string,
                                                separators: seq<string>, side: Side, r: string)
    requires text != ""
    requires FillsSegment(fits, tok, left, Nearest(SegmentsOf(text, separators), side), Weaker(text, separators), side,
                          Some(r))
    ensures r != "" && IsEnd(r, text, side) && (fits(r) || Count(tok, r) <= left)
    decreases |separators|, 0
  {
    var segments, weaker := SegmentsOf(text, separators), Weaker(text, separators);
    SegmentsAreLossless(text, separators);
    var nearest := Nearest(segments, side);
    assert nearest in segments;
    RunIsEnd(text, segments, 1, side);
    RunOfOne(segments, side);
    if weaker != [] {
      FillingIsAnEnd(fits, tok, left, nearest, weaker, side, r);
    }
    EndOfEnd(r, nearest, text, side);
  }

  /** A text of which every end fits fills the room whole. */
  lemma FittingTextFillsWhole(fits: Fits, tok: Tokenizer, left: nat, text: string, separators: seq<string>, side: Side,
                              r: Option<string>)
    requires text != "" && Fills(fits, tok, left, text, separators, side, r)
    requires forall part :: IsEnd(part, text, side) ==> fits(part)
    ensures r == Some(text)
  {
    var segments := SegmentsOf(text, separators);
    SegmentsAreLossless(text, separators);
    forall k | 0 < k <= |segments|
      ensures fits(Run(segments, k, side))
    {
      RunIsEnd(text, segments, k, side);
    }
    AllRunsFit(fits, segments, 0, side);
    RunOfAll(segments, side);
  }

  /** Whole segments from the target outwards, a weaker separator when the nearest one alone is
      too long, characters at the last. */
  method AccumulateText(fits: Fits, tok: Tokenizer, left: nat, text: string, separators: seq<string>, side: Side)
    returns (r: Option<string>)
    ensures if text == "" then r.None? else Fills(fits, tok, left, text, separators, side, r)
    decreases |separators|, 1
  {
    if text == "" { return None; }
    var segments, used := SplitTextSegment(text, separators);
    SegmentsAreLossless(text, separators);
    var buf, k := TakeRun(fits, segments, side);
    if k > 0 { return Some(buf); }
    var nearest := SegmentAt(segments, 0, side);
    assert nearest in segments;
    r := AccumulateSegment(fits, tok, left, nearest, if used < |separators| then separators[used + 1..] else [], side);
  }

  /** The nearest segment alone is too long. */
  method AccumulateSegment(fits: Fits, tok: Tokenizer, left: nat, segment: string, weaker: seq<string>, side: Side)
    returns (r: Option<string>)
    requires segment != ""
    ensures FillsSegment(fits, tok, left, segment, weaker, side, r)
    decreases |weaker|, if weaker == [] then 0 else 2
  {
    if weaker != [] {
      r := AccumulateText(fits, tok, left, segment, weaker, side);
      return;
    }
    if left == 0 { return None; }
    var trimmed;
    if side == Tail {
      trimmed := CharTrimLeading(segment, left, tok);
    } else {
      trimmed := CharTrimTrailing(segment, left, tok);
    }
    r := if trimmed != "" then Some(trimmed) else None;
    assert CutFills(tok, segment, left, side, trimmed, r);
  }
}
