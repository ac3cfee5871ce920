/** The two halves of the text around a multimodal object, accumulated from the target
    outwards within a token budget. */
module ContextBuild {
  import opened KgModel
  import opened TokenBudget
  import opened TableTrim
  import opened TextAtoms
  import opened FillText
  import opened ContextWalk

  /** A longer text never counts less. */
  lemma EndCounts(tok: Tokenizer, part: string, text: string, side: Side)
    requires Monotone(tok) && IsEnd(part, text, side)
    ensures Count(tok, part) <= Count(tok, text)
  {
    if side == Tail {
      assert text == text[..|text| - |part|] + part;
    } else {
      assert text == part + text[|part|..];
    }
  }

  lemma EndBeside(part: string, text: string, existing: string, side: Side)
    requires IsEnd(part, text, side)
    ensures IsEnd(Beside(side, part, existing), Beside(side, text, existing), side)
  {
    if side == Tail {
      assert text + existing == text[..|text| - |part|] + (part + existing);
    }
  }

  lemma BesideCounts(tok: Tokenizer, near: string, existing: string, side: Side)
    requires Subadditive(tok)
    ensures Count(tok, Beside(side, near, existing)) <= Count(tok, near) + Count(tok, existing)
  {
  }

  predicate FitsBeside(tok: Tokenizer, near: string, existing: string, maxTokens: nat, side: Side) {
    Count(tok, Beside(side, near, existing)) <= maxTokens
  }

  /** What fits next to `existing`. */
  function Room(tok: Tokenizer, existing: string, maxTokens: nat, side: Side): Fits {
    (near: string) => FitsBeside(tok, near, existing, maxTokens, side)
  }

  /** The tokens `existing` leaves. */
  function Left(tok: Tokenizer, existing: string, maxTokens: nat): nat {
    if maxTokens <= Count(tok, existing) then 0 else maxTokens - Count(tok, existing)
  }

  /** What may become of an atom: a text keeps only the side near the target, a drawing or an
      equation stays whole, a table stays whole or is re-wrapped around its nearest rows. */
  ghost predicate PartOf(m: Markup, a: Atom, part: string, side: Side) {
    match a.kind
    case Text => IsEnd(part, a.text, side)
    case TableTag => part == a.text || (m.read(a.text).Some? && RowTrimmed(m, m.read(a.text).value, side, part))
    case _ => part == a.text
  }

  /** A half is made of one part for each of the nearest atoms, in order. */
  ghost predicate IsHalf(m: Markup, atoms: seq<Atom>, parts: seq<string>, side: Side) {
    && |parts| <= |atoms|
    && forall k :: 0 <= k < |parts| ==> PartOf(m, SegmentAt(atoms, k, side), SegmentAt(parts, k, side), side)
  }

  /** What an atom contributes next to what is there, and whether the walk goes on: a text fills
      the room, a tag that fits stays whole, a table that does not is cut to its nearest rows,
      and anything else ends the walk. */
  ghost predicate Contributes(m: Markup, a: Atom, existing: string, tok: Tokenizer, maxTokens: nat,
                              separators: seq<string>, side: Side, part: Option<string>, more: bool)
    requires a.text != ""
  {
    var taken, table := Count(tok, existing), m.read(a.text);
    if a.kind == Text then
      && Fills(Room(tok, existing, maxTokens, side), tok, Left(tok, existing, maxTokens), a.text, separators, side,
               part)
      && (more <==> part.Some? && Count(tok, Beside(side, part.value, existing)) < maxTokens)
    else if Count(tok, Beside(side, a.text, existing)) <= maxTokens then part == Some(a.text) && more
    else if a.kind == TableTag && taken < maxTokens && table.Some?
            && Trimmable(m, table.value, maxTokens - taken, tok, side) then
      && !more && part.Some? && Count(tok, part.value) <= maxTokens - taken
      && BestRows(m, table.value, maxTokens - taken, tok, side, part.value)
    else part.None? && !more
  }

  lemma FilledTextIsPart(tok: Tokenizer, text: string, existing: string, maxTokens: nat, separators: seq<string>,
                         side: Side, part: string)
    requires text != ""
    requires Fills(Room(tok, existing, maxTokens, side), tok, Left(tok, existing, maxTokens), text, separators, side,
                   Some(part))
    ensures IsEnd(part, text, side)
    ensures Count(tok, Beside(side, part, existing)) <= maxTokens || Count(tok, part) <= Left(tok, existing, maxTokens)
  {
    FillingIsAnEnd(Room(tok, existing, maxTokens, side), tok, Left(tok, existing, maxTokens), text, separators, side,
                   part);
  }

  lemma ContributionIsPart(m: Markup, a: Atom, existing: string, tok: Tokenizer, maxTokens: nat,
                           separators: seq<string>, side: Side, part: string, more: bool)
    requires a.text != "" && Contributes(m, a, existing, tok, maxTokens, separators, side, Some(part), more)
    ensures PartOf(m, a, part, side)
    ensures Count(tok, Beside(side, part, existing)) <= maxTokens || Count(tok, part) <= Left(tok, existing, maxTokens)
  {
    if a.kind == Text {
      FilledTextIsPart(tok, a.text, existing, maxTokens, separators, side, part);
    }
  }

  lemma PartStaysInBudget(tok: Tokenizer, part: string, existing: string, maxTokens: nat, side: Side)
    requires Subadditive(tok) && Count(tok, existing) <= maxTokens
    requires Count(tok, Beside(side, part, existing)) <= maxTokens || Count(tok, part) <= Left(tok, existing, maxTokens)
    ensures Count(tok, Beside(side, part, existing)) <= maxTokens
  {
    BesideCounts(tok, part, existing, side);
  }

  ghost predicate NoneEmpty(atoms: seq<Atom>) {
    forall i :: 0 <= i < |atoms| ==> atoms[i].text != ""
  }

  ghost function Giving(m: Markup, tok: Tokenizer, maxTokens: nat, separators: seq<string>, side: Side): Gives {
    (a: Atom, existing: string, part: Option<string>, more: bool) =>
      a.text != "" && Contributes(m, a, existing, tok, maxTokens, separators, side, part, more)
  }

  /** What a walk takes is parts of the nearest atoms. */
  lemma WalkIsHalf(m: Markup, atoms: seq<Atom>, tok: Tokenizer, maxTokens: nat, separators: seq<string>, side: Side,
                   parts: seq<string>, goesOn: bool)
    requires Walked(Giving(m, tok, maxTokens, separators, side), atoms, side, parts, goesOn)
    ensures IsHalf(m, atoms, parts, side)
  {
    var gives := Giving(m, tok, maxTokens, separators, side);
    forall k | 0 <= k < |parts|
      ensures PartOf(m, SegmentAt(atoms, k, side), SegmentAt(parts, k, side), side)
    {
      var more := k + 1 < |parts| || goesOn;
      assert gives(SegmentAt(atoms, k, side), Run(parts, k, side), Some(SegmentAt(parts, k, side)), more);
      ContributionIsPart(m, SegmentAt(atoms, k, side), Run(parts, k, side), tok, maxTokens, separators, side,
                         SegmentAt(parts, k, side), more);
    }
  }

  /** It stays within the budget for every subadditive count. */
  lemma WalkStaysInBudget(m: Markup, atoms: seq<Atom>, tok: Tokenizer, maxTokens: nat, separators: seq<string>,
                          side: Side, parts: seq<string>, goesOn: bool)
    requires Walked(Giving(m, tok, maxTokens, separators, side), atoms, side, parts, goesOn) && Subadditive(tok)
    ensures Count(tok, Concat(parts)) <= maxTokens
  {
    var gives := Giving(m, tok, maxTokens, separators, side);
    var fits := (text: string) => Count(tok, text) <= maxTokens;
    forall a, existing, part, more | a in atoms && fits(existing) && gives(a, existing, Some(part), more)
      ensures fits(Beside(side, part, existing))
    {
      ContributionIsPart(m, a, existing, tok, maxTokens, separators, side, part, more);
      PartStaysInBudget(tok, part, existing, maxTokens, side);
    }
    WalkKeeps(gives, atoms, side, parts, goesOn, fits, |parts|);
    RunOfAll(parts, side);
  }

  /** A text that fits next to what is there, and then only stops the walk at a full budget. */
  lemma FittingTextStaysWhole(tok: Tokenizer, text: string, existing: string, maxTokens: nat, separators: seq<string>,
                              side: Side, part: Option<string>)
    requires Monotone(tok) && text != "" && Count(tok, Beside(side, text, existing)) <= maxTokens
    requires Fills(Room(tok, existing, maxTokens, side), tok, Left(tok, existing, maxTokens), text, separators, side,
                   part)
    ensures part == Some(text)
  {
    forall end | IsEnd(end, text, side)
      ensures Room(tok, existing, maxTokens, side)(end)
    {
      EndBeside(end, text, existing, side);
      EndCounts(tok, Beside(side, end, existing), Beside(side, text, existing), side);
    }
    FittingTextFillsWhole(Room(tok, existing, maxTokens, side), tok, Left(tok, existing, maxTokens), text, separators,
                          side, part);
  }

  lemma FittingAtomStaysWhole(m: Markup, a: Atom, existing: string, tok: Tokenizer, maxTokens: nat,
                              separators: seq<string>, side: Side, all: string, full: string -> bool)
    requires Monotone(tok) && a.text != "" && all == Beside(side, a.text, existing) && Count(tok, all) <= maxTokens
    requires Count(tok, all) >= maxTokens ==> full(all)
    ensures GivesAll(Giving(m, tok, maxTokens, separators, side), a, a.text, existing, all, full)
  {
    var gives := Giving(m, tok, maxTokens, separators, side);
    forall part, more | gives(a, existing, part, more)
      ensures part == Some(a.text) && (more || full(all))
    {
      if a.kind == Text {
        FittingTextStaysWhole(tok, a.text, existing, maxTokens, separators, side, part);
      }
    }
  }

  /** While the whole source fits, every atom stays whole. */
  lemma FittingAtomsStayWhole(m: Markup, atoms: seq<Atom>, tok: Tokenizer, maxTokens: nat, separators: seq<string>,
                              side: Side, full: string -> bool)
    requires NoneEmpty(atoms) && Monotone(tok) && Count(tok, Joined(atoms)) <= maxTokens
    requires forall text :: Count(tok, text) >= maxTokens ==> full(text)
    ensures GiveAll(Giving(m, tok, maxTokens, separators, side), atoms, Texts(atoms), side, full)
  {
    var gives, texts := Giving(m, tok, maxTokens, separators, side), Texts(atoms);
    forall k | 0 <= k < |atoms|
      ensures GivesAll(gives, SegmentAt(atoms, k, side), SegmentAt(texts, k, side), Run(texts, k, side),
                       Run(texts, k + 1, side), full)
    {
      RunIsEnd(Concat(texts), texts, k + 1, side);
      EndCounts(tok, Run(texts, k + 1, side), Concat(texts), side);
      FittingAtomStaysWhole(m, SegmentAt(atoms, k, side), Run(texts, k, side), tok, maxTokens, separators, side,
                            Run(texts, k + 1, side), full);
    }
  }

  /** A source that fits whole comes out whole, or full to the last token. */
  lemma FittingSourceStaysWhole(m: Markup, atoms: seq<Atom>, tok: Tokenizer, maxTokens: nat, separators: seq<string>,
                                side: Side, parts: seq<string>)
    requires NoneEmpty(atoms) && Monotone(tok) && Count(tok, Joined(atoms)) <= maxTokens
    requires WalkEnded(Giving(m, tok, maxTokens, separators, side), atoms, side, parts)
    ensures IsEnd(Concat(parts), Joined(atoms), side)
    ensures Concat(parts) == Joined(atoms) || Count(tok, Concat(parts)) == maxTokens
  {
    var full := (text: string) => Count(tok, text) >= maxTokens;
    FittingAtomsStayWhole(m, atoms, tok, maxTokens, separators, side, full);
    WholeWalk(Giving(m, tok, maxTokens, separators, side), atoms, Texts(atoms), side, parts, full);
    EndCounts(tok, Concat(parts), Joined(atoms), side);
  }

  /** The finished walk is a half, within the budget for every subadditive count. */
  lemma EndedWalkIsHalf(m: Markup, atoms: seq<Atom>, tok: Tokenizer, maxTokens: nat, separators: seq<string>,
                        side: Side, parts: seq<string>)
    requires WalkEnded(Giving(m, tok, maxTokens, separators, side), atoms, side, parts)
    ensures IsHalf(m, atoms, parts, side)
    ensures Subadditive(tok) ==> Count(tok, Concat(parts)) <= maxTokens
  {
    var goesOn := !Walked(Giving(m, tok, maxTokens, separators, side), atoms, side, parts, false);
    WalkIsHalf(m, atoms, tok, maxTokens, separators, side, parts, goesOn);
    if Subadditive(tok) {
      WalkStaysInBudget(m, atoms, tok, maxTokens, separators, side, parts, goesOn);
    }
  }

  /** What one atom adds on the leading side, and whether the walk goes on. */
  method AddLeading(m: Markup, a: Atom, accumulated: string, tok: Tokenizer, maxTokens: nat, separators: seq<string>)
    returns (part: Option<string>, more: bool)
    requires a.text != ""
    ensures Contributes(m, a, accumulated, tok, maxTokens, separators, Tail, part, more)
    ensures more ==> part.Some?
  {
    if a.kind == Text {
      part := AccumulateText(Room(tok, accumulated, maxTokens, Tail), tok, Left(tok, accumulated, maxTokens), a.text,
                             separators, Tail);
      more := part.Some? && Count(tok, Beside(Tail, part.value, accumulated)) < maxTokens;
      return;
    }
    if Count(tok, Beside(Tail, a.text, accumulated)) <= maxTokens {
      return Some(a.text), true;
    }
    part, more := None, false;
    var taken, table := Count(tok, accumulated), m.read(a.text);
    if a.kind == TableTag && taken < maxTokens && table.Some? {
      part := RowTrimTable(m, table.value, maxTokens - taken, tok, Tail);
    }
  }

  method AddTrailing(m: Markup, a: Atom, accumulated: string, tok: Tokenizer, maxTokens: nat, separators: seq<string>)
    returns (part: Option<string>, more: bool)
    requires a.text != ""
    ensures Contributes(m, a, accumulated, tok, maxTokens, separators, Head, part, more)
    ensures more ==> part.Some?
  {
    if a.kind == Text {
      part := AccumulateText(Room(tok, accumulated, maxTokens, Head), tok, Left(tok, accumulated, maxTokens), a.text,
                             separators, Head);
      more := part.Some? && Count(tok, Beside(Head, part.value, accumulated)) < maxTokens;
      return;
    }
    if Count(tok, Beside(Head, a.text, accumulated)) <= maxTokens {
      return Some(a.text), true;
    }
    part, more := None, false;
    var taken, table := Count(tok, accumulated), m.read(a.text);
    if a.kind == TableTag && taken < maxTokens && table.Some? {
      part := RowTrimTable(m, table.value, maxTokens - taken, tok, Head);
    }
  }

  /** The source as it is accumulated: sibling tables dropped when the target is a table, then
      internal markup stripped, unless nothing is left before. */
  datatype Cleaning = Cleaning(dropTables: string -> string, strip: string -> string, scan: string -> seq<Span>)

  function Cleaned(c: Cleaning, source: string, targetIsTable: bool): (r: string)
    ensures source == "" ==> r == ""
  {
    var dropped := if source != "" && targetIsTable then c.dropTables(source) else source;
    if dropped == "" then "" else c.strip(dropped)
  }

  ghost predicate ScansWell(c: Cleaning) {
    forall text: string :: ValidSpans(text, c.scan(text))
  }

  method CleanSource(c: Cleaning, source: string, targetIsTable: bool) returns (cleaned: string)
    ensures cleaned == Cleaned(c, source, targetIsTable)
    ensures source != "" && !targetIsTable ==> cleaned == c.strip(source)
    ensures source != "" && targetIsTable && c.dropTables(source) != "" ==> cleaned == c.strip(c.dropTables(source))
    ensures source == "" || (targetIsTable && c.dropTables(source) == "") ==> cleaned == ""
  {
    cleaned := source;
    if cleaned == "" { return; }
    if targetIsTable {
      cleaned := c.dropTables(source);
      if cleaned == "" { return; }
    }
    cleaned := c.strip(cleaned);
  }

  ghost function AtomsOf(c: Cleaning, source: string, targetIsTable: bool): seq<Atom>
    requires ScansWell(c)
  {
    var cleaned := Cleaned(c, source, targetIsTable);
    AllAtoms(cleaned, c.scan(cleaned))
  }

  lemma AtomsAreWhole(c: Cleaning, source: string, targetIsTable: bool)
    requires ScansWell(c)
    ensures NoneEmpty(AtomsOf(c, source, targetIsTable))
    ensures Joined(AtomsOf(c, source, targetIsTable)) == Cleaned(c, source, targetIsTable)
  {
    var cleaned := Cleaned(c, source, targetIsTable);
    AtomsConcatenateToText(cleaned, c.scan(cleaned));
    var atoms := AtomsOf(c, source, targetIsTable);
    assert forall i :: 0 <= i < |atoms| ==> atoms[i] in atoms;
  }

  /** The walk over the atoms, from the target outwards. */
  method WalkLeading(m: Markup, atoms: seq<Atom>, tok: Tokenizer, maxTokens: nat, separators: seq<string>)
    returns (accumulated: string, ghost parts: seq<string>)
    requires NoneEmpty(atoms)
    ensures accumulated == Run(parts, |parts|, Tail)
    ensures WalkEnded(Giving(m, tok, maxTokens, separators, Tail), atoms, Tail, parts)
  {
    accumulated, parts := "", [];
    ghost var gives := Giving(m, tok, maxTokens, separators, Tail);
    for k := 0 to |atoms|
      invariant |parts| == k
      invariant Walked(gives, atoms, Tail, parts, true) && accumulated == Run(parts, k, Tail)
    {
      var part, more := AddLeading(m, SegmentAt(atoms, k, Tail), accumulated, tok, maxTokens, separators);
      assert gives(SegmentAt(atoms, k, Tail), accumulated, part, more);
      if part.None? { return; }
      OneStepOn(gives, atoms, Tail, parts, part.value, more);
      RunWithPart(Tail, part.value, parts);
      accumulated, parts := Beside(Tail, part.value, accumulated), WithPart(Tail, part.value, parts);
      if !more { return; }
    }
  }

  method WalkTrailing(m: Markup, atoms: seq<Atom>, tok: Tokenizer, maxTokens: nat, separators: seq<string>)
    returns (accumulated: string, ghost parts: seq<string>)
    requires NoneEmpty(atoms)
    ensures accumulated == Run(parts, |parts|, Head)
    ensures WalkEnded(Giving(m, tok, maxTokens, separators, Head), atoms, Head, parts)
  {
    accumulated, parts := "", [];
    ghost var gives := Giving(m, tok, maxTokens, separators, Head);
    for k := 0 to |atoms|
      invariant |parts| == k
      invariant Walked(gives, atoms, Head, parts, true) && accumulated == Run(parts, k, Head)
    {
      var part, more := AddTrailing(m, SegmentAt(atoms, k, Head), accumulated, tok, maxTokens, separators);
      assert gives(SegmentAt(atoms, k, Head), accumulated, part, more);
      if part.None? { return; }
      OneStepOn(gives, atoms, Head, parts, part.value, more);
      RunWithPart(Head, part.value, parts);
      accumulated, parts := Beside(Head, part.value, accumulated), WithPart(Head, part.value, parts);
      if !more { return; }
    }
  }

  /** The leading half: what the atoms that end the cleaned source contribute, as far as the walk
      gets; within the budget for every subadditive count, and for monotone ones a source that
      fits comes out whole or fills the budget. */
  method BuildLeading(m: Markup, c: Cleaning, source: string, targetIsTable: bool, tok: Tokenizer, maxTokens: int,
                      separators: seq<string>)
    returns (accumulated: string, ghost parts: seq<string>)
    requires ScansWell(c)
    ensures accumulated == Concat(parts)
    ensures maxTokens <= 0 ==> parts == []
    ensures maxTokens > 0 ==>
      var atoms := AtomsOf(c, source, targetIsTable);
      IsHalf(m, atoms, parts, Tail) && WalkEnded(Giving(m, tok, maxTokens, separators, Tail), atoms, Tail, parts)
    ensures Subadditive(tok) && maxTokens > 0 ==> Count(tok, accumulated) <= maxTokens
    ensures var cleaned := Cleaned(c, source, targetIsTable);
      Monotone(tok) && 0 < maxTokens && Count(tok, cleaned) <= maxTokens ==>
        IsEnd(accumulated, cleaned, Tail) && (accumulated == cleaned || Count(tok, accumulated) == maxTokens)
  {
    accumulated, parts := "", [];
    if maxTokens <= 0 { return; }
    AtomsAreWhole(c, source, targetIsTable);
    var cleaned := CleanSource(c, source, targetIsTable);
    if cleaned == "" { return; }
    var atoms := Atomize(cleaned, c.scan(cleaned));
    accumulated, parts := WalkLeading(m, atoms, tok, maxTokens, separators);
    RunOfAll(parts, Tail);
    EndedWalkIsHalf(m, atoms, tok, maxTokens, separators, Tail, parts);
    if Monotone(tok) && Count(tok, cleaned) <= maxTokens {
      FittingSourceStaysWhole(m, atoms, tok, maxTokens, separators, Tail, parts);
    }
  }

  method BuildTrailing(m: Markup, c: Cleaning, source: string, targetIsTable: bool, tok: Tokenizer, maxTokens: int,
                      separators: seq<string>)
    returns (accumulated: string, ghost parts: seq<string>)
    requires ScansWell(c)
    ensures accumulated == Concat(parts)
    ensures maxTokens <= 0 ==> parts == []
    ensures maxTokens > 0 ==>
      var atoms := AtomsOf(c, source, targetIsTable);
      IsHalf(m, atoms, parts, Head) && WalkEnded(Giving(m, tok, maxTokens, separators, Head), atoms, Head, parts)
    ensures Subadditive(tok) && maxTokens > 0 ==> Count(tok, accumulated) <= maxTokens
    ensures var cleaned := Cleaned(c, source, targetIsTable);
      Monotone(tok) && 0 < maxTokens && Count(tok, cleaned) <= maxTokens ==>
        IsEnd(accumulated, cleaned, Head) && (accumulated == cleaned || Count(tok, accumulated) == maxTokens)
  {
    accumulated, parts := "", [];
    if maxTokens <= 0 { return; }
    AtomsAreWhole(c, source, targetIsTable);
    var cleaned := CleanSource(c, source, targetIsTable);
    if cleaned == "" { return; }
    var atoms := Atomize(cleaned, c.scan(cleaned));
    accumulated, parts := WalkTrailing(m, atoms, tok, maxTokens, separators);
    RunOfAll(parts, Head);
    EndedWalkIsHalf(m, atoms, tok, maxTokens, separators, Head, parts);
    if Monotone(tok) && Count(tok, cleaned) <= maxTokens {
      FittingSourceStaysWhole(m, atoms, tok, maxTokens, separators, Head, parts);
    }
  }
}
