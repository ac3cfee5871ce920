/** Row-aware trimming of a table tag, and the whole-content trim built on it. What the regex,
    JSON and HTML helpers do is a parameter; the budget never depends on it. */
module TableTrim {
  import opened KgModel
  import opened TokenBudget

  datatype Format = Json | Html

  /** A recognized table tag: its attributes, its body, and its rows as the format splits
      them. A tag that cannot be split into rows has none of the two formats. */
  datatype Table = Table(attrs: string, body: string, format: Option<Format>, rows: seq<string>)

  /** The markup helpers: recognize a tag, serialize rows, make a cell of a snippet, and the
      text of a row for the character fallback. */
  datatype Markup = Markup(
    read: string -> Option<Table>,
    serialize: (Format, seq<string>) -> string,
    cell: (Format, string) -> string,
    rowText: (Format, string) -> string)

  function Wrapped(attrs: string, inner: string): string {
    "<table " + attrs + ">" + inner + "</table>"
  }

  lemma WrappedIsATag(attrs: string, inner: string)
    ensures IsPrefix("<table " + attrs + ">", Wrapped(attrs, inner))
    ensures IsSuffix(inner + "</table>", Wrapped(attrs, inner))
  {
    assert Wrapped(attrs, inner)[|"<table " + attrs + ">"|..] == inner + "</table>";
  }

  /** The rows closest to the target: the last `k` before it, the first `k` after it. */
  function Closest(rows: seq<string>, k: nat, side: Side): (r: seq<string>)
    requires k <= |rows|
    ensures |r| == k
  {
    if side == Tail then rows[|rows| - k..] else rows[..k]
  }

  /** The rows next to the target, without a gap: the end of the table before it, or the start of
      the table after it. */
  lemma ClosestIsAnEnd(rows: seq<string>, k: nat, side: Side)
    requires k <= |rows|
    ensures if side == Tail then rows == rows[..|rows| - k] + Closest(rows, k, side) else Closest(rows, k, side) <= rows
  {
  }

  function RowCandidate(m: Markup, table: Table, format: Format, k: nat, side: Side): string
    requires k <= |table.rows|
  {
    Wrapped(table.attrs, m.serialize(format, Closest(table.rows, k, side)))
  }

  function CellCandidate(m: Markup, table: Table, format: Format, source: string, chars: nat, side: Side): string
    requires chars <= |source|
  {
    if chars == 0 then Wrapped(table.attrs, "")
    else Wrapped(table.attrs, m.cell(format, Kept(source, chars, side)))
  }

  /** What the fallback cuts: the closest row, or the whole body of a table without rows. */
  function FallbackSource(m: Markup, table: Table, format: Format, side: Side): string {
    if table.rows == [] then table.body
    else m.rowText(format, if side == Tail then table.rows[|table.rows| - 1] else table.rows[0])
  }

  lemma FallbackCutsTheClosest(m: Markup, table: Table, format: Format, side: Side)
    requires table.rows != []
    ensures FallbackSource(m, table, format, side) == m.rowText(format, Closest(table.rows, 1, side)[0])
  {
  }

  /** A valid tag again: some of the closest rows, or one cell with the near part of one row. */
  ghost predicate RowTrimmed(m: Markup, table: Table, side: Side, r: string) {
    table.format.Some?
    && (var format := table.format.value;
        || (exists k :: 0 < k < |table.rows| && r == RowCandidate(m, table, format, k, side))
        || (var source := FallbackSource(m, table, format, side);
            exists chars :: 0 <= chars <= |source| && r == CellCandidate(m, table, format, source, chars, side)))
  }

  /** A longer snippet never makes a cheaper cell. */
  ghost predicate CellsGrow(m: Markup, table: Table, format: Format, source: string, tok: Tokenizer, side: Side) {
    forall few: nat, more: nat :: few <= more <= |source| ==>
      Count(tok, CellCandidate(m, table, format, source, few, side))
      <= Count(tok, CellCandidate(m, table, format, source, more, side))
  }

  /** Fit one oversized row into a one-cell table: the longest cell that fits, if cells grow. */
  method CharFallback(m: Markup, table: Table, format: Format, source: string, budget: nat, tok: Tokenizer, side: Side)
    returns (r: Option<string>)
    ensures r.None? <==> Count(tok, Wrapped(table.attrs, "")) > budget
    ensures r.Some? ==> Count(tok, r.value) <= budget
    ensures r.Some? ==>
      exists chars :: 0 <= chars <= |source| && r.value == CellCandidate(m, table, format, source, chars, side)
        && (CellsGrow(m, table, format, source, tok, side) ==>
              forall more :: chars < more <= |source| ==>
                Count(tok, CellCandidate(m, table, format, source, more, side)) > budget)
  {
    if Count(tok, Wrapped(table.attrs, "")) > budget { return None; }
    var whole := CellCandidate(m, table, format, source, |source|, side);
    if Count(tok, whole) <= budget { return Some(whole); }
    var lo, hi := 0, |source|;
    while lo < hi
      invariant 0 <= lo <= hi <= |source|
      invariant Count(tok, CellCandidate(m, table, format, source, lo, side)) <= budget
      invariant CellsGrow(m, table, format, source, tok, side) ==>
        forall more :: hi < more <= |source| ==>
          Count(tok, CellCandidate(m, table, format, source, more, side)) > budget
    {
      var mid := (lo + hi + 1) / 2;
      if Count(tok, CellCandidate(m, table, format, source, mid, side)) <= budget {
        lo := mid;
      } else {
        hi := mid - 1;
      }
    }
    return Some(CellCandidate(m, table, format, source, lo, side));
  }

  predicate RowsFit(m: Markup, table: Table, k: nat, budget: nat, tok: Tokenizer, side: Side)
    requires table.format.Some? && k <= |table.rows|
  {
    Count(tok, RowCandidate(m, table, table.format.value, k, side)) <= budget
  }

  ghost predicate SomeRowsFit(m: Markup, table: Table, budget: nat, tok: Tokenizer, side: Side)
    requires table.format.Some?
  {
    exists k :: 0 < k < |table.rows| && RowsFit(m, table, k, budget, tok, side)
  }

  /** There is a smaller valid tag within the budget: some of the rows, or at least an empty one.
      An HTML table without rows is not cut up. */
  ghost predicate Trimmable(m: Markup, table: Table, budget: nat, tok: Tokenizer, side: Side) {
    && table.format.Some? && (table.format.value == Html ==> table.rows != [])
    && (SomeRowsFit(m, table, budget, tok, side) || Count(tok, Wrapped(table.attrs, "")) <= budget)
  }

  /** As many of the closest rows as fit; where not even one does, one cell with as much of the
      closest row as fits, if longer cells never count less. */
  ghost predicate BestRows(m: Markup, table: Table, budget: nat, tok: Tokenizer, side: Side, r: string)
    requires table.format.Some?
  {
    var format := table.format.value;
    var source := FallbackSource(m, table, format, side);
    if SomeRowsFit(m, table, budget, tok, side) then
      exists k :: 0 < k < |table.rows| && r == RowCandidate(m, table, format, k, side)
        && forall more :: k < more < |table.rows| ==> !RowsFit(m, table, more, budget, tok, side)
    else
      exists chars :: 0 <= chars <= |source| && r == CellCandidate(m, table, format, source, chars, side)
        && (CellsGrow(m, table, format, source, tok, side) ==>
              forall more :: chars < more <= |source| ==>
                Count(tok, CellCandidate(m, table, format, source, more, side)) > budget)
  }

  /** The most of the closest rows that fit, else the fallback; nothing only if nothing fits. */
  method RowTrimTable(m: Markup, table: Table, budget: nat, tok: Tokenizer, side: Side) returns (r: Option<string>)
    ensures r.Some? <==> Trimmable(m, table, budget, tok, side)
    ensures r.Some? ==>
      && Count(tok, r.value) <= budget && BestRows(m, table, budget, tok, side, r.value)
      && RowTrimmed(m, table, side, r.value)
  {
    if table.format.None? { return None; }
    var format := table.format.value;
    if format == Html && table.rows == [] { return None; }
    var k := |table.rows| - 1;
    while k > 0
      invariant k < |table.rows|
      invariant forall j :: 0 < j < |table.rows| && k < j ==> !RowsFit(m, table, j, budget, tok, side)
      decreases k
    {
      var candidate := RowCandidate(m, table, format, k, side);
      if Count(tok, candidate) <= budget {
        assert RowsFit(m, table, k, budget, tok, side);
        return Some(candidate);
      }
      k := k - 1;
    }
    r := CharFallback(m, table, format, FallbackSource(m, table, format, side), budget, tok, side);
  }

  /** The head of one content: a table keeps as many head rows as fit, and only where no tag
      fits any more the head of its body; anything else keeps its longest head. */
  ghost predicate Trimmed(m: Markup, content: string, isTable: bool, budget: nat, tok: Tokenizer, r: string) {
    && Count(tok, r) <= budget
    && if isTable && m.read(content).Some? then
         var table := m.read(content).value;
         if Trimmable(m, table, budget, tok, Head) then BestRows(m, table, budget, tok, Head, r)
         else BestCut(tok, table.body, budget, Head, r)
       else BestCut(tok, content, budget, Head, r)
  }

  /** So a table of which some head rows fit is cut to the most that do, and stays a valid tag. */
  lemma TrimmedTableKeepsRows(m: Markup, content: string, budget: nat, tok: Tokenizer, r: string)
    requires Trimmed(m, content, true, budget, tok, r) && m.read(content).Some?
    requires var table := m.read(content).value; table.format.Some? && SomeRowsFit(m, table, budget, tok, Head)
    ensures var table := m.read(content).value;
      exists k :: 0 < k < |table.rows| && r == RowCandidate(m, table, table.format.value, k, Head)
        && forall more :: k < more < |table.rows| ==> !RowsFit(m, table, more, budget, tok, Head)
  {
  }

  /** Head trim of one sidecar content; tables are trimmed by rows. */
  method TrimContentInner(m: Markup, content: string, isTable: bool, budget: nat, tok: Tokenizer) returns (r: string)
    ensures Trimmed(m, content, isTable, budget, tok, r)
  {
    if isTable {
      var table := m.read(content);
      if table.Some? {
        var trimmed := RowTrimTable(m, table.value, budget, tok, Head);
        if trimmed.Some? { return trimmed.value; }
        r := CharTrimTrailing(table.value.body, budget, tok);
        return;
      }
    }
    r := CharTrimTrailing(content, budget, tok);
  }

  /** The marker that goes after a head, with the counts it names. */
  type Marker = (nat, nat) -> string

  /** A head trimmed to what the marker leaves, with its marker. */
  ghost predicate MarkedHead(m: Markup, marker: Marker, content: string, isTable: bool, maxTokens: nat, tok: Tokenizer,
                             inner: string, r: string) {
    var original := Count(tok, content);
    var reserved := Count(tok, marker(original, maxTokens));
    && reserved < maxTokens && Trimmed(m, content, isTable, maxTokens - reserved, tok, inner)
    && r == inner + marker(original, Count(tok, inner))
  }

  /** Never more than `maxTokens` tokens, whatever the count function: through row trims,
      character fallbacks, and with the marker kept or dropped. The marker follows the head
      unless it takes the whole budget itself or the two do not fit together. */
  method TrimContentToBudget(m: Markup, marker: Marker, content: string, isTable: bool, maxTokens: int, tok: Tokenizer)
    returns (r: string, trimmed: bool)
    ensures !trimmed ==> r == content
    ensures trimmed <==> maxTokens > 0 && Count(tok, content) > maxTokens
    ensures maxTokens > 0 ==> Count(tok, r) <= maxTokens
    ensures trimmed ==>
      || (exists inner :: MarkedHead(m, marker, content, isTable, maxTokens, tok, inner, r))
      || (&& Trimmed(m, content, isTable, maxTokens, tok, r)
          && (|| Count(tok, marker(Count(tok, content), maxTokens)) >= maxTokens
              || exists inner, marked :: MarkedHead(m, marker, content, isTable, maxTokens, tok, inner, marked)
                   && Count(tok, marked) > maxTokens))
  {
    if content == "" || maxTokens <= 0 { return content, false; }
    var original := Count(tok, content);
    if original <= maxTokens { return content, false; }
    trimmed := true;
    var markerTokens := Count(tok, marker(original, maxTokens));
    if markerTokens < maxTokens {
      var inner := TrimContentInner(m, content, isTable, maxTokens - markerTokens, tok);
      r := inner + marker(original, Count(tok, inner));
      assert MarkedHead(m, marker, content, isTable, maxTokens, tok, inner, r);
      if Count(tok, r) <= maxTokens { return; }
    }
    r := TrimContentInner(m, content, isTable, maxTokens, tok);
  }
}
