/** Taking a text apart without losing any of it: multimodal tags and the text between them,
    and the separator cascade. */
module TextAtoms {
  import opened TokenBudget

  function Concat(pieces: seq<string>): string {
    if pieces == [] then "" else pieces[0] + Concat(pieces[1..])
  }

  lemma ConcatCons(head: string, rest: seq<string>)
    ensures Concat([head] + rest) == head + Concat(rest)
  {
    assert ([head] + rest)[1..] == rest;
  }

  lemma {:induction false} ConcatAppend(a: seq<string>, b: seq<string>)
    ensures Concat(a + b) == Concat(a) + Concat(b)
  {
    if a == [] {
      assert a + b == b;
    } else {
      ConcatAppend(a[1..], b);
      ConcatCons(a[0], a[1..] + b);
      ConcatCons(a[0], a[1..]);
      assert a == [a[0]] + a[1..] && a + b == [a[0]] + (a[1..] + b);
      Assoc(a[0], Concat(a[1..]), Concat(b));
    }
  }

  lemma Assoc(a: string, b: string, c: string)
    ensures a + b + c == a + (b + c)
  {
  }

  lemma ConcatOne(piece: string)
    ensures Concat([piece]) == piece
  {
    assert Concat([piece]) == piece + Concat([piece][1..]);
    assert piece + "" == piece;
  }

  lemma ConcatSnoc(pieces: seq<string>, last: string)
    ensures Concat(pieces + [last]) == Concat(pieces) + last
  {
    ConcatAppend(pieces, [last]);
    ConcatOne(last);
  }

  // ----- atoms -----

  datatype Kind = Text | Drawing | Equation | TableTag

  datatype Atom = Atom(kind: Kind, text: string)

  /** A match of the tag scanner. */
  datatype Span = Span(start: nat, end: nat, kind: Kind)

  /** What a scanner guarantees: non-empty matches inside the text, left to right. */
  ghost predicate ValidSpans(text: string, spans: seq<Span>) {
    && (forall i :: 0 <= i < |spans| ==> spans[i].start < spans[i].end <= |text| && spans[i].kind != Text)
    && forall i :: 0 <= i < |spans| - 1 ==> spans[i].end <= spans[i + 1].start
  }

  function Texts(atoms: seq<Atom>): (r: seq<string>)
    ensures |r| == |atoms|
    ensures forall i :: 0 <= i < |atoms| ==> r[i] == atoms[i].text
  {
    if atoms == [] then [] else [atoms[0].text] + Texts(atoms[1..])
  }

  function Gap(text: string, from: nat, to: nat): seq<Atom>
    requires from <= to <= |text|
  {
    if from < to then [Atom(Text, text[from..to])] else []
  }

  function TagAtom(text: string, span: Span): Atom
    requires span.start < span.end <= |text|
  {
    Atom(span.kind, text[span.start..span.end])
  }

  function EndOf(spans: seq<Span>, n: nat): nat
    requires n <= |spans|
  {
    if n == 0 then 0 else spans[n - 1].end
  }

  /** The atoms of the text up to the end of the first `n` matches. */
  ghost function AtomsUpTo(text: string, spans: seq<Span>, n: nat): (r: seq<Atom>)
    requires ValidSpans(text, spans) && n <= |spans|
    ensures forall a :: a in r ==> a.text != ""
    ensures EndOf(spans, n) <= |text|
  {
    if n == 0 then []
    else
      AtomsUpTo(text, spans, n - 1) + Gap(text, EndOf(spans, n - 1), spans[n - 1].start) + [TagAtom(text, spans[n - 1])]
  }

  ghost function Joined(atoms: seq<Atom>): string {
    Concat(Texts(atoms))
  }

  lemma JoinAppend(a: seq<Atom>, b: seq<Atom>)
    ensures Joined(a + b) == Joined(a) + Joined(b)
  {
    assert Texts(a + b) == Texts(a) + Texts(b);
    ConcatAppend(Texts(a), Texts(b));
  }

  lemma JoinOne(a: Atom)
    ensures Joined([a]) == a.text
  {
    assert Texts([a]) == [a.text];
    ConcatOne(a.text);
  }

  lemma JoinGap(text: string, from: nat, to: nat)
    requires from <= to <= |text|
    ensures Joined(Gap(text, from, to)) == text[from..to]
  {
    if from < to {
      JoinOne(Atom(Text, text[from..to]));
    }
  }

  lemma Slices(text: string, a: nat, b: nat, c: nat)
    requires a <= b <= c <= |text|
    ensures text[..a] + text[a..b] + text[b..c] == text[..c]
  {
  }

  lemma JoinThree(a: seq<Atom>, b: seq<Atom>, c: Atom)
    ensures Joined(a + b + [c]) == Joined(a) + Joined(b) + c.text
  {
    JoinAppend(a, b);
    JoinOne(c);
    JoinAppend(a + b, [c]);
  }

  /** Lossless up to every match: the atoms concatenate to exactly that much of the text. */
  lemma {:induction false} AtomsAreLossless(text: string, spans: seq<Span>, n: nat)
    requires ValidSpans(text, spans) && n <= |spans|
    ensures Joined(AtomsUpTo(text, spans, n)) == text[..EndOf(spans, n)]
  {
    if n > 0 {
      AtomsAreLossless(text, spans, n - 1);
      var from, span := EndOf(spans, n - 1), spans[n - 1];
      JoinGap(text, from, span.start);
      JoinThree(AtomsUpTo(text, spans, n - 1), Gap(text, from, span.start), TagAtom(text, span));
      Slices(text, from, span.start, span.end);
    }
  }

  ghost function AllAtoms(text: string, spans: seq<Span>): seq<Atom>
    requires ValidSpans(text, spans)
  {
    AtomsUpTo(text, spans, |spans|) + Gap(text, EndOf(spans, |spans|), |text|)
  }

  /** The atoms of a text concatenate back to it, and none is empty. */
  lemma AtomsConcatenateToText(text: string, spans: seq<Span>)
    requires ValidSpans(text, spans)
    ensures Joined(AllAtoms(text, spans)) == text
    ensures forall a :: a in AllAtoms(text, spans) ==> a.text != ""
  {
    var pos := EndOf(spans, |spans|);
    AtomsAreLossless(text, spans, |spans|);
    JoinGap(text, pos, |text|);
    JoinAppend(AtomsUpTo(text, spans, |spans|), Gap(text, pos, |text|));
    assert text[..pos] + text[pos..] == text;
  }

  /** The atoms that are not plain text. */
  ghost function Tags(atoms: seq<Atom>): seq<Atom> {
    if atoms == [] then []
    else Tags(atoms[..|atoms| - 1]) + if atoms[|atoms| - 1].kind == Text then [] else [atoms[|atoms| - 1]]
  }

  lemma TagsOfOneMore(atoms: seq<Atom>, a: Atom)
    ensures Tags(atoms + [a]) == Tags(atoms) + if a.kind == Text then [] else [a]
  {
    assert (atoms + [a])[..|atoms|] == atoms;
  }

  lemma TagsOfGap(atoms: seq<Atom>, text: string, from: nat, to: nat)
    requires from <= to <= |text|
    ensures Tags(atoms + Gap(text, from, to)) == Tags(atoms)
  {
    if from < to {
      TagsOfOneMore(atoms, Atom(Text, text[from..to]));
    } else {
      assert atoms + [] == atoms;
    }
  }

  /** These are the first `n` matches, each with its kind and its text. */
  ghost predicate AreMatches(text: string, spans: seq<Span>, n: nat, tags: seq<Atom>)
    requires ValidSpans(text, spans) && n <= |spans|
  {
    |tags| == n && forall i :: 0 <= i < n ==> tags[i] == Atom(spans[i].kind, text[spans[i].start..spans[i].end])
  }

  lemma OneMatchMore(text: string, spans: seq<Span>, n: nat, tags: seq<Atom>)
    requires ValidSpans(text, spans) && 0 < n <= |spans| && AreMatches(text, spans, n - 1, tags)
    ensures AreMatches(text, spans, n, tags + [TagAtom(text, spans[n - 1])])
  {
  }

  lemma {:induction false} TagsUpTo(text: string, spans: seq<Span>, n: nat)
    requires ValidSpans(text, spans) && n <= |spans|
    ensures AreMatches(text, spans, n, Tags(AtomsUpTo(text, spans, n)))
  {
    if n > 0 {
      TagsUpTo(text, spans, n - 1);
      var before := AtomsUpTo(text, spans, n - 1);
      var gap, tag := Gap(text, EndOf(spans, n - 1), spans[n - 1].start), TagAtom(text, spans[n - 1]);
      OneMatchMore(text, spans, n, Tags(before));
      TagsOfGap(before, text, EndOf(spans, n - 1), spans[n - 1].start);
      TagsOfOneMore(before + gap, tag);
      assert AtomsUpTo(text, spans, n) == before + gap + [tag];
    }
  }

  /** Every match is an atom of its own kind, whole and in order, and nothing else is a tag. */
  lemma AtomsKeepTheTags(text: string, spans: seq<Span>)
    requires ValidSpans(text, spans)
    ensures AreMatches(text, spans, |spans|, Tags(AllAtoms(text, spans)))
  {
    TagsUpTo(text, spans, |spans|);
    TagsOfGap(AtomsUpTo(text, spans, |spans|), text, EndOf(spans, |spans|), |text|);
  }

  method AppendGap(atoms: seq<Atom>, text: string, from: nat, to: nat) returns (r: seq<Atom>)
    requires from <= to <= |text|
    ensures r == atoms + Gap(text, from, to)
  {
    r := atoms;
    if to > from {
      r := r + [Atom(Text, text[from..to])];
    }
  }

  method Atomize(text: string, spans: seq<Span>) returns (atoms: seq<Atom>)
    requires ValidSpans(text, spans)
    ensures atoms == AllAtoms(text, spans)
  {
    atoms := [];
    var pos := 0;
    for i := 0 to |spans|
      invariant pos == EndOf(spans, i) <= |text|
      invariant atoms == AtomsUpTo(text, spans, i)
    {
      atoms := AppendGap(atoms, text, pos, spans[i].start);
      atoms := atoms + [TagAtom(text, spans[i])];
      pos := spans[i].end;
    }
    atoms := AppendGap(atoms, text, pos, |text|);
  }

  // ----- the separator cascade -----

  predicate OccursAt(text: string, sep: string, at: nat) {
    at + |sep| <= |text| && text[at..at + |sep|] == sep
  }

  /** The first occurrence, or the length of the text. */
  method Find(text: string, sep: string) returns (at: nat)
    requires sep != ""
    ensures at <= |text|
    ensures at < |text| ==> OccursAt(text, sep, at)
    ensures forall k :: 0 <= k < at ==> !OccursAt(text, sep, k)
  {
    at := 0;
    while at < |text| && !OccursAt(text, sep, at)
      invariant at <= |text|
      invariant forall k :: 0 <= k < at ==> !OccursAt(text, sep, k)
    {
      at := at + 1;
    }
  }

  ghost predicate IsFirst(text: string, sep: string, at: nat) {
    OccursAt(text, sep, at) && forall k :: 0 <= k < at ==> !OccursAt(text, sep, k)
  }

  ghost predicate Occurs(text: string, sep: string) {
    exists at: nat :: IsFirst(text, sep, at)
  }

  /** The pieces of a text, each but the last ending in the separator. */
  ghost function PiecesOf(text: string, sep: string): seq<string>
    requires sep != ""
    decreases |text|
  {
    if Occurs(text, sep) then
      var at: nat :| IsFirst(text, sep, at);
      [text[..at + |sep|]] + PiecesOf(text[at + |sep|..], sep)
    else if text == "" then []
    else [text]
  }

  lemma FirstIsUnique(text: string, sep: string, a: nat, b: nat)
    requires IsFirst(text, sep, a) && IsFirst(text, sep, b)
    ensures a == b
  {
  }

  lemma {:induction false} PiecesAreLossless(text: string, sep: string)
    requires sep != ""
    ensures Concat(PiecesOf(text, sep)) == text
    decreases |text|
  {
    if Occurs(text, sep) {
      var at: nat :| IsFirst(text, sep, at) && PiecesOf(text, sep) == [text[..at + |sep|]] + PiecesOf(text[at + |sep|..], sep);
      var head, tail := text[..at + |sep|], text[at + |sep|..];
      PiecesAreLossless(tail, sep);
      ConcatCons(head, PiecesOf(tail, sep));
      assert head + tail == text;
    } else if text != "" {
      ConcatOne(text);
    }
  }

  ghost predicate AllEndIn(pieces: seq<string>, sep: string) {
    && (forall i :: 0 <= i < |pieces| ==> pieces[i] != "")
    && forall i :: 0 <= i < |pieces| - 1 ==> IsSuffix(sep, pieces[i])
  }

  lemma EndInWithOneMore(head: string, rest: seq<string>, sep: string)
    requires head != "" && IsSuffix(sep, head) && AllEndIn(rest, sep)
    ensures AllEndIn([head] + rest, sep)
  {
  }

  lemma {:induction false} PiecesEndInSeparator(text: string, sep: string)
    requires sep != ""
    ensures AllEndIn(PiecesOf(text, sep), sep)
    decreases |text|
  {
    if Occurs(text, sep) {
      var at: nat :| IsFirst(text, sep, at) && PiecesOf(text, sep) == [text[..at + |sep|]] + PiecesOf(text[at + |sep|..], sep);
      var head := text[..at + |sep|];
      PiecesEndInSeparator(text[at + |sep|..], sep);
      assert head[|head| - |sep|..] == text[at..at + |sep|];
      EndInWithOneMore(head, PiecesOf(text[at + |sep|..], sep), sep);
    }
  }

  /** A separator cuts a text when it occurs in it before the very end. */
  predicate Splits(text: string, sep: string) {
    sep != "" && exists k :: 0 <= k < |text| - |sep| && OccursAt(text, sep, k)
  }

  lemma {:induction false} FirstOccurrence(text: string, sep: string, k: nat)
    requires OccursAt(text, sep, k)
    ensures exists at: nat :: at <= k && IsFirst(text, sep, at)
    decreases k
  {
    if j: nat :| j < k && OccursAt(text, sep, j) {
      FirstOccurrence(text, sep, j);
    } else {
      assert IsFirst(text, sep, k);
    }
  }

  /** There is more than one piece exactly when the separator cuts the text. */
  lemma {:induction false} PiecesCount(text: string, sep: string)
    requires sep != ""
    ensures |PiecesOf(text, sep)| > 1 <==> Splits(text, sep)
  {
    if k :| 0 <= k < |text| - |sep| && OccursAt(text, sep, k) {
      FirstOccurrence(text, sep, k);
    }
    if Occurs(text, sep) {
      var at: nat :| IsFirst(text, sep, at) && PiecesOf(text, sep) == [text[..at + |sep|]] + PiecesOf(text[at + |sep|..], sep);
      if at < |text| - |sep| {
        assert PiecesOf(text[at + |sep|..], sep) != [];
      }
    }
  }

  /** No piece could be cut further: the separator occurs in none of them before its end. */
  lemma {:induction false} PiecesAreMinimal(text: string, sep: string)
    requires sep != ""
    ensures forall p, k :: p in PiecesOf(text, sep) && 0 <= k < |p| - |sep| ==> !OccursAt(p, sep, k)
    decreases |text|
  {
    if Occurs(text, sep) {
      var at: nat :| IsFirst(text, sep, at) && PiecesOf(text, sep) == [text[..at + |sep|]] + PiecesOf(text[at + |sep|..], sep);
      var head := text[..at + |sep|];
      PiecesAreMinimal(text[at + |sep|..], sep);
      forall k | 0 <= k < |head| - |sep|
        ensures !OccursAt(head, sep, k)
      {
        assert k < at && !OccursAt(text, sep, k);
        assert head[k..k + |sep|] == text[k..k + |sep|];
      }
    } else if text != "" {
      forall k | 0 <= k < |text| - |sep|
        ensures !OccursAt(text, sep, k)
      {
        if OccursAt(text, sep, k) {
          FirstOccurrence(text, sep, k);
        }
      }
    }
  }

  method Pieces(text: string, sep: string) returns (pieces: seq<string>)
    requires sep != ""
    ensures pieces == PiecesOf(text, sep)
  {
    pieces := [];
    var rest := text;
    while true
      invariant pieces + PiecesOf(rest, sep) == PiecesOf(text, sep)
      decreases |rest|
    {
      var at := Find(rest, sep);
      if at == |rest| { break; }
      assert IsFirst(rest, sep, at);
      forall other: nat | IsFirst(rest, sep, other)
        ensures other == at
      {
        FirstIsUnique(rest, sep, other, at);
      }
      pieces, rest := pieces + [rest[..at + |sep|]], rest[at + |sep|..];
    }
    assert forall k: nat :: !OccursAt(rest, sep, k);
    if rest != "" {
      pieces := pieces + [rest];
    }
  }

  /** The first separator that cuts the text, or none of them. */
  function FirstCut(text: string, separators: seq<string>): (r: nat)
    ensures r <= |separators|
    ensures forall i :: 0 <= i < r ==> !Splits(text, separators[i])
    ensures r < |separators| ==> Splits(text, separators[r])
  {
    if separators == [] || Splits(text, separators[0]) then 0 else 1 + FirstCut(text, separators[1..])
  }

  lemma CutIsFirst(text: string, separators: seq<string>, i: nat)
    requires i < |separators| && Splits(text, separators[i])
    requires forall j :: 0 <= j < i ==> !Splits(text, separators[j])
    ensures FirstCut(text, separators) == i
  {
  }

  ghost function SegmentsOf(text: string, separators: seq<string>): seq<string> {
    var cut := FirstCut(text, separators);
    if cut < |separators| then PiecesOf(text, separators[cut]) else [text]
  }

  /** The separators that are left for a segment that is still too long. */
  function Weaker(text: string, separators: seq<string>): (r: seq<string>)
    ensures separators != [] ==> |r| < |separators|
  {
    var cut := FirstCut(text, separators);
    if cut < |separators| then separators[cut + 1..] else []
  }

  /** Each segment but the last ends in the separator that cut the text, and none could be cut
      by it again. */
  lemma SegmentsEndInSeparator(text: string, separators: seq<string>)
    ensures var segments, cut := SegmentsOf(text, separators), FirstCut(text, separators);
      if cut == |separators| then segments == [text]
      else && |segments| > 1 && AllEndIn(segments, separators[cut])
           && forall p :: p in segments ==> !Splits(p, separators[cut])
  {
    var cut := FirstCut(text, separators);
    if cut < |separators| {
      PiecesEndInSeparator(text, separators[cut]);
      PiecesCount(text, separators[cut]);
      PiecesAreMinimal(text, separators[cut]);
    }
  }

  /** Whatever the separators, the segments give the text back, and no segment is empty. */
  lemma SegmentsAreLossless(text: string, separators: seq<string>)
    ensures Concat(SegmentsOf(text, separators)) == text
    ensures text != "" ==> SegmentsOf(text, separators) != [] && forall p :: p in SegmentsOf(text, separators) ==> p != ""
  {
    ConcatOne(text);
    var cut := FirstCut(text, separators);
    if cut < |separators| {
      PiecesAreLossless(text, separators[cut]);
      PiecesEndInSeparator(text, separators[cut]);
    }
  }

  /** Cut at the first separator that yields more than one piece; without one, the text stays
      whole. Nothing is lost either way. */
  method SplitTextSegment(text: string, separators: seq<string>) returns (segments: seq<string>, used: nat)
    ensures segments == SegmentsOf(text, separators) && used == FirstCut(text, separators)
    ensures Concat(segments) == text
  {
    SegmentsAreLossless(text, separators);
    if text == "" { return [text], |separators|; }
    for i := 0 to |separators|
      invariant forall j :: 0 <= j < i ==> !Splits(text, separators[j])
    {
      if separators[i] != "" {
        segments := Pieces(text, separators[i]);
        PiecesCount(text, separators[i]);
        if |segments| > 1 {
          CutIsFirst(text, separators, i);
          return segments, i;
        }
      }
    }
    return [text], |separators|;
  }
}
