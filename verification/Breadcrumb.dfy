/** The heading breadcrumb: cleaning and capping each level, joining the levels, and reading
    them back by splitting on the separator. */
module Breadcrumb {

  const ARROW: char := '\U{2192}'
  const ELLIPSIS: char := '\U{2026}'
  const SEPARATOR: string := [' ', ARROW, ' ']

  /** The whitespace controls that are folded into a space instead of dropped. */
  const KEPT_CONTROLS: set<char> := {'\t', '\n', '\r', '\U{000C}', '\U{000B}'}

  /** Character classes from the Unicode tables: the regex's whitespace, the control and format
      characters, and what `strip` takes for whitespace. */
  datatype Classes = Classes(space: char -> bool, control: char -> bool, blank: char -> bool)

  ghost predicate Sane(k: Classes) {
    && k.space(' ') && !k.control(' ') && k.blank(' ')
    && (forall c :: c in KEPT_CONTROLS ==> k.space(c))
    && (forall c :: k.blank(c) ==> k.space(c) || k.control(c))
    && !k.space(ELLIPSIS) && !k.control(ELLIPSIS)
  }

  // ----- cleaning -----

  function Dearrowed(text: string): (r: string)
    ensures |r| == |text|
    ensures forall i :: 0 <= i < |r| ==> r[i] == if text[i] == ARROW then ' ' else text[i]
  {
    if text == "" then "" else [if text[0] == ARROW then ' ' else text[0]] + Dearrowed(text[1..])
  }

  predicate Survives(k: Classes, c: char) {
    c in KEPT_CONTROLS || !k.control(c)
  }

  function Stripped(k: Classes, text: string): (r: string)
    ensures forall c :: c in r ==> c in text && Survives(k, c)
    ensures (forall c :: c in text ==> Survives(k, c)) ==> r == text
  {
    if text == "" then "" else (if Survives(k, text[0]) then [text[0]] else "") + Stripped(k, text[1..])
  }

  /** Every run of whitespace becomes one space. */
  function Collapsed(k: Classes, text: string, inRun: bool): string {
    if text == "" then ""
    else if k.space(text[0]) then (if inRun then "" else " ") + Collapsed(k, text[1..], true)
    else [text[0]] + Collapsed(k, text[1..], false)
  }

  function TrimmedLeft(k: Classes, text: string): string {
    if text == "" || !k.blank(text[0]) then text else TrimmedLeft(k, text[1..])
  }

  function TrimmedRight(k: Classes, text: string): (r: string)
    ensures r <= text && forall i :: |r| <= i < |text| ==> k.blank(text[i])
    ensures r != "" ==> !k.blank(r[|r| - 1])
  {
    if text == "" || !k.blank(text[|text| - 1]) then text else TrimmedRight(k, text[..|text| - 1])
  }

  function Clean(k: Classes, text: string): string {
    TrimmedRight(k, TrimmedLeft(k, Collapsed(k, Stripped(k, Dearrowed(text)), false)))
  }

  // ----- the normal form -----

  predicate PlainChar(k: Classes, c: char) {
    c == ' ' || (c != ARROW && !k.space(c) && !k.control(c))
  }

  /** One tidy line inside: plain characters, no two spaces in a row. */
  ghost predicate Tidy(k: Classes, text: string) {
    && (forall i :: 0 <= i < |text| ==> PlainChar(k, text[i]))
    && forall i :: 0 <= i < |text| - 1 ==> !(text[i] == ' ' && text[i + 1] == ' ')
  }

  ghost predicate Normal(k: Classes, text: string) {
    Tidy(k, text) && (text != "" ==> text[0] != ' ' && text[|text| - 1] != ' ')
  }

  lemma {:induction false} CollapsedIsTidy(k: Classes, text: string, inRun: bool)
    requires Sane(k)
    requires forall c :: c in text ==> c != ARROW && Survives(k, c)
    ensures Tidy(k, Collapsed(k, text, inRun))
    ensures inRun && Collapsed(k, text, inRun) != "" ==> Collapsed(k, text, inRun)[0] != ' '
  {
    if text != "" {
      assert text[0] in text && forall c :: c in text[1..] ==> c in text;
      CollapsedIsTidy(k, text[1..], k.space(text[0]));
    }
  }

  lemma {:induction false} TrimmedLeftOfTidy(k: Classes, text: string)
    requires Sane(k) && Tidy(k, text)
    ensures var r := TrimmedLeft(k, text); Tidy(k, r) && (r != "" ==> r[0] != ' ')
  {
    if text != "" && k.blank(text[0]) {
      assert text[0] == ' ';
      TrimmedLeftOfTidy(k, text[1..]);
    }
  }

  /** A prefix that ends on no blank keeps the normal form. */
  lemma TrimmedRightOfTidy(k: Classes, text: string)
    requires Sane(k) && Tidy(k, text) && (text != "" ==> text[0] != ' ')
    ensures Normal(k, TrimmedRight(k, text))
  {
  }

  /** Whatever goes in, a clean heading is in normal form. */
  lemma CleanIsNormal(k: Classes, text: string)
    requires Sane(k)
    ensures Normal(k, Clean(k, text))
  {
    var dearrowed := Dearrowed(text);
    assert forall c :: c in dearrowed ==> c != ARROW;
    var collapsed := Collapsed(k, Stripped(k, dearrowed), false);
    CollapsedIsTidy(k, Stripped(k, dearrowed), false);
    TrimmedLeftOfTidy(k, collapsed);
    TrimmedRightOfTidy(k, TrimmedLeft(k, collapsed));
  }

  lemma {:induction false} CollapseKeepsTidy(k: Classes, text: string, inRun: bool)
    requires Sane(k) && Tidy(k, text) && (inRun && text != "" ==> text[0] != ' ')
    ensures Collapsed(k, text, inRun) == text
  {
    if text != "" {
      CollapseKeepsTidy(k, text[1..], text[0] == ' ');
      assert text == [text[0]] + text[1..];
    }
  }

  /** A heading in normal form is left as it is. */
  lemma CleanKeepsNormal(k: Classes, text: string)
    requires Sane(k) && Normal(k, text)
    ensures Clean(k, text) == text
  {
    assert Dearrowed(text) == text;
    assert Stripped(k, text) == text;
    CollapseKeepsTidy(k, text, false);
  }

  lemma CleaningIsIdempotent(k: Classes, text: string)
    requires Sane(k)
    ensures Clean(k, Clean(k, text)) == Clean(k, text)
  {
    CleanIsNormal(k, text);
    CleanKeepsNormal(k, Clean(k, text));
  }

  // ----- what cleaning keeps -----

  /** The words of a heading: what stands between whitespace and arrows, without the characters
      that are dropped. `word` is the one being read. */
  function Words(k: Classes, text: string, word: string): seq<string> {
    if text == "" then if word == "" then [] else [word]
    else if text[0] != ARROW && !Survives(k, text[0]) then Words(k, text[1..], word)
    else if text[0] == ARROW || k.space(text[0]) then
      (if word == "" then [] else [word]) + Words(k, text[1..], "")
    else Words(k, text[1..], word + [text[0]])
  }

  function Spaced(words: seq<string>): string {
    if words == [] then ""
    else if |words| == 1 then words[0]
    else words[0] + " " + Spaced(words[1..])
  }

  lemma WordsOfOneMore(k: Classes, c: char, rest: string, word: string)
    ensures Words(k, [c] + rest, word) ==
      if c != ARROW && !Survives(k, c) then Words(k, rest, word)
      else if c == ARROW || k.space(c) then (if word == "" then [] else [word]) + Words(k, rest, "")
      else Words(k, rest, word + [c])
  {
    assert ([c] + rest)[1..] == rest;
  }

  lemma PreparedOneMore(k: Classes, text: string)
    requires text != ""
    ensures var c, rest := if text[0] == ARROW then ' ' else text[0], Stripped(k, Dearrowed(text[1..]));
      Stripped(k, Dearrowed(text)) == if Survives(k, c) then [c] + rest else rest
  {
    var c := if text[0] == ARROW then ' ' else text[0];
    assert Dearrowed(text) == [c] + Dearrowed(text[1..]);
    assert ([c] + Dearrowed(text[1..]))[1..] == Dearrowed(text[1..]);
    assert "" + Stripped(k, Dearrowed(text[1..])) == Stripped(k, Dearrowed(text[1..]));
  }

  lemma {:induction false} PreparedWords(k: Classes, text: string, word: string)
    requires Sane(k)
    ensures Words(k, Stripped(k, Dearrowed(text)), word) == Words(k, text, word)
    decreases |text|
  {
    if text != "" {
      var c, rest := if text[0] == ARROW then ' ' else text[0], Stripped(k, Dearrowed(text[1..]));
      PreparedOneMore(k, text);
      WordsOfOneMore(k, c, rest, word);
      if !Survives(k, c) {
        PreparedWords(k, text[1..], word);
      } else if k.space(c) {
        PreparedWords(k, text[1..], "");
      } else {
        PreparedWords(k, text[1..], word + [c]);
      }
    }
  }

  lemma TrimmedRightOfMore(k: Classes, a: string, b: string)
    ensures TrimmedRight(k, a + b) == if TrimmedRight(k, b) != "" then a + TrimmedRight(k, b) else TrimmedRight(k, a)
    decreases |b|
  {
    if b == "" {
      assert a + b == a;
    } else {
      var n := |b| - 1;
      assert (a + b)[..|a + b| - 1] == a + b[..n] && (a + b)[|a + b| - 1] == b[n];
      if k.blank(b[n]) {
        TrimmedRightOfMore(k, a, b[..n]);
      }
    }
  }

  /** No character of a word is blank. */
  ghost predicate Solid(k: Classes, word: string) {
    forall c :: c in word ==> !k.blank(c)
  }

  lemma WordStays(k: Classes, word: string)
    requires Solid(k, word)
    ensures TrimmedRight(k, word) == word
  {
    if word != "" {
      assert word[|word| - 1] in word;
    }
  }

  lemma LettersAreSolid(k: Classes, c: char)
    requires Sane(k) && Survives(k, c) && !k.space(c)
    ensures !k.blank(c)
  {
  }

  lemma CollapsedOneMore(k: Classes, text: string)
    requires text != ""
    ensures k.space(text[0]) ==>
      Collapsed(k, text, false) == " " + Collapsed(k, text[1..], true) && Collapsed(k, text, true) == Collapsed(k, text[1..], true)
    ensures !k.space(text[0]) ==>
      Collapsed(k, text, false) == [text[0]] + Collapsed(k, text[1..], false) == Collapsed(k, text, true)
  {
  }

  lemma {:induction false} WordsAreNotEmpty(k: Classes, text: string, word: string)
    ensures forall w :: w in Words(k, text, word) ==> w != ""
    decreases |text|
  {
    if text != "" {
      WordsAreNotEmpty(k, text[1..], word);
      WordsAreNotEmpty(k, text[1..], "");
      WordsAreNotEmpty(k, text[1..], word + [text[0]]);
    }
  }

  lemma SpacedIsEmptyOnlyForNone(words: seq<string>)
    requires forall w :: w in words ==> w != ""
    ensures Spaced(words) == "" <==> words == []
  {
    if words != [] {
      assert words[0] in words;
    }
  }

  /** After a word has been begun, and after a space. */
  lemma {:induction false} CollapsedWords(k: Classes, text: string, word: string)
    requires Sane(k) && Solid(k, word) && forall c :: c in text ==> c != ARROW && Survives(k, c)
    ensures word != "" ==> TrimmedRight(k, word + Collapsed(k, text, false)) == Spaced(Words(k, text, word))
    ensures word == "" ==> TrimmedRight(k, Collapsed(k, text, true)) == Spaced(Words(k, text, ""))
    decreases |text|
  {
    if text == "" {
      assert word + "" == word;
      WordStays(k, word);
    } else if k.space(text[0]) {
      SpaceIsNext(k, text, word);
    } else {
      LetterIsNext(k, text, word);
      CollapsedOneMore(k, text);
      assert "" + Collapsed(k, text, false) == Collapsed(k, text, false);
    }
  }

  lemma {:induction false} SpaceIsNext(k: Classes, text: string, word: string)
    requires Sane(k) && Solid(k, word) && forall c :: c in text ==> c != ARROW && Survives(k, c)
    requires text != "" && k.space(text[0])
    ensures word != "" ==> TrimmedRight(k, word + Collapsed(k, text, false)) == Spaced(Words(k, text, word))
    ensures word == "" ==> TrimmedRight(k, Collapsed(k, text, true)) == Spaced(Words(k, text, ""))
    decreases |text|, 0
  {
    var rest, words := Collapsed(k, text[1..], true), Words(k, text[1..], "");
    assert text[0] in text && forall c :: c in text[1..] ==> c in text;
    CollapsedOneMore(k, text);
    CollapsedWords(k, text[1..], "");
    assert text == [text[0]] + text[1..];
    WordsOfOneMore(k, text[0], text[1..], word);
    if word != "" {
      SpaceAfterWord(k, word, rest);
      WordOfItsOwn(word, words);
      WordsAreNotEmpty(k, text[1..], "");
      SpacedIsEmptyOnlyForNone(words);
    } else {
      assert [] + words == words;
    }
  }

  lemma {:induction false} LetterIsNext(k: Classes, text: string, word: string)
    requires Sane(k) && Solid(k, word) && forall c :: c in text ==> c != ARROW && Survives(k, c)
    requires text != "" && !k.space(text[0])
    ensures TrimmedRight(k, word + Collapsed(k, text, false)) == Spaced(Words(k, text, word))
    decreases |text|, 0
  {
    var longer, rest := word + [text[0]], Collapsed(k, text[1..], false);
    assert text[0] in text && forall c :: c in text[1..] ==> c in text;
    LettersAreSolid(k, text[0]);
    CollapsedOneMore(k, text);
    CollapsedWords(k, text[1..], longer);
    assert text == [text[0]] + text[1..];
    WordsOfOneMore(k, text[0], text[1..], word);
    assert word + ([text[0]] + rest) == longer + rest;
  }

  lemma WordOfItsOwn(word: string, words: seq<string>)
    requires word != ""
    ensures Spaced([word] + words) == if words == [] then word else word + " " + Spaced(words)
  {
    assert ([word] + words)[1..] == words;
  }

  lemma SpaceAfterWord(k: Classes, word: string, rest: string)
    requires Sane(k) && Solid(k, word)
    ensures TrimmedRight(k, word + (" " + rest))
      == if TrimmedRight(k, rest) != "" then word + " " + TrimmedRight(k, rest) else word
  {
    assert word + (" " + rest) == (word + " ") + rest;
    TrimmedRightOfMore(k, word + " ", rest);
    TrimmedRightOfMore(k, word, " ");
    assert TrimmedRight(k, " ") == TrimmedRight(k, " "[..0]) == "";
    WordStays(k, word);
  }

  /** Cleaning keeps every word, in order, and puts one space between two of them. */
  lemma CleanKeepsTheWords(k: Classes, text: string)
    requires Sane(k)
    ensures Clean(k, text) == Spaced(Words(k, text, ""))
  {
    assert forall c :: c in Dearrowed(text) ==> c != ARROW;
    PreparedWords(k, text, "");
    CollapsedFromStart(k, Stripped(k, Dearrowed(text)));
  }

  lemma CollapsedFromStart(k: Classes, text: string)
    requires Sane(k) && forall c :: c in text ==> c != ARROW && Survives(k, c)
    ensures TrimmedRight(k, TrimmedLeft(k, Collapsed(k, text, false))) == Spaced(Words(k, text, ""))
  {
    if text != "" {
      assert text[0] in text && forall c :: c in text[1..] ==> c in text;
      CollapsedOneMore(k, text);
      if k.space(text[0]) {
        var rest := Collapsed(k, text[1..], true);
        SpaceIsNext(k, text, "");
        StartsSolid(k, text[1..], true);
        assert (" " + rest)[1..] == rest;
      } else {
        StartsSolid(k, text, false);
        CollapsedWords(k, text, "");
      }
    }
  }

  lemma StartsSolid(k: Classes, text: string, inRun: bool)
    requires Sane(k) && forall c :: c in text ==> c != ARROW && Survives(k, c)
    requires inRun || text == "" || !k.space(text[0])
    ensures TrimmedLeft(k, Collapsed(k, text, inRun)) == Collapsed(k, text, inRun)
    decreases |text|
  {
    if text != "" {
      assert text[0] in text && forall c :: c in text[1..] ==> c in text;
      if k.space(text[0]) {
        StartsSolid(k, text[1..], true);
        assert "" + Collapsed(k, text[1..], true) == Collapsed(k, text[1..], true);
      } else {
        LettersAreSolid(k, text[0]);
      }
    }
  }

  // ----- capping -----

  function Capped(k: Classes, text: string, max: int): string {
    if max <= 0 || |text| <= max then text else TrimmedRight(k, text[..max - 1]) + [ELLIPSIS]
  }

  /** A capped level fits, is not empty, and is still in normal form. */
  lemma CappedIsNormal(k: Classes, text: string, max: int)
    requires Sane(k) && Normal(k, text) && text != ""
    ensures var r := Capped(k, text, max); Normal(k, r) && r != "" && (max > 0 ==> |r| <= max)
  {
    if 0 < max < |text| {
      TrimmedRightOfTidy(k, text[..max - 1]);
    }
  }

  /** A level that is too long loses its end and nothing else: all that fits before the ellipsis
      stays, but for blanks. */
  lemma CappedKeepsTheHead(k: Classes, text: string, max: int)
    ensures max <= 0 || |text| <= max ==> Capped(k, text, max) == text
    ensures 0 < max < |text| ==> exists kept: nat ::
      && kept < max && Capped(k, text, max) == text[..kept] + [ELLIPSIS]
      && forall i :: kept <= i < max - 1 ==> k.blank(text[i])
  {
    if 0 < max < |text| {
      var head := TrimmedRight(k, text[..max - 1]);
      assert head == text[..|head|];
      forall i | |head| <= i < max - 1
        ensures k.blank(text[i])
      {
        assert text[..max - 1][i] == text[i];
      }
    }
  }

  /** Clean, drop the empty ones, cap. */
  function CleanAndCap(k: Classes, headings: seq<string>, max: int): seq<string> {
    if headings == [] then []
    else
      var cleaned := Clean(k, headings[0]);
      (if cleaned == "" then [] else [Capped(k, cleaned, max)]) + CleanAndCap(k, headings[1..], max)
  }

  /** Each heading gives its level, in order. */
  lemma {:induction false} LevelsComeInOrder(k: Classes, headings: seq<string>, more: seq<string>, max: int)
    ensures CleanAndCap(k, headings + more, max) == CleanAndCap(k, headings, max) + CleanAndCap(k, more, max)
    ensures |headings| == 1 ==>
      var cleaned := Clean(k, headings[0]);
      CleanAndCap(k, headings, max) == if cleaned == "" then [] else [Capped(k, cleaned, max)]
  {
    if headings == [] {
      assert headings + more == more;
    } else {
      var all, rest := headings + more, headings[1..] + more;
      var cleaned := Clean(k, headings[0]);
      var first := if cleaned == "" then [] else [Capped(k, cleaned, max)];
      assert all[0] == headings[0] && all[1..] == rest;
      LevelsComeInOrder(k, headings[1..], more, max);
      assert CleanAndCap(k, all, max) == first + CleanAndCap(k, rest, max);
      assert CleanAndCap(k, headings, max) == first + CleanAndCap(k, headings[1..], max);
    }
  }

  ghost predicate Level(k: Classes, text: string, max: int) {
    Normal(k, text) && text != "" && (max > 0 ==> |text| <= max)
  }

  lemma {:induction false} LevelsAreNormal(k: Classes, headings: seq<string>, max: int)
    requires Sane(k)
    ensures forall l :: l in CleanAndCap(k, headings, max) ==> Level(k, l, max)
  {
    if headings != [] {
      LevelsAreNormal(k, headings[1..], max);
      var cleaned := Clean(k, headings[0]);
      CleanIsNormal(k, headings[0]);
      if cleaned != "" {
        CappedIsNormal(k, cleaned, max);
      }
    }
  }

  lemma {:induction false} LevelsStay(k: Classes, levels: seq<string>, max: int)
    requires Sane(k) && forall l :: l in levels ==> Level(k, l, max)
    ensures CleanAndCap(k, levels, max) == levels
  {
    if levels != [] {
      assert levels[0] in levels;
      CleanKeepsNormal(k, levels[0]);
      LevelsStay(k, levels[1..], max);
    }
  }

  // ----- joining and splitting -----

  function Join(levels: seq<string>): string {
    if levels == [] then ""
    else if |levels| == 1 then levels[0]
    else levels[0] + SEPARATOR + Join(levels[1..])
  }

  predicate SeparatorAt(text: string, at: nat) {
    at + 3 <= |text| && text[at..at + 3] == SEPARATOR
  }

  function FirstSeparator(text: string, from: nat): (at: nat)
    requires from <= |text|
    ensures from <= at <= |text|
    ensures at < |text| ==> SeparatorAt(text, at)
    ensures forall i :: from <= i < at ==> !SeparatorAt(text, i)
    decreases |text| - from
  {
    if from == |text| || SeparatorAt(text, from) then from else FirstSeparator(text, from + 1)
  }

  function Split(text: string): seq<string>
    decreases |text|
  {
    var at := FirstSeparator(text, 0);
    if at == |text| then [text] else [text[..at]] + Split(text[at + 3..])
  }

  ghost predicate ArrowFree(text: string) {
    forall i :: 0 <= i < |text| ==> text[i] != ARROW
  }

  lemma SeparatorHoldsArrow(text: string, at: nat)
    requires at + 3 <= |text| && text[at + 1] != ARROW
    ensures !SeparatorAt(text, at)
  {
    assert text[at..at + 3][1] == text[at + 1];
    assert SEPARATOR[1] == ARROW;
  }

  /** Before a separator that follows an arrow-free text there is no other. */
  lemma SeparatorAfterArrowFree(level: string, rest: string)
    requires ArrowFree(level)
    ensures FirstSeparator(level + SEPARATOR + rest, 0) == |level|
  {
    var text := level + SEPARATOR + rest;
    assert text[|level|..|level| + 3] == SEPARATOR;
    assert SeparatorAt(text, |level|);
    forall i | 0 <= i < |level|
      ensures !SeparatorAt(text, i)
    {
      assert text[i + 1] == if i + 1 < |level| then level[i + 1] else ' ';
      SeparatorHoldsArrow(text, i);
    }
  }

  lemma NoSeparatorInArrowFree(text: string)
    requires ArrowFree(text)
    ensures FirstSeparator(text, 0) == |text|
  {
    forall i | 0 <= i <= |text| - 3
      ensures !SeparatorAt(text, i)
    {
      SeparatorHoldsArrow(text, i);
    }
  }

  /** Splitting undoes joining, for any arrow-free levels. */
  lemma {:induction false} SplitUndoesJoin(levels: seq<string>)
    requires levels != [] && forall l :: l in levels ==> ArrowFree(l)
    ensures Split(Join(levels)) == levels
  {
    assert levels[0] in levels;
    if |levels| == 1 {
      NoSeparatorInArrowFree(levels[0]);
    } else {
      var rest := Join(levels[1..]);
      SplitUndoesJoin(levels[1..]);
      SeparatorAfterArrowFree(levels[0], rest);
      var text := levels[0] + SEPARATOR + rest;
      assert text[..|levels[0]|] == levels[0] && text[|levels[0]| + 3..] == rest;
    }
  }

  // ----- the breadcrumb -----

  /** A chunk's heading data, as normalized: the parent chain and the own heading. */
  datatype Headings = Headings(parents: seq<string>, own: string)

  function FormatParents(k: Classes, h: Headings, max: int): string {
    Join(CleanAndCap(k, h.parents, max))
  }

  /** The whole chain: the own heading, when there is one, follows the parents. */
  function Chain(h: Headings): (r: seq<string>)
    ensures h.parents <= r && (h.own == "" ==> r == h.parents)
    ensures h.own != "" ==> |r| == |h.parents| + 1 && r[|h.parents|] == h.own
  {
    h.parents + if h.own == "" then [] else [h.own]
  }

  lemma NormalIsArrowFree(k: Classes, text: string)
    requires Normal(k, text)
    ensures ArrowFree(text)
  {
    assert ' ' != ARROW;
  }

  lemma JoinIsEmptyOnlyForNone(levels: seq<string>)
    requires forall l :: l in levels ==> l != ""
    ensures Join(levels) == "" <==> levels == []
  {
    if levels != [] {
      assert levels[0] in levels;
    }
  }

  /** A breadcrumb that is not empty splits into exactly its cleaned and capped levels, and
      formatting those levels again gives the same breadcrumb. */
  lemma BreadcrumbRoundTrip(k: Classes, h: Headings, max: int)
    requires Sane(k)
    ensures var levels := CleanAndCap(k, h.parents, max);
      && (FormatParents(k, h, max) == "" <==> levels == [])
      && (FormatParents(k, h, max) != "" ==>
            Split(FormatParents(k, h, max)) == levels
            && FormatParents(k, Headings(levels, ""), max) == FormatParents(k, h, max))
      && (forall l :: l in levels ==> ArrowFree(l) && l != "" && (max > 0 ==> |l| <= max))
  {
    LevelsRoundTrip(k, h.parents, max);
  }

  lemma LevelsRoundTrip(k: Classes, headings: seq<string>, max: int)
    requires Sane(k)
    ensures var levels := CleanAndCap(k, headings, max);
      && (Join(levels) == "" <==> levels == [])
      && (levels != [] ==> Split(Join(levels)) == levels)
      && CleanAndCap(k, levels, max) == levels
      && (forall l :: l in levels ==> ArrowFree(l) && l != "" && (max > 0 ==> |l| <= max))
  {
    var levels := CleanAndCap(k, headings, max);
    LevelsAreNormal(k, headings, max);
    forall l | l in levels
      ensures ArrowFree(l)
    {
      NormalIsArrowFree(k, l);
    }
    JoinIsEmptyOnlyForNone(levels);
    LevelsStay(k, levels, max);
    if levels != [] {
      SplitUndoesJoin(levels);
    }
  }

  /** What the full chain is formatted to: a text that is empty only if no heading says
      anything, that splits into the cleaned and capped chain, and that formats to itself. */
  ghost predicate FormatsTo(k: Classes, h: Headings, max: int, r: string) {
    var levels := CleanAndCap(k, Chain(h), max);
    && (r == "" <==> levels == [])
    && (r != "" ==> Split(r) == levels && r == Join(CleanAndCap(k, Split(r), max)))
    && (forall l :: l in levels ==> ArrowFree(l) && l != "" && (max > 0 ==> |l| <= max))
  }

  /** Only one text is such a format. */
  lemma FormatIsUnique(k: Classes, h: Headings, max: int, r: string, other: string)
    requires FormatsTo(k, h, max, r) && FormatsTo(k, h, max, other)
    ensures r == other
  {
    var levels := CleanAndCap(k, Chain(h), max);
    if levels != [] {
      assert r == Join(CleanAndCap(k, levels, max)) == other;
    }
  }

  method FormatHeadingContext(k: Classes, h: Headings, max: int) returns (r: string)
    ensures Sane(k) ==> FormatsTo(k, h, max, r)
  {
    var chain := h.parents;
    if h.own != "" {
      chain := chain + [h.own];
    }
    assert chain == Chain(h);
    r := Join(CleanAndCap(k, chain, max));
    if Sane(k) {
      LevelsRoundTrip(k, chain, max);
    }
  }
}
