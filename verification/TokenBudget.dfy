/** Token counts and the character trims: binary searches for a cut that fits a budget. */
module TokenBudget {

  /** Any function at all: no monotonicity or additivity unless a contract says so. */
  type Tokenizer = string -> nat

  function Count(tok: Tokenizer, text: string): (r: nat)
    ensures text != "" ==> r == tok(text)
  {
    if text == "" then 0 else tok(text)
  }

  /** Extending a text on either side never lowers its count. */
  ghost predicate Monotone(tok: Tokenizer) {
    forall a: string, b: string {:trigger Count(tok, a + b)} ::
      Count(tok, a) <= Count(tok, a + b) && Count(tok, b) <= Count(tok, a + b)
  }

  ghost predicate Subadditive(tok: Tokenizer) {
    forall a: string, b: string {:trigger Count(tok, a + b)} :: Count(tok, a + b) <= Count(tok, a) + Count(tok, b)
  }

  predicate IsSuffix(part: string, text: string) {
    |part| <= |text| && text[|text| - |part|..] == part
  }

  predicate IsPrefix(part: string, text: string) {
    part <= text
  }

  /** The side of a text that survives a trim. */
  datatype Side = Head | Tail

  /** The part of a text next to the target, which lies past its end or before its start. */
  predicate IsEnd(part: string, text: string, side: Side) {
    if side == Tail then IsSuffix(part, text) else IsPrefix(part, text)
  }

  function Kept(text: string, chars: nat, side: Side): (r: string)
    requires chars <= |text|
    ensures |r| == chars
  {
    if side == Tail then text[|text| - chars..] else text[..chars]
  }

  lemma KeptIsEnd(text: string, chars: nat, side: Side)
    requires chars <= |text|
    ensures IsEnd(Kept(text, chars, side), text, side)
  {
  }

  lemma KeptGrows(tok: Tokenizer, text: string, few: nat, more: nat, side: Side)
    requires Monotone(tok) && few <= more <= |text|
    ensures Count(tok, Kept(text, few, side)) <= Count(tok, Kept(text, more, side))
  {
    var small, large := Kept(text, few, side), Kept(text, more, side);
    if side == Tail {
      assert large == large[..more - few] + small;
    } else {
      assert large == small + large[few..];
    }
  }

  /** No longer cut on the same side fits. */
  ghost predicate LongestFit(tok: Tokenizer, text: string, r: string, budget: nat, side: Side) {
    forall chars :: 0 <= chars <= |text| && Count(tok, Kept(text, chars, side)) <= budget ==> chars <= |r|
  }

  /** A cut within the budget: all of the text if it fits, the longest cut that does if longer
      texts never count less. */
  ghost predicate BestCut(tok: Tokenizer, text: string, budget: nat, side: Side, r: string) {
    && IsEnd(r, text, side) && Count(tok, r) <= budget
    && (Count(tok, text) <= budget ==> r == text)
    && (Monotone(tok) ==> LongestFit(tok, text, r, budget, side))
  }

  /** Drop characters from the head until the count fits. */
  method CharTrimLeading(text: string, budget: nat, tok: Tokenizer) returns (r: string)
    ensures BestCut(tok, text, budget, Tail, r)
  {
    if Count(tok, text) <= budget { return text; }
    var lo, hi := 0, |text|;
    while lo < hi
      invariant 0 <= lo <= hi <= |text|
      invariant Count(tok, text[hi..]) <= budget
      invariant Monotone(tok) ==> forall k :: 0 <= k < lo ==> Count(tok, text[k..]) > budget
    {
      var mid := (lo + hi) / 2;
      if Count(tok, text[mid..]) <= budget {
        hi := mid;
      } else {
        if Monotone(tok) {
          forall k | 0 <= k <= mid
            ensures Count(tok, text[k..]) > budget
          {
            KeptGrows(tok, text, |text| - mid, |text| - k, Tail);
          }
        }
        lo := mid + 1;
      }
    }
    r := text[lo..];
    forall chars | 0 <= chars <= |text| && Monotone(tok) && Count(tok, Kept(text, chars, Tail)) <= budget
      ensures chars <= |r|
    {
      assert Kept(text, chars, Tail) == text[|text| - chars..];
    }
  }

  /** Drop characters from the tail until the count fits. */
  method CharTrimTrailing(text: string, budget: nat, tok: Tokenizer) returns (r: string)
    ensures BestCut(tok, text, budget, Head, r)
  {
    if Count(tok, text) <= budget { return text; }
    var lo, hi := 0, |text|;
    while lo < hi
      invariant 0 <= lo <= hi <= |text|
      invariant Count(tok, text[..lo]) <= budget
      invariant Monotone(tok) ==> forall k :: hi < k <= |text| ==> Count(tok, text[..k]) > budget
    {
      var mid := (lo + hi + 1) / 2;
      if Count(tok, text[..mid]) <= budget {
        lo := mid;
      } else {
        if Monotone(tok) {
          forall k | mid <= k <= |text|
            ensures Count(tok, text[..k]) > budget
          {
            KeptGrows(tok, text, mid, k, Head);
          }
        }
        hi := mid - 1;
      }
    }
    r := text[..lo];
    forall chars | 0 <= chars <= |text| && Monotone(tok) && Count(tok, Kept(text, chars, Head)) <= budget
      ensures chars <= |r|
    {
      assert Kept(text, chars, Head) == text[..chars];
    }
  }
}
