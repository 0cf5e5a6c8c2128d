/** The token estimate used when a provider reports no usage. */
module Estimator {

  /** `cjk` and `other` partition the runes of the text. */
  datatype Estimate = Estimate(tokens: nat, characters: nat, cjk: nat, other: nat)

  /** The script test of a rune; the Unicode tables behind it are a parameter. */
  type ScriptTest = char -> bool

  function CeilDiv(value: nat, divisor: nat): nat
    requires divisor > 0
  {
    if value == 0 then 0 else (value + divisor - 1) / divisor
  }

  function CountCjk(isCjk: ScriptTest, text: string): (n: nat)
    ensures n <= |text|
  {
    if text == "" then 0 else CountCjk(isCjk, text[..|text| - 1]) + if isCjk(text[|text| - 1]) then 1 else 0
  }

  /** Tokens of a text: one for every CJK rune and one for every started group of four other runes. */
  function Tokens(isCjk: ScriptTest, text: string): nat {
    var cjk := CountCjk(isCjk, text);
    cjk + CeilDiv(|text| - cjk, 4)
  }

  method EstimateTextV1(isCjk: ScriptTest, text: string) returns (e: Estimate)
    ensures e.tokens == Tokens(isCjk, text)
    ensures e.characters == |text| == e.cjk + e.other
    ensures e.cjk == CountCjk(isCjk, text)
  {
    var cjk, other := 0, 0;
    for i := 0 to |text|
      invariant cjk == CountCjk(isCjk, text[..i]) && cjk + other == i
    {
      assert text[..i + 1][..i] == text[..i];
      if isCjk(text[i]) {
        cjk := cjk + 1;
      } else {
        other := other + 1;
      }
    }
    assert text[..|text|] == text;
    var tokens := cjk + CeilDiv(other, 4);
    if text != "" && tokens == 0 {
      tokens := 1;
    }
    e := Estimate(tokens, cjk + other, cjk, other);
  }

  lemma {:induction false} CountSplit(isCjk: ScriptTest, left: string, right: string)
    ensures CountCjk(isCjk, left + right) == CountCjk(isCjk, left) + CountCjk(isCjk, right)
  {
    if right == "" {
      assert left + right == left;
    } else {
      var s := left + right;
      assert s[..|s| - 1] == left + right[..|right| - 1];
      CountSplit(isCjk, left, right[..|right| - 1]);
    }
  }

  /** One token for every CJK rune, and one for every four of the others, the last group started or full. */
  lemma TokensExactly(isCjk: ScriptTest, text: string)
    ensures var cjk := |set i | 0 <= i < |text| && isCjk(text[i])|;
            var other := |text| - cjk;
            && CountCjk(isCjk, text) == cjk
            && 4 * (Tokens(isCjk, text) - cjk) >= other > 4 * (Tokens(isCjk, text) - cjk) - 4
  {
    CountsPositions(isCjk, text);
  }

  ghost function Positions(isCjk: ScriptTest, text: string): set<int> {
    set i | 0 <= i < |text| && isCjk(text[i])
  }

  lemma PositionsMore(isCjk: ScriptTest, text: string)
    requires text != ""
    ensures var last := |text| - 1;
            Positions(isCjk, text) == Positions(isCjk, text[..last]) + if isCjk(text[last]) then {last} else {}
    ensures |text| - 1 !in Positions(isCjk, text[..|text| - 1])
  {
  }

  lemma {:induction false} CountsPositions(isCjk: ScriptTest, text: string)
    ensures CountCjk(isCjk, text) == |Positions(isCjk, text)|
  {
    if text == "" {
      assert Positions(isCjk, text) == {};
    } else {
      CountsPositions(isCjk, text[..|text| - 1]);
      PositionsMore(isCjk, text);
      hide Positions;
    }
  }

  /** Estimating a text in two parts never loses a token and adds at most one. */
  lemma EstimateConcat(isCjk: ScriptTest, left: string, right: string)
    ensures 0 <= Tokens(isCjk, left) + Tokens(isCjk, right) - Tokens(isCjk, left + right) <= 1
  {
    CountSplit(isCjk, left, right);
  }

  lemma NonEmptyTextHasTokens(isCjk: ScriptTest, text: string)
    ensures Tokens(isCjk, text) >= 1 <==> text != ""
  {
  }

  /** The estimate depends only on which runes occur and how often, not on their order. */
  lemma {:induction false} EstimatePermutation(isCjk: ScriptTest, left: string, right: string)
    requires multiset(left) == multiset(right)
    ensures Tokens(isCjk, left) == Tokens(isCjk, right)
  {
    CountPermutation(isCjk, left, right);
    assert |left| == |multiset(left)| == |right|;
  }

  lemma {:induction false} CountPermutation(isCjk: ScriptTest, left: string, right: string)
    requires multiset(left) == multiset(right)
    ensures CountCjk(isCjk, left) == CountCjk(isCjk, right)
    decreases |left|
  {
    hide CountCjk;
    assert |multiset(left)| == |left| && |multiset(right)| == |right|;
    if left != "" {
      var init, last := left[..|left| - 1], left[|left| - 1];
      assert left == init + [last];
      assert last in multiset(right);
      var k :| 0 <= k < |right| && right[k] == last;
      var front, back := right[..k], right[k + 1..];
      TakeOut(front, last, back, right);
      assert multiset(init) == multiset(left) - multiset{last};
      CountPermutation(isCjk, init, front + back);
      CountWithout(isCjk, front, last, back, right);
      CountSplit(isCjk, init, [last]);
    }
  }

  lemma CountWithout(isCjk: ScriptTest, front: string, c: char, back: string, whole: string)
    requires whole == front + [c] + back
    ensures CountCjk(isCjk, whole) == CountCjk(isCjk, front + back) + CountCjk(isCjk, [c])
  {
    hide CountCjk;
    CountSplit(isCjk, front + [c], back);
    CountSplit(isCjk, front, back);
    CountSplit(isCjk, front, [c]);
  }

  lemma TakeOut(front: string, c: char, back: string, whole: string)
    requires whole == front + [c] + back
    ensures multiset(front + back) == multiset(whole) - multiset{c}
  {
  }
}
