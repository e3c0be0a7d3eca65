/** The string keys of the Loop's tables: `interpretation:action` and `interpretation:action:generation`. */
module LoopKeys {
  import opened Numerals

  lemma {:induction false} DecimalHasNoColon(n: nat)
    ensures ':' !in Decimal(n)
  {
    if n >= 10 {
      DecimalHasNoColon(n / 10);
    }
  }

  function ActionKey(interpretation: string, action: string): string { interpretation + ":" + action }

  function DedupKey(key: string, generation: nat): string { key + ":" + Decimal(generation) }

  lemma ColonInTail(x: string, d: string, y: string, e: string)
    requires x + ":" + d == y + ":" + e && |x| < |y|
    ensures ':' in d
  {
    assert (y + ":" + e)[|y|] == ':';
    assert (x + ":" + d)[|y|] == d[|y| - |x| - 1];
  }

  /** The last colon of a dedup key is the one in front of the generation. */
  lemma LastColon(x: string, d: string, y: string, e: string)
    requires x + ":" + d == y + ":" + e && ':' !in d && ':' !in e
    ensures x == y && d == e
  {
    var s := x + ":" + d;
    if |x| < |y| {
      ColonInTail(x, d, y, e);
    } else if |y| < |x| {
      ColonInTail(y, e, x, d);
    } else {
      assert s[..|x|] == x && s[..|y|] == y;
      assert s[|x| + 1..] == d && s[|y| + 1..] == e;
    }
  }

  /** A dedup key determines action key and generation, whatever characters the action key holds. */
  lemma DedupKeyIsInjective(k1: string, g1: nat, k2: string, g2: nat)
    requires DedupKey(k1, g1) == DedupKey(k2, g2)
    ensures k1 == k2 && g1 == g2
  {
    DecimalHasNoColon(g1);
    DecimalHasNoColon(g2);
    LastColon(k1, Decimal(g1), k2, Decimal(g2));
    DecimalReadsBack(g1);
    DecimalReadsBack(g2);
  }

  /** Within one interpretation an action key determines the action. */
  lemma ActionKeyIsInjective(interpretation: string, a: string, b: string)
    requires ActionKey(interpretation, a) == ActionKey(interpretation, b)
    ensures a == b
  {
    var n := |interpretation| + 1;
    assert ActionKey(interpretation, a)[n..] == a && ActionKey(interpretation, b)[n..] == b;
  }

  /** The shorter of two ids that share a key, with its colon, opens the longer. */
  lemma ShorterIdOpensLonger(i1: string, a1: string, i2: string, a2: string)
    requires ActionKey(i1, a1) == ActionKey(i2, a2) && |i1| < |i2|
    ensures i1 + ":" <= i2
  {
    var n := |i1| + 1;
    assert ActionKey(i1, a1)[..n] == i1 + ":";
    assert ActionKey(i2, a2)[..n] == i2[..n];
  }

  lemma OpeningIdCollides(i1: string, i2: string)
    requires i1 + ":" <= i2
    ensures exists a1, a2 :: ActionKey(i1, a1) == ActionKey(i2, a2)
  {
    var rest := i2[|i1| + 1..];
    assert i2 == i1 + ":" + rest;
    assert ActionKey(i1, rest + ":") == ActionKey(i2, "");
  }

  /** Two interpretations can share an action key exactly when one id, with a colon after it, opens the other. */
  lemma IdsCollideExactly(i1: string, i2: string)
    ensures (exists a1, a2 :: ActionKey(i1, a1) == ActionKey(i2, a2)) <==> i1 == i2 || i1 + ":" <= i2 || i2 + ":" <= i1
  {
    hide ActionKey;
    if a1, a2 :| ActionKey(i1, a1) == ActionKey(i2, a2) {
      if |i1| < |i2| {
        ShorterIdOpensLonger(i1, a1, i2, a2);
      } else if |i2| < |i1| {
        ShorterIdOpensLonger(i2, a2, i1, a1);
      } else {
        SameLengthIds(i1, a1, i2, a2);
      }
    }
    if i1 == i2 {
      assert ActionKey(i1, "") == ActionKey(i2, "");
    } else if i1 + ":" <= i2 {
      OpeningIdCollides(i1, i2);
    } else if i2 + ":" <= i1 {
      OpeningIdCollides(i2, i1);
    }
  }

  /** In particular, keys of ids without a colon determine interpretation and action. */
  lemma ActionKeyIsInjectiveAcross(i1: string, a1: string, i2: string, a2: string)
    requires ActionKey(i1, a1) == ActionKey(i2, a2) && ':' !in i1 && ':' !in i2
    ensures i1 == i2 && a1 == a2
  {
    hide ActionKey;
    IdsCollideExactly(i1, i2);
    OpenerHoldsColon(i1, i2);
    OpenerHoldsColon(i2, i1);
    ActionKeyIsInjective(i1, a1, a2);
  }

  lemma OpenerHoldsColon(i1: string, i2: string)
    ensures i1 + ":" <= i2 ==> ':' in i2
  {
    if i1 + ":" <= i2 {
      assert i2[|i1|] == (i1 + ":")[|i1|];
    }
  }

  lemma SameLengthIds(i1: string, a1: string, i2: string, a2: string)
    requires ActionKey(i1, a1) == ActionKey(i2, a2) && |i1| == |i2|
    ensures i1 == i2
  {
    var s := ActionKey(i1, a1);
    assert s[..|i1|] == i1 && s[..|i2|] == i2;
  }

  /** For one: with a colon in an id, two actions of two interpretations share a key. */
  lemma ActionKeysCanCollide()
    ensures ActionKey("a:b", "c") == ActionKey("a", "b:c")
  {
  }
}
