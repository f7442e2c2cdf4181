/** Facts about strings built around a separator character. */
module Text {

  predicate Lacks(s: string, c: char) {
    forall i :: 0 <= i < |s| ==> s[i] != c
  }

  /** In `x + [c] + r`, position `|x|` holds `c` and the positions before it hold `x`. */
  lemma SeparatorAt(x: string, c: char, r: string)
    ensures (x + [c] + r)[|x|] == c
    ensures forall i :: 0 <= i < |x| ==> (x + [c] + r)[i] == x[i]
    ensures forall i :: 0 <= i < |r| ==> (x + [c] + r)[|x| + 1 + i] == r[i]
  {
  }

  /** When neither head holds `c`, the first `c` splits the text the same way. */
  lemma SplitAtFirst(x1: string, r1: string, x2: string, r2: string, c: char)
    requires Lacks(x1, c) && Lacks(x2, c)
    requires x1 + [c] + r1 == x2 + [c] + r2
    ensures x1 == x2 && r1 == r2
  {
    SeparatorAt(x1, c, r1);
    SeparatorAt(x2, c, r2);
    if |x1| != |x2| {
      assert false;
    }
    var s := x1 + [c] + r1;
    assert x1 == s[..|x1|] == x2;
    assert r1 == s[|x1| + 1..] == r2;
  }

  /** When neither tail holds `c`, the last `c` splits the text the same way. */
  lemma SplitAtLast(x1: string, r1: string, x2: string, r2: string, c: char)
    requires Lacks(r1, c) && Lacks(r2, c)
    requires x1 + [c] + r1 == x2 + [c] + r2
    ensures x1 == x2 && r1 == r2
  {
    SeparatorAt(x1, c, r1);
    SeparatorAt(x2, c, r2);
    if |r1| != |r2| {
      assert false;
    }
    var s := x1 + [c] + r1;
    assert x1 == s[..|x1|] == x2;
    assert r1 == s[|x1| + 1..] == r2;
  }
}
