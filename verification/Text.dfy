/** ASCII text: character classes, case folding, and the two orders strings are sorted in. */
module Text {

  predicate IsDigit(c: char) { '0' <= c <= '9' }

  /** `\w` on ASCII text. */
  predicate IsWord(c: char) {
    IsDigit(c) || 'a' <= c <= 'z' || 'A' <= c <= 'Z' || c == '_'
  }

  /** `[.,]`, the two decimal separators a reply may use. */
  predicate IsSep(c: char) { c == '.' || c == ',' }

  function Lower(c: char): char {
    if 'A' <= c <= 'Z' then ((c as int) + 32) as char else c
  }

  function LowerAll(s: string): (r: string)
    ensures |r| == |s|
    ensures forall k :: 0 <= k < |s| ==> r[k] == Lower(s[k])
  {
    if s == "" then "" else [Lower(s[0])] + LowerAll(s[1..])
  }

  /** The same text up to the case of its ASCII letters. */
  predicate SameButCase(a: string, b: string) {
    |a| == |b| &&
    forall k | 0 <= k < |a| ::
      a[k] == b[k] || ('A' <= a[k] <= 'Z' && b[k] as int == a[k] as int + 32) ||
      ('A' <= b[k] <= 'Z' && a[k] as int == b[k] as int + 32)
  }

  /** Folding case forgets exactly that. */
  lemma FoldsCase(a: string, b: string)
    ensures LowerAll(a) == LowerAll(b) <==> SameButCase(a, b)
  {
    if LowerAll(a) == LowerAll(b) {
      forall k | 0 <= k < |a| ensures Lower(a[k]) == Lower(b[k]) {
        assert LowerAll(a)[k] == LowerAll(b)[k];
      }
    }
    if SameButCase(a, b) {
      forall k | 0 <= k < |a| ensures LowerAll(a)[k] == LowerAll(b)[k] {
        assert Lower(a[k]) == Lower(b[k]);
      }
    }
  }

  lemma LowerAllConcat(a: string, b: string)
    ensures LowerAll(a + b) == LowerAll(a) + LowerAll(b)
  {
    assert |LowerAll(a + b)| == |LowerAll(a) + LowerAll(b)|;
    assert forall k :: 0 <= k < |a + b| ==> LowerAll(a + b)[k] == (LowerAll(a) + LowerAll(b))[k];
  }

  /** `w` stands in `s` at position `p`. */
  predicate OccursAt(w: string, s: string, p: nat) {
    p + |w| <= |s| && s[p..p + |w|] == w
  }

  // ---------------------------------------------------------------------------------
  // Orders
  // ---------------------------------------------------------------------------------

  /** Lexicographic order by code point, the order Python compares strings in. */
  predicate LexLeq(a: string, b: string) {
    a == "" || (b != "" && (a[0] < b[0] || (a[0] == b[0] && LexLeq(a[1..], b[1..]))))
  }

  /** `a` and `b` agree up to `k`, where `a` has the smaller character. */
  predicate DropsAt(a: string, b: string, k: nat) { k < |a| && k < |b| && a[..k] == b[..k] && a[k] < b[k] }

  /** What the order is: `a` is a start of `b`, or smaller at the first place they differ. */
  lemma {:induction false} LexExact(a: string, b: string)
    ensures LexLeq(a, b) <==> a <= b || exists k: nat :: DropsAt(a, b, k)
  {
    if a != "" && b != "" && a[0] == b[0] {
      LexExact(a[1..], b[1..]);
      assert a == [a[0]] + a[1..] && b == [b[0]] + b[1..];
      if k: nat :| DropsAt(a[1..], b[1..], k) {
        assert a[..k + 1] == [a[0]] + a[1..][..k] && b[..k + 1] == [b[0]] + b[1..][..k];
        assert DropsAt(a, b, k + 1);
      }
      if k: nat :| DropsAt(a, b, k) {
        assert k > 0 && a[1..][..k - 1] == a[..k][1..] && b[1..][..k - 1] == b[..k][1..];
        assert DropsAt(a[1..], b[1..], k - 1);
      }
    } else if a != "" && b != "" {
      if a[0] < b[0] { assert DropsAt(a, b, 0); }
      if k: nat :| DropsAt(a, b, k) { assert k > 0 ==> a[..k][0] == b[..k][0]; }
    }
  }

  lemma {:induction false} LexTotal(a: string, b: string)
    ensures LexLeq(a, b) || LexLeq(b, a)
    ensures LexLeq(a, b) && LexLeq(b, a) ==> a == b
  {
    if a != "" && b != "" && a[0] == b[0] {
      LexTotal(a[1..], b[1..]);
      assert a == [a[0]] + a[1..] && b == [b[0]] + b[1..];
    }
  }

  lemma {:induction false} LexTransitive(a: string, b: string, c: string)
    requires LexLeq(a, b) && LexLeq(b, c)
    ensures LexLeq(a, c)
  {
    if a != "" && a[0] == b[0] && b[0] == c[0] {
      LexTransitive(a[1..], b[1..], c[1..]);
    }
  }

  /** The sort key of a word list: plain lexicographic, or longest first with ties broken
      lexicographically. */
  predicate Before(longestFirst: bool, a: string, b: string) {
    if longestFirst && |a| != |b| then |a| > |b| else LexLeq(a, b)
  }

  lemma BeforeTotal(longestFirst: bool, a: string, b: string)
    ensures Before(longestFirst, a, b) || Before(longestFirst, b, a)
    ensures Before(longestFirst, a, b) && Before(longestFirst, b, a) ==> a == b
  {
    LexTotal(a, b);
  }

  lemma BeforeTransitive(longestFirst: bool, a: string, b: string, c: string)
    requires Before(longestFirst, a, b) && Before(longestFirst, b, c)
    ensures Before(longestFirst, a, c)
  {
    if LexLeq(a, b) && LexLeq(b, c) {
      LexTransitive(a, b, c);
    }
  }

  predicate IsFirst(longestFirst: bool, w: string, words: set<string>) {
    w in words && forall v | v in words :: Before(longestFirst, w, v)
  }

  lemma FirstExists(longestFirst: bool, words: set<string>)
    requires words != {}
    ensures exists w :: IsFirst(longestFirst, w, words)
    ensures forall v, w :: IsFirst(longestFirst, v, words) && IsFirst(longestFirst, w, words) ==> v == w
  {
    var x :| x in words;
    var rest := words - {x};
    BeforeTotal(longestFirst, x, x);
    if rest == {} {
      assert words == {x};
      assert IsFirst(longestFirst, x, words);
    } else {
      FirstExists(longestFirst, rest);
      var y :| IsFirst(longestFirst, y, rest);
      BeforeTotal(longestFirst, x, y);
      var w := if Before(longestFirst, x, y) then x else y;
      forall v | v in words ensures Before(longestFirst, w, v) {
        if v != x && w == x {
          BeforeTransitive(longestFirst, x, y, v);
        }
      }
      assert IsFirst(longestFirst, w, words);
    }
    forall v: string, w: string ensures Before(longestFirst, v, w) && Before(longestFirst, w, v) ==> v == w {
      BeforeTotal(longestFirst, v, w);
    }
  }

  ghost predicate Ordered(longestFirst: bool, words: seq<string>) {
    forall i, j :: 0 <= i < j < |words| ==> words[i] != words[j] && Before(longestFirst, words[i], words[j])
  }

  /** `sorted(words)`, or `sorted(words, key=len, reverse=True)` with a fixed choice among
      words of equal length. */
  function SortWords(longestFirst: bool, words: set<string>): (r: seq<string>)
    ensures forall w :: w in r <==> w in words
    ensures Ordered(longestFirst, r)
  {
    if words == {} then []
    else
      FirstExists(longestFirst, words);
      var w :| IsFirst(longestFirst, w, words);
      [w] + SortWords(longestFirst, words - {w})
  }

  /** An ordered word list is determined by its set of words. */
  lemma {:induction false} OrderedUnique(longestFirst: bool, a: seq<string>, b: seq<string>)
    requires Ordered(longestFirst, a) && Ordered(longestFirst, b)
    requires forall w :: w in a <==> w in b
    ensures a == b
  {
    if b != [] { assert b[0] in a; }
    if a != [] {
      assert a[0] in b;
      BeforeTotal(longestFirst, a[0], b[0]);
      assert a[0] == b[0];
      forall w ensures w in a[1..] <==> w in b[1..] {
        if w in a[1..] { assert w in b && w != a[0]; }
        if w in b[1..] { assert w in a && w != b[0]; }
      }
      OrderedUnique(longestFirst, a[1..], b[1..]);
      assert a == [a[0]] + a[1..] && b == [b[0]] + b[1..];
    }
  }
}
