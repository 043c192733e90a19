/** The lexicographic order on strings that both services sort symbols and claim identifiers by. */
module Text {

  predicate Less(a: string, b: string) {
    if |b| == 0 then false
    else if |a| == 0 then true
    else if a[0] != b[0] then a[0] < b[0]
    else Less(a[1..], b[1..])
  }

  lemma {:induction false} LessIrreflexive(a: string)
    ensures !Less(a, a)
  {
    if |a| > 0 {
      LessIrreflexive(a[1..]);
    }
  }

  lemma {:induction false} LessTotal(a: string, b: string)
    ensures Less(a, b) || Less(b, a) || a == b
  {
    if |a| > 0 && |b| > 0 && a[0] == b[0] {
      LessTotal(a[1..], b[1..]);
      assert a == [a[0]] + a[1..] && b == [b[0]] + b[1..];
    }
  }

  lemma {:induction false} LessTransitive(a: string, b: string, c: string)
    requires Less(a, b) && Less(b, c)
    ensures Less(a, c)
  {
    if |a| > 0 && a[0] == b[0] == c[0] {
      LessTransitive(a[1..], b[1..], c[1..]);
    }
  }

  lemma LessAsymmetric(a: string, b: string)
    ensures !(Less(a, b) && Less(b, a))
  {
    LessIrreflexive(a);
    if Less(a, b) && Less(b, a) {
      LessTransitive(a, b, a);
    }
  }

  /** The order is alphabetical: the first difference decides, and a proper prefix comes first. */
  lemma {:induction false} LessIsAlphabetical(a: string, b: string, k: nat)
    requires k <= |a| && k <= |b| && a[..k] == b[..k]
    ensures k < |a| && k < |b| && a[k] < b[k] ==> Less(a, b) && !Less(b, a)
    ensures k == |a| < |b| ==> Less(a, b) && !Less(b, a)
  {
    if k > 0 {
      assert a[0] == a[..k][0] == b[..k][0] == b[0];
      assert a[1..][..k - 1] == a[..k][1..] == b[..k][1..] == b[1..][..k - 1];
      LessIsAlphabetical(a[1..], b[1..], k - 1);
    }
  }

  /** `Less` is a strict total order; in quantified form, for the sorts that use it as a tie break. */
  lemma LessIsStrictTotalOrder()
    ensures forall a :: !Less(a, a)
    ensures forall a, b :: Less(a, b) || Less(b, a) || a == b
    ensures forall a, b, c :: Less(a, b) && Less(b, c) ==> Less(a, c)
  {
    forall a ensures !Less(a, a) {
      LessIrreflexive(a);
    }
    forall a, b ensures Less(a, b) || Less(b, a) || a == b {
      LessTotal(a, b);
    }
    forall a, b, c | Less(a, b) && Less(b, c) ensures Less(a, c) {
      LessTransitive(a, b, c);
    }
  }

  predicate IsSpace(c: char) {
    c in {' ', '\t', '\n', '\r', '\U{000b}', '\U{000c}'}
  }

  function TrimLeft(s: string): string {
    if |s| > 0 && IsSpace(s[0]) then TrimLeft(s[1..]) else s
  }

  function TrimRight(s: string): string {
    if |s| > 0 && IsSpace(s[|s| - 1]) then TrimRight(s[..|s| - 1]) else s
  }

  /** The string without the white space around it. */
  function Trim(s: string): string {
    TrimRight(TrimLeft(s))
  }

  /** A string without white space at either end is its own trimmed form. */
  lemma TrimmedStays(s: string)
    requires |s| > 0 && !IsSpace(s[0]) && !IsSpace(s[|s| - 1])
    ensures Trim(s) == s
  {
  }

  predicate StartsInInk(s: string) {
    |s| > 0 && !IsSpace(s[0])
  }

  lemma {:induction false} TrimRightKeepsInk(s: string)
    requires StartsInInk(s)
    ensures StartsInInk(TrimRight(s))
  {
    if IsSpace(s[|s| - 1]) {
      TrimRightKeepsInk(s[..|s| - 1]);
    }
  }

  lemma {:induction false} TrimLeftFindsInk(s: string)
    ensures TrimLeft(s) == "" || StartsInInk(TrimLeft(s))
  {
    if |s| > 0 && IsSpace(s[0]) {
      TrimLeftFindsInk(s[1..]);
    }
  }

  /** Trimming leaves nothing or a string that starts with something visible, and never empties such a string. */
  lemma TrimFindsInk(s: string)
    ensures Trim(s) == "" || StartsInInk(Trim(s))
    ensures StartsInInk(s) ==> StartsInInk(Trim(s))
  {
    TrimLeftFindsInk(s);
    if StartsInInk(TrimLeft(s)) {
      TrimRightKeepsInk(TrimLeft(s));
    }
  }

  ghost predicate Blank(s: string) {
    forall k :: 0 <= k < |s| ==> s[k] in {' ', '\t', '\n', '\r', '\U{000b}', '\U{000c}'}
  }

  lemma {:induction false} TrimLeftDropsBlanks(s: string) returns (n: nat)
    ensures n <= |s| && TrimLeft(s) == s[n..] && Blank(s[..n])
  {
    n := 0;
    if |s| > 0 && IsSpace(s[0]) {
      n := TrimLeftDropsBlanks(s[1..]);
      n := n + 1;
      assert s[n..] == s[1..][n - 1..] && s[..n] == [s[0]] + s[1..][..n - 1];
    }
  }

  lemma {:induction false} TrimRightDropsBlanks(s: string) returns (n: nat)
    ensures n <= |s| && TrimRight(s) == s[..n] && Blank(s[n..])
    ensures n > 0 ==> s[n - 1] !in {' ', '\t', '\n', '\r', '\U{000b}', '\U{000c}'}
  {
    n := |s|;
    if |s| > 0 && IsSpace(s[|s| - 1]) {
      n := TrimRightDropsBlanks(s[..|s| - 1]);
      assert s[n..] == s[..|s| - 1][n..] + [s[|s| - 1]] && s[..n] == s[..|s| - 1][..n];
    }
  }

  /** Trimming removes the white space at both ends and nothing else. */
  lemma TrimIsExact(s: string) returns (left: string, right: string)
    ensures s == left + Trim(s) + right && Blank(left) && Blank(right)
    ensures Trim(s) != "" ==> !Blank([Trim(s)[0]]) && !Blank([Trim(s)[|Trim(s)| - 1]])
  {
    hide TrimLeft, TrimRight;
    var n := TrimLeftDropsBlanks(s);
    var m := TrimRightDropsBlanks(s[n..]);
    left, right := s[..n], s[n..][m..];
    SplitTwice(s, n, m);
    TrimFindsInk(s);
    var trimmed := Trim(s);
    assert trimmed == s[n..][..m];
    if trimmed != "" {
      InkIsNotBlank(trimmed[0]);
      InkIsNotBlank(trimmed[|trimmed| - 1]);
    }
  }

  lemma SplitTwice(s: string, n: nat, m: nat)
    requires n <= |s| && m <= |s| - n
    ensures s == s[..n] + s[n..][..m] + s[n..][m..]
  {
  }

  lemma InkIsNotBlank(c: char)
    requires !IsSpace(c)
    ensures !Blank([c])
  {
    assert [c][0] == c;
  }
}
