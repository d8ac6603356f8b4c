/** Shared vocabulary: optional values, the outcome of an external call, and the
    string operations the program uses. */
module Prelude {

  datatype Option<+T> = None | Some(value: T)

  /** What an external call did: it came back with a value, or it raised. */
  datatype Reply<+T> = Returned(value: T) | Raised(error: string)

  function Max(a: int, b: int): int {
    if a < b then b else a
  }

  function Min(a: int, b: int): int {
    if b < a then b else a
  }

  function LowerChar(c: char): char {
    if 'A' <= c <= 'Z' then (c as int + 32) as char else c
  }

  function Lower(s: string): string {
    seq(|s|, i requires 0 <= i < |s| => LowerChar(s[i]))
  }

  /** Lower-casing keeps the length, moves the letters A to Z up by 32 code points and nothing else. */
  lemma LowerExactly(s: string, i: nat)
    requires i < |s|
    ensures |Lower(s)| == |s|
    ensures Lower(s)[i] as int == if 65 <= s[i] as int <= 90 then s[i] as int + 32 else s[i] as int
  {
  }

  function Decimal(n: nat): string {
    (if n < 10 then "" else Decimal(n / 10)) + [['0', '1', '2', '3', '4', '5', '6', '7', '8', '9'][n % 10]]
  }

  predicate IsDigit(c: char) {
    48 <= c as int <= 57
  }

  /** The number a string of digits stands for. */
  function NumberOf(digits: string): int
  {
    if digits == "" then 0
    else
      var last := digits[|digits| - 1];
      10 * NumberOf(digits[..|digits| - 1]) + (last as int - 48)
  }

  predicate AllDigits(s: string) {
    forall c :: c in s ==> IsDigit(c)
  }

  lemma AppendDigit(front: string, n: nat)
    requires AllDigits(front) && n < 10
    ensures var s := front + [['0', '1', '2', '3', '4', '5', '6', '7', '8', '9'][n]];
      AllDigits(s) && NumberOf(s) == 10 * NumberOf(front) + n
  {
    var last := ['0', '1', '2', '3', '4', '5', '6', '7', '8', '9'][n];
    assert last as int == 48 + n;
    assert (front + [last])[..|front|] == front;
  }

  /** The decimal form of a number: digits that stand for it, and no leading zero. */
  lemma {:induction false} DecimalExactly(n: nat)
    ensures Decimal(n) != "" && AllDigits(Decimal(n)) && NumberOf(Decimal(n)) == n
    ensures n > 0 ==> Decimal(n)[0] != '0'
  {
    hide NumberOf, AllDigits;
    if n >= 10 {
      DecimalExactly(n / 10);
      AppendDigit(Decimal(n / 10), n % 10);
    } else {
      NoDigits();
      AppendDigit("", n);
    }
  }

  lemma NoDigits()
    ensures AllDigits("") && NumberOf("") == 0
  {
  }

  /** `sub in s` on strings. */
  predicate Contains(s: string, sub: string) {
    sub <= s || (s != "" && Contains(s[1..], sub))
  }

  lemma {:induction false} ContainsInfix(pre: string, sub: string, post: string)
    ensures Contains(pre + sub + post, sub)
  {
    if pre == "" {
      assert pre + sub + post == sub + post;
    } else {
      ContainsInfix(pre[1..], sub, post);
      assert (pre + sub + post)[1..] == pre[1..] + sub + post;
    }
  }

  function ToSet<T>(s: seq<T>): set<T> {
    set x | x in s
  }

  /** No element occurs twice. */
  predicate Distinct<T(==)>(s: seq<T>) {
    forall i, j :: 0 <= i < j < |s| ==> s[i] != s[j]
  }

  // ---------------------------------------------------------------------
  // Filtering a sequence
  // ---------------------------------------------------------------------

  function Kept<T>(s: seq<T>, keep: T -> bool): seq<T> {
    if s == [] then [] else Kept(s[..|s| - 1], keep) + if keep(s[|s| - 1]) then [s[|s| - 1]] else []
  }

  lemma {:induction false} KeptConcat<T>(a: seq<T>, b: seq<T>, keep: T -> bool)
    ensures Kept(a + b, keep) == Kept(a, keep) + Kept(b, keep)
  {
    if b == [] {
      assert a + b == a;
    } else {
      KeptConcat(a, b[..|b| - 1], keep);
      assert (a + b)[..|a + b| - 1] == a + b[..|b| - 1];
    }
  }

  lemma {:induction false} KeptAll<T>(s: seq<T>, keep: T -> bool)
    requires forall x :: x in s ==> keep(x)
    ensures Kept(s, keep) == s
  {
    if s != [] {
      KeptAll(s[..|s| - 1], keep);
      assert s == s[..|s| - 1] + [s[|s| - 1]];
    }
  }

  lemma {:induction false} KeptNone<T>(s: seq<T>, keep: T -> bool)
    requires forall x :: x in s ==> !keep(x)
    ensures Kept(s, keep) == []
  {
    if s != [] {
      KeptNone(s[..|s| - 1], keep);
    }
  }

  lemma KeptBetween<T>(a: seq<T>, b: seq<T>, c: seq<T>, keep: T -> bool, drop: T -> bool)
    requires forall x :: x in a ==> keep(x) && !drop(x)
    requires forall x :: x in b ==> drop(x) && !keep(x)
    ensures Kept(a + b + c, keep) == a + Kept(c, keep)
    ensures Kept(a + b + c, drop) == b + Kept(c, drop)
  {
    hide Kept;
    KeptConcat(a + b, c, keep);
    KeptConcat(a, b, keep);
    KeptAll(a, keep);
    KeptNone(b, keep);
    assert Kept(a + b, keep) == a;
    KeptConcat(a + b, c, drop);
    KeptConcat(a, b, drop);
    KeptNone(a, drop);
    KeptAll(b, drop);
    assert Kept(a + b, drop) == b;
  }
}
