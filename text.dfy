/** String operations the kernel uses from the JavaScript runtime:
    `includes`, `toLowerCase`, `join`, and the decimal rendering of a
    non-negative integer, each with an independent inverse or
    characterisation. */
module Text {

  /** `s.includes(t)`: `t` occurs in `s` as a contiguous block. */
  predicate Contains(s: string, t: string) {
    exists i :: 0 <= i <= |s| - |t| && OccursAt(s, t, i)
  }

  predicate OccursAt(s: string, t: string, i: int) {
    0 <= i <= |s| - |t| && s[i..i + |t|] == t
  }

  predicate StartsWith(s: string, p: string) {
    |p| <= |s| && s[..|p|] == p
  }

  predicate EndsWith(s: string, p: string) {
    |p| <= |s| && s[|s| - |p|..] == p
  }

  /** A block found inside a prefix is still found after appending. */
  lemma ContainsAppend(s: string, u: string, t: string)
    requires Contains(s, t) || Contains(u, t)
    ensures Contains(s + u, t)
  {
    if Contains(s, t) {
      var i :| 0 <= i <= |s| - |t| && OccursAt(s, t, i);
      assert OccursAt(s + u, t, i) by { assert (s + u)[i..i + |t|] == t; }
    } else {
      var i :| 0 <= i <= |u| - |t| && OccursAt(u, t, i);
      assert OccursAt(s + u, t, |s| + i) by { assert (s + u)[|s| + i..|s| + i + |t|] == t; }
    }
  }

  // ---------------------------------------------------------------------
  // Lower case (ASCII letters only)

  function LowerChar(c: char): (r: char)
    ensures 'A' <= c <= 'Z' ==> r as int == c as int + 32
    ensures !('A' <= c <= 'Z') ==> r == c
  {
    if 'A' <= c <= 'Z' then (c as int + 32) as char else c
  }

  /** `s.toLowerCase()`, restricted to the ASCII letters. */
  function Lower(s: string): string {
    if s == [] then [] else [LowerChar(s[0])] + Lower(s[1..])
  }

  lemma {:induction false} LowerAt(s: string)
    ensures |Lower(s)| == |s|
    ensures forall i :: 0 <= i < |s| ==> Lower(s)[i] == LowerChar(s[i])
  {
    if s != [] {
      LowerAt(s[1..]);
    }
  }

  /** Lower-casing works character by character, so it distributes over `+`. */
  lemma {:induction false} LowerAppend(s: string, u: string)
    ensures Lower(s + u) == Lower(s) + Lower(u)
  {
    if s == [] {
      assert s + u == u;
    } else {
      assert (s + u)[1..] == s[1..] + u;
      LowerAppend(s[1..], u);
    }
  }

  // ---------------------------------------------------------------------
  // Array.prototype.join and its inverse for a one-character separator

  /** `xs.join(sep)`: the empty array gives "". */
  function Join(xs: seq<string>, sep: string): string {
    if |xs| == 0 then ""
    else if |xs| == 1 then xs[0]
    else Join(xs[..|xs| - 1], sep) + sep + xs[|xs| - 1]
  }

  lemma {:induction false} JoinCons(x: string, xs: seq<string>, sep: string)
    requires |xs| > 0
    ensures Join([x] + xs, sep) == x + sep + Join(xs, sep)
  {
    if |xs| == 1 {
      assert [x] + xs == [x, xs[0]];
      assert ([x] + xs)[..1] == [x];
    } else {
      var n := |xs|;
      assert ([x] + xs)[..n] == [x] + xs[..n - 1];
      JoinCons(x, xs[..n - 1], sep);
    }
  }

  /** Every joined piece can be found in the result. */
  lemma {:induction false} JoinHolds(xs: seq<string>, sep: string, i: nat)
    requires i < |xs|
    ensures Contains(Join(xs, sep), xs[i])
  {
    if |xs| == 1 {
      assert OccursAt(xs[0], xs[0], 0);
    } else {
      var init, last := xs[..|xs| - 1], xs[|xs| - 1];
      assert Join(xs, sep) == Join(init, sep) + sep + last;
      if i < |xs| - 1 {
        assert init[i] == xs[i];
        JoinHolds(init, sep, i);
        ContainsAppend(Join(init, sep), sep, xs[i]);
        ContainsAppend(Join(init, sep) + sep, last, xs[i]);
      } else {
        assert OccursAt(last, last, 0);
        ContainsAppend(Join(init, sep) + sep, last, last);
      }
    }
  }

  predicate Free(s: string, c: char) {
    forall i :: 0 <= i < |s| ==> s[i] != c
  }

  /** Cut `s` at every occurrence of `c` (`s.split(c)`). */
  function Split(s: string, c: char): (r: seq<string>)
    ensures |r| > 0
    decreases |s|
  {
    if Free(s, c) then [s]
    else
      var k := FirstIndex(s, c);
      [s[..k]] + Split(s[k + 1..], c)
  }

  function FirstIndex(s: string, c: char): (k: nat)
    requires !Free(s, c)
    ensures k < |s| && s[k] == c && Free(s[..k], c)
  {
    if s[0] == c then 0 else 1 + FirstIndex(s[1..], c)
  }

  /** Splitting a joined list gives the list back when no piece holds the separator. */
  lemma {:induction false} SplitJoin(xs: seq<string>, c: char)
    requires |xs| > 0
    requires forall i :: 0 <= i < |xs| ==> Free(xs[i], c)
    ensures Split(Join(xs, [c]), c) == xs
  {
    if |xs| > 1 {
      var x, rest := xs[0], xs[1..];
      assert xs == [x] + rest;
      JoinCons(x, rest, [c]);
      var s := Join(xs, [c]);
      assert s == x + [c] + Join(rest, [c]);
      assert !Free(s, c) by { assert s[|x|] == c; }
      var k := FirstIndex(s, c);
      assert k == |x|;
      assert s[..k] == x;
      assert s[k + 1..] == Join(rest, [c]);
      SplitJoin(rest, c);
    }
  }

  // ---------------------------------------------------------------------
  // Decimal rendering of non-negative integers (`String(n)` for n < 10^21)

  predicate IsDigit(c: char) {
    '0' <= c <= '9'
  }

  predicate AllDigits(s: string) {
    forall i :: 0 <= i < |s| ==> IsDigit(s[i])
  }

  function DigitChar(d: nat): (c: char)
    requires d < 10
    ensures IsDigit(c) && c as int - '0' as int == d
  {
    ('0' as int + d) as char
  }

  /** The shortest decimal numeral of `n`, as `${n}` prints an integer. */
  function NatStr(n: nat): (s: string)
    ensures |s| > 0 && AllDigits(s)
    ensures |s| > 1 ==> s[0] != '0'
  {
    if n < 10 then [DigitChar(n)] else NatStr(n / 10) + [DigitChar(n % 10)]
  }

  /** The value of a numeral (the independent reading of `NatStr`). */
  function ParseNat(s: string): nat
    requires AllDigits(s)
  {
    if s == [] then 0
    else 10 * ParseNat(s[..|s| - 1]) + (s[|s| - 1] as int - '0' as int)
  }

  lemma {:induction false} ParseNatStr(n: nat)
    ensures ParseNat(NatStr(n)) == n
  {
    if n >= 10 {
      var s := NatStr(n);
      assert s[..|s| - 1] == NatStr(n / 10);
      ParseNatStr(n / 10);
    }
  }

  /** The length of the run of digits at the front of `s`. */
  function DigitRun(s: string): (k: nat)
    ensures k <= |s| && AllDigits(s[..k])
    ensures k < |s| ==> !IsDigit(s[k])
  {
    if s == [] || !IsDigit(s[0]) then 0
    else
      var k := DigitRun(s[1..]);
      assert s[..k + 1] == [s[0]] + s[1..][..k];
      k + 1
  }

  lemma {:induction false} DigitRunOf(d: string, rest: string)
    requires AllDigits(d)
    requires rest == [] || !IsDigit(rest[0])
    ensures DigitRun(d + rest) == |d|
  {
    if d != [] {
      assert (d + rest)[1..] == d[1..] + rest;
      DigitRunOf(d[1..], rest);
    }
  }
}
