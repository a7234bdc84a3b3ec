/** The two text tools of the wire format: cutting a string at the first occurrence of a separator, and
    bounded decimal numbers. */
module Text {
  import opened Types

  /** `pattern` stands in `s` at position `i`. */
  predicate StandsAt(s: string, pattern: string, i: nat) {
    i + |pattern| <= |s| && s[i..i + |pattern|] == pattern
  }

  /** Cuts at the leftmost occurrence. */
  function SplitOnce(s: string, pattern: string): Option<(string, string)> {
    if StandsAt(s, pattern, 0) then Some(("", s[|pattern|..]))
    else if s == "" then None
    else match SplitOnce(s[1..], pattern)
      case Some((first, second)) => Some(([s[0]] + first, second))
      case None => None
  }

  lemma StandsAtLater(s: string, pattern: string, i: nat)
    requires s != ""
    ensures StandsAt(s, pattern, i + 1) <==> StandsAt(s[1..], pattern, i)
  {
    if i + 1 + |pattern| <= |s| {
      assert s[i + 1..i + 1 + |pattern|] == s[1..][i..i + |pattern|];
    }
  }

  ghost predicate IsCut(s: string, pattern: string, cut: Option<(string, string)>) {
    match cut
    case Some((a, b)) => s == a + pattern + b && forall i :: 0 <= i < |a| ==> !StandsAt(s, pattern, i)
    case None => forall i :: 0 <= i <= |s| ==> !StandsAt(s, pattern, i)
  }

  lemma CutLater(s: string, pattern: string, cut: Option<(string, string)>)
    requires s != "" && !StandsAt(s, pattern, 0) && IsCut(s[1..], pattern, cut)
    ensures IsCut(s, pattern, match cut case Some((a, b)) => Some(([s[0]] + a, b)) case None => None)
  {
    forall i | 1 <= i <= |s| ensures StandsAt(s, pattern, i) <==> StandsAt(s[1..], pattern, i - 1) {
      StandsAtLater(s, pattern, i - 1);
    }
    match cut {
      case Some((a, b)) => assert s == [s[0]] + (a + pattern + b) == ([s[0]] + a) + pattern + b;
      case None =>
    }
  }

  /** The cut is where it should be, and there is no earlier place for it. */
  lemma {:induction false} SplitSound(s: string, pattern: string)
    ensures IsCut(s, pattern, SplitOnce(s, pattern))
    decreases |s|
  {
    if StandsAt(s, pattern, 0) {
      assert s == "" + pattern + s[|pattern|..];
    } else if s != "" {
      SplitSound(s[1..], pattern);
      CutLater(s, pattern, SplitOnce(s[1..], pattern));
    }
  }

  /** A cut is the result exactly when it puts the string back together and no earlier cut is possible. */
  lemma SplitExactly(s: string, pattern: string, a: string, b: string)
    ensures SplitOnce(s, pattern) == Some((a, b)) <==>
            s == a + pattern + b && forall i :: 0 <= i < |a| ==> !StandsAt(s, pattern, i)
  {
    SplitSound(s, pattern);
    if s == a + pattern + b && forall i :: 0 <= i < |a| ==> !StandsAt(s, pattern, i) {
      assert StandsAt(s, pattern, |a|);
      var (c, d) := SplitOnce(s, pattern).value;
      assert StandsAt(c + pattern + d, pattern, |c|);
      assert |a| == |c|;
      assert a == s[..|a|] == c;
      assert b == s[|a| + |pattern|..] == d;
    }
  }

  predicate IsDigit(c: char) {
    '0' <= c <= '9'
  }

  function DigitChar(d: nat): (c: char)
    requires d < 10
    ensures IsDigit(c) && DigitValue(c) == d
  {
    '0' + d as char
  }

  function DigitValue(c: char): nat
    requires IsDigit(c)
  {
    (c - '0') as nat
  }

  function Decimal(n: nat): (s: string)
    ensures s != ""
    ensures forall i :: 0 <= i < |s| ==> IsDigit(s[i])
  {
    if n < 10 then [DigitChar(n)] else Decimal(n / 10) + [DigitChar(n % 10)]
  }

  /** A number is written in base ten, its last digit last. */
  lemma DecimalIsPositional(n: nat, d: nat)
    requires d < 10
    ensures Decimal(d) == ["0123456789"[d]]
    ensures n > 0 ==> Decimal(10 * n + d) == Decimal(n) + ["0123456789"[d]]
  {
    assert DigitChar(d) == "0123456789"[d];
    assert (10 * n + d) / 10 == n && (10 * n + d) % 10 == d;
  }

  /** Digits from the left, giving up as soon as the number no longer fits. */
  function ParseDigits(s: string, acc: nat, limit: nat): (n: Option<nat>)
    requires acc < limit
    ensures n.Some? ==> n.value < limit
  {
    if s == "" then Some(acc)
    else if !IsDigit(s[0]) then None
    else
      var next := acc * 10 + DigitValue(s[0]);
      if next < limit then ParseDigits(s[1..], next, limit) else None
  }

  /** An unsigned number below `limit`; one leading plus sign is allowed. */
  function ParseUnsigned(s: string, limit: nat): (n: Option<nat>)
    requires limit > 0
    ensures n.Some? ==> n.value < limit
  {
    if s == "" || s == "+" then None
    else if s[0] == '+' then ParseDigits(s[1..], 0, limit)
    else ParseDigits(s, 0, limit)
  }

  lemma {:induction false} ParseDigitsAppend(s: string, c: char, acc: nat, limit: nat)
    requires acc < limit && IsDigit(c)
    ensures ParseDigits(s + [c], acc, limit) ==
            match ParseDigits(s, acc, limit)
            case Some(n) => (if n * 10 + DigitValue(c) < limit then Some(n * 10 + DigitValue(c)) else None)
            case None => None
  {
    if s == "" {
      assert ("" + [c])[1..] == "";
    } else {
      assert (s + [c])[1..] == s[1..] + [c];
      if IsDigit(s[0]) && acc * 10 + DigitValue(s[0]) < limit {
        ParseDigitsAppend(s[1..], c, acc * 10 + DigitValue(s[0]), limit);
      }
    }
  }

  lemma {:induction false} ParseDecimalDigits(n: nat, limit: nat)
    requires n < limit
    ensures ParseDigits(Decimal(n), 0, limit) == Some(n)
  {
    if n < 10 {
      assert [DigitChar(n)][1..] == "";
    } else {
      ParseDecimalDigits(n / 10, limit);
      ParseDigitsAppend(Decimal(n / 10), DigitChar(n % 10), 0, limit);
    }
  }

  /** Reading back a printed number. */
  lemma DecimalRoundTrip(n: nat, limit: nat)
    requires n < limit
    ensures ParseUnsigned(Decimal(n), limit) == Some(n)
  {
    ParseDecimalDigits(n, limit);
    assert IsDigit(Decimal(n)[0]);
  }

  predicate NoHash(s: string) {
    forall i :: 0 <= i < |s| ==> s[i] != '#'
  }

  lemma DecimalHasNoHash(n: nat)
    ensures NoHash(Decimal(n)) && Decimal(n) != ""
  {
  }

  /** Cutting at `#` after a part without it. */
  lemma SplitAtHash(a: string, b: string)
    requires NoHash(a)
    ensures SplitOnce(a + "#" + b, "#") == Some((a, b))
  {
    var s := a + "#" + b;
    forall i | 0 <= i < |a| ensures !StandsAt(s, "#", i) {
      assert s[i..i + 1] == [a[i]];
      assert "#"[0] == '#';
    }
    SplitExactly(s, "#", a, b);
  }

  /** Cutting at `##` after a part that has no `##` and does not end in `#`, whatever follows. */
  lemma SplitAtHashes(a: string, b: string)
    requires forall i :: 0 <= i < |a| && a[i] == '#' ==> i + 1 < |a| && a[i + 1] != '#'
    ensures SplitOnce(a + "##" + b, "##") == Some((a, b))
  {
    var s := a + "##" + b;
    forall i | 0 <= i < |a| ensures !StandsAt(s, "##", i) {
      if a[i] == '#' {
        assert s[i..i + 2][1] == a[i + 1];
      } else {
        assert s[i..i + 2][0] == a[i];
      }
    }
    SplitExactly(s, "##", a, b);
  }
}
