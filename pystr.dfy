/**
 * The three Python string operations the view relies on:
 * `s.split()[0]`, `s.replace(pattern, "")` and `str(n)` for an integer `n`.
 */
module PyStr {
  import opened Wrappers

  /** The characters for which Python's `str.isspace()` holds; `split()` breaks on runs of them. */
  predicate IsSpace(c: char)
  {
    var n := c as int;
    || (9 <= n <= 13) || (28 <= n <= 32) || n == 0x85 || n == 0xA0 || n == 0x1680
    || (0x2000 <= n <= 0x200A) || n == 0x2028 || n == 0x2029 || n == 0x202F
    || n == 0x205F || n == 0x3000
  }

  predicate AllSpace(s: string)
  {
    forall i :: 0 <= i < |s| ==> IsSpace(s[i])
  }

  predicate NoSpace(s: string)
  {
    forall i :: 0 <= i < |s| ==> !IsSpace(s[i])
  }

  /** `s` with its leading whitespace removed. */
  function TrimStart(s: string): string
  {
    if s != [] && IsSpace(s[0]) then TrimStart(s[1..]) else s
  }

  /** The longest prefix of `s` that holds no whitespace. */
  function TakeWord(s: string): string
  {
    if s == [] || IsSpace(s[0]) then [] else [s[0]] + TakeWord(s[1..])
  }

  /** `s.split()[0]`, or `None` where Python raises IndexError (no token at all). */
  function FirstToken(s: string): Option<string>
  {
    var t := TrimStart(s);
    if t == [] then None else Some(TakeWord(t))
  }

  /** The length of the run of whitespace that `s` starts with. */
  function SpaceRun(s: string): (n: nat)
    ensures n <= |s|
    ensures n < |s| ==> !IsSpace(s[n])
  {
    if s != [] && IsSpace(s[0]) then 1 + SpaceRun(s[1..]) else 0
  }

  lemma {:induction false} TrimStartSplits(s: string)
    ensures AllSpace(s[..SpaceRun(s)]) && TrimStart(s) == s[SpaceRun(s)..]
    decreases |s|
  {
    if s != [] && IsSpace(s[0]) {
      TrimStartSplits(s[1..]);
      var k := SpaceRun(s[1..]);
      var run := s[..k + 1];
      forall i | 0 <= i < |run| ensures IsSpace(run[i]) {
        if i > 0 {
          assert run[i] == s[1..][..k][i - 1];
        }
      }
      assert s[1..][k..] == s[k + 1..];
    } else {
      assert s[..0] == [];
    }
  }

  lemma {:induction false} TakeWordSplits(s: string)
    ensures |TakeWord(s)| <= |s| && TakeWord(s) == s[..|TakeWord(s)|]
    ensures NoSpace(TakeWord(s))
    ensures |TakeWord(s)| == |s| || IsSpace(s[|TakeWord(s)|])
    ensures s != [] && !IsSpace(s[0]) ==> TakeWord(s) != []
    decreases |s|
  {
    if s == [] || IsSpace(s[0]) {
    } else {
      TakeWordSplits(s[1..]);
      var w := TakeWord(s[1..]);
      assert TakeWord(s) == [s[0]] + w;
      assert s[..1 + |w|] == [s[0]] + s[1..][..|w|];
    }
  }

  /** `s.split()` has no first token exactly when `s` is blank. */
  lemma {:induction false} FirstTokenNoneSpec(s: string)
    ensures FirstToken(s).None? <==> AllSpace(s)
  {
    TrimStartSplits(s);
    var k := SpaceRun(s);
    if TrimStart(s) == [] {
      assert s == s[..k];
    } else {
      assert !IsSpace(s[k]);
    }
  }

  /** `t` stands at position `k` of `s` as a whole word with only whitespace before it. */
  predicate FirstWordAt(s: string, t: string, k: int)
  {
    && 0 <= k && k + |t| <= |s|
    && AllSpace(s[..k]) && s[k..k + |t|] == t
    && (k + |t| == |s| || IsSpace(s[k + |t|]))
  }

  /**
   * What `s.split()[0]` means: no token exactly when `s` is blank; otherwise
   * a non-empty whitespace-free token preceded in `s` only by whitespace and
   * followed by whitespace or the end of `s`.
   */
  lemma {:induction false} FirstTokenSpec(s: string)
    ensures FirstToken(s).None? <==> AllSpace(s)
    ensures FirstToken(s).Some? ==>
      var t := FirstToken(s).value;
      t != [] && NoSpace(t) && exists k :: FirstWordAt(s, t, k)
  {
    FirstTokenNoneSpec(s);
    if FirstToken(s).Some? {
      TrimStartSplits(s);
      var k := SpaceRun(s);
      var rest := s[k..];
      TakeWordSplits(rest);
      var t := TakeWord(rest);
      assert FirstToken(s) == Some(t);
      assert s[k..k + |t|] == rest[..|t|];
      assert k + |t| < |s| ==> s[k + |t|] == rest[|t|];
      assert FirstWordAt(s, t, k);
    }
  }

  /** `pattern` begins at position `i` of `s`. */
  predicate OccursAt(s: string, pattern: string, i: int)
  {
    0 <= i && i + |pattern| <= |s| && s[i..i + |pattern|] == pattern
  }

  predicate Contains(s: string, pattern: string)
  {
    exists i :: 0 <= i <= |s| && OccursAt(s, pattern, i)
  }

  /**
   * `s.replace(pattern, "")`: Python scans left to right and deletes each
   * occurrence it meets, resuming after it (occurrences do not overlap).
   */
  function RemoveAll(s: string, pattern: string): string
    requires pattern != []
    decreases |s|
  {
    if |s| < |pattern| then s
    else if s[..|pattern|] == pattern then RemoveAll(s[|pattern|..], pattern)
    else [s[0]] + RemoveAll(s[1..], pattern)
  }

  lemma {:induction false} RemoveAllShortens(s: string, pattern: string)
    requires pattern != []
    ensures |RemoveAll(s, pattern)| <= |s|
    ensures Contains(s, pattern) ==> |RemoveAll(s, pattern)| < |s|
    decreases |s|
  {
    if |s| < |pattern| {
      assert !Contains(s, pattern);
    } else if s[..|pattern|] == pattern {
      RemoveAllShortens(s[|pattern|..], pattern);
    } else {
      RemoveAllShortens(s[1..], pattern);
      if Contains(s, pattern) {
        var i :| 0 <= i <= |s| && OccursAt(s, pattern, i);
        assert 0 < i && i + |pattern| <= |s|;
        assert s[1..][i - 1..i - 1 + |pattern|] == s[i..i + |pattern|];
        assert OccursAt(s[1..], pattern, i - 1);
      }
    }
  }

  lemma {:induction false} RemoveAllKeepsClean(s: string, pattern: string)
    requires pattern != []
    ensures !Contains(s, pattern) ==> RemoveAll(s, pattern) == s
    decreases |s|
  {
    if |s| >= |pattern| && !Contains(s, pattern) {
      assert !OccursAt(s, pattern, 0);
      RemoveAllKeepsClean(s[1..], pattern);
      if Contains(s[1..], pattern) {
        var i :| 0 <= i <= |s[1..]| && OccursAt(s[1..], pattern, i);
        assert i + |pattern| <= |s[1..]|;
        assert s[i + 1..i + 1 + |pattern|] == s[1..][i..i + |pattern|];
        assert OccursAt(s, pattern, i + 1);
      }
      assert s == [s[0]] + s[1..];
    }
  }

  /** Removing is the identity exactly on strings without an occurrence. */
  lemma RemoveAllFixedPoint(s: string, pattern: string)
    requires pattern != []
    ensures RemoveAll(s, pattern) == s <==> !Contains(s, pattern)
  {
    RemoveAllShortens(s, pattern);
    RemoveAllKeepsClean(s, pattern);
  }

  lemma OccursAtTail(s: string, pattern: string, i: int)
    requires s != [] && 0 <= i
    ensures OccursAt(s[1..], pattern, i) <==> OccursAt(s, pattern, i + 1)
  {
    if i + |pattern| <= |s[1..]| {
      assert s[1..][i..i + |pattern|] == s[i + 1..i + 1 + |pattern|];
    }
  }

  /** Where no occurrence starts, the scan copies one character and moves on. */
  lemma RemoveAllCopies(s: string, pattern: string)
    requires pattern != [] && s != [] && !OccursAt(s, pattern, 0)
    ensures RemoveAll(s, pattern) == [s[0]] + RemoveAll(s[1..], pattern)
  {
    if |s| < |pattern| {
      assert RemoveAll(s[1..], pattern) == s[1..];
    }
  }

  /** A non-matching stretch before the scan position is copied unchanged. */
  lemma {:induction false} RemoveAllSkips(a: string, t: string, pattern: string)
    requires pattern != []
    requires forall i :: 0 <= i < |a| ==> !OccursAt(a + t, pattern, i)
    ensures RemoveAll(a + t, pattern) == a + RemoveAll(t, pattern)
    decreases |a|
  {
    if a == [] {
      assert a + t == t;
    } else {
      var s := a + t;
      var rest := a[1..];
      assert s[1..] == rest + t;
      assert !OccursAt(s, pattern, 0);
      forall i | 0 <= i < |rest| ensures !OccursAt(rest + t, pattern, i) {
        assert !OccursAt(s, pattern, i + 1);
        OccursAtTail(s, pattern, i);
      }
      RemoveAllSkips(rest, t, pattern);
      RemoveAllCopies(s, pattern);
      assert [a[0]] + (rest + RemoveAll(t, pattern)) == a + RemoveAll(t, pattern);
    }
  }

  /**
   * An occurrence anywhere, not only at the front, is deleted: the scan copies
   * the clean stretch `a` and drops the `pattern` that follows it.
   */
  lemma RemoveAllDropsOccurrence(a: string, b: string, pattern: string)
    requires pattern != []
    requires forall i :: 0 <= i < |a| ==> !OccursAt(a + pattern + b, pattern, i)
    ensures RemoveAll(a + pattern + b, pattern) == a + RemoveAll(b, pattern)
  {
    assert a + pattern + b == a + (pattern + b);
    RemoveAllSkips(a, pattern + b, pattern);
    assert (pattern + b)[..|pattern|] == pattern;
    assert (pattern + b)[|pattern|..] == b;
  }

  function DigitChar(d: nat): (c: char)
    requires d < 10
    ensures '0' <= c <= '9' && DigitValue(c) == d
  {
    (('0' as int) + d) as char
  }

  predicate IsDigits(s: string)
  {
    forall i :: 0 <= i < |s| ==> '0' <= s[i] <= '9'
  }

  /** Decimal text as Python writes a non-negative integer: digits, and no leading zero unless the text is `0`. */
  predicate CanonicalNat(s: string)
  {
    s != [] && IsDigits(s) && (s[0] == '0' ==> |s| == 1)
  }

  /** Decimal text as `str(n)` writes an integer: a minus sign exactly for a non-zero negative, then canonical digits. */
  predicate CanonicalInt(s: string)
  {
    if s != [] && s[0] == '-' then CanonicalNat(s[1..]) && s[1..] != "0" else CanonicalNat(s)
  }

  /** Decimal digits of `n`, most significant first, with no leading zero. */
  function NatToString(n: nat): (r: string)
    ensures CanonicalNat(r)
    ensures r == "0" <==> n == 0
    decreases n
  {
    if n < 10 then [DigitChar(n)] else NatToString(n / 10) + [DigitChar(n % 10)]
  }

  /** `str(n)`: a minus sign for negative numbers, then the decimal digits. */
  function IntToString(n: int): (r: string)
    ensures CanonicalInt(r)
    ensures r[0] == '-' <==> n < 0
  {
    if n < 0 then
      var r := "-" + NatToString(-n);
      assert r[1..] == NatToString(-n);
      r
    else NatToString(n)
  }

  function DigitValue(c: char): nat
  {
    if '0' <= c <= '9' then (c as int) - ('0' as int) else 0
  }

  /** Inverse of `NatToString` on digit strings. */
  function ParseNat(s: string): nat
    decreases |s|
  {
    if s == [] then 0 else 10 * ParseNat(s[..|s| - 1]) + DigitValue(s[|s| - 1])
  }

  function ParseInt(s: string): int
  {
    if s != [] && s[0] == '-' then -(ParseNat(s[1..]) as int) else ParseNat(s)
  }

  lemma {:induction false} ParseNatToString(n: nat)
    ensures ParseNat(NatToString(n)) == n
    decreases n
  {
    if n >= 10 {
      ParseNatToString(n / 10);
      var s := NatToString(n);
      var init := NatToString(n / 10);
      assert s == init + [DigitChar(n % 10)];
      assert s[..|s| - 1] == init;
      assert s[|s| - 1] == DigitChar(n % 10);
      assert ParseNat(s) == 10 * ParseNat(init) + DigitValue(DigitChar(n % 10));
    }
  }

  /** `str` on integers loses nothing: parsing its text gives the number back. */
  lemma {:induction false} IntToStringRoundTrip(n: int)
    ensures ParseInt(IntToString(n)) == n
  {
    var digits := NatToString(if n < 0 then -n else n);
    ParseNatToString(if n < 0 then -n else n);
    if n < 0 {
      var s := "-" + digits;
      assert IntToString(n) == s;
      assert s[0] == '-' && s[1..] == digits;
      assert ParseInt(s) == -(ParseNat(digits) as int);
    } else {
      assert IntToString(n) == digits;
      assert digits[0] != '-';
    }
  }

  lemma {:induction false} ParseNatPositive(s: string)
    requires s != [] && IsDigits(s) && s[0] != '0'
    ensures ParseNat(s) >= 1
    decreases |s|
  {
    if |s| > 1 {
      var init := s[..|s| - 1];
      assert init[0] == s[0];
      ParseNatPositive(init);
    } else {
      assert s[..|s| - 1] == [];
    }
  }

  /** Canonical digit text is the text `NatToString` writes for its value, so it is unique. */
  lemma {:induction false} CanonicalNatUnique(s: string)
    requires CanonicalNat(s)
    ensures NatToString(ParseNat(s)) == s
    decreases |s|
  {
    var n := ParseNat(s);
    var last := s[|s| - 1];
    var init := s[..|s| - 1];
    assert n == 10 * ParseNat(init) + DigitValue(last);
    if |s| == 1 {
      assert init == [];
      assert [DigitChar(n)] == [last];
    } else {
      assert init[0] == s[0] && IsDigits(init);
      CanonicalNatUnique(init);
      ParseNatPositive(init);
      assert n / 10 == ParseNat(init) && n % 10 == DigitValue(last);
      assert DigitChar(n % 10) == last;
      assert s == init + [last];
    }
  }

  /**
   * `str(n)` is the only canonical decimal text for `n`: any text with a
   * sign exactly for negatives and no leading zero that parses to `n` is it.
   */
  lemma CanonicalIntUnique(s: string)
    requires CanonicalInt(s)
    ensures IntToString(ParseInt(s)) == s
  {
    if s[0] == '-' {
      var digits := s[1..];
      CanonicalNatUnique(digits);
      ParseNatPositive(digits);
      assert s == "-" + digits;
    } else {
      CanonicalNatUnique(s);
    }
  }
}
