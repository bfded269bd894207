/**
 * String helpers with JavaScript's meaning, restricted to ASCII:
 * `toLowerCase`, `trim`, `startsWith`, `includes` and `split`.
 */
module Text {
  import opened Wrappers

  /** `toLowerCase` on one character: ASCII upper-case letters only. */
  function LowerChar(c: char): (r: char)
    ensures 'A' <= c <= 'Z' ==> r as int == c as int + 32
    ensures !('A' <= c <= 'Z') ==> r == c
  {
    if 'A' <= c <= 'Z' then (c as int + 32) as char else c
  }

  /** `s.toLowerCase()`. */
  function Lower(s: string): (r: string)
    ensures |r| == |s|
    ensures forall i :: 0 <= i < |s| ==> r[i] == LowerChar(s[i])
  {
    if s == [] then [] else [LowerChar(s[0])] + Lower(s[1..])
  }

  /** The characters `trim` removes (ASCII whitespace and line terminators). */
  predicate IsSpace(c: char)
  {
    c == ' ' || c == '\t' || c == '\n' || c == '\r' || c == '\U{000B}' || c == '\U{000C}'
  }

  function TrimStart(s: string): (r: string)
    ensures |r| <= |s| && r == s[|s| - |r|..]
    ensures r == [] || !IsSpace(r[0])
  {
    if s != [] && IsSpace(s[0]) then TrimStart(s[1..]) else s
  }

  function TrimEnd(s: string): (r: string)
    ensures |r| <= |s| && r == s[..|r|]
    ensures r == [] || !IsSpace(r[|r| - 1])
  {
    if s != [] && IsSpace(s[|s| - 1]) then TrimEnd(s[..|s| - 1]) else s
  }

  /** `s.trim()`. */
  function Trim(s: string): (r: string)
    ensures |r| <= |s|
    ensures r == [] || (!IsSpace(r[0]) && !IsSpace(r[|r| - 1]))
  {
    TrimEnd(TrimStart(s))
  }

  /** `s.startsWith(p)`. */
  predicate StartsWith(s: string, p: string)
  {
    |p| <= |s| && s[..|p|] == p
  }

  /** `s.includes(p)`. */
  predicate Contains(s: string, p: string)
  {
    StartsWith(s, p) || (s != [] && Contains(s[1..], p))
  }

  /** `s.split(sep)` on a single-character separator. */
  function Split(s: string, sep: char): (r: seq<string>)
    ensures |r| >= 1
    ensures forall i :: 0 <= i < |r| ==> sep !in r[i]
  {
    if sep !in s then [s]
    else
      var k := IndexOf(s, sep);
      [s[..k]] + Split(s[k + 1..], sep)
  }

  function IndexOf(s: string, c: char): (k: nat)
    requires c in s
    ensures k < |s| && s[k] == c && c !in s[..k]
  {
    if s[0] == c then 0 else 1 + IndexOf(s[1..], c)
  }

  /** Splitting `x + sep + rest` where `x` has no separator yields `x` first. */
  lemma {:induction false} SplitCons(x: string, sep: char, rest: string)
    requires sep !in x
    ensures Split(x + [sep] + rest, sep) == [x] + Split(rest, sep)
  {
    var s := x + [sep] + rest;
    assert s[|x|] == sep;
    assert s[..|x|] == x;
    var k := IndexOf(s, sep);
    assert s[..k] == x;
    assert s[k + 1..] == rest;
  }

  /** The joined pieces of a split give back the original text. */
  lemma {:induction false} SplitJoin(s: string, sep: char)
    ensures Join(Split(s, sep), sep) == s
    decreases |s|
  {
    if sep in s {
      var k := IndexOf(s, sep);
      var rest := Split(s[k + 1..], sep);
      assert Split(s, sep) == [s[..k]] + rest;
      SplitJoin(s[k + 1..], sep);
      JoinCons(s[..k], rest, sep);
      assert s == s[..k] + [sep] + s[k + 1..];
    }
  }

  /** Joining a piece in front of at least one more puts the separator between them. */
  lemma JoinCons(x: string, rest: seq<string>, sep: char)
    requires |rest| >= 1
    ensures Join([x] + rest, sep) == x + [sep] + Join(rest, sep)
  {
    assert ([x] + rest)[1..] == rest;
  }

  function Join(parts: seq<string>, sep: char): string
  {
    if |parts| == 0 then []
    else if |parts| == 1 then parts[0]
    else parts[0] + [sep] + Join(parts[1..], sep)
  }

  /** Lower-casing twice is lower-casing once. */
  lemma LowerIdempotent(s: string)
    ensures Lower(Lower(s)) == Lower(s)
  {
  }

  /** Trimming twice is trimming once. */
  lemma TrimIdempotent(s: string)
    ensures Trim(Trim(s)) == Trim(s)
  {
  }

  /** Lower-casing never creates or removes whitespace, so it commutes with trimming. */
  lemma {:induction false} LowerTrimCommute(s: string)
    ensures Trim(Lower(s)) == Lower(Trim(s))
  {
    LowerTrimStart(s);
    LowerTrimEnd(TrimStart(s));
  }

  lemma {:induction false} LowerTrimStart(s: string)
    ensures TrimStart(Lower(s)) == Lower(TrimStart(s))
    decreases |s|
  {
    if s != [] {
      var t := Lower(s);
      assert t[1..] == Lower(s[1..]);
      SpaceUnderLower(s[0]);
      if IsSpace(s[0]) {
        LowerTrimStart(s[1..]);
        assert TrimStart(t) == TrimStart(t[1..]);
      } else {
        assert TrimStart(t) == t;
      }
    }
  }

  /** Lower-casing a character neither makes nor unmakes whitespace. */
  lemma SpaceUnderLower(c: char)
    ensures IsSpace(LowerChar(c)) == IsSpace(c)
  {
  }

  lemma {:induction false} LowerTrimEnd(s: string)
    ensures TrimEnd(Lower(s)) == Lower(TrimEnd(s))
    decreases |s|
  {
    if s != [] {
      assert Lower(s)[..|s| - 1] == Lower(s[..|s| - 1]);
      if IsSpace(s[|s| - 1]) {
        LowerTrimEnd(s[..|s| - 1]);
      } else {
        assert !IsSpace(Lower(s)[|s| - 1]);
      }
    }
  }

  /** Any text contains itself. */
  lemma ContainsSelf(s: string)
    ensures Contains(s, s)
  {
    assert s[..|s|] == s;
  }

  /** Text containing `c + p` contains `p`. */
  lemma {:induction false} ContainsDropFirst(s: string, c: char, p: string)
    requires Contains(s, [c] + p)
    ensures Contains(s, p)
    decreases |s|
  {
    if StartsWith(s, [c] + p) {
      assert s[..|p| + 1] == [c] + p;
      assert s[1..][..|p|] == s[..|p| + 1][1..] == p;
      assert Contains(s[1..], p);
    } else {
      ContainsDropFirst(s[1..], c, p);
    }
  }

  /** Text containing `p + c` contains `p`. */
  lemma {:induction false} ContainsDropLast(s: string, p: string, c: char)
    requires Contains(s, p + [c])
    ensures Contains(s, p)
    decreases |s|
  {
    if StartsWith(s, p + [c]) {
      assert s[..|p|] == (p + [c])[..|p|] == p;
    } else {
      ContainsDropLast(s[1..], p, c);
    }
  }

  /** Lower-casing and trimming is idempotent. */
  lemma CleanIdempotent(s: string)
    ensures Lower(Trim(Lower(Trim(s)))) == Lower(Trim(s))
  {
    var t := Trim(s);
    var u := Lower(t);
    calc {
      Lower(Trim(u));
      { LowerTrimCommute(u); }
      Trim(Lower(u));
      { LowerIdempotent(t); }
      Trim(u);
      { LowerTrimCommute(s); }
      Trim(Trim(Lower(s)));
      { TrimIdempotent(Lower(s)); }
      Trim(Lower(s));
      { LowerTrimCommute(s); }
      u;
    }
  }

  // ---------------------------------------------------------------------------
  // Decimal integers: `String(n)` and `parseInt(s, 10)`
  // ---------------------------------------------------------------------------

  predicate IsDigit(c: char)
  {
    '0' <= c <= '9'
  }

  function DigitChar(d: nat): (c: char)
    requires d < 10
    ensures IsDigit(c) && c as int - '0' as int == d
  {
    ('0' as int + d) as char
  }

  /** The decimal digits of `n`, without leading zeros. */
  function NatToDecimal(n: nat): (r: string)
    ensures |r| >= 1 && forall i :: 0 <= i < |r| ==> IsDigit(r[i])
    decreases n
  {
    if n < 10 then [DigitChar(n)] else NatToDecimal(n / 10) + [DigitChar(n % 10)]
  }

  /** `String(n)` for an integer `n`. */
  function IntToDecimal(n: int): (r: string)
    ensures |r| >= 1
  {
    if n < 0 then "-" + NatToDecimal(-n) else NatToDecimal(n)
  }

  /** The longest prefix of `s` made of decimal digits. */
  function DigitPrefix(s: string): (r: string)
    ensures |r| <= |s| && r == s[..|r|]
    ensures forall i :: 0 <= i < |r| ==> IsDigit(r[i])
    ensures |r| < |s| ==> !IsDigit(s[|r|])
  {
    if s != [] && IsDigit(s[0]) then [s[0]] + DigitPrefix(s[1..]) else []
  }

  /** The number a string of decimal digits denotes. */
  function DecimalValue(ds: string): nat
    requires forall i :: 0 <= i < |ds| ==> IsDigit(ds[i])
  {
    if ds == [] then 0
    else
      assert IsDigit(ds[|ds| - 1]);
      DecimalValue(ds[..|ds| - 1]) * 10 + (ds[|ds| - 1] as int - '0' as int)
  }

  /**
   * `parseInt(s, 10)`: skip leading whitespace, read an optional sign and the
   * longest run of digits; `None` (NaN) when there is no digit.
   */
  function ParseInt(s: string): Option<int>
  {
    var t := TrimStart(s);
    var ds := DigitPrefix(SignFree(t));
    if ds == [] then None
    else
      var v: int := DecimalValue(ds);
      if t[0] == '-' then Some(-v) else Some(v)
  }

  /** The text after an optional leading sign. */
  function SignFree(t: string): string
  {
    if t != [] && (t[0] == '-' || t[0] == '+') then t[1..] else t
  }

  lemma {:induction false} DigitPrefixOfDigits(ds: string, rest: string)
    requires forall i :: 0 <= i < |ds| ==> IsDigit(ds[i])
    requires rest == [] || !IsDigit(rest[0])
    ensures DigitPrefix(ds + rest) == ds
    decreases |ds|
  {
    if ds != [] {
      assert (ds + rest)[1..] == ds[1..] + rest;
      DigitPrefixOfDigits(ds[1..], rest);
    }
  }

  lemma {:induction false} DecimalValueOfNat(n: nat)
    ensures DecimalValue(NatToDecimal(n)) == n
    decreases n
  {
    if n >= 10 {
      var r := NatToDecimal(n);
      assert r[..|r| - 1] == NatToDecimal(n / 10);
      DecimalValueOfNat(n / 10);
    }
  }

  lemma TrimStartUnpadded(s: string)
    requires s != [] && !IsSpace(s[0])
    ensures TrimStart(s) == s
  {
  }

  /** A word of lower-case ASCII letters is left as it is by lower-casing and trimming. */
  lemma CleanWord(u: string)
    requires u != [] && forall i :: 0 <= i < |u| ==> 'a' <= u[i] <= 'z'
    ensures Trim(Lower(u)) == u
  {
    LowerWord(u);
    TrimWord(u);
  }

  lemma LowerWord(u: string)
    requires forall i :: 0 <= i < |u| ==> 'a' <= u[i] <= 'z'
    ensures Lower(u) == u
  {
    forall i | 0 <= i < |u|
      ensures Lower(u)[i] == u[i]
    {
      assert LowerChar(u[i]) == u[i];
    }
  }

  lemma TrimWord(u: string)
    requires u != [] && 'a' <= u[0] <= 'z' && 'a' <= u[|u| - 1] <= 'z'
    ensures Trim(u) == u
  {
    TrimStartUnpadded(u);
  }

  lemma ParseIntOfDigits(ds: string)
    requires ds != [] && forall i :: 0 <= i < |ds| ==> IsDigit(ds[i])
    ensures ParseInt(ds) == Some(DecimalValue(ds) as int)
  {
    assert IsDigit(ds[0]);
    TrimStartUnpadded(ds);
    assert SignFree(ds) == ds;
    assert ds + [] == ds;
    DigitPrefixOfDigits(ds, []);
    assert DigitPrefix(SignFree(TrimStart(ds))) == ds;
  }

  lemma ParseIntOfNegatedDigits(ds: string)
    requires ds != [] && forall i :: 0 <= i < |ds| ==> IsDigit(ds[i])
    ensures ParseInt("-" + ds) == Some(-(DecimalValue(ds) as int))
  {
    NegatedShape(ds);
    assert ds + [] == ds;
    DigitPrefixOfDigits(ds, []);
    ParseIntOfSigned("-" + ds, ds);
  }

  /** Text that starts with a minus sign followed by a run of digits parses to the negated run. */
  lemma ParseIntOfSigned(s: string, ds: string)
    requires s != [] && s[0] == '-' && TrimStart(s) == s && SignFree(s) == ds
    requires ds != [] && DigitPrefix(ds) == ds
    ensures ParseInt(s) == Some(-(DecimalValue(ds) as int))
  {
  }

  /** A minus sign in front of text that does not start with a space: the sign is what `ParseInt` reads first. */
  lemma NegatedShape(ds: string)
    ensures ("-" + ds)[0] == '-' && TrimStart("-" + ds) == "-" + ds
    ensures SignFree("-" + ds) == ds
  {
    var s := "-" + ds;
    assert s[0] == '-' && s[1..] == ds;
    TrimStartUnpadded(s);
  }

  /** `parseInt(String(n), 10) == n`: decimal printing and parsing are inverse. */
  lemma ParseIntOfDecimal(n: int)
    ensures ParseInt(IntToDecimal(n)) == Some(n)
  {
    var m: nat := if n < 0 then -n else n;
    DecimalValueOfNat(m);
    if n < 0 {
      ParseIntOfNegatedDigits(NatToDecimal(m));
    } else {
      ParseIntOfDigits(NatToDecimal(m));
    }
  }
}
