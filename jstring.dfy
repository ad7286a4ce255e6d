/** The `java.lang.String` and `Integer`/`Double` text operations that the
    rental system uses, on strings taken as sequences of characters. */
module JavaString {
  import opened Java

  // ---------------------------------------------------------------------
  // Decimal digits, Integer.toString and Integer.parseInt
  // ---------------------------------------------------------------------

  predicate IsDigit(c: char) { '0' <= c <= '9' }

  predicate AllDigits(s: string) { forall i | 0 <= i < |s| :: IsDigit(s[i]) }

  function DigitValue(c: char): nat
    requires IsDigit(c)
  {
    (c as int) - ('0' as int)
  }

  function DigitChar(d: nat): (c: char)
    requires d < 10
    ensures IsDigit(c) && DigitValue(c) == d
  {
    (('0' as int) + d) as char
  }

  /** The value of a run of decimal digits, most significant first. */
  function DigitsValue(s: string): nat
    requires AllDigits(s)
    decreases |s|
  {
    if |s| == 0 then 0 else DigitsValue(s[..|s| - 1]) * 10 + DigitValue(s[|s| - 1])
  }

  /** The decimal text of a natural number, without leading zeros. */
  function NatToString(n: nat): string
    decreases n
  {
    if n < 10 then [DigitChar(n)] else NatToString(n / 10) + [DigitChar(n % 10)]
  }

  /** The text of a natural number is a non-empty run of digits, with no
      leading zero. */
  lemma {:induction false} NatToStringIsDecimal(n: nat)
    ensures |NatToString(n)| > 0 && AllDigits(NatToString(n))
    ensures n > 0 ==> NatToString(n)[0] != '0'
    decreases n
  {
    if n >= 10 {
      NatToStringIsDecimal(n / 10);
    }
  }

  /** `Integer.toString(n)` (also `String.valueOf(n)` and `"" + n`). */
  function IntToString(n: int): string
  {
    if n < 0 then "-" + NatToString(-n) else NatToString(n)
  }

  lemma {:induction false} NatToStringValue(n: nat)
    ensures AllDigits(NatToString(n)) && DigitsValue(NatToString(n)) == n
    decreases n
  {
    NatToStringIsDecimal(n);
    if n >= 10 {
      var s := NatToString(n / 10);
      NatToStringValue(n / 10);
      assert (s + [DigitChar(n % 10)])[..|s|] == s;
    }
  }

  /** `Integer.parseInt(s)`: an optional sign followed by at least one
      decimal digit, denoting a value that fits in an `int`; `None` is the
      `NumberFormatException`. */
  function ParseInt(s: string): Option<int32>
  {
    if |s| == 0 then None
    else
      var digits := if s[0] == '-' || s[0] == '+' then s[1..] else s;
      if |digits| == 0 || !AllDigits(digits) then None
      else
        var v: int := if s[0] == '-' then -(DigitsValue(digits) as int) else DigitsValue(digits);
        if INT_MIN <= v <= INT_MAX then Some(v) else None
  }

  /** `Integer.parseInt(null)` also throws `NumberFormatException`. */
  function ParseNullableInt(s: Option<string>): Option<int32>
  {
    if s.None? then None else ParseInt(s.value)
  }

  /** What `Integer.toString` prints, `Integer.parseInt` reads back. */
  lemma ParseIntRoundTrip(n: int32)
    ensures ParseInt(IntToString(n)) == Some(n)
  {
    if n < 0 {
      var m: nat := -(n as int);
      var s := IntToString(n);
      NatToStringValue(m);
      NatToStringIsDecimal(m);
      assert s == "-" + NatToString(m);
      assert s[0] == '-' && s[1..] == NatToString(m);
    } else {
      NatToStringValue(n);
      NatToStringIsDecimal(n);
      assert IntToString(n) == NatToString(n);
      assert NatToString(n)[0] != '-';
    }
  }

  /** The text of a natural number holds digits only. */
  lemma NatToStringDigitsOnly(n: nat, c: char)
    requires !IsDigit(c)
    ensures c !in NatToString(n)
  {
    var s := NatToString(n);
    NatToStringIsDecimal(n);
    assert forall i | 0 <= i < |s| :: s[i] != c;
  }

  /** The text of an `int` holds digits and the minus sign only. */
  lemma IntToStringDigitsOnly(n: int, c: char)
    requires !IsDigit(c) && c != '-'
    ensures c !in IntToString(n)
  {
    if n < 0 {
      NatToStringDigitsOnly(-n, c);
    } else {
      NatToStringDigitsOnly(n, c);
    }
  }

  /** Different numbers print differently. */
  lemma IntToStringInjective(a: int32, b: int32)
    requires IntToString(a) == IntToString(b)
    ensures a == b
  {
    ParseIntRoundTrip(a);
    ParseIntRoundTrip(b);
  }

  // ---------------------------------------------------------------------
  // String.trim
  // ---------------------------------------------------------------------

  /** `String.trim` drops every character up to and including U+0020. */
  predicate IsTrimmed(c: char) { c <= ' ' }

  function TrimStart(s: string): (r: string)
    ensures |r| <= |s| && r == s[|s| - |r|..]
    ensures |r| > 0 ==> !IsTrimmed(r[0])
    decreases |s|
  {
    if |s| > 0 && IsTrimmed(s[0]) then TrimStart(s[1..]) else s
  }

  function TrimEnd(s: string): (r: string)
    ensures |r| <= |s| && r == s[..|r|]
    ensures |r| > 0 ==> !IsTrimmed(r[|r| - 1])
    decreases |s|
  {
    if |s| > 0 && IsTrimmed(s[|s| - 1]) then TrimEnd(s[..|s| - 1]) else s
  }

  /** `String.trim()`. */
  function Trim(s: string): string
  {
    TrimEnd(TrimStart(s))
  }

  /** Neither the first nor the last character is one that `trim` drops. */
  predicate HasNoEdgeWhitespace(s: string)
  {
    |s| == 0 || (!IsTrimmed(s[0]) && !IsTrimmed(s[|s| - 1]))
  }

  /** What `trim` returns has no edge whitespace. */
  lemma TrimHasNoEdgeWhitespace(s: string)
    ensures HasNoEdgeWhitespace(Trim(s))
  {
    var t := TrimStart(s);
    var r := TrimEnd(t);
    if |r| > 0 {
      assert r[0] == t[0];
    }
  }

  /** Trimming a string with no edge whitespace leaves it alone, whatever
      blank characters are put in front of it. */
  lemma TrimAfterBlank(s: string)
    requires HasNoEdgeWhitespace(s)
    ensures Trim(" " + s) == s
  {
    assert (" " + s)[1..] == s;
    assert TrimStart(" " + s) == TrimStart(s) == s;
    assert TrimEnd(s) == s;
  }

  // ---------------------------------------------------------------------
  // Searching, replacing and splitting
  // ---------------------------------------------------------------------

  /** `s.indexOf(c)`: the first position of `c`, or -1. */
  function IndexOf(s: string, c: char): (i: int)
    ensures -1 <= i < |s|
    ensures i == -1 <==> c !in s
    ensures 0 <= i ==> s[i] == c && c !in s[..i]
    decreases |s|
  {
    if |s| == 0 then -1
    else if s[0] == c then 0
    else
      var j := IndexOf(s[1..], c);
      if j == -1 then -1
      else
        assert s[..j + 1] == [s[0]] + s[1..][..j];
        j + 1
  }

  /** `s.lastIndexOf(c)`: the last position of `c`, or -1. */
  function LastIndexOf(s: string, c: char): (i: int)
    ensures -1 <= i < |s|
    ensures 0 <= i ==> s[i] == c
    decreases |s|
  {
    if |s| == 0 then -1
    else if s[|s| - 1] == c then |s| - 1
    else LastIndexOf(s[..|s| - 1], c)
  }

  /** The last `c` in `a` + `c` + `b` is the one after `a` when `b` holds none. */
  lemma {:induction false} LastIndexOfBefore(a: string, c: char, b: string)
    requires c !in b
    ensures LastIndexOf(a + [c] + b, c) == |a|
    decreases |b|
  {
    var s := a + [c] + b;
    if |b| > 0 {
      assert s[|s| - 1] == b[|b| - 1];
      assert s[..|s| - 1] == a + [c] + b[..|b| - 1];
      LastIndexOfBefore(a, c, b[..|b| - 1]);
    }
  }

  /** `s.endsWith(suffix)`. */
  predicate EndsWith(s: string, suffix: string)
  {
    |suffix| <= |s| && s[|s| - |suffix|..] == suffix
  }

  predicate OccursAt(s: string, sub: string, i: int)
  {
    0 <= i && i + |sub| <= |s| && s[i..i + |sub|] == sub
  }

  /** `s.contains(sub)`, scanning from the left. */
  predicate Contains(s: string, sub: string)
    decreases |s|
  {
    if |s| < |sub| then false
    else s[..|sub|] == sub || Contains(s[1..], sub)
  }

  /** Containment is an occurrence at some position. */
  lemma {:induction false} ContainsIffOccurs(s: string, sub: string)
    ensures Contains(s, sub) <==> exists i | 0 <= i <= |s| - |sub| :: OccursAt(s, sub, i)
    decreases |s|
  {
    if |s| >= |sub| {
      assert OccursAt(s, sub, 0) <==> s[..|sub|] == sub;
      if |s| > 0 {
        ContainsIffOccurs(s[1..], sub);
        if Contains(s[1..], sub) {
          var i :| 0 <= i <= |s| - 1 - |sub| && OccursAt(s[1..], sub, i);
          assert s[i + 1..i + 1 + |sub|] == s[1..][i..i + |sub|];
          assert OccursAt(s, sub, i + 1);
        }
        if exists i | 0 <= i <= |s| - |sub| :: OccursAt(s, sub, i) {
          var i :| 0 <= i <= |s| - |sub| && OccursAt(s, sub, i);
          if i > 0 {
            assert s[1..][i - 1..i - 1 + |sub|] == s[i..i + |sub|];
            assert OccursAt(s[1..], sub, i - 1);
          }
        }
      }
    }
  }

  /** For a one-character pattern, containment is membership. */
  lemma {:induction false} ContainsChar(s: string, c: char)
    ensures Contains(s, [c]) <==> c in s
    decreases |s|
  {
    if |s| > 0 {
      ContainsChar(s[1..], c);
      assert s[..1] == [s[0]];
      assert c in s <==> s[0] == c || c in s[1..];
    }
  }

  /** `s.replace(from, to)` for one-character strings. */
  function ReplaceChar(s: string, from: char, to: char): (r: string)
    ensures |r| == |s|
    ensures forall i | 0 <= i < |s| :: r[i] == (if s[i] == from then to else s[i])
  {
    seq(|s|, i requires 0 <= i < |s| => if s[i] == from then to else s[i])
  }

  /** `s.replace("c", "")`: every occurrence of `c` removed. */
  function RemoveChar(s: string, c: char): (r: string)
    ensures c !in r
    ensures forall x | x in r :: x in s
    decreases |s|
  {
    if |s| == 0 then ""
    else if s[0] == c then RemoveChar(s[1..], c)
    else [s[0]] + RemoveChar(s[1..], c)
  }

  /** Removing a character piece by piece. */
  lemma {:induction false} RemoveCharAppend(a: string, b: string, c: char)
    ensures RemoveChar(a + b, c) == RemoveChar(a, c) + RemoveChar(b, c)
    decreases |a|
  {
    if |a| == 0 {
      assert a + b == b;
    } else {
      assert (a + b)[0] == a[0] && (a + b)[1..] == a[1..] + b;
      RemoveCharAppend(a[1..], b, c);
    }
  }

  /** Removing a character that does not occur changes nothing. */
  lemma {:induction false} RemoveCharAbsent(s: string, c: char)
    requires c !in s
    ensures RemoveChar(s, c) == s
    decreases |s|
  {
    if |s| > 0 {
      RemoveCharAbsent(s[1..], c);
      assert s == [s[0]] + s[1..];
    }
  }

  /** `s.replace(pat, "")`: the occurrences of `pat`, found left to right
      without overlap, removed. */
  function RemoveAll(s: string, pat: string): string
    requires |pat| > 0
    decreases |s|
  {
    if |s| < |pat| then s
    else if s[..|pat|] == pat then RemoveAll(s[|pat|..], pat)
    else [s[0]] + RemoveAll(s[1..], pat)
  }

  /** The pieces of `s` between occurrences of `c`, empty ones included. */
  function SplitAll(s: string, c: char): (parts: seq<string>)
    ensures |parts| >= 1
    decreases |s|
  {
    var i := IndexOf(s, c);
    if i < 0 then [s] else [s[..i]] + SplitAll(s[i + 1..], c)
  }

  function DropTrailingEmpty(parts: seq<string>): (r: seq<string>)
    ensures |r| <= |parts| && r == parts[..|r|]
    decreases |parts|
  {
    if |parts| > 0 && parts[|parts| - 1] == "" then DropTrailingEmpty(parts[..|parts| - 1]) else parts
  }

  /** `s.split(c)` for a separator that is not a regular-expression
      metacharacter: the whole string when `c` does not occur, otherwise
      the pieces with trailing empty pieces removed. */
  function Split(s: string, c: char): seq<string>
  {
    if c !in s then [s] else DropTrailingEmpty(SplitAll(s, c))
  }

  /** The fields joined by `c`, the way a comma-separated line is written. */
  function Join(fields: seq<string>, c: char): string
    requires |fields| > 0
    decreases |fields|
  {
    if |fields| == 1 then fields[0] else fields[0] + [c] + Join(fields[1..], c)
  }

  predicate NoneContains(fields: seq<string>, c: char)
  {
    forall i | 0 <= i < |fields| :: c !in fields[i]
  }

  /** Cutting at every `c` a text that starts with a `c`-free part and a
      `c` gives that part, then the cuts of the rest. */
  lemma SplitAllCons(a: string, c: char, b: string)
    requires c !in a
    ensures SplitAll(a + [c] + b, c) == [a] + SplitAll(b, c)
  {
    var s := a + [c] + b;
    IndexOfAfter(a, c, b);
    assert s[..|a|] == a;
    assert s[|a| + 1..] == b;
  }

  /** Cutting a joined line at every `c` gives back the fields. */
  lemma {:induction false} SplitAllJoin(fields: seq<string>, c: char)
    requires |fields| > 0 && NoneContains(fields, c)
    ensures SplitAll(Join(fields, c), c) == fields
    decreases |fields|
  {
    if |fields| > 1 {
      var rest := fields[1..];
      assert NoneContains(rest, c) by {
        forall i | 0 <= i < |rest| ensures c !in rest[i] {
          assert rest[i] == fields[i + 1];
        }
      }
      assert c !in fields[0];
      SplitAllCons(fields[0], c, Join(rest, c));
      SplitAllJoin(rest, c);
      assert fields == [fields[0]] + rest;
    } else {
      assert c !in fields[0];
    }
  }

  /** `split` undoes `Join` for at least two fields, none holding `c`, the
      last of them not empty. */
  lemma SplitJoin(fields: seq<string>, c: char)
    requires |fields| >= 2 && NoneContains(fields, c) && fields[|fields| - 1] != ""
    ensures Split(Join(fields, c), c) == fields
  {
    var s := Join(fields, c);
    assert s == fields[0] + [c] + Join(fields[1..], c);
    assert s[|fields[0]|] == c;
    SplitAllJoin(fields, c);
  }

  /** The first `c` in `a` + `c` + `b` is the one after `a` when `a` holds none. */
  lemma {:induction false} IndexOfAfter(a: string, c: char, b: string)
    requires c !in a
    ensures IndexOf(a + [c] + b, c) == |a|
    decreases |a|
  {
    if |a| > 0 {
      assert (a + [c] + b)[1..] == a[1..] + [c] + b;
      IndexOfAfter(a[1..], c, b);
    }
  }

  /** Splitting `a` + `c` + `b`, where neither side holds `c` and `b` is not
      empty, gives back the two sides. */
  lemma SplitTwo(a: string, c: char, b: string)
    requires c !in a && c !in b && |b| > 0
    ensures Split(a + [c] + b, c) == [a, b]
  {
    var s := a + [c] + b;
    IndexOfAfter(a, c, b);
    assert s[|a| + 1..] == b;
    assert s[..|a|] == a;
    assert SplitAll(b, c) == [b];
    assert SplitAll(s, c) == [a, b];
  }

  // ---------------------------------------------------------------------
  // String.compareTo and String.hashCode
  // ---------------------------------------------------------------------

  /** `a.compareTo(b)`: the difference of the first differing characters,
      or else the difference of the lengths. */
  function CompareTo(a: string, b: string): int
    decreases |a|
  {
    if |a| == 0 || |b| == 0 then |a| - |b|
    else if a[0] != b[0] then (a[0] as int) - (b[0] as int)
    else CompareTo(a[1..], b[1..])
  }

  lemma {:induction false} CompareToAntisymmetric(a: string, b: string)
    ensures CompareTo(a, b) == -CompareTo(b, a)
    decreases |a|
  {
    if |a| > 0 && |b| > 0 && a[0] == b[0] {
      CompareToAntisymmetric(a[1..], b[1..]);
    }
  }

  lemma {:induction false} CompareToZero(a: string, b: string)
    ensures CompareTo(a, b) == 0 <==> a == b
    decreases |a|
  {
    if |a| > 0 && |b| > 0 && a[0] == b[0] {
      CompareToZero(a[1..], b[1..]);
      if a[1..] == b[1..] {
        assert a == [a[0]] + a[1..] && b == [b[0]] + b[1..];
      }
    }
  }

  lemma {:induction false} CompareToTransitive(a: string, b: string, c: string)
    requires CompareTo(a, b) <= 0 && CompareTo(b, c) <= 0
    ensures CompareTo(a, c) <= 0
    decreases |a|
  {
    if |a| > 0 && |b| > 0 && |c| > 0 && a[0] == b[0] && b[0] == c[0] {
      CompareToTransitive(a[1..], b[1..], c[1..]);
    }
  }

  /** `String.hashCode()`: h = 31 * h + c over the characters, in `int`. */
  function HashCode(s: string): int32
    decreases |s|
  {
    if |s| == 0 then 0 else Wrap(31 * HashCode(s[..|s| - 1]) + (s[|s| - 1] as int))
  }

  // ---------------------------------------------------------------------
  // Double.parseDouble, over the reals
  // ---------------------------------------------------------------------

  /** The length of the run of digits that starts `s`. */
  function LeadingDigits(s: string): (n: nat)
    ensures n <= |s| && AllDigits(s[..n])
    ensures n < |s| ==> !IsDigit(s[n])
    decreases |s|
  {
    if |s| > 0 && IsDigit(s[0]) then
      var n := 1 + LeadingDigits(s[1..]);
      assert forall i | 1 <= i < n :: s[..n][i] == s[1..][..n - 1][i - 1];
      n
    else 0
  }

  /** A value scaled by ten to a (possibly negative) power, one factor of
      ten at a time. */
  function Scale(x: real, e: int): real
    decreases if e >= 0 then e else -e
  {
    if e == 0 then x else if e > 0 then 10.0 * Scale(x, e - 1) else Scale(x, e + 1) / 10.0
  }

  /** The type suffixes `f`, `F`, `d` and `D` of a floating-point literal. */
  predicate IsTypeSuffix(c: char)
  {
    c == 'f' || c == 'F' || c == 'd' || c == 'D'
  }

  /** The optional exponent part `e[+-]digits` and type suffix `[fFdD]`
      that may end a floating-point literal; `None` if `s` is neither. */
  function ParseExponentAndSuffix(s: string): Option<int>
  {
    var t := if |s| > 0 && IsTypeSuffix(s[|s| - 1]) then s[..|s| - 1] else s;
    if |t| == 0 then Some(0)
    else if t[0] != 'e' && t[0] != 'E' then None
    else
      var u := t[1..];
      var digits := if |u| > 0 && (u[0] == '-' || u[0] == '+') then u[1..] else u;
      if |digits| == 0 || !AllDigits(digits) then None
      else
        var e: int := if u[0] == '-' then -(DigitsValue(digits) as int) else DigitsValue(digits);
        Some(e)
  }

  /** `Double.parseDouble(s)` on decimal literals, taken as exact reals:
      surrounding whitespace, an optional sign, digits with an optional
      fraction (at least one digit in all), an optional exponent and an
      optional type suffix. `None` is the `NumberFormatException`. */
  function ParseDecimal(s: string): Option<real>
  {
    var t := Trim(s);
    var body := if |t| > 0 && (t[0] == '-' || t[0] == '+') then t[1..] else t;
    var n := LeadingDigits(body);
    var whole := body[..n];
    var rest := body[n..];
    var fraction := if |rest| > 0 && rest[0] == '.' then rest[1..][..LeadingDigits(rest[1..])] else "";
    var tail := if |rest| > 0 && rest[0] == '.' then rest[1 + |fraction|..] else rest;
    if |whole| + |fraction| == 0 then None
    else
      match ParseExponentAndSuffix(tail)
      case None => None
      case Some(e) =>
        var mantissa := (DigitsValue(whole) as real) + Scale(DigitsValue(fraction) as real, -|fraction|);
        var magnitude := Scale(mantissa, e);
        Some(if |t| > 0 && t[0] == '-' then -magnitude else magnitude)
  }

  /** `Double.parseDouble(null)` throws `NullPointerException`. */
  function ParseNullableDecimal(s: Option<string>): Option<real>
  {
    if s.None? then None else ParseDecimal(s.value)
  }
}
