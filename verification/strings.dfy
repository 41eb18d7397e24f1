/**
 * The string operations the handlers and pages rely on: `split`, `join`, `trim`,
 * `toLowerCase`, `includes`, `startsWith`, `String(n)` and `padStart(2, '0')`.
 * A character is a Unicode scalar value, so a string's length counts scalar values rather
 * than UTF-16 code units; `trim` strips ASCII whitespace only, and case folding covers ASCII
 * letters only.
 */
module Strings {
  import Seqs
  import Wrappers

  predicate IsSpace(c: char)
  {
    c == ' ' || c == '\t' || c == '\n' || c == '\r' || c == '\U{B}' || c == '\U{C}'
  }

  function Lower(c: char): char
  {
    if 'A' <= c <= 'Z' then (c as int + 32) as char else c
  }

  function ToLower(s: string): (r: string)
    ensures |r| == |s|
  {
    seq(|s|, i requires 0 <= i < |s| => Lower(s[i]))
  }

  /** `s.startsWith(p)` */
  predicate StartsWith(s: string, p: string)
  {
    |p| <= |s| && s[..|p|] == p
  }

  /** `s.includes(sub)`: `sub` occurs at some position of `s`. */
  predicate Contains(s: string, sub: string)
    decreases |s|
  {
    StartsWith(s, sub) || (|s| > 0 && Contains(s[1..], sub))
  }

  /** `s.toLowerCase().includes(q.toLowerCase())`; also SQL `ILIKE '%q%'` without wildcards. */
  predicate ContainsIgnoringCase(s: string, q: string)
  {
    Contains(ToLower(s), ToLower(q))
  }

  /** Every string contains the empty string, so an empty query filters nothing out. */
  lemma EmptyQueryMatches(s: string)
    ensures ContainsIgnoringCase(s, "")
  {
    assert StartsWith(ToLower(s), ToLower(""));
  }

  /** `Contains` is exactly "occurs at some index". */
  lemma {:induction false} ContainsAt(s: string, sub: string, k: nat)
    requires k + |sub| <= |s| && s[k..k + |sub|] == sub
    ensures Contains(s, sub)
    decreases k
  {
    if k > 0 {
      assert s[1..][k - 1..k - 1 + |sub|] == sub;
      ContainsAt(s[1..], sub, k - 1);
    }
  }

  /** `s.split(c)`: the pieces between occurrences of `c`; there is always at least one. */
  function Split(s: string, c: char): (r: seq<string>)
    ensures |r| >= 1
    ensures forall i :: 0 <= i < |r| ==> c !in r[i]
    decreases |s|
  {
    if |s| == 0 then [""]
    else
      var rest := Split(s[1..], c);
      if s[0] == c then [""] + rest
      else [[s[0]] + rest[0]] + rest[1..]
  }

  /** `parts.join(c)` */
  function Join(parts: seq<string>, c: char): string
  {
    if parts == [] then ""
    else if |parts| == 1 then parts[0]
    else parts[0] + [c] + Join(parts[1..], c)
  }

  /** Joining the pieces of a split with the same separator gives back the original string. */
  lemma {:induction false} SplitJoin(s: string, c: char)
    ensures Join(Split(s, c), c) == s
    decreases |s|
  {
    if |s| > 0 {
      var rest := Split(s[1..], c);
      SplitJoin(s[1..], c);
      if s[0] == c {
        assert ([""] + rest)[1..] == rest;
        assert s == [c] + s[1..];
      } else {
        var parts := [[s[0]] + rest[0]] + rest[1..];
        assert parts[1..] == rest[1..];
        if |rest| > 1 {
          assert Join(rest, c) == rest[0] + [c] + Join(rest[1..], c);
        }
        assert s == [s[0]] + s[1..];
      }
    }
  }

  /** `parts.pop()`: the last piece. */
  function Last(parts: seq<string>): string
    requires |parts| >= 1
  {
    parts[|parts| - 1]
  }

  /** A string without the separator splits into itself alone. */
  lemma {:induction false} SplitWithoutSeparator(s: string, c: char)
    requires c !in s
    ensures Split(s, c) == [s]
    decreases |s|
  {
    if |s| > 0 {
      SplitWithoutSeparator(s[1..], c);
      assert s == [s[0]] + s[1..];
    }
  }

  /**
   * The last piece of a split is a suffix of the string without the separator; when the
   * separator occurs it is preceded by the separator, and otherwise it is the whole string.
   */
  lemma {:induction false} SplitLast(s: string, c: char)
    ensures var e := Last(Split(s, c));
      && c !in e
      && |e| <= |s| && s[|s| - |e|..] == e
      && (c in s ==> |e| < |s| && s[|s| - |e| - 1] == c)
      && (c !in s ==> e == s)
    decreases |s|
  {
    if c !in s {
      SplitWithoutSeparator(s, c);
    } else {
      var t := s[1..];
      var rest := Split(t, c);
      SplitLast(t, c);
      var e' := Last(rest);
      assert t[|t| - |e'|..] == s[|s| - |e'|..];
      if s[0] == c {
        assert Last(Split(s, c)) == e';
        if c !in t {
          assert e' == t;
        }
      } else {
        assert c in t;
        SplitJoin(t, c);
        assert Last(Split(s, c)) == e';
      }
    }
  }

  /** The number of leading whitespace characters. */
  function LeadingSpaces(s: string): (k: nat)
    ensures k <= |s|
    ensures forall i :: 0 <= i < k ==> IsSpace(s[i])
    ensures k < |s| ==> !IsSpace(s[k])
  {
    if s == [] || !IsSpace(s[0]) then 0 else 1 + LeadingSpaces(s[1..])
  }

  /** The length of `s` without its trailing whitespace. */
  function TrailingStart(s: string): (e: nat)
    ensures e <= |s|
    ensures forall i :: e <= i < |s| ==> IsSpace(s[i])
    ensures e > 0 ==> !IsSpace(s[e - 1])
  {
    if s == [] || !IsSpace(s[|s| - 1]) then |s| else TrailingStart(s[..|s| - 1])
  }

  /**
   * `s.trim()` over ASCII whitespace: `s` without its leading and its trailing whitespace,
   * so empty exactly when `s` is all whitespace.
   */
  function Trim(s: string): (r: string)
    ensures r == "" || (!IsSpace(r[0]) && !IsSpace(r[|r| - 1]))
    ensures forall i :: 0 <= i < |r| ==> r[i] in s
    ensures r == "" <==> forall i :: 0 <= i < |s| ==> IsSpace(s[i])
    ensures r != "" ==>
      && LeadingSpaces(s) + |r| <= |s|
      && r == s[LeadingSpaces(s)..LeadingSpaces(s) + |r|]
      && forall i :: LeadingSpaces(s) + |r| <= i < |s| ==> IsSpace(s[i])
  {
    var k := LeadingSpaces(s);
    var e := TrailingStart(s);
    if e <= k then "" else s[k..e]
  }

  predicate Trimmed(s: string)
  {
    s == "" || (!IsSpace(s[0]) && !IsSpace(s[|s| - 1]))
  }

  predicate NonEmpty(p: string) { p != "" }

  /**
   * `s.split(',').map(p => p.trim()).filter(Boolean)`: the comma-separated pieces of `s`,
   * trimmed, with the empty ones dropped.
   */
  function SplitTrimNonEmpty(s: string): (r: seq<string>)
    ensures forall i :: 0 <= i < |r| ==> r[i] != "" && Trimmed(r[i]) && ',' !in r[i]
  {
    var pieces := Split(s, ',');
    var trimmed := Seqs.Map(pieces, Trim);
    var r := Seqs.Filter(trimmed, NonEmpty);
    forall j | 0 <= j < |trimmed| ensures ',' !in trimmed[j] && Trimmed(trimmed[j]) {
      assert trimmed[j] == Trim(pieces[j]);
      assert ',' !in pieces[j];
    }
    assert forall i :: 0 <= i < |r| ==> r[i] in trimmed;
    r
  }

  /** Trimming a string without surrounding whitespace leaves it as it is. */
  lemma TrimTrimmed(s: string)
    requires Trimmed(s)
    ensures Trim(s) == s
  {
    if s != "" {
      assert LeadingSpaces(s) == 0;
      assert TrailingStart(s) == |s|;
    }
  }

  /** A piece without the separator, then the separator, splits into that piece first. */
  lemma {:induction false} SplitAfterPiece(a: string, rest: string, c: char)
    requires c !in a
    ensures Split(a + [c] + rest, c) == [a] + Split(rest, c)
    decreases |a|
  {
    var s := a + [c] + rest;
    if a == [] {
      assert s[1..] == rest;
    } else {
      assert s[1..] == a[1..] + [c] + rest;
      SplitAfterPiece(a[1..], rest, c);
      var r := Split(s[1..], c);
      assert r[0] == a[1..] && r[1..] == Split(rest, c);
      assert s[0] == a[0] && s[0] != c;
      assert [s[0]] + r[0] == a;
    }
  }

  /** Splitting pieces joined by a separator none of them contains gives the pieces back. */
  lemma {:induction false} JoinSplit(parts: seq<string>, c: char)
    requires |parts| >= 1
    requires forall i :: 0 <= i < |parts| ==> c !in parts[i]
    ensures Split(Join(parts, c), c) == parts
  {
    if |parts| == 1 {
      SplitWithoutSeparator(parts[0], c);
    } else {
      JoinSplit(parts[1..], c);
      SplitAfterPiece(parts[0], Join(parts[1..], c), c);
      assert parts == [parts[0]] + parts[1..];
    }
  }

  /**
   * Skills typed as a comma-separated text come back as the same list: joining non-empty,
   * trimmed pieces without commas and normalising the result gives the pieces again.
   */
  lemma SplitTrimNonEmptyJoin(parts: seq<string>)
    requires forall i :: 0 <= i < |parts| ==> parts[i] != "" && Trimmed(parts[i]) && ',' !in parts[i]
    ensures SplitTrimNonEmpty(Join(parts, ',')) == parts
  {
    if parts == [] {
      assert Split("", ',') == [""];
      assert Seqs.Map([""], Trim) == [""];
    } else {
      JoinSplit(parts, ',');
      TrimAllTrimmed(parts);
      Seqs.FilterKeepsAll(parts, NonEmpty);
    }
  }

  /** Trimming pieces that are already trimmed changes none of them. */
  lemma TrimAllTrimmed(parts: seq<string>)
    requires forall i :: 0 <= i < |parts| ==> Trimmed(parts[i])
    ensures Seqs.Map(parts, Trim) == parts
  {
    forall i | 0 <= i < |parts| ensures Trim(parts[i]) == parts[i] {
      TrimTrimmed(parts[i]);
    }
  }

  /** Text without commas is kept as one trimmed piece, unless it is blank. */
  lemma SingleSkill(s: string)
    requires ',' !in s
    ensures SplitTrimNonEmpty(s) == if Trim(s) == "" then [] else [Trim(s)]
  {
    SplitWithoutSeparator(s, ',');
    assert Seqs.Map([s], Trim) == [Trim(s)];
  }

  function DigitChar(d: nat): (c: char)
    requires d < 10
    ensures '0' <= c <= '9'
  {
    ('0' as int + d) as char
  }

  /** `String(n)` for a non-negative integer: its decimal digits. */
  function NatToString(n: nat): (r: string)
    ensures |r| >= 1
    ensures forall i :: 0 <= i < |r| ==> '0' <= r[i] <= '9'
    ensures (|r| == 1) == (n < 10)
    ensures r[0] != '0' || n == 0
  {
    if n < 10 then [DigitChar(n)] else NatToString(n / 10) + [DigitChar(n % 10)]
  }

  /** The number a string of decimal digits denotes; a leading zero adds nothing. */
  function DigitsValue(s: string): nat
    requires forall i :: 0 <= i < |s| ==> '0' <= s[i] <= '9'
  {
    if s == [] then 0 else DigitsValue(s[..|s| - 1]) * 10 + (s[|s| - 1] as int - '0' as int)
  }

  /** The digits `String(n)` writes denote `n`. */
  lemma {:induction false} NatToStringValue(n: nat)
    ensures DigitsValue(NatToString(n)) == n
  {
    if n >= 10 {
      NatToStringValue(n / 10);
      var s := NatToString(n);
      assert s[..|s| - 1] == NatToString(n / 10);
    }
  }

  /** Different numbers are written differently. */
  lemma NatToStringInjective(m: nat, n: nat)
    ensures NatToString(m) == NatToString(n) <==> m == n
  {
    NatToStringValue(m);
    NatToStringValue(n);
  }

  /** `String(n)` for an integer. */
  function IntToString(n: int): string
  {
    if n < 0 then "-" + NatToString(-n) else NatToString(n)
  }

  predicate AllDigits(s: string)
  {
    forall i :: 0 <= i < |s| ==> '0' <= s[i] <= '9'
  }

  /**
   * `parseInt(s)` for a string that is an optional minus sign followed by decimal digits;
   * any other string is `None`.
   */
  function ParseInt(s: string): Wrappers.Option<int>
  {
    if |s| > 1 && s[0] == '-' && AllDigits(s[1..]) then var v: int := DigitsValue(s[1..]); Wrappers.Some(-v)
    else if |s| > 0 && AllDigits(s) then Wrappers.Some(DigitsValue(s))
    else Wrappers.None
  }

  /** `parseInt` reads back what `String(n)` writes. */
  lemma IntToStringParses(n: int)
    ensures ParseInt(IntToString(n)) == Wrappers.Some(n)
  {
    var t := IntToString(n);
    if n < 0 {
      var d := NatToString(-n);
      NatToStringValue(-n);
      assert t == "-" + d && t[0] == '-' && t[1..] == d;
      assert AllDigits(d);
    } else {
      NatToStringValue(n);
      assert AllDigits(t) && '0' <= t[0] <= '9';
    }
  }

  /** `s.padStart(2, '0')` */
  function PadStart2(s: string): (r: string)
    ensures |r| >= 2 && (|s| >= 2 ==> r == s)
    ensures |s| < 2 ==> |r| == 2 && r[2 - |s|..] == s && forall i :: 0 <= i < 2 - |s| ==> r[i] == '0'
  {
    if |s| >= 2 then s else seq(2 - |s|, _ => '0') + s
  }
}
