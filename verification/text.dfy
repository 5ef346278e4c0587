/**
 * The JavaScript string operations the review code relies on, written out on
 * `seq<char>`: `includes`, `trim`, `split`, the `/\s+/` split of a trimmed
 * string, ASCII case mapping, `replace`, decimal digit strings and
 * `parseFloat`.
 */
module Text {
  import opened Wrappers

  /** JavaScript's WhiteSpace and LineTerminator characters (what `trim` strips and `\s` matches). */
  predicate IsSpace(c: char) {
    var n := c as int;
    n == 0x20 || (0x09 <= n <= 0x0D) || n == 0xA0 || n == 0x1680 || (0x2000 <= n <= 0x200A)
    || n == 0x2028 || n == 0x2029 || n == 0x202F || n == 0x205F || n == 0x3000 || n == 0xFEFF
  }

  predicate StartsWith(s: string, p: string) {
    |p| <= |s| && s[..|p|] == p
  }

  /** `s.includes(p)`: `p` occurs somewhere in `s` (the empty string occurs everywhere). */
  predicate Contains(s: string, p: string)
    decreases |s|
  {
    StartsWith(s, p) || (|s| > 0 && Contains(s[1..], p))
  }

  lemma {:induction false} ContainsAt(s: string, p: string, i: nat)
    requires i + |p| <= |s| && s[i..i + |p|] == p
    ensures Contains(s, p)
    decreases i
  {
    if i > 0 {
      assert s[1..][i - 1..i - 1 + |p|] == s[i..i + |p|];
      ContainsAt(s[1..], p, i - 1);
    } else {
      assert s[..|p|] == s[0..|p|];
    }
  }

  /** `trimStart`: drops the leading whitespace. */
  function TrimStart(s: string): (r: string)
    ensures |r| <= |s| && r == s[|s| - |r|..]
    ensures r == [] || !IsSpace(r[0])
    ensures forall i :: 0 <= i < |s| - |r| ==> IsSpace(s[i])
    decreases |s|
  {
    if s != [] && IsSpace(s[0]) then TrimStart(s[1..]) else s
  }

  /** `trimEnd`: drops the trailing whitespace. */
  function TrimEnd(s: string): (r: string)
    ensures |r| <= |s| && r == s[..|r|]
    ensures r == [] || !IsSpace(r[|r| - 1])
    ensures forall i :: |r| <= i < |s| ==> IsSpace(s[i])
    decreases |s|
  {
    if s != [] && IsSpace(s[|s| - 1]) then TrimEnd(s[..|s| - 1]) else s
  }

  /** `trim`: the string without leading and trailing whitespace. */
  function Trim(s: string): (r: string)
    ensures |r| <= |s|
    ensures r == [] || (!IsSpace(r[0]) && !IsSpace(r[|r| - 1]))
    ensures r == [] <==> forall i :: 0 <= i < |s| ==> IsSpace(s[i])
    ensures Trimmed(s, |s| - |TrimStart(s)|, r)
  {
    var t := TrimStart(s);
    TrimSlice(s, t, TrimEnd(t));
    TrimEnd(t)
  }

  /** `r` is the run of `s` starting at `a`, with only whitespace before and after it. */
  predicate Trimmed(s: string, a: int, r: string) {
    && 0 <= a && a + |r| <= |s| && r == s[a..a + |r|]
    && (forall i :: 0 <= i < a ==> IsSpace(s[i]))
    && (forall i :: a + |r| <= i < |s| ==> IsSpace(s[i]))
  }

  /** Trimming both ends keeps the run of `s` between its leading and trailing whitespace. */
  lemma TrimSlice(s: string, t: string, r: string)
    requires |t| <= |s| && t == s[|s| - |t|..] && forall i :: 0 <= i < |s| - |t| ==> IsSpace(s[i])
    requires |r| <= |t| && r == t[..|r|] && forall i :: |r| <= i < |t| ==> IsSpace(t[i])
    ensures Trimmed(s, |s| - |t|, r)
  {
    var a := |s| - |t|;
    assert t == s[a..];
    assert r == t[..|r|] == s[a..][..|r|];
    assert s[a..][..|r|] == s[a..a + |r|];
    forall i | a + |r| <= i < |s|
      ensures IsSpace(s[i])
    {
      var m := i - a;
      assert s[i] == t[m];
    }
  }

  /** Joins parts with one separator character between neighbours (`parts.join(c)`). */
  function Join(parts: seq<string>, c: char): string
  {
    if parts == [] then ""
    else if |parts| == 1 then parts[0]
    else parts[0] + [c] + Join(parts[1..], c)
  }

  /**
   * `s.split(c)` for a one-character separator: the text before the first
   * separator, then the split of the text after it; the whole string when
   * the separator does not occur.
   */
  function Split(s: string, c: char): (parts: seq<string>)
    ensures |parts| >= 1
    decreases |s|
  {
    if c !in s then [s]
    else
      var i := IndexOf(s, c);
      [s[..i]] + Split(s[i + 1..], c)
  }

  /** A split has a single field exactly when the separator does not occur. */
  lemma SplitSingle(s: string, c: char)
    ensures |Split(s, c)| == 1 <==> c !in s
  {
  }

  /** No part of a split contains the separator. */
  lemma {:induction false} SplitNoSeparator(s: string, c: char)
    ensures forall k :: 0 <= k < |Split(s, c)| ==> c !in Split(s, c)[k]
    decreases |s|
  {
    if c in s {
      var i := IndexOf(s, c);
      SplitNoSeparator(s[i + 1..], c);
      assert forall k :: 1 <= k < |Split(s, c)| ==> Split(s, c)[k] == Split(s[i + 1..], c)[k - 1];
    }
  }

  /** Joining a part in front of a non-empty list adds it and one separator. */
  lemma JoinCons(h: string, t: seq<string>, c: char)
    requires t != []
    ensures Join([h] + t, c) == h + [c] + Join(t, c)
  {
    assert ([h] + t)[1..] == t;
  }

  /** Past the first separator, a split continues with the split of the rest. */
  lemma SplitTail(s: string, c: char)
    requires c in s
    ensures var parts := Split(s, c);
      |parts| >= 2 && parts[0] == s[..IndexOf(s, c)] && parts[1..] == Split(s[IndexOf(s, c) + 1..], c)
  {
  }

  /** A string is what precedes position `i`, the character there, and what follows. */
  lemma AroundIndex(s: string, i: nat)
    requires i < |s|
    ensures s == s[..i] + [s[i]] + s[i + 1..]
  {
  }

  /** A suffix of a suffix is a suffix. */
  lemma SuffixOfSuffix(s: string, a: nat, b: nat)
    requires a + b <= |s|
    ensures s[a..][b..] == s[a + b..]
  {
  }

  /** Joining the parts of a split with the separator gives back the string. */
  lemma {:induction false} SplitJoin(s: string, c: char)
    ensures Join(Split(s, c), c) == s
    decreases |s|
  {
    if c in s {
      var i := IndexOf(s, c);
      var rest := s[i + 1..];
      SplitJoin(rest, c);
      assert Join(Split(s, c), c) == s[..i] + [c] + rest by {
        var parts := Split(s, c);
        SplitTail(s, c);
        JoinCons(parts[0], parts[1..], c);
        assert [parts[0]] + parts[1..] == parts;
      }
      AroundIndex(s, i);
    }
  }

  /** The first field of a split is the text before the first separator. */
  lemma SplitHead(s: string, c: char)
    ensures var h := Split(s, c)[0];
      StartsWith(s, h) && c !in h && (|h| < |s| ==> s[|h|] == c)
  {
  }

  /** The first field of a split ends where the separator first occurs. */
  lemma SplitHeadAtIndexOf(s: string, c: char)
    requires c in s
    ensures Split(s, c)[0] == s[..IndexOf(s, c)]
  {
  }

  /** The only occurrence of `c` with none after it is the last one. */
  lemma LastIndexOfUnique(s: string, c: char, j: nat)
    requires j < |s| && s[j] == c && c !in s[j + 1..]
    ensures LastIndexOf(s, c) == j
  {
  }

  /** The last occurrence of the separator in `s`, measured from the first one. */
  lemma LastIndexOfAfterFirst(s: string, c: char)
    requires c in s
    ensures var i := IndexOf(s, c); var rest := s[i + 1..];
      LastIndexOf(s, c) == if c in rest then i + 1 + LastIndexOf(rest, c) else i
  {
    var i := IndexOf(s, c);
    var rest := s[i + 1..];
    if c in rest {
      var j := LastIndexOf(rest, c);
      var t := i + 1 + j;
      assert s[t + 1..] == rest[j + 1..];
      LastIndexOfUnique(s, c, t);
    } else {
      LastIndexOfUnique(s, c, i);
    }
  }

  /**
   * `l` is the longest suffix of `s` without the separator: it ends the
   * string, holds no separator, and is preceded by one unless it is the
   * whole string.
   */
  predicate IsLastField(s: string, c: char, l: string) {
    |l| <= |s| && s[|s| - |l|..] == l && c !in l && (|l| < |s| ==> s[|s| - |l| - 1] == c)
  }

  /** The last field of the text after a separator is also the last field of the whole. */
  lemma LastFieldAfter(s: string, c: char, i: nat, l: string)
    requires i < |s| && s[i] == c && IsLastField(s[i + 1..], c, l)
    ensures IsLastField(s, c, l) && |l| < |s|
  {
    var rest := s[i + 1..];
    SuffixOfSuffix(s, i + 1, |rest| - |l|);
    if |l| == |rest| {
      assert s[|s| - |l| - 1] == s[i];
    } else {
      assert s[|s| - |l| - 1] == rest[|rest| - |l| - 1];
    }
  }

  /** The last element of a non-empty list of fields. */
  function Last(parts: seq<string>): string
    requires parts != []
  {
    parts[|parts| - 1]
  }

  /** The last field of a split is the longest suffix without the separator. */
  lemma {:induction false} SplitLast(s: string, c: char)
    ensures IsLastField(s, c, Last(Split(s, c)))
    decreases |s|
  {
    if c in s {
      var i := IndexOf(s, c);
      SplitLastTail(s, c);
      SplitLast(s[i + 1..], c);
      LastFieldAfter(s, c, i, Last(Split(s[i + 1..], c)));
    } else {
      assert s[0..] == s;
    }
  }

  /** Past the first separator, the last field is that of the rest. */
  lemma SplitLastTail(s: string, c: char)
    requires c in s
    ensures Last(Split(s, c)) == Last(Split(s[IndexOf(s, c) + 1..], c))
  {
    var i := IndexOf(s, c);
    var tail := Split(s[i + 1..], c);
    assert Split(s, c) == [s[..i]] + tail;
    LastConcat([s[..i]], tail);
  }

  /** Prepending fields does not change the last one. */
  lemma LastConcat(a: seq<string>, b: seq<string>)
    requires b != []
    ensures Last(a + b) == Last(b)
  {
  }

  /** A separator-free suffix preceded by the separator starts right after its last occurrence. */
  lemma LastFieldAtLastIndexOf(s: string, c: char, l: string)
    requires IsLastField(s, c, l) && |l| < |s|
    ensures l == s[LastIndexOf(s, c) + 1..]
  {
    LastIndexOfUnique(s, c, |s| - |l| - 1);
  }

  /** The last field of a split starts right after the last occurrence of the separator. */
  lemma SplitLastAtLastIndexOf(s: string, c: char)
    requires c in s
    ensures Last(Split(s, c)) == s[LastIndexOf(s, c) + 1..]
  {
    SplitLast(s, c);
    LastFieldAtLastIndexOf(s, c, Last(Split(s, c)));
  }

  /** A string that does not end with the separator has a non-empty last field. */
  lemma SplitLastNonEmpty(s: string, c: char)
    requires s != [] && s[|s| - 1] != c
    ensures Last(Split(s, c)) != []
  {
    if c in s {
      SplitLastAtLastIndexOf(s, c);
    }
  }

  /**
   * The maximal runs of non-whitespace characters of `s`, in order. For a
   * trimmed non-empty string this is `s.split(/\s+/)`.
   */
  function Words(s: string): (ws: seq<string>)
    ensures forall i :: 0 <= i < |ws| ==> ws[i] != [] && forall k :: 0 <= k < |ws[i]| ==> !IsSpace(ws[i][k])
    ensures s != [] && !IsSpace(s[0]) ==>
      ws != [] && StartsWith(s, ws[0]) && (|ws[0]| == |s| || IsSpace(s[|ws[0]|]))
    ensures ws == [] <==> forall k :: 0 <= k < |s| ==> IsSpace(s[k])
    decreases |s|
  {
    if s == [] then []
    else if IsSpace(s[0]) then
      var ws := Words(s[1..]);
      assert forall k :: 1 <= k < |s| ==> s[k] == s[1..][k - 1];
      ws
    else
      var rest := Words(s[1..]);
      if |s| > 1 && !IsSpace(s[1]) then
        var ws := [[s[0]] + rest[0]] + rest[1..];
        assert ws[0] == [s[0]] + rest[0];
        assert s == [s[0]] + s[1..];
        assert forall k :: 0 < k < |ws[0]| ==> ws[0][k] == rest[0][k - 1];
        ws
      else
        [[s[0]]] + rest
  }

  /** `s.trim().split(/\s+/)`: the words of `s`, or a single empty part for a blank string. */
  function SplitTrimmedOnWhitespace(s: string): (parts: seq<string>)
    ensures |parts| >= 1
    ensures Words(s) != [] ==> parts == Words(Trim(s)) == Words(s)
    ensures Words(s) == [] ==> parts == [""]
  {
    WordsOfTrim(s);
    var ws := Words(Trim(s));
    if ws == [] then [""] else ws
  }

  /** Surrounding whitespace does not change the words of a string. */
  lemma WordsOfTrim(s: string)
    ensures Words(Trim(s)) == Words(s)
  {
    WordsTrimStart(s);
    WordsTrimEnd(TrimStart(s));
  }

  lemma {:induction false} WordsTrimStart(s: string)
    ensures Words(TrimStart(s)) == Words(s)
    decreases |s|
  {
    if s != [] && IsSpace(s[0]) {
      WordsTrimStart(s[1..]);
    }
  }

  lemma {:induction false} WordsTrimEnd(s: string)
    ensures Words(TrimEnd(s)) == Words(s)
    decreases |s|
  {
    if s != [] && IsSpace(s[|s| - 1]) {
      WordsTrimEnd(s[..|s| - 1]);
      WordsDropSpace(s);
    }
  }

  /** Dropping one trailing whitespace character keeps the words. */
  lemma {:induction false} WordsDropSpace(s: string)
    requires s != [] && IsSpace(s[|s| - 1])
    ensures Words(s[..|s| - 1]) == Words(s)
    decreases |s|
  {
    if |s| > 1 {
      WordsDropSpace(s[1..]);
      assert s[1..][..|s| - 2] == s[..|s| - 1][1..];
      if !IsSpace(s[0]) && |s| > 2 && !IsSpace(s[1]) {
        assert Words(s[1..]) == Words(s[..|s| - 1][1..]);
      }
    }
  }

  function LowerChar(c: char): char {
    if 'A' <= c <= 'Z' then (c as int + 32) as char else c
  }

  function UpperChar(c: char): char {
    if 'a' <= c <= 'z' then (c as int - 32) as char else c
  }

  /** `toLowerCase`, restricted to the ASCII letters. */
  function ToLower(s: string): string {
    seq(|s|, i requires 0 <= i < |s| => LowerChar(s[i]))
  }

  /** `toUpperCase`, restricted to the ASCII letters. */
  function ToUpper(s: string): string {
    seq(|s|, i requires 0 <= i < |s| => UpperChar(s[i]))
  }

  /** `s.charAt(0)`: the first character, or the empty string. */
  function CharAt0(s: string): string {
    if s == [] then "" else [s[0]]
  }

  /** `s.replace(/from/g, to)` for single characters. */
  function ReplaceAll(s: string, from: char, to: char): (r: string)
    ensures |r| == |s|
    ensures forall i :: 0 <= i < |s| ==> r[i] == if s[i] == from then to else s[i]
    decreases |s|
  {
    if s == [] then []
    else [if s[0] == from then to else s[0]] + ReplaceAll(s[1..], from, to)
  }

  /** The position of the first occurrence of `c` in `s` (`indexOf`, when it is not -1). */
  function IndexOf(s: string, c: char): (i: nat)
    requires c in s
    ensures i < |s| && s[i] == c && c !in s[..i]
    decreases |s|
  {
    if s[0] == c then 0
    else
      var i := IndexOf(s[1..], c) + 1;
      assert s[..i] == [s[0]] + s[1..][..i - 1];
      i
  }

  /** The position of the last occurrence of `c` in `s` (`lastIndexOf`, when it is not -1). */
  function LastIndexOf(s: string, c: char): (i: nat)
    requires c in s
    ensures i < |s| && s[i] == c && c !in s[i + 1..]
    decreases |s|
  {
    if s[|s| - 1] == c then |s| - 1
    else
      assert s == s[..|s| - 1] + [s[|s| - 1]];
      var i := LastIndexOf(s[..|s| - 1], c);
      assert s[i + 1..] == s[..|s| - 1][i + 1..] + [s[|s| - 1]];
      i
  }

  /** `s.replace(from, to)` with a one-character string pattern: only the first occurrence changes. */
  function ReplaceFirst(s: string, from: char, to: char): string {
    if from in s then
      var i := IndexOf(s, from);
      s[..i] + [to] + s[i + 1..]
    else s
  }

  predicate IsDigit(c: char) {
    '0' <= c <= '9'
  }

  predicate IsDigits(s: string) {
    forall i :: 0 <= i < |s| ==> IsDigit(s[i])
  }

  function Pow10(k: nat): (r: nat)
    ensures r >= 1
  {
    if k == 0 then 1 else 10 * Pow10(k - 1)
  }

  /** The number a string of decimal digits spells (leading zeros allowed, "" is 0). */
  function DigitsValue(s: string): nat
    requires IsDigits(s)
    decreases |s|
  {
    if s == [] then 0
    else DigitsValue(s[..|s| - 1]) * 10 + (s[|s| - 1] as int - '0' as int)
  }

  function DigitChar(d: nat): char
    requires d < 10
  {
    ('0' as int + d) as char
  }

  /**
   * `String(n)` for a natural number: its decimal digits without leading
   * zeros, spelling `n` back.
   */
  function NatToString(n: nat): (r: string)
    ensures r != [] && IsDigits(r)
    ensures DigitsValue(r) == n
    ensures r[0] != '0' || r == "0"
  {
    if n < 10 then [DigitChar(n)]
    else
      var r := NatToString(n / 10) + [DigitChar(n % 10)];
      assert r[..|r| - 1] == NatToString(n / 10);
      r
  }

  /** Reading the digits of a concatenation: the left part is shifted by the right part's length. */
  lemma {:induction false} DigitsValueConcat(a: string, b: string)
    requires IsDigits(a) && IsDigits(b)
    ensures IsDigits(a + b)
    ensures DigitsValue(a + b) == DigitsValue(a) * Pow10(|b|) + DigitsValue(b)
    decreases |b|
  {
    if b == [] {
      assert a + b == a;
    } else {
      var b' := b[..|b| - 1];
      var d := b[|b| - 1] as int - '0' as int;
      assert (a + b)[..|a + b| - 1] == a + b';
      DigitsValueConcat(a, b');
      var x, p := DigitsValue(a), Pow10(|b'|);
      assert DigitsValue(a + b) == (x * p + DigitsValue(b')) * 10 + d;
      assert Pow10(|b|) == 10 * p;
      ShiftByTen(x, p);
    }
  }

  lemma ShiftByTen(x: nat, p: nat)
    ensures (x * p) * 10 == x * (10 * p)
  {
  }

  lemma {:induction false} Pow10Monotone(a: nat, b: nat)
    requires a <= b
    ensures Pow10(a) <= Pow10(b)
    decreases b
  {
    if a < b {
      Pow10Monotone(a, b - 1);
    }
  }

  /** The decimal spelling of `n` has exactly as many digits as `n` needs. */
  lemma {:induction false} NatToStringBounds(n: nat)
    ensures var L := |NatToString(n)|;
      n < Pow10(L) && (L == 1 || Pow10(L - 1) <= n)
    decreases n
  {
    if n >= 10 {
      NatToStringBounds(n / 10);
      var L' := |NatToString(n / 10)|;
      assert |NatToString(n)| == L' + 1;
      assert n / 10 + 1 <= Pow10(L');
      if L' > 1 {
        assert 10 * Pow10(L' - 1) <= 10 * (n / 10);
      }
    }
  }

  /** The leading run of decimal digits of `s`. */
  function LeadingDigits(s: string): (r: string)
    ensures IsDigits(r) && StartsWith(s, r)
    ensures |r| == |s| || !IsDigit(s[|r|])
    decreases |s|
  {
    if s != [] && IsDigit(s[0]) then
      var r := [s[0]] + LeadingDigits(s[1..]);
      assert s == [s[0]] + s[1..];
      r
    else []
  }

  /**
   * `parseFloat` on decimal notation: leading whitespace is skipped, then an
   * optional sign, digits and an optional fraction are read as far as they
   * go; None stands for NaN (no digit at all).
   */
  function ParseFloat(s: string): Option<real>
  {
    var t := TrimStart(s);
    var negative := t != [] && t[0] == '-';
    var u := if t != [] && (t[0] == '-' || t[0] == '+') then t[1..] else t;
    var whole := LeadingDigits(u);
    var rest := u[|whole|..];
    var frac := if rest != [] && rest[0] == '.' then LeadingDigits(rest[1..]) else "";
    if whole == [] && frac == [] then None
    else
      var v := DigitsValue(whole) as real + DigitsValue(frac) as real / Pow10(|frac|) as real;
      Some(if negative then -v else v)
  }

  /** `parseFloat` reads the decimal spelling of a natural number back as that number. */
  lemma ParseFloatNatToString(n: nat)
    ensures ParseFloat(NatToString(n)) == Some(n as real)
  {
    var s := NatToString(n);
    assert !IsSpace(s[0]) && s[0] != '-' && s[0] != '+';
    assert TrimStart(s) == s;
    var d := LeadingDigits(s);
    assert d == s;
  }
}
