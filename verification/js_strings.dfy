/** The JavaScript string built-ins the plugin relies on, written out so that
    their edge cases are part of the model: `String.prototype.trim`, the `||`
    operator on `string | undefined`, `indexOf`, `replace` and `replaceAll`
    with a string pattern (including the `$`-patterns of the replacement
    text, section 22.1.3.19.1 "GetSubstitution" of ECMA-262), and the
    conversion between non-negative integers and their decimal text. */
module JsStrings {
  import opened Wrappers

  // ---------------------------------------------------------------------
  // trim
  // ---------------------------------------------------------------------

  /** WhiteSpace or LineTerminator in the sense of ECMA-262 sections 12.2
      and 12.3: exactly the characters `trim` removes. */
  predicate IsJsWhitespace(c: char) {
    || c == '\t' || c == '\n' || c == '\U{B}' || c == '\U{C}' || c == '\r'
    || c == ' ' || c == '\U{A0}' || c == '\U{1680}'
    || ('\U{2000}' <= c <= '\U{200A}')
    || c == '\U{2028}' || c == '\U{2029}' || c == '\U{202F}' || c == '\U{205F}'
    || c == '\U{3000}' || c == '\U{FEFF}'
  }

  /** Every character is whitespace (the empty string included). */
  predicate IsBlank(s: string) {
    forall i :: 0 <= i < |s| ==> IsJsWhitespace(s[i])
  }

  /** A whitespace character in front of blank text keeps it blank. */
  lemma BlankCons(c: char, t: string)
    requires IsJsWhitespace(c) && IsBlank(t)
    ensures IsBlank([c] + t)
  {
    forall i | 0 <= i < |[c] + t|
      ensures IsJsWhitespace(([c] + t)[i])
    {
      if i > 0 {
        assert ([c] + t)[i] == t[i - 1];
      }
    }
  }

  function TrimStart(s: string): (r: string)
    ensures |r| <= |s| && r == s[|s| - |r|..]
    ensures IsBlank(s[..|s| - |r|])
    ensures |r| > 0 ==> !IsJsWhitespace(r[0])
  {
    if |s| > 0 && IsJsWhitespace(s[0]) then
      var r := TrimStart(s[1..]);
      assert s[..|s| - |r|] == [s[0]] + s[1..][..|s| - 1 - |r|];
      BlankCons(s[0], s[1..][..|s| - 1 - |r|]);
      r
    else s
  }

  function TrimEnd(s: string): (r: string)
    ensures |r| <= |s| && r == s[..|r|]
    ensures IsBlank(s[|r|..])
    ensures |r| > 0 ==> !IsJsWhitespace(r[|r| - 1])
  {
    if |s| > 0 && IsJsWhitespace(s[|s| - 1]) then
      var r := TrimEnd(s[..|s| - 1]);
      assert s[|r|..] == s[..|s| - 1][|r|..] + [s[|s| - 1]];
      r
    else s
  }

  /** `String.prototype.trim`: the result is empty exactly when the input is
      blank, and otherwise starts and ends with a non-whitespace character. */
  function Trim(s: string): (r: string)
    ensures r == "" <==> IsBlank(s)
    ensures |r| > 0 ==> !IsJsWhitespace(r[0]) && !IsJsWhitespace(r[|r| - 1])
  {
    var t := TrimStart(s);
    assert s == s[..|s| - |t|] + t;
    TrimEnd(t)
  }

  // ---------------------------------------------------------------------
  // truthiness of `string | undefined`
  // ---------------------------------------------------------------------

  /** A `string | undefined` is truthy when it is a non-empty string. */
  predicate Truthy(s: Option<string>) {
    s.Some? && s.value != ""
  }

  /** The `a || b` operator on two `string | undefined` values. */
  function Or(a: Option<string>, b: Option<string>): (r: Option<string>)
    ensures Truthy(r) <==> Truthy(a) || Truthy(b)
    ensures Truthy(a) ==> r == a
    ensures !Truthy(a) ==> r == b
  {
    if Truthy(a) then a else b
  }

  /** `a || b` where `b` is known to be a string. */
  function OrString(a: Option<string>, b: string): (r: string)
    ensures Truthy(a) ==> Some(r) == a
    ensures !Truthy(a) ==> r == b
  {
    if Truthy(a) then a.value else b
  }

  /** `String(x)` (and `${x}`) of a `string | undefined`. */
  function Show(x: Option<string>): (r: string)
    ensures x.None? ==> r == "undefined"
    ensures x.Some? ==> r == x.value
  {
    x.OrElse("undefined")
  }

  // ---------------------------------------------------------------------
  // indexOf
  // ---------------------------------------------------------------------

  /** `pat` occurs in `s` starting at index `i`. */
  predicate OccursAt(s: string, pat: string, i: nat) {
    i + |pat| <= |s| && s[i..i + |pat|] == pat
  }

  ghost predicate Contains(s: string, pat: string) {
    exists i: nat :: OccursAt(s, pat, i)
  }

  /** `s.indexOf(pat, from)` with `None` for -1: the first occurrence at or
      after `from`. */
  function IndexOf(s: string, pat: string, from: nat): (r: Option<nat>)
    ensures r.Some? ==> from <= r.value && OccursAt(s, pat, r.value)
    ensures r.Some? ==> forall i: nat :: from <= i < r.value ==> !OccursAt(s, pat, i)
    ensures r.None? ==> forall i: nat :: from <= i ==> !OccursAt(s, pat, i)
    decreases |s| - from
  {
    if from + |pat| > |s| then None
    else if s[from..from + |pat|] == pat then Some(from)
    else IndexOf(s, pat, from + 1)
  }

  /** When `pat` starts with a character found nowhere else in it, and `a`
      does not contain `pat`, the first occurrence in `a + pat + b` is the
      one right after `a`, whatever `b` holds. */
  lemma FirstOccurrenceAfter(a: string, pat: string, b: string)
    requires HeadUnique(pat)
    requires !Contains(a, pat)
    ensures IndexOf(a + pat + b, pat, 0) == Some(|a|)
  {
    var s := a + pat + b;
    assert s[|a|..|a| + |pat|] == pat;
    assert OccursAt(s, pat, |a|);
    forall i: nat | i < |a|
      ensures !OccursAt(s, pat, i)
    {
      if i + |pat| <= |a| {
        assert a[i..i + |pat|] == s[i..i + |pat|];
        assert !OccursAt(a, pat, i);
      } else if i + |pat| <= |s| {
        var d := |a| - i;
        assert s[i..i + |pat|][d] == s[|a|] == pat[0] != pat[d];
      }
    }
  }

  /** Text without the first character of `pat` in front of text without
      `pat`: no occurrence can start in the front part. */
  lemma NoHeadConcat(x: string, y: string, pat: string)
    requires |pat| > 0 && pat[0] !in x && !Contains(y, pat)
    ensures !Contains(x + y, pat)
  {
    forall i: nat
      ensures !OccursAt(x + y, pat, i)
    {
      if i + |pat| <= |x + y| {
        if i < |x| {
          assert (x + y)[i..i + |pat|][0] == x[i];
          assert x[i] in x;
        } else {
          assert (x + y)[i..i + |pat|] == y[i - |x|..i - |x| + |pat|];
          assert !OccursAt(y, pat, i - |x|);
        }
      }
    }
  }

  /** A head-unique token that starts like `pat` but differs from it at
      its second character, in front of text without `pat`: `pat` does not
      occur in the whole. */
  lemma TokenConcat(t: string, y: string, pat: string)
    requires HeadUnique(t) && |t| >= 2 && |pat| >= 2
    requires t[0] == pat[0] && t[1] != pat[1] && !Contains(y, pat)
    ensures !Contains(t + y, pat)
  {
    forall i: nat
      ensures !OccursAt(t + y, pat, i)
    {
      if i + |pat| <= |t + y| {
        if i == 0 {
          assert (t + y)[i..i + |pat|][1] == t[1];
        } else if i < |t| {
          assert (t + y)[i..i + |pat|][0] == t[i];
        } else {
          assert (t + y)[i..i + |pat|] == y[i - |t|..i - |t| + |pat|];
          assert !OccursAt(y, pat, i - |t|);
        }
      }
    }
  }

  /** A text without the first character of `pat` cannot contain `pat`. */
  lemma NoHeadNoContains(s: string, pat: string)
    requires |pat| > 0 && pat[0] !in s
    ensures !Contains(s, pat)
  {
    forall i: nat | i + |pat| <= |s|
      ensures !OccursAt(s, pat, i)
    {
      assert s[i..i + |pat|][0] == s[i];
      assert s[i] in s;
    }
  }

  /** The first character of `pat` does not occur again inside it, so two
      occurrences of `pat` can never overlap. */
  predicate HeadUnique(pat: string) {
    |pat| > 0 && forall i :: 0 < i < |pat| ==> pat[i] != pat[0]
  }

  // ---------------------------------------------------------------------
  // replace / replaceAll with a string pattern
  // ---------------------------------------------------------------------

  /** GetSubstitution for a string pattern (no capture groups): `$$` is a
      dollar sign, `$&` the matched text, `` $` `` the text before the match,
      `$'` the text after it; every other `$` is literal. */
  function Expand(rep: string, matched: string, before: string, after: string): string
    decreases |rep|
  {
    if |rep| == 0 then ""
    else if rep[0] == '$' && |rep| >= 2 && rep[1] == '$' then
      "$" + Expand(rep[2..], matched, before, after)
    else if rep[0] == '$' && |rep| >= 2 && rep[1] == '&' then
      matched + Expand(rep[2..], matched, before, after)
    else if rep[0] == '$' && |rep| >= 2 && rep[1] == '`' then
      before + Expand(rep[2..], matched, before, after)
    else if rep[0] == '$' && |rep| >= 2 && rep[1] == '\'' then
      after + Expand(rep[2..], matched, before, after)
    else
      [rep[0]] + Expand(rep[1..], matched, before, after)
  }

  /** A replacement text without `$` is inserted verbatim. */
  lemma {:induction false} ExpandLiteral(rep: string, matched: string, before: string, after: string)
    requires '$' !in rep
    ensures Expand(rep, matched, before, after) == rep
    decreases |rep|
  {
    if |rep| > 0 {
      assert rep[0] != '$';
      assert '$' !in rep[1..];
      ExpandLiteral(rep[1..], matched, before, after);
      assert rep == [rep[0]] + rep[1..];
    }
  }

  /** `s.replace(pat, rep)`: only the first occurrence is replaced. */
  function ReplaceFirst(s: string, pat: string, rep: string): (r: string)
    ensures !Contains(s, pat) ==> r == s
  {
    match IndexOf(s, pat, 0)
    case None => s
    case Some(p) => s[..p] + Expand(rep, pat, s[..p], s[p + |pat|..]) + s[p + |pat|..]
  }

  /** `s.replaceAll(pat, rep)`. */
  function ReplaceAll(s: string, pat: string, rep: string): (r: string)
    ensures !Contains(s, pat) ==> r == s
  {
    ReplaceAllIn("", s, pat, rep)
  }

  /** The matching loop of `replaceAll`, with `done` the text already
      scanned and `rest` the text still to scan. An empty pattern matches
      before every character and at the end. */
  function ReplaceAllIn(done: string, rest: string, pat: string, rep: string): (r: string)
    ensures !Contains(rest, pat) ==> r == rest
    decreases |rest|
  {
    if |pat| == 0 then
      assert OccursAt(rest, pat, 0);
      var e := Expand(rep, pat, done, rest);
      if |rest| == 0 then e else e + [rest[0]] + ReplaceAllIn(done + [rest[0]], rest[1..], pat, rep)
    else
      match IndexOf(rest, pat, 0)
      case None => rest
      case Some(i) =>
        rest[..i] + Expand(rep, pat, done + rest[..i], rest[i + |pat|..])
        + ReplaceAllIn(done + rest[..i + |pat|], rest[i + |pat|..], pat, rep)
  }

  /** `pieces` glued together with `sep` between neighbours. */
  function Join(pieces: seq<string>, sep: string): string
  {
    if |pieces| == 0 then ""
    else if |pieces| == 1 then pieces[0]
    else pieces[0] + sep + Join(pieces[1..], sep)
  }

  /** `replaceAll` replaces every occurrence: cutting a string at the
      occurrences of a non-self-overlapping pattern and gluing the pieces
      back with the replacement gives the result. */
  lemma {:induction false} ReplaceAllJoin(done: string, pieces: seq<string>, pat: string, rep: string)
    requires |pieces| >= 1
    requires HeadUnique(pat) && '$' !in rep
    requires forall i :: 0 <= i < |pieces| ==> !Contains(pieces[i], pat)
    ensures ReplaceAllIn(done, Join(pieces, pat), pat, rep) == Join(pieces, rep)
    decreases |pieces|
  {
    if |pieces| > 1 {
      var a := pieces[0];
      var rest := Join(pieces[1..], pat);
      var s := a + pat + rest;
      assert Join(pieces, pat) == s;
      FirstOccurrenceAfter(a, pat, rest);
      ExpandLiteral(rep, pat, done + s[..|a|], s[|a| + |pat|..]);
      assert s[..|a|] == a;
      assert s[|a| + |pat|..] == rest;
      ReplaceAllJoin(done + s[..|a| + |pat|], pieces[1..], pat, rep);
    }
  }

  /** `replace` touches the first occurrence only: everything after it,
      later occurrences included, is copied unchanged. */
  lemma ReplaceFirstSplit(a: string, pat: string, b: string, rep: string)
    requires HeadUnique(pat) && '$' !in rep
    requires !Contains(a, pat)
    ensures ReplaceFirst(a + pat + b, pat, rep) == a + rep + b
  {
    var s := a + pat + b;
    FirstOccurrenceAfter(a, pat, b);
    ExpandLiteral(rep, pat, s[..|a|], s[|a| + |pat|..]);
    assert s[..|a|] == a;
    assert s[|a| + |pat|..] == b;
  }

  // ---------------------------------------------------------------------
  // decimal text of non-negative integers
  // ---------------------------------------------------------------------

  predicate IsDigit(c: char) {
    '0' <= c <= '9'
  }

  predicate AllDigits(s: string) {
    forall i :: 0 <= i < |s| ==> IsDigit(s[i])
  }

  function DigitChar(d: nat): (c: char)
    requires d < 10
    ensures IsDigit(c)
  {
    ('0' as int + d) as char
  }

  function DigitValue(c: char): (d: nat)
    requires IsDigit(c)
    ensures d < 10 && DigitChar(d) == c
  {
    c as int - '0' as int
  }

  /** Template-literal rendering `${n}` of a non-negative integer. */
  function NatToString(n: nat): (s: string)
    ensures |s| > 0 && AllDigits(s)
    ensures s[0] == '0' ==> n == 0
    decreases n
  {
    if n < 10 then [DigitChar(n)] else NatToString(n / 10) + [DigitChar(n % 10)]
  }

  /** `${i}` (and `i.toString()`) of an integer: a minus sign before the
      digits of a negative one. */
  function IntToString(i: int): (s: string)
    ensures i >= 0 ==> s == NatToString(i)
    ensures i < 0 ==> s == "-" + NatToString(-i)
    ensures '$' !in s
  {
    var digits := NatToString(if i < 0 then -i else i);
    assert forall k :: 0 <= k < |digits| ==> digits[k] != '$';
    if i < 0 then "-" + digits else digits
  }

  function DigitsValue(s: string): nat
    requires AllDigits(s)
  {
    if |s| == 0 then 0 else DigitsValue(s[..|s| - 1]) * 10 + DigitValue(s[|s| - 1])
  }

  /** The index denoted by a property key when it is the canonical decimal
      text of a non-negative integer (no sign, no leading zero). */
  function ParseCanonicalNat(s: string): Option<nat>
  {
    if |s| > 0 && AllDigits(s) && (s[0] != '0' || |s| == 1) then Some(DigitsValue(s)) else None
  }

  lemma {:induction false} DigitsValueOfNatToString(n: nat)
    ensures DigitsValue(NatToString(n)) == n
    decreases n
  {
    if n >= 10 {
      var s := NatToString(n);
      assert s[..|s| - 1] == NatToString(n / 10);
      DigitsValueOfNatToString(n / 10);
    }
  }

  lemma {:induction false} DigitsValueAtLeastHead(s: string)
    requires |s| > 0 && AllDigits(s)
    ensures DigitsValue(s) >= DigitValue(s[0])
    decreases |s|
  {
    if |s| > 1 {
      var t := s[..|s| - 1];
      assert t[0] == s[0];
      DigitsValueAtLeastHead(t);
    }
  }

  /** A canonical decimal text and the integer it denotes determine each
      other: parsing inverts printing, and printing inverts parsing. */
  lemma {:induction false} CanonicalNatRoundTrip(n: nat, s: string)
    ensures ParseCanonicalNat(s) == Some(n) <==> s == NatToString(n)
    decreases |s|
  {
    if s == NatToString(n) {
      DigitsValueOfNatToString(n);
    }
    if ParseCanonicalNat(s) == Some(n) {
      if |s| == 1 {
        assert n == DigitsValue(s);
        assert DigitsValue(s) == DigitsValue(s[..0]) * 10 + DigitValue(s[0]);
        assert s[..0] == [] && DigitsValue([]) == 0;
        assert s == [DigitChar(n)];
      } else {
        var t := s[..|s| - 1];
        var d := DigitValue(s[|s| - 1]);
        assert t[0] == s[0];
        DigitsValueAtLeastHead(t);
        assert DigitsValue(t) >= 1;
        assert n == DigitsValue(t) * 10 + d;
        assert n / 10 == DigitsValue(t) && n % 10 == d;
        CanonicalNatRoundTrip(DigitsValue(t), t);
        assert s == t + [s[|s| - 1]];
      }
    }
  }
}
