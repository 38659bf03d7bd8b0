/** Python string semantics the parsers of the appliance rely on:
    `str.split()` on whitespace, `str.split(sep)` on one character,
    `str.strip()`, the `in` substring test, `int(token)` and `str(int)`. */
module PyText {

  datatype Option<T> = None | Some(value: T)

  /** The two exceptions the parsers can raise. */
  datatype PyError = IndexError | ValueError

  /** A value, or the exception that was raised instead. */
  datatype Result<T> = Returned(value: T) | Raised(error: PyError)

  /** `str.isspace()` for one character, restricted to the ASCII range:
      tab, line feed, vertical tab, form feed, carriage return, the four
      separators 0x1C-0x1F, and the space itself. */
  predicate IsSpace(c: char) {
    c == ' ' || ('\t' <= c <= '\r') || ('\U{1C}' <= c <= '\U{1F}')
  }

  predicate NoSpace(w: string) {
    forall i :: 0 <= i < |w| ==> !IsSpace(w[i])
  }

  /** Length of the longest prefix of `s` without whitespace. */
  function WordLen(s: string): (n: nat)
    ensures n <= |s|
    ensures NoSpace(s[..n])
    ensures n < |s| ==> IsSpace(s[n])
  {
    if s == [] || IsSpace(s[0]) then 0
    else
      var k := WordLen(s[1..]);
      assert s[..k + 1] == [s[0]] + s[1..][..k];
      k + 1
  }

  /** `s.split()`: the maximal runs of non-whitespace characters, in order. */
  function Words(s: string): (ws: seq<string>)
    ensures forall w | w in ws :: w != [] && NoSpace(w)
    decreases |s|
  {
    if s == [] then []
    else if IsSpace(s[0]) then Words(s[1..])
    else
      var n := WordLen(s);
      [s[..n]] + Words(s[n..])
  }

  lemma WordsSkipSpace(c: char, r: string)
    requires IsSpace(c)
    ensures Words([c] + r) == Words(r)
  {
    assert ([c] + r)[1..] == r;
  }

  /** A word followed by a whitespace character is split off as one word. */
  lemma WordsWordThenSpace(w: string, c: char, r: string)
    requires w != [] && NoSpace(w) && IsSpace(c)
    ensures Words(w + [c] + r) == [w] + Words(r)
  {
    var s := w + [c] + r;
    var n := WordLen(s);
    assert s[|w|] == c;
    assert forall i :: 0 <= i < |w| ==> s[i] == w[i];
    assert n == |w|;
    assert s[..n] == w;
    assert s[n..] == [c] + r;
    WordsSkipSpace(c, r);
  }

  /** Words each followed by one space: the inverse of `Words` on lists of words. */
  function Unwords(ws: seq<string>): string {
    if ws == [] then [] else ws[0] + [' '] + Unwords(ws[1..])
  }

  lemma {:induction false} WordsUnwords(ws: seq<string>)
    requires forall w | w in ws :: w != [] && NoSpace(w)
    ensures Words(Unwords(ws)) == ws
  {
    if ws != [] {
      assert ws[0] in ws;
      assert forall w | w in ws[1..] :: w in ws;
      WordsUnwords(ws[1..]);
      WordsWordThenSpace(ws[0], ' ', Unwords(ws[1..]));
    }
  }

  /** `s.split(c)` for a one-character separator: the pieces between
      separators, keeping empty pieces, so `n` separators give `n + 1` pieces. */
  function SplitOn(s: string, c: char): (parts: seq<string>)
    ensures |parts| >= 1
    ensures forall p | p in parts :: c !in p
    ensures c in s ==> |parts| >= 2
    decreases |s|
  {
    if s == [] then [[]]
    else
      var rest := SplitOn(s[1..], c);
      if s[0] == c then [[]] + rest
      else
        assert c in s[1..] ==> |rest| >= 2 by {
          if c in s[1..] { assert c in s[1..]; }
        }
        [[s[0]] + rest[0]] + rest[1..]
  }

  /** `sep.join(parts)` for a one-character separator. */
  function JoinWith(parts: seq<string>, c: char): string
    requires |parts| >= 1
  {
    if |parts| == 1 then parts[0] else parts[0] + [c] + JoinWith(parts[1..], c)
  }

  lemma {:induction false} JoinSplit(s: string, c: char)
    ensures JoinWith(SplitOn(s, c), c) == s
    decreases |s|
  {
    if s != [] {
      var rest := SplitOn(s[1..], c);
      JoinSplit(s[1..], c);
      if s[0] == c {
        assert SplitOn(s, c) == [[]] + rest;
        assert ([[]] + rest)[1..] == rest;
      } else {
        var parts := SplitOn(s, c);
        assert parts == [[s[0]] + rest[0]] + rest[1..];
        if |rest| == 1 {
          assert JoinWith(parts, c) == [s[0]] + rest[0];
        } else {
          assert JoinWith(rest, c) == rest[0] + [c] + JoinWith(rest[1..], c);
          assert parts[1..] == rest[1..];
          assert JoinWith(parts, c) == [s[0]] + rest[0] + [c] + JoinWith(rest[1..], c);
        }
      }
    }
  }

  /** Every character of `t` is whitespace. */
  predicate AllSpace(t: string) {
    forall i :: 0 <= i < |t| ==> IsSpace(t[i])
  }

  /** `s.lstrip()`: the suffix left after the leading run of whitespace. */
  function LStrip(s: string): (r: string)
    ensures |r| <= |s| && r == s[|s| - |r|..]
    ensures r == [] || !IsSpace(r[0])
    ensures AllSpace(s[..|s| - |r|])
  {
    if s != [] && IsSpace(s[0]) then
      var r := LStrip(s[1..]);
      assert s[..|s| - |r|] == [s[0]] + s[1..][..|s| - 1 - |r|];
      r
    else s
  }

  /** `s.rstrip()`: the prefix left after the trailing run of whitespace. */
  function RStrip(s: string): (r: string)
    ensures |r| <= |s| && r == s[..|r|]
    ensures r == [] || !IsSpace(r[|r| - 1])
    ensures AllSpace(s[|r|..])
  {
    if s != [] && IsSpace(s[|s| - 1]) then
      var r := RStrip(s[..|s| - 1]);
      assert s[|r|..] == s[..|s| - 1][|r|..] + [s[|s| - 1]];
      r
    else s
  }

  /** `s.strip()`: `s` without leading and trailing whitespace. */
  function Strip(s: string): (r: string)
    ensures |r| <= |s|
    ensures r == [] || (!IsSpace(r[0]) && !IsSpace(r[|r| - 1]))
  {
    RStrip(LStrip(s))
  }

  /** `strip()` keeps a middle part of `s` that neither starts nor ends with
      whitespace, and everything it removes before and after is whitespace. */
  lemma StripMeaning(s: string) returns (k: nat)
    ensures k + |Strip(s)| <= |s| && Strip(s) == s[k..k + |Strip(s)|]
    ensures AllSpace(s[..k]) && AllSpace(s[k + |Strip(s)|..])
  {
    var l := LStrip(s);
    var r := RStrip(l);
    assert Strip(s) == r;
    k := |s| - |l|;
    assert l == s[k..];
    assert r == l[..|r|];
    assert r == s[k..k + |r|];
    assert s[k + |r|..] == l[|r|..];
  }

  /** `s[lo:hi]` for non-negative bounds: out-of-range bounds are clamped. */
  function Slice(s: string, lo: nat, hi: nat): (r: string)
    ensures lo <= hi <= |s| ==> r == s[lo..hi]
    ensures lo <= |s| < hi ==> r == s[lo..]
    ensures hi <= lo || |s| <= lo ==> r == []
  {
    var h := if hi <= |s| then hi else |s|;
    var l := if lo <= h then lo else h;
    s[l..h]
  }

  predicate StartsWith(s: string, p: string) {
    |p| <= |s| && s[..|p|] == p
  }

  /** `sub in s`. */
  predicate Contains(s: string, sub: string)
    decreases |s|
  {
    StartsWith(s, sub) || (s != [] && Contains(s[1..], sub))
  }

  lemma {:induction false} ContainsAt(s: string, sub: string, k: nat)
    requires k + |sub| <= |s| && s[k..k + |sub|] == sub
    ensures Contains(s, sub)
    decreases k
  {
    if k > 0 {
      assert s[1..][k - 1..k - 1 + |sub|] == s[k..k + |sub|];
      ContainsAt(s[1..], sub, k - 1);
    }
  }

  lemma {:induction false} ContainsWitness(s: string, sub: string) returns (k: nat)
    requires Contains(s, sub)
    ensures k + |sub| <= |s| && s[k..k + |sub|] == sub
    decreases |s|
  {
    if StartsWith(s, sub) {
      k := 0;
    } else {
      var j := ContainsWitness(s[1..], sub);
      assert s[1..][j..j + |sub|] == s[j + 1..j + 1 + |sub|];
      k := j + 1;
    }
  }

  predicate IsDigit(c: char) { '0' <= c <= '9' }

  predicate AllDigits(s: string) {
    forall i :: 0 <= i < |s| ==> IsDigit(s[i])
  }

  function DigitChar(d: nat): (c: char)
    requires d < 10
    ensures IsDigit(c) && c as int - '0' as int == d
  {
    ('0' as int + d) as char
  }

  /** The value of a string of decimal digits. */
  function DecimalValue(s: string): (n: nat)
    requires AllDigits(s)
  {
    if s == [] then 0
    else 10 * DecimalValue(s[..|s| - 1]) + (s[|s| - 1] as int - '0' as int)
  }

  /** `str(n)` for a natural number: decimal digits, no leading zeros. */
  function ShowNat(n: nat): (s: string)
    ensures s != [] && AllDigits(s)
    ensures |s| > 1 ==> s[0] != '0'
  {
    if n < 10 then [DigitChar(n)] else ShowNat(n / 10) + [DigitChar(n % 10)]
  }

  /** `str(i)`. */
  function ShowInt(i: int): string {
    if i < 0 then "-" + ShowNat(-i) else ShowNat(i)
  }

  /** What `int()` accepts in a token without whitespace: digits, or a sign
      followed by at least one digit. */
  predicate IsIntToken(tok: string) {
    || (tok != [] && AllDigits(tok))
    || (|tok| >= 2 && (tok[0] == '-' || tok[0] == '+') && AllDigits(tok[1..]))
  }

  /** `int(tok)` for a token without whitespace: an optional sign followed by
      at least one ASCII digit; anything else is `None` (a `ValueError`). */
  function ParseInt(tok: string): (r: Option<int>)
    ensures r.Some? ==> tok != []
  {
    if tok != [] && (tok[0] == '-' || tok[0] == '+') then
      var body := tok[1..];
      if body != [] && AllDigits(body) then
        var v: int := DecimalValue(body);
        Some(if tok[0] == '-' then -v else v)
      else None
    else if tok != [] && AllDigits(tok) then Some(DecimalValue(tok))
    else None
  }

  /** `int(tok)` raises ValueError exactly when `tok` is not an optional
      sign followed by digits, and otherwise gives the token's decimal value,
      negated after a minus sign. */
  lemma ParseIntMeaning(tok: string)
    ensures ParseInt(tok).Some? <==> IsIntToken(tok)
    ensures tok != [] && AllDigits(tok) ==> ParseInt(tok) == Some(DecimalValue(tok))
    ensures |tok| >= 2 && tok[0] == '+' && AllDigits(tok[1..]) ==> ParseInt(tok) == Some(DecimalValue(tok[1..]))
    ensures |tok| >= 2 && tok[0] == '-' && AllDigits(tok[1..]) ==> ParseInt(tok) == Some(0 - DecimalValue(tok[1..]))
  {
    if tok != [] && (tok[0] == '-' || tok[0] == '+') {
      assert !IsDigit(tok[0]) && !AllDigits(tok);
      var body := tok[1..];
      if body != [] && AllDigits(body) {
        var v: int := DecimalValue(body);
        assert ParseInt(tok) == Some(if tok[0] == '-' then -v else v);
      } else {
        assert ParseInt(tok) == None;
      }
    } else if tok != [] && AllDigits(tok) {
      assert ParseInt(tok) == Some(DecimalValue(tok));
    } else {
      assert ParseInt(tok) == None;
    }
  }

  lemma {:induction false} DecimalShowNat(n: nat)
    ensures DecimalValue(ShowNat(n)) == n
  {
    if n >= 10 {
      DecimalShowNat(n / 10);
      var s := ShowNat(n);
      assert s[..|s| - 1] == ShowNat(n / 10);
    }
  }

  /** Printing an integer and parsing it back gives the integer. */
  lemma ParseShowInt(i: int)
    ensures ParseInt(ShowInt(i)) == Some(i)
  {
    var s := ShowInt(i);
    if i < 0 {
      var body := ShowNat(-i);
      DecimalShowNat(-i);
      assert s == "-" + body;
      assert s[0] == '-' && s[1..] == body;
      assert ParseInt(s) == Some(0 - DecimalValue(body) as int);
    } else {
      DecimalShowNat(i);
      assert s == ShowNat(i) && IsDigit(s[0]);
      assert ParseInt(s) == Some(DecimalValue(s));
    }
  }
}
