/**
 * The message-link parser of `MessageExtractor.parse_message_link`.
 *
 * The input is stripped of surrounding white space, then two regular
 * expressions are tried in order with `re.match`, which anchors only at the
 * start of the string:
 *   1. `(?:https?://)?t\.me/([a-zA-Z0-9_]+)/(\d+)`   (a public handle)
 *   2. `(?:https?://)?t\.me/c/(-?\d+)/(\d+)`          (a private channel)
 * The two patterns are written out here as hand-coded prefix matchers, each
 * paired with a declarative description of the strings it accepts.
 */
module MessageLinks {
  import opened Wrappers

  // ---------------------------------------------------------------------
  // Characters and prefixes
  // ---------------------------------------------------------------------

  /** The characters for which Python's `str.isspace()` holds: what `strip()` removes. */
  predicate IsSpace(c: char) {
    || c == ' '
    || '\t' <= c <= '\r'
    || '\U{1c}' <= c <= '\U{1f}'
    || c == '\U{85}' || c == '\U{a0}' || c == '\U{1680}'
    || '\U{2000}' <= c <= '\U{200a}'
    || c == '\U{2028}' || c == '\U{2029}' || c == '\U{202f}' || c == '\U{205f}' || c == '\U{3000}'
  }

  /** An ASCII digit; `\d` is restricted to these. */
  predicate IsDigit(c: char) { '0' <= c <= '9' }

  /** A member of the class `[a-zA-Z0-9_]`. */
  predicate IsWordChar(c: char) { 'a' <= c <= 'z' || 'A' <= c <= 'Z' || IsDigit(c) || c == '_' }

  predicate AllDigits(s: string) { forall i :: 0 <= i < |s| ==> IsDigit(s[i]) }

  predicate AllWordChars(s: string) { forall i :: 0 <= i < |s| ==> IsWordChar(s[i]) }

  predicate StartsWith(s: string, p: string) { |p| <= |s| && s[..|p|] == p }

  /** Python's `p in s` for strings. */
  predicate Contains(s: string, p: string) {
    StartsWith(s, p) || (s != [] && Contains(s[1..], p))
  }

  lemma StartsWithConcat(s: string, p: string, q: string)
    ensures StartsWith(s, p + q) <==> StartsWith(s, p) && StartsWith(s[|p|..], q)
  {
    if StartsWith(s, p) && StartsWith(s[|p|..], q) {
      assert s[..|p + q|] == s[..|p|] + s[|p|..][..|q|];
    }
    if StartsWith(s, p + q) {
      assert s[..|p|] == (p + q)[..|p|];
      assert s[|p|..][..|q|] == (p + q)[|p|..];
    }
  }

  // ---------------------------------------------------------------------
  // str.strip()
  // ---------------------------------------------------------------------

  function TrimLeft(s: string): (r: string)
    ensures |r| <= |s| && r == s[|s| - |r|..]
    ensures forall i :: 0 <= i < |s| - |r| ==> IsSpace(s[i])
    ensures r != [] ==> !IsSpace(r[0])
  {
    if s != [] && IsSpace(s[0]) then TrimLeft(s[1..]) else s
  }

  function TrimRight(s: string): (r: string)
    ensures |r| <= |s| && r == s[..|r|]
    ensures forall i :: |r| <= i < |s| ==> IsSpace(s[i])
    ensures r != [] ==> !IsSpace(r[|r| - 1])
  {
    if s != [] && IsSpace(s[|s| - 1]) then TrimRight(s[..|s| - 1]) else s
  }

  /** `r` is `s[i..]` cut at length `|r|`, with only white space before and after it. */
  predicate Infix(s: string, r: string, i: int) {
    && 0 <= i <= |s| - |r| && r == s[i..i + |r|]
    && (forall k :: 0 <= k < i ==> IsSpace(s[k]))
    && (forall k :: i + |r| <= k < |s| ==> IsSpace(s[k]))
  }

  /** Python's `str.strip()`: the longest infix of `s` that neither begins nor ends with white space. */
  function Strip(s: string): (r: string)
    ensures r != [] ==> !IsSpace(r[0]) && !IsSpace(r[|r| - 1])
    ensures exists i :: Infix(s, r, i)
  {
    var t := TrimLeft(s);
    var r := TrimRight(t);
    TrimmedInfix(s, t, r);
    r
  }

  /** White space, then `t`, where `t` is `r` followed by white space. */
  lemma TrimmedInfix(s: string, t: string, r: string)
    requires |t| <= |s| && t == s[|s| - |t|..] && forall k :: 0 <= k < |s| - |t| ==> IsSpace(s[k])
    requires t != [] ==> !IsSpace(t[0])
    requires |r| <= |t| && r == t[..|r|] && forall k :: |r| <= k < |t| ==> IsSpace(t[k])
    requires r != [] ==> !IsSpace(r[|r| - 1])
    ensures r != [] ==> !IsSpace(r[0]) && !IsSpace(r[|r| - 1])
    ensures exists i :: Infix(s, r, i)
  {
    var i := |s| - |t|;
    assert r != [] ==> r[0] == t[0];
    assert r == s[i..i + |r|];
    forall k | i + |r| <= k < |s|
      ensures IsSpace(s[k])
    {
      assert s[k] == t[k - i];
    }
    assert Infix(s, r, i);
  }

  /** Stripping twice is stripping once. */
  lemma StripIdempotent(s: string)
    ensures Strip(Strip(s)) == Strip(s)
  {
    var r := Strip(s);
    assert TrimLeft(r) == r;
    assert TrimRight(r) == r;
  }

  // ---------------------------------------------------------------------
  // Maximal runs (greedy `+` quantifiers)
  // ---------------------------------------------------------------------

  /** Length of the longest prefix of word characters: what `[a-zA-Z0-9_]+` consumes greedily. */
  function WordSpan(s: string): (n: nat)
    ensures n <= |s| && AllWordChars(s[..n])
    ensures n < |s| ==> !IsWordChar(s[n])
  {
    if s != [] && IsWordChar(s[0]) then
      var k := WordSpan(s[1..]);
      assert s[..k + 1] == [s[0]] + s[1..][..k];
      k + 1
    else 0
  }

  /** Length of the longest prefix of digits: what `\d+` consumes greedily. */
  function DigitSpan(s: string): (n: nat)
    ensures n <= |s| && AllDigits(s[..n])
    ensures n < |s| ==> !IsDigit(s[n])
  {
    if s != [] && IsDigit(s[0]) then
      var k := DigitSpan(s[1..]);
      assert s[..k + 1] == [s[0]] + s[1..][..k];
      k + 1
    else 0
  }

  /** A word-character identifier followed by `/` is consumed exactly by the greedy run. */
  lemma WordSpanOf(b: string, ident: string)
    requires ident != [] && AllWordChars(ident) && StartsWith(b, ident + "/")
    ensures WordSpan(b) == |ident| && b[..|ident|] == ident && b[|ident|] == '/'
  {
    assert b[..|ident| + 1] == ident + "/";
    assert b[|ident|] == (ident + "/")[|ident|];
    assert b[..|ident|] == (ident + "/")[..|ident|];
  }

  /** A digit run followed by a non-digit (or the end) is consumed exactly by the greedy run. */
  lemma DigitSpanOf(c: string, digits: string)
    requires AllDigits(digits) && StartsWith(c, digits)
    requires |c| == |digits| || !IsDigit(c[|digits|])
    ensures DigitSpan(c) == |digits| && c[..|digits|] == digits
    decreases |digits|
  {
    if digits != [] {
      assert c[0] == digits[0];
      assert c[1..][..|digits| - 1] == digits[1..];
      DigitSpanOf(c[1..], digits[1..]);
    }
  }

  // ---------------------------------------------------------------------
  // The two patterns
  // ---------------------------------------------------------------------

  /** The two capture groups of a successful match. */
  datatype Groups = Groups(ident: string, digits: string)

  /** How much of `s` the optional `(?:https?://)?` consumes. */
  function SchemeLength(s: string): (n: nat)
    ensures n <= |s|
  {
    if StartsWith(s, "https://") then 8 else if StartsWith(s, "http://") then 7 else 0
  }

  /** `s` begins with `p`, and what follows `p` (if anything) is not a digit. */
  predicate BeginsWithEnding(s: string, p: string) {
    StartsWith(s, p) && (|s| == |p| || !IsDigit(s[|p|]))
  }

  /** `/`, then the greedy digit run, after an identifier of length `n` at the start of `b`. */
  function MessageIdAfter(b: string, n: nat): (g: Option<Groups>)
    requires n <= |b|
    ensures g.Some? ==> g.value.digits != [] && AllDigits(g.value.digits) && g.value.ident == b[..n]
  {
    if n == 0 || n == |b| || b[n] != '/' then None
    else
      var c := b[n + 1..];
      var d := DigitSpan(c);
      if d == 0 then None else Some(Groups(b[..n], c[..d]))
  }

  /** The pieces `b` = ident + "/" + digits + rest that MessageIdAfter splits off. */
  lemma MessageIdAfterSplit(b: string, n: nat)
    requires n <= |b| && MessageIdAfter(b, n).Some?
    ensures var g := MessageIdAfter(b, n).value;
            BeginsWithEnding(b, g.ident + "/" + g.digits)
  {
    var g := MessageIdAfter(b, n).value;
    var c := b[n + 1..];
    var d := DigitSpan(c);
    assert b == b[..n] + "/" + c[..d] + c[d..];
    var p := g.ident + "/" + g.digits;
    assert b[..|p|] == p;
    if |b| > |p| {
      assert b[|p|] == c[d];
    }
  }

  lemma MessageIdAfterOf(b: string, ident: string, digits: string)
    requires ident != [] && digits != [] && AllDigits(digits)
    requires StartsWith(b, ident + "/") && BeginsWithEnding(b, ident + "/" + digits)
    ensures MessageIdAfter(b, |ident|) == Some(Groups(ident, digits))
  {
    var n := |ident|;
    assert b[n] == (ident + "/")[n];
    assert b[..n] == (ident + "/")[..n];
    StartsWithConcat(b, ident + "/", digits);
    var c := b[n + 1..];
    if |c| > |digits| {
      assert c[|digits|] == b[|ident + "/" + digits|];
    }
    DigitSpanOf(c, digits);
  }

  /** Pattern 1 without its optional scheme. */
  function MatchHandleRest(a: string): (g: Option<Groups>)
    ensures g.Some? ==> g.value.digits != [] && AllDigits(g.value.digits)
  {
    if !StartsWith(a, "t.me/") then None
    else
      var b := a[5..];
      MessageIdAfter(b, WordSpan(b))
  }

  /** Length of what `-?\d+` consumes greedily at the start of `b` (0 when it does not match). */
  function SignedDigitSpan(b: string): (n: nat)
    ensures n <= |b|
  {
    var sign := if b != [] && b[0] == '-' then 1 else 0;
    var d := DigitSpan(b[sign..]);
    if d == 0 then 0 else sign + d
  }

  /** Pattern 2 without its optional scheme. */
  function MatchPrivateRest(a: string): (g: Option<Groups>)
    ensures g.Some? ==> g.value.digits != [] && AllDigits(g.value.digits)
  {
    if !StartsWith(a, "t.me/c/") then None
    else
      var b := a[7..];
      MessageIdAfter(b, SignedDigitSpan(b))
  }

  function MatchHandle(s: string): (g: Option<Groups>)
    ensures g.Some? ==> g.value.digits != [] && AllDigits(g.value.digits)
  {
    MatchHandleRest(s[SchemeLength(s)..])
  }

  function MatchPrivate(s: string): (g: Option<Groups>)
    ensures g.Some? ==> g.value.digits != [] && AllDigits(g.value.digits)
  {
    MatchPrivateRest(s[SchemeLength(s)..])
  }

  // ---------------------------------------------------------------------
  // What the patterns accept, stated declaratively
  // ---------------------------------------------------------------------

  /** `a` begins `t.me/<ident>/<digits>` with a non-empty word identifier, and no digit follows. */
  predicate HandleRestShape(a: string, ident: string, digits: string) {
    && ident != [] && AllWordChars(ident)
    && digits != [] && AllDigits(digits)
    && BeginsWithEnding(a, "t.me/" + ident + "/" + digits)
  }

  /** An optionally negative run of digits: what `-?\d+` accepts. */
  predicate SignedDigits(ident: string) {
    || (ident != [] && AllDigits(ident))
    || (|ident| >= 2 && ident[0] == '-' && AllDigits(ident[1..]))
  }

  /** `a` begins `t.me/c/<ident>/<digits>` with `ident` matching `-?\d+`, and no digit follows. */
  predicate PrivateRestShape(a: string, ident: string, digits: string) {
    && SignedDigits(ident)
    && digits != [] && AllDigits(digits)
    && BeginsWithEnding(a, "t.me/c/" + ident + "/" + digits)
  }

  /** Pattern 1 matches `s` at its start with these groups. */
  predicate HandleShape(s: string, ident: string, digits: string) {
    && ident != [] && AllWordChars(ident) && digits != [] && AllDigits(digits)
    && (|| HandleRestShape(s, ident, digits)
        || (StartsWith(s, "http://") && HandleRestShape(s[7..], ident, digits))
        || (StartsWith(s, "https://") && HandleRestShape(s[8..], ident, digits)))
  }

  /** Pattern 2 matches `s` at its start with these groups. */
  predicate PrivateShape(s: string, ident: string, digits: string) {
    && SignedDigits(ident) && digits != [] && AllDigits(digits)
    && (|| PrivateRestShape(s, ident, digits)
        || (StartsWith(s, "http://") && PrivateRestShape(s[7..], ident, digits))
        || (StartsWith(s, "https://") && PrivateRestShape(s[8..], ident, digits)))
  }

  lemma MatchHandleRestSound(a: string)
    requires MatchHandleRest(a).Some?
    ensures var g := MatchHandleRest(a).value; HandleRestShape(a, g.ident, g.digits)
  {
    var g := MatchHandleRest(a).value;
    var b := a[5..];
    MessageIdAfterSplit(b, WordSpan(b));
    assert AllWordChars(b[..WordSpan(b)]);
    assert a == "t.me/" + b;
    StartsWithConcat(a, "t.me/", g.ident + "/" + g.digits);
    assert "t.me/" + (g.ident + "/" + g.digits) == "t.me/" + g.ident + "/" + g.digits;
  }

  lemma MatchHandleRestComplete(a: string, ident: string, digits: string)
    requires HandleRestShape(a, ident, digits)
    ensures MatchHandleRest(a) == Some(Groups(ident, digits))
  {
    var body := ident + "/" + digits;
    assert "t.me/" + ident + "/" + digits == "t.me/" + body;
    StartsWithConcat(a, "t.me/", body);
    var b := a[5..];
    StartsWithConcat(b, ident + "/", digits);
    WordSpanOf(b, ident);
    if |a| > 5 + |body| {
      assert b[|body|] == a[5 + |body|];
    }
    MessageIdAfterOf(b, ident, digits);
  }

  lemma MatchHandleRestSpec(a: string, ident: string, digits: string)
    ensures MatchHandleRest(a) == Some(Groups(ident, digits)) <==> HandleRestShape(a, ident, digits)
  {
    if MatchHandleRest(a) == Some(Groups(ident, digits)) {
      MatchHandleRestSound(a);
    }
    if HandleRestShape(a, ident, digits) {
      MatchHandleRestComplete(a, ident, digits);
    }
  }

  lemma SignedDigitSpanIsSigned(b: string)
    ensures SignedDigitSpan(b) > 0 ==> SignedDigits(b[..SignedDigitSpan(b)])
  {
    var sign := if b != [] && b[0] == '-' then 1 else 0;
    var d := DigitSpan(b[sign..]);
    if d > 0 && sign == 1 {
      assert b[..1 + d][1..] == b[1..][..d];
    }
  }

  /** An optionally negative digit run followed by `/` is consumed exactly by `-?\d+`. */
  lemma SignedDigitSpanOf(b: string, ident: string)
    requires SignedDigits(ident) && StartsWith(b, ident + "/")
    ensures SignedDigitSpan(b) == |ident|
  {
    assert b[..|ident| + 1] == ident + "/";
    assert b[..|ident|] == ident;
    assert b[|ident|] == '/';
    assert b[0] == ident[0];
    if ident[0] == '-' {
      var rest := b[1..];
      assert rest[..|ident| - 1] == ident[1..];
      assert rest[|ident| - 1] == b[|ident|];
      DigitSpanOf(rest, ident[1..]);
    } else {
      DigitSpanOf(b, ident);
    }
  }

  lemma MatchPrivateRestSound(a: string)
    requires MatchPrivateRest(a).Some?
    ensures var g := MatchPrivateRest(a).value; PrivateRestShape(a, g.ident, g.digits)
  {
    var g := MatchPrivateRest(a).value;
    var b := a[7..];
    MessageIdAfterSplit(b, SignedDigitSpan(b));
    SignedDigitSpanIsSigned(b);
    assert a == "t.me/c/" + b;
    StartsWithConcat(a, "t.me/c/", g.ident + "/" + g.digits);
    assert "t.me/c/" + (g.ident + "/" + g.digits) == "t.me/c/" + g.ident + "/" + g.digits;
  }

  lemma MatchPrivateRestComplete(a: string, ident: string, digits: string)
    requires PrivateRestShape(a, ident, digits)
    ensures MatchPrivateRest(a) == Some(Groups(ident, digits))
  {
    var body := ident + "/" + digits;
    assert "t.me/c/" + ident + "/" + digits == "t.me/c/" + body;
    StartsWithConcat(a, "t.me/c/", body);
    var b := a[7..];
    StartsWithConcat(b, ident + "/", digits);
    SignedDigitSpanOf(b, ident);
    if |a| > 7 + |body| {
      assert b[|body|] == a[7 + |body|];
    }
    MessageIdAfterOf(b, ident, digits);
  }

  lemma MatchPrivateRestSpec(a: string, ident: string, digits: string)
    ensures MatchPrivateRest(a) == Some(Groups(ident, digits)) <==> PrivateRestShape(a, ident, digits)
  {
    if MatchPrivateRest(a) == Some(Groups(ident, digits)) {
      MatchPrivateRestSound(a);
    }
    if PrivateRestShape(a, ident, digits) {
      MatchPrivateRestComplete(a, ident, digits);
    }
  }

  lemma SchemeCases(s: string)
    ensures SchemeLength(s) == 8 <==> StartsWith(s, "https://")
    ensures SchemeLength(s) == 7 <==> StartsWith(s, "http://")
    ensures s != [] && s[0] == 't' ==> SchemeLength(s) == 0
  {
    if StartsWith(s, "https://") {
      assert s[4] == 's';
    }
    if StartsWith(s, "http://") {
      assert s[0] == 'h' && s[4] == ':';
    }
    if StartsWith(s, "https://") {
      assert s[0] == 'h';
    }
  }

  /** A pattern body after the scheme always begins with `t`, so the scheme is never ambiguous. */
  lemma HandleRestBeginsWithT(a: string, ident: string, digits: string)
    requires HandleRestShape(a, ident, digits)
    ensures a != [] && a[0] == 't'
  {
    assert a[0] == a[..|"t.me/" + ident + "/" + digits|][0];
  }

  lemma PrivateRestBeginsWithT(a: string, ident: string, digits: string)
    requires PrivateRestShape(a, ident, digits)
    ensures a != [] && a[0] == 't'
  {
    assert a[0] == a[..|"t.me/c/" + ident + "/" + digits|][0];
  }

  /** Pattern 1, scheme included: the matcher finds exactly the groups of the declarative shape. */
  lemma MatchHandleSpec(s: string, ident: string, digits: string)
    ensures MatchHandle(s) == Some(Groups(ident, digits)) <==> HandleShape(s, ident, digits)
  {
    SchemeCases(s);
    MatchHandleRestSpec(s[SchemeLength(s)..], ident, digits);
    if HandleRestShape(s, ident, digits) {
      HandleRestBeginsWithT(s, ident, digits);
    }
  }

  /** Pattern 2, scheme included: the matcher finds exactly the groups of the declarative shape. */
  lemma MatchPrivateSpec(s: string, ident: string, digits: string)
    ensures MatchPrivate(s) == Some(Groups(ident, digits)) <==> PrivateShape(s, ident, digits)
  {
    SchemeCases(s);
    MatchPrivateRestSpec(s[SchemeLength(s)..], ident, digits);
    if PrivateRestShape(s, ident, digits) {
      PrivateRestBeginsWithT(s, ident, digits);
    }
  }

  // ---------------------------------------------------------------------
  // Python's int() and str() on the captured groups
  // ---------------------------------------------------------------------

  /** Python's base-10 `int()` syntax without a sign: digits, with single underscores only between digits. */
  predicate IsDecimalLiteral(s: string) {
    && s != [] && IsDigit(s[0])
    && (forall i :: 0 <= i < |s| ==> IsDigit(s[i]) || s[i] == '_')
    && (forall i :: 0 <= i < |s| && s[i] == '_' ==> i + 1 < |s| && IsDigit(s[i + 1]))
  }

  function WithoutUnderscores(s: string): (r: string)
    ensures (forall i :: 0 <= i < |s| ==> IsDigit(s[i]) || s[i] == '_') ==> AllDigits(r)
    ensures AllDigits(s) ==> r == s
  {
    if s == [] then [] else (if s[0] == '_' then [] else [s[0]]) + WithoutUnderscores(s[1..])
  }

  function DigitValue(c: char): nat
    requires IsDigit(c)
  {
    c as int - '0' as int
  }

  function DigitChar(d: nat): (c: char)
    requires d < 10
    ensures IsDigit(c) && DigitValue(c) == d
  {
    (d + '0' as int) as char
  }

  /** The number a run of ASCII digits denotes (leading zeros allowed, as `int()` allows them). */
  function DigitsValue(s: string): nat
    requires AllDigits(s)
  {
    if s == [] then 0 else DigitsValue(s[..|s| - 1]) * 10 + DigitValue(s[|s| - 1])
  }

  /** Python's `str()` of a natural number: its decimal digits, with no leading zero. */
  function Decimal(n: nat): (r: string)
    ensures r != [] && AllDigits(r)
  {
    if n < 10 then [DigitChar(n)] else Decimal(n / 10) + [DigitChar(n % 10)]
  }

  /** Python's `str()` of an integer. */
  function PyStr(v: int): string {
    if v < 0 then "-" + Decimal(-v) else Decimal(v)
  }

  /** Python's `int()` of a captured group; None stands for its ValueError. Neither group can hold `+` or white space. */
  function PyInt(s: string): (r: Option<int>)
    ensures s != [] && AllDigits(s) ==> r == Some(DigitsValue(s))
    ensures |s| >= 2 && s[0] == '-' && AllDigits(s[1..]) ==> r == Some(0 - DigitsValue(s[1..]))
    ensures (exists i :: 0 <= i < |s| && !IsDigit(s[i]) && s[i] != '_' && s[i] != '-') ==> r.None?
  {
    if s != [] && s[0] == '-' then
      if IsDecimalLiteral(s[1..]) then Some(0 - LiteralValue(s[1..])) else None
    else if IsDecimalLiteral(s) then Some(LiteralValue(s)) else None
  }

  /** The number a decimal literal denotes, underscores ignored. */
  function LiteralValue(s: string): nat
    requires IsDecimalLiteral(s)
  {
    DigitsValue(WithoutUnderscores(s))
  }

  /** Reading back what `str()` writes gives the number. */
  lemma {:induction false} DecimalValue(n: nat)
    ensures DigitsValue(Decimal(n)) == n
  {
    if n >= 10 {
      DecimalValue(n / 10);
      var r := Decimal(n);
      assert r[..|r| - 1] == Decimal(n / 10);
    }
  }

  /** Writing back what was read gives the digits, when they carry no leading zero. */
  lemma {:induction false} ValueDecimal(s: string)
    requires s != [] && AllDigits(s) && (s[0] != '0' || |s| == 1)
    ensures Decimal(DigitsValue(s)) == s
  {
    var d := DigitValue(s[|s| - 1]);
    assert DigitChar(d) == s[|s| - 1];
    if |s| == 1 {
      assert DigitsValue(s) == d;
      assert s == [s[0]];
    } else {
      var p := s[..|s| - 1];
      ValueDecimal(p);
      var v := DigitsValue(p);
      assert v != 0 by {
        assert Decimal(v) == p;
        assert p[0] == s[0];
      }
      var n := DigitsValue(s);
      assert n == v * 10 + d;
      assert n / 10 == v && n % 10 == d;
      assert Decimal(n) == Decimal(v) + [DigitChar(d)];
      assert s == p + [s[|s| - 1]];
    }
  }

  /** The channel id that `int(f"-100{abs(chat_id)}")` builds. */
  function ChannelPrefixed(v: int): int {
    var x := "100" + Decimal(if v < 0 then -v else v);
    assert AllDigits(x);
    0 - DigitsValue(x)
  }

  /** The `/c/` rule: ids whose decimal form already starts with `-100` are kept, others are prefixed. */
  function NormaliseChannel(v: int): (r: int)
    ensures StartsWith(PyStr(r), "-100")
    ensures StartsWith(PyStr(v), "-100") ==> r == v
    ensures !StartsWith(PyStr(v), "-100") ==> r < 0 && PyStr(r) == "-100" + Decimal(if v < 0 then -v else v)
  {
    if StartsWith(PyStr(v), "-100") then v
    else
      ChannelPrefixedForm(v);
      assert ("-100" + Decimal(if v < 0 then -v else v))[..4] == "-100";
      ChannelPrefixed(v)
  }

  /** The prefixed id is negative and reads as `-100` followed by the digits of `abs(v)`. */
  lemma ChannelPrefixedForm(v: int)
    ensures ChannelPrefixed(v) < 0
    ensures PyStr(ChannelPrefixed(v)) == "-100" + Decimal(if v < 0 then -v else v)
  {
    var x := "100" + Decimal(if v < 0 then -v else v);
    assert x[0] == '1';
    ValueDecimal(x);
    var n: int := DigitsValue(x);
    assert n != 0 by {
      assert Decimal(n) == x;
    }
    assert ChannelPrefixed(v) == 0 - n;
    assert PyStr(0 - n) == "-" + Decimal(n);
    assert "-" + x == "-100" + Decimal(if v < 0 then -v else v);
  }

  function Pow10(k: nat): nat {
    if k == 0 then 1 else 10 * Pow10(k - 1)
  }

  lemma ShiftDigit(x: int, k: int, y: int, d: int)
    ensures (x * k + y) * 10 + d == x * (10 * k) + (y * 10 + d)
  {
  }

  /** The value of a concatenation, in terms of its last digit. */
  lemma DigitsValueSnoc(p: string, q: string)
    requires AllDigits(p) && AllDigits(q) && q != []
    ensures AllDigits(p + q) && AllDigits(p + q[..|q| - 1])
    ensures DigitsValue(p + q) == DigitsValue(p + q[..|q| - 1]) * 10 + DigitValue(q[|q| - 1])
  {
    assert (p + q)[..|p + q| - 1] == p + q[..|q| - 1];
    assert (p + q)[|p + q| - 1] == q[|q| - 1];
  }

  lemma {:induction false} DigitsValueConcat(p: string, q: string)
    requires AllDigits(p) && AllDigits(q)
    ensures AllDigits(p + q) && DigitsValue(p + q) == DigitsValue(p) * Pow10(|q|) + DigitsValue(q)
  {
    if q == [] {
      assert p + q == p;
    } else {
      var q' := q[..|q| - 1];
      DigitsValueSnoc(p, q);
      DigitsValueConcat(p, q');
      ShiftDigit(DigitsValue(p), Pow10(|q'|), DigitsValue(q'), DigitValue(q[|q| - 1]));
    }
  }

  /** Numerically, the prefixed id is `-(100 * 10^k + abs(v))` where `abs(v)` has `k` digits. */
  lemma ChannelPrefixedValue(v: int)
    ensures var a := if v < 0 then -v else v;
            ChannelPrefixed(v) == -(100 * Pow10(|Decimal(a)|) + a)
  {
    var a := if v < 0 then -v else v;
    DigitsValueConcat("100", Decimal(a));
    DecimalValue(a);
    assert DigitsValue("100") == 100 by {
      assert "100"[..2] == "10" && "10"[..1] == "1";
    }
  }

  /** The `/c/` rule is idempotent. */
  lemma NormaliseChannelIdempotent(v: int)
    ensures NormaliseChannel(NormaliseChannel(v)) == NormaliseChannel(v)
  {
  }

  // ---------------------------------------------------------------------
  // parse_message_link
  // ---------------------------------------------------------------------

  /** What a chat identifier resolves to: a numeric channel id, or a handle. */
  datatype ChatRef = ChannelId(id: int) | Username(name: string)

  /** The `{chat_id, message_id, type}` record; `type` is the constructor of `chat`. */
  datatype MessageRef = MessageRef(chat: ChatRef, messageId: nat)

  /** The identifier group after `int()` and the `-100` rule, which looks for `/c/` anywhere in the link. */
  function ChatOf(link: string, ident: string): (r: ChatRef)
    ensures r.Username? <==> PyInt(ident).None?
    ensures r.Username? ==> r.name == ident
    ensures r.ChannelId? && !Contains(link, "/c/") ==> r.id == PyInt(ident).value
    ensures r.ChannelId? && Contains(link, "/c/") ==> StartsWith(PyStr(r.id), "-100")
  {
    match PyInt(ident)
    case None => Username(ident)
    case Some(v) => ChannelId(if Contains(link, "/c/") then NormaliseChannel(v) else v)
  }

  /** The first of the two patterns that matches at the start of `s`. */
  function FirstMatch(s: string): (g: Option<Groups>)
    ensures g.Some? ==> g.value.digits != [] && AllDigits(g.value.digits)
    ensures g.Some? ==> HandleShape(s, g.value.ident, g.value.digits) || PrivateShape(s, g.value.ident, g.value.digits)
    ensures g.None? ==> MatchHandle(s).None? && MatchPrivate(s).None?
    ensures MatchHandle(s).Some? ==> g == MatchHandle(s)
    ensures MatchHandle(s).None? ==> g == MatchPrivate(s)
  {
    if MatchHandle(s).Some? then
      MatchHandleSpec(s, MatchHandle(s).value.ident, MatchHandle(s).value.digits);
      MatchHandle(s)
    else if MatchPrivate(s).Some? then
      MatchPrivateSpec(s, MatchPrivate(s).value.ident, MatchPrivate(s).value.digits);
      MatchPrivate(s)
    else None
  }

  /**
   * `parse_message_link`: no result when no pattern matches; a username is a
   * word identifier, and a channel id from a link with `/c/` reads as `-100...`.
   */
  function ParseMessageLink(link: string): (r: Option<MessageRef>)
    ensures r.None? <==> FirstMatch(Strip(link)).None?
    ensures r.Some? && r.value.chat.Username? ==> r.value.chat.name != [] && AllWordChars(r.value.chat.name)
    ensures r.Some? && r.value.chat.ChannelId? && Contains(Strip(link), "/c/") ==>
              StartsWith(PyStr(r.value.chat.id), "-100")
  {
    var s := Strip(link);
    match FirstMatch(s)
    case None => None
    case Some(g) =>
      UsernameGroup(s, g);
      Some(MessageRef(ChatOf(s, g.ident), DigitsValue(g.digits)))
  }

  /** Every identifier pattern 2 captures is an integer, so a username comes from pattern 1. */
  lemma UsernameGroup(s: string, g: Groups)
    requires FirstMatch(s) == Some(g)
    ensures PyInt(g.ident).None? ==> g.ident != [] && AllWordChars(g.ident)
  {
    if !HandleShape(s, g.ident, g.digits) {
      assert SignedDigits(g.ident);
      assert PyInt(g.ident).Some?;
    }
  }

  /** The result is built from the groups of the first matching pattern. */
  lemma ParseFromGroups(link: string, ident: string, digits: string)
    requires FirstMatch(Strip(link)) == Some(Groups(ident, digits))
    ensures AllDigits(digits)
    ensures ParseMessageLink(link) == Some(MessageRef(ChatOf(Strip(link), ident), DigitsValue(digits)))
  {
  }

  // ---------------------------------------------------------------------
  // Properties of the parser
  // ---------------------------------------------------------------------

  lemma {:induction false} ContainsAt(s: string, k: nat, p: string)
    requires k <= |s| && StartsWith(s[k..], p)
    ensures Contains(s, p)
    decreases k
  {
    if k > 0 {
      assert s[1..][k - 1..] == s[k..];
      ContainsAt(s[1..], k - 1, p);
    }
  }

  /** Leading white space is trimmed away whatever follows it. */
  lemma {:induction false} TrimLeftSpaces(pre: string, x: string)
    requires forall i :: 0 <= i < |pre| ==> IsSpace(pre[i])
    ensures TrimLeft(pre + x) == TrimLeft(x)
  {
    if pre != [] {
      assert (pre + x)[0] == pre[0];
      assert (pre + x)[1..] == pre[1..] + x;
      TrimLeftSpaces(pre[1..], x);
    } else {
      assert pre + x == x;
    }
  }

  /** Trimming the left of `x + y` stops inside `x` unless `x` is all white space. */
  lemma {:induction false} TrimLeftAppend(x: string, y: string)
    ensures TrimLeft(x + y) == if TrimLeft(x) == [] then TrimLeft(y) else TrimLeft(x) + y
  {
    if x == [] {
      assert x + y == y;
    } else if IsSpace(x[0]) {
      assert (x + y)[0] == x[0] && (x + y)[1..] == x[1..] + y;
      assert TrimLeft(x + y) == TrimLeft(x[1..] + y);
      TrimLeftAppend(x[1..], y);
    } else {
      assert (x + y)[0] == x[0];
      assert TrimLeft(x) == x && TrimLeft(x + y) == x + y;
    }
  }

  /** Trailing white space is trimmed away whatever precedes it. */
  lemma {:induction false} TrimRightSpaces(x: string, post: string)
    requires forall i :: 0 <= i < |post| ==> IsSpace(post[i])
    ensures TrimRight(x + post) == TrimRight(x)
    decreases |post|
  {
    if post != [] {
      var q := post[..|post| - 1];
      assert (x + post)[..|x + post| - 1] == x + q;
      TrimRightSpaces(x, q);
    } else {
      assert x + post == x;
    }
  }

  /** Surrounding white space is stripped away whatever the text between. */
  lemma StripSurrounded(pre: string, link: string, post: string)
    requires forall i :: 0 <= i < |pre| ==> IsSpace(pre[i])
    requires forall i :: 0 <= i < |post| ==> IsSpace(post[i])
    ensures Strip(pre + link + post) == Strip(link)
  {
    assert pre + link + post == pre + (link + post);
    TrimLeftSpaces(pre, link + post);
    TrimLeftAppend(link, post);
    if TrimLeft(link) == [] {
      TrimLeftSpaces(post, []);
      assert post + [] == post;
    } else {
      TrimRightSpaces(TrimLeft(link), post);
    }
  }

  /** The input is stripped first: white space added around a link never changes the result. */
  lemma ParseIgnoresSurroundingSpace(pre: string, link: string, post: string)
    requires forall i :: 0 <= i < |pre| ==> IsSpace(pre[i])
    requires forall i :: 0 <= i < |post| ==> IsSpace(post[i])
    ensures ParseMessageLink(pre + link + post) == ParseMessageLink(link)
  {
    StripSurrounded(pre, link, post);
  }

  /** No result exactly when neither pattern matches at the start of the stripped input. */
  lemma ParseNoneIff(link: string)
    ensures var s := Strip(link);
            ParseMessageLink(link).None? <==>
              (forall ident, digits :: !HandleShape(s, ident, digits)) &&
              (forall ident, digits :: !PrivateShape(s, ident, digits))
  {
    var s := Strip(link);
    if MatchHandle(s).Some? {
      var g := MatchHandle(s).value;
      MatchHandleSpec(s, g.ident, g.digits);
    } else if MatchPrivate(s).Some? {
      var g := MatchPrivate(s).value;
      MatchPrivateSpec(s, g.ident, g.digits);
    } else {
      forall ident, digits ensures !HandleShape(s, ident, digits) && !PrivateShape(s, ident, digits) {
        MatchHandleSpec(s, ident, digits);
        MatchPrivateSpec(s, ident, digits);
      }
    }
  }

  /** A handle that `int()` rejects is returned unchanged as a username, with the digits as message id. */
  lemma ParseUsernameLink(link: string, ident: string, digits: string)
    requires HandleShape(Strip(link), ident, digits) && PyInt(ident).None?
    ensures ParseMessageLink(link) == Some(MessageRef(Username(ident), DigitsValue(digits)))
  {
    MatchHandleSpec(Strip(link), ident, digits);
    ParseFromGroups(link, ident, digits);
  }

  /** A numeric handle in a link without `/c/` is returned as that integer, untransformed. */
  lemma ParseNumericHandleLink(link: string, ident: string, digits: string, v: int)
    requires HandleShape(Strip(link), ident, digits) && PyInt(ident) == Some(v)
    requires !Contains(Strip(link), "/c/")
    ensures ParseMessageLink(link) == Some(MessageRef(ChannelId(v), DigitsValue(digits)))
  {
    MatchHandleSpec(Strip(link), ident, digits);
    ParseFromGroups(link, ident, digits);
  }

  /** A numeric handle in a link with `/c/` anywhere is brought into the `-100` form. */
  lemma ParseNumericHandleWithC(link: string, ident: string, digits: string, v: int)
    requires HandleShape(Strip(link), ident, digits) && PyInt(ident) == Some(v)
    requires Contains(Strip(link), "/c/")
    ensures var r := ParseMessageLink(link);
            && r.Some? && r.value.chat.ChannelId? && r.value.messageId == DigitsValue(digits)
            && StartsWith(PyStr(r.value.chat.id), "-100")
            && (StartsWith(PyStr(v), "-100") ==> r.value.chat.id == v)
            && (!StartsWith(PyStr(v), "-100") ==> PyStr(r.value.chat.id) == "-100" + Decimal(if v < 0 then -v else v))
  {
    MatchHandleSpec(Strip(link), ident, digits);
    ParseFromGroups(link, ident, digits);
    NormaliseChannelIdempotent(v);
    ChannelPrefixedForm(v);
  }

  /**
   * Pattern 2 is reached only for a negative `/c/` id: with a non-negative one,
   * pattern 1 already matches, with the handle `c` and the channel id as message id.
   */
  lemma PrivateNeedsNegativeId(s: string, ident: string, digits: string)
    requires PrivateShape(s, ident, digits) && ident[0] != '-'
    ensures HandleShape(s, "c", ident)
  {
    assert AllDigits(ident);
    assert "t.me/c/" + ident + "/" + digits == ("t.me/" + "c" + "/" + ident) + ("/" + digits);
    var a := if PrivateRestShape(s, ident, digits) then s
             else if StartsWith(s, "http://") && PrivateRestShape(s[7..], ident, digits) then s[7..]
             else s[8..];
    var p := "t.me/" + "c" + "/" + ident;
    StartsWithConcat(a, p, "/" + digits);
    assert a[|p|] == a[|p|..][0] == '/';
    assert HandleRestShape(a, "c", ident);
  }

  lemma HandleRestFailsOnNegativeId(a: string, ident: string, digits: string)
    requires PrivateRestShape(a, ident, digits) && ident[0] == '-'
    ensures MatchHandleRest(a).None?
    ensures |a| >= 7 && a[4..7] == "/c/"
  {
    var b := a[5..];
    var body := ident + "/" + digits;
    assert "t.me/c/" + ident + "/" + digits == "t.me/c/" + body;
    StartsWithConcat(a, "t.me/c/", body);
    assert a[..7] == "t.me/c/";
    assert b[..2] == "c/";
    assert b[2..][..|body|] == body;
    assert b[2] == ident[0];
    WordSpanOf(b, "c");
  }

  /** Pattern 1 fails on a private link with a negative id: `-` is not a digit. */
  lemma HandleFailsOnNegativeId(s: string, ident: string, digits: string)
    requires PrivateShape(s, ident, digits) && ident[0] == '-'
    ensures MatchHandle(s).None?
    ensures Contains(s, "/c/")
  {
    var n := SchemeLength(s);
    var a := s[n..];
    assert PrivateRestShape(a, ident, digits) by {
      MatchPrivateSpec(s, ident, digits);
      MatchPrivateRestSpec(a, ident, digits);
    }
    HandleRestFailsOnNegativeId(a, ident, digits);
    assert s[n + 4..][..3] == a[4..7];
    ContainsAt(s, n + 4, "/c/");
  }

  /** Pattern 2 is the first match for a private link with a negative id, and the link contains `/c/`. */
  lemma FirstMatchNegativePrivate(s: string, ident: string, digits: string)
    requires PrivateShape(s, ident, digits) && ident[0] == '-'
    ensures FirstMatch(s) == Some(Groups(ident, digits)) && Contains(s, "/c/")
  {
    HandleFailsOnNegativeId(s, ident, digits);
    MatchPrivateSpec(s, ident, digits);
  }

  /** A negative numeric identifier in a link containing `/c/` gets the `-100` rule. */
  lemma ChatOfNegative(s: string, ident: string)
    requires Contains(s, "/c/") && |ident| >= 2 && ident[0] == '-' && AllDigits(ident[1..])
    ensures ChatOf(s, ident) == ChannelId(NormaliseChannel(0 - DigitsValue(ident[1..])))
  {
  }

  /** When pattern 1 fails, a private link with a negative id gets the `-100` rule. */
  lemma ParseNegativePrivateLink(link: string, ident: string, digits: string)
    requires PrivateShape(Strip(link), ident, digits) && ident[0] == '-'
    ensures AllDigits(ident[1..])
    ensures ParseMessageLink(link) ==
            Some(MessageRef(ChannelId(NormaliseChannel(0 - DigitsValue(ident[1..]))), DigitsValue(digits)))
  {
    var s := Strip(link);
    FirstMatchNegativePrivate(s, ident, digits);
    ParseFromGroups(link, ident, digits);
    ChatOfNegative(s, ident);
  }

  /** Stripping leaves a string alone when it neither begins nor ends with white space. */
  lemma StripUnchanged(s: string)
    requires s != [] && !IsSpace(s[0]) && !IsSpace(s[|s| - 1])
    ensures Strip(s) == s
  {
  }
}

/** Worked links: what the parser does with the forms its doc-comment lists. */
module LinkExamples {
  import opened Wrappers
  import opened MessageLinks

  lemma PrivateLinkShape(s: string)
    requires s == "t.me/c/123/55"
    ensures Strip(s) == s && HandleShape(s, "c", "123")
  {
    StripUnchanged(s);
    assert s[..10] == "t.me/" + "c" + "/" + "123";
    assert s[10] == '/';
  }

  lemma ReadAsUsername(s: string)
    requires Strip(s) == s && HandleShape(s, "c", "123")
    ensures ParseMessageLink(s) == Some(MessageRef(Username("c"), 123))
  {
    assert PyInt("c").None? by {
      assert !IsDigit("c"[0]);
    }
    assert DigitsValue("123") == 123 by {
      assert "123"[..2] == "12" && "12"[..1] == "1";
    }
    ParseUsernameLink(s, "c", "123");
  }

  /** `t.me/c/123/55` is read as the username `c` with message id 123. */
  lemma ExamplePrivateLinkReadAsUsername(s: string)
    requires s == "t.me/c/123/55"
    ensures ParseMessageLink(s) == Some(MessageRef(Username("c"), 123))
  {
    PrivateLinkShape(s);
    ReadAsUsername(s);
  }

  /** The link is already stripped and matches pattern 2 with the groups `-5` and `7`. */
  predicate NegativePrivateForm(s: string) {
    Strip(s) == s && PrivateShape(s, "-5", "7")
  }

  lemma NegativePrivateShape(s: string)
    requires s == "https://t.me/c/-5/7"
    ensures NegativePrivateForm(s)
  {
    StripUnchanged(s);
    assert s[..8] == "https://";
    assert s[8..][..11] == "t.me/c/" + "-5" + "/" + "7";
  }

  lemma SingleDigit(t: string)
    requires |t| == 1 && IsDigit(t[0])
    ensures AllDigits(t) && DigitsValue(t) == DigitValue(t[0])
  {
    assert t[..0] == [];
  }

  /** The `-100` rule on an id whose decimal form does not start with `-100`. */
  lemma NormaliseSmallId(v: int)
    requires v == -5
    ensures NormaliseChannel(v) == -1005
  {
    ChannelPrefixedValue(v);
    assert PyStr(v) == "-5";
  }

  lemma ReadAsPrefixedChannel(s: string)
    requires NegativePrivateForm(s)
    ensures ParseMessageLink(s) == Some(MessageRef(ChannelId(-1005), 7))
  {
    // The groups are bound by `:|` rather than written as literals, which keeps
    // the verifier from unfolding the literal strings character by character.
    var ident: string :| ident == "-5";
    var digits: string :| digits == "7";
    ParseNegativePrivateLink(s, ident, digits);
    SingleDigit(ident[1..]);
    SingleDigit(digits);
    NormaliseSmallId(0 - DigitsValue(ident[1..]));
  }

  /** `https://t.me/c/-5/7` fails pattern 1, reaches pattern 2 and gets the `-100` prefix. */
  lemma ExampleNegativePrivateLink(s: string)
    requires s == "https://t.me/c/-5/7"
    ensures ParseMessageLink(s) == Some(MessageRef(ChannelId(-1005), 7))
  {
    NegativePrivateShape(s);
    ReadAsPrefixedChannel(s);
  }
}
