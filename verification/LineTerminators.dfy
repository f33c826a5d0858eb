/**
 Making the two escaped line terminators of a JSON text literal: exactly those two, wherever
 they stand, and never the ones behind an escaped backslash. Strings are encoded as in section 7
 of RFC 8259.
 */
module LineTerminators {
  import opened Wrappers

  const LINE_SEPARATOR: char := '\U{2028}'
  const PARAGRAPH_SEPARATOR: char := '\U{2029}'

  // ---------- The unescaper ----------

  /** How many backslashes `s` ends with. */
  function TrailingBackslashes(s: string): nat {
    if s == [] || s[|s| - 1] != '\\' then 0 else 1 + TrailingBackslashes(s[..|s| - 1])
  }

  /** At `i` stands a backslash, `u202` and the digit `d`. */
  predicate EscapeAt(s: string, i: nat, d: char) {
    && i + 6 <= |s|
    && s[i] == '\\' && s[i + 1] == 'u' && s[i + 2] == '2' && s[i + 3] == '0' && s[i + 4] == '2' && s[i + 5] == d
  }

  /** The backslash at `i` starts an escape sequence. */
  predicate Unescaped(s: string, i: nat)
    requires i <= |s|
  {
    TrailingBackslashes(s[..i]) % 2 == 0
  }

  function UnescapeFrom(s: string, i: nat): string
    requires i <= |s|
    decreases |s| - i
  {
    if i == |s| then []
    else if EscapeAt(s, i, '8') && Unescaped(s, i) then [LINE_SEPARATOR] + UnescapeFrom(s, i + 6)
    else if EscapeAt(s, i, '9') && Unescaped(s, i) then [PARAGRAPH_SEPARATOR] + UnescapeFrom(s, i + 6)
    else [s[i]] + UnescapeFrom(s, i + 1)
  }

  method IsUnescapedBackslash(value: string, index: nat) returns (even: bool)
    requires index <= |value|
    ensures even <==> Unescaped(value, index)
  {
    var count, cursor := 0, index;
    while cursor > 0 && value[cursor - 1] == '\\'
      invariant 0 <= cursor <= index
      invariant count + TrailingBackslashes(value[..cursor]) == TrailingBackslashes(value[..index])
    {
      assert value[..cursor][..cursor - 1] == value[..cursor - 1];
      count, cursor := count + 1, cursor - 1;
    }
    return count % 2 == 0;
  }

  method UnescapeLineTerminators(value: string) returns (result: string)
    ensures result == UnescapeFrom(value, 0)
  {
    hide Unescaped, UnescapeFrom, EscapeAt;
    result := [];
    var index := 0;
    while index < |value|
      invariant 0 <= index <= |value|
      invariant result + UnescapeFrom(value, index) == UnescapeFrom(value, 0)
      decreases |value| - index
    {
      var active := IsUnescapedBackslash(value, index);
      NextStep(value, index);
      if EscapeAt(value, index, '8') && active {
        result, index := result + [LINE_SEPARATOR], index + 6;
      } else if EscapeAt(value, index, '9') && active {
        result, index := result + [PARAGRAPH_SEPARATOR], index + 6;
      } else {
        result, index := result + [value[index]], index + 1;
      }
    }
    NothingLeft(value);
  }

  lemma NextStep(s: string, i: nat)
    requires i < |s|
    ensures (EscapeAt(s, i, '8') || EscapeAt(s, i, '9')) ==> i + 6 <= |s|
    ensures UnescapeFrom(s, i)
         == if EscapeAt(s, i, '8') && Unescaped(s, i) then [LINE_SEPARATOR] + UnescapeFrom(s, i + 6)
            else if EscapeAt(s, i, '9') && Unescaped(s, i) then [PARAGRAPH_SEPARATOR] + UnescapeFrom(s, i + 6)
            else [s[i]] + UnescapeFrom(s, i + 1)
  {
    hide Unescaped;
  }

  // ---------- JSON text as units ----------

  /** One unit of a JSON text: a character that is no backslash, a short escape, or four hex digits. */
  datatype Unit = Plain(c: char) | Short(c: char) | Hex(a: char, b: char, c: char, d: char)

  predicate HexDigit(c: char) {
    '0' <= c <= '9' || 'a' <= c <= 'f' || 'A' <= c <= 'F'
  }

  predicate ValidUnit(u: Unit) {
    match u
    case Plain(c) => c != '\\'
    case Short(c) => c != 'u'
    case Hex(a, b, c, d) => HexDigit(a) && HexDigit(b) && HexDigit(c) && HexDigit(d)
  }

  predicate ValidUnits(units: seq<Unit>) {
    forall i | 0 <= i < |units| :: ValidUnit(units[i])
  }

  function Render(u: Unit): string {
    match u
    case Plain(c) => [c]
    case Short(c) => ['\\', c]
    case Hex(a, b, c, d) => ['\\', 'u', a, b, c, d]
  }

  function RenderAll(units: seq<Unit>): string {
    if units == [] then [] else Render(units[0]) + RenderAll(units[1..])
  }

  function Literal(u: Unit): Unit {
    if u == Hex('2', '0', '2', '8') then Plain(LINE_SEPARATOR)
    else if u == Hex('2', '0', '2', '9') then Plain(PARAGRAPH_SEPARATOR)
    else u
  }

  function LiteralAll(units: seq<Unit>): (r: seq<Unit>)
    ensures |r| == |units| && forall i | 0 <= i < |units| :: r[i] == Literal(units[i])
  {
    if units == [] then [] else [Literal(units[0])] + LiteralAll(units[1..])
  }

  // ---------- Exactness ----------

  lemma TrailingAppend(s: string, c: char)
    ensures TrailingBackslashes(s + [c]) == if c == '\\' then TrailingBackslashes(s) + 1 else 0
  {
    assert (s + [c])[..|s|] == s;
  }

  /** A character that starts no active line-terminator escape is copied. */
  lemma Copied(s: string, i: nat)
    requires i < |s| && (s[i] == '\\' ==> !Unescaped(s, i) || (!EscapeAt(s, i, '8') && !EscapeAt(s, i, '9')))
    ensures UnescapeFrom(s, i) == [s[i]] + UnescapeFrom(s, i + 1)
  {
    hide Unescaped;
  }

  lemma PlainCopied(before: string, u: Unit, after: string)
    requires u.Plain? && ValidUnit(u)
    ensures var s := before + Render(u) + after;
            UnescapeFrom(s, |before|) == Render(u) + UnescapeFrom(s, |before + Render(u)|)
    ensures TrailingBackslashes(before + Render(u)) == 0
  {
    hide Unescaped, TrailingBackslashes;
    var s := before + Render(u) + after;
    Copied(s, |before|);
    TrailingAppend(before, u.c);
  }

  lemma ShortCopied(before: string, u: Unit, after: string)
    requires u.Short? && ValidUnit(u) && TrailingBackslashes(before) % 2 == 0
    ensures var s := before + Render(u) + after;
            UnescapeFrom(s, |before|) == Render(u) + UnescapeFrom(s, |before + Render(u)|)
    ensures TrailingBackslashes(before + Render(u)) % 2 == 0
  {
    hide TrailingBackslashes, UnescapeFrom;
    var s, n := before + Render(u) + after, |before|;
    assert s[n] == '\\' && s[n + 1] == u.c;
    Copied(s, n);
    TrailingAppend(before, '\\');
    assert s[..n + 1] == before + ['\\'];
    Copied(s, n + 1);
    TrailingAppend(before + ['\\'], u.c);
    assert before + Render(u) == before + ['\\'] + [u.c];
    assert [s[n]] + [s[n + 1]] == Render(u);
  }

  lemma HexAt(before: string, u: Unit, after: string)
    requires u.Hex? && ValidUnit(u)
    ensures var s, n := before + Render(u) + after, |before|;
            && s[n] == '\\' && s[n + 1] == 'u' && s[n + 2] == u.a && s[n + 3] == u.b && s[n + 4] == u.c && s[n + 5] == u.d
            && s[..n] == before
            && (EscapeAt(s, n, '8') <==> u == Hex('2', '0', '2', '8'))
            && (EscapeAt(s, n, '9') <==> u == Hex('2', '0', '2', '9'))
  {
  }

  lemma HexEnds(before: string, u: Unit)
    requires u.Hex? && ValidUnit(u)
    ensures TrailingBackslashes(before + Render(u)) == 0
  {
    hide TrailingBackslashes;
    var front := before + ['\\', 'u', u.a, u.b, u.c];
    assert before + Render(u) == front + [u.d];
    TrailingAppend(front, u.d);
  }

  /** An active hex escape is made literal exactly when it names a line terminator. */
  lemma HexCopied(before: string, u: Unit, after: string)
    requires u.Hex? && ValidUnit(u) && TrailingBackslashes(before) % 2 == 0
    ensures var s := before + Render(u) + after;
            UnescapeFrom(s, |before|) == Render(Literal(u)) + UnescapeFrom(s, |before + Render(u)|)
  {
    hide TrailingBackslashes;
    HexAt(before, u, after);
    var s, n := before + Render(u) + after, |before|;
    if Literal(u) == u {
      SixCopied(s, n);
      assert s[n..n + 6] == Render(u);
    }
  }

  /** Six characters of which only the first can be a backslash. */
  lemma SixCopied(s: string, n: nat)
    requires n + 6 <= |s| && !EscapeAt(s, n, '8') && !EscapeAt(s, n, '9')
    requires forall i | n < i < n + 6 :: s[i] != '\\'
    ensures UnescapeFrom(s, n) == s[n..n + 6] + UnescapeFrom(s, n + 6)
  {
    hide Unescaped, UnescapeFrom;
    Copied(s, n);
    Copied(s, n + 1);
    Copied(s, n + 2);
    Copied(s, n + 3);
    Copied(s, n + 4);
    Copied(s, n + 5);
    assert [s[n]] + ([s[n + 1]] + ([s[n + 2]] + ([s[n + 3]] + ([s[n + 4]] + [s[n + 5]])))) == s[n..n + 6];
  }

  lemma UnitStep(before: string, u: Unit, after: string)
    requires ValidUnit(u) && TrailingBackslashes(before) % 2 == 0
    ensures var s := before + Render(u) + after;
            UnescapeFrom(s, |before|) == Render(Literal(u)) + UnescapeFrom(s, |before + Render(u)|)
    ensures TrailingBackslashes(before + Render(u)) % 2 == 0
  {
    hide TrailingBackslashes, UnescapeFrom, ValidUnit, Render;
    match u
    case Plain(_) => PlainCopied(before, u, after);
    case Short(_) => ShortCopied(before, u, after);
    case Hex(_, _, _, _) =>
      HexCopied(before, u, after);
      HexEnds(before, u);
  }

  lemma {:induction false} UnescapeUnits(before: string, units: seq<Unit>)
    requires ValidUnits(units) && TrailingBackslashes(before) % 2 == 0
    ensures UnescapeFrom(before + RenderAll(units), |before|) == RenderAll(LiteralAll(units))
    decreases |units|
  {
    hide TrailingBackslashes, UnescapeFrom, Render, ValidUnit, Literal;
    if units == [] {
      NothingLeft(before);
      assert before + [] == before;
    } else {
      var u, after := units[0], RenderAll(units[1..]);
      UnitStep(before, u, after);
      UnescapeUnits(before + Render(u), units[1..]);
      assert before + RenderAll(units) == before + Render(u) + after;
      assert LiteralAll(units)[1..] == LiteralAll(units[1..]);
    }
  }

  lemma NothingLeft(s: string)
    ensures UnescapeFrom(s, |s|) == []
  {
  }

  /** In any JSON text exactly the active `\u2028` and `\u2029` escapes become literal. */
  lemma UnescapingIsExact(units: seq<Unit>)
    requires ValidUnits(units)
    ensures UnescapeFrom(RenderAll(units), 0) == RenderAll(LiteralAll(units))
  {
    hide UnescapeFrom, ValidUnit, Render;
    UnescapeUnits([], units);
    assert [] + RenderAll(units) == RenderAll(units);
  }

  // ---------- Strings ----------

  function HexChar(n: nat): char
    requires n < 16
  {
    if n < 10 then '0' + n as char else 'a' + (n - 10) as char
  }

  function HexValue(c: char): (n: nat)
    requires HexDigit(c)
    ensures n < 16
  {
    if '0' <= c <= '9' then (c - '0') as nat
    else if 'a' <= c <= 'f' then (c - 'a') as nat + 10
    else (c - 'A') as nat + 10
  }

  /** The encoder's unit for one character. */
  function Encode(c: char): Unit {
    if c == '\"' then Short('\"')
    else if c == '\\' then Short('\\')
    else if c == '\n' then Short('n')
    else if c == '\r' then Short('r')
    else if c == '\t' then Short('t')
    else if c == '\U{0008}' then Short('b')
    else if c == '\U{000C}' then Short('f')
    else if c < ' ' then Hex('0', '0', HexChar(c as nat / 16), HexChar(c as nat % 16))
    else if c == LINE_SEPARATOR then Hex('2', '0', '2', '8')
    else if c == PARAGRAPH_SEPARATOR then Hex('2', '0', '2', '9')
    else Plain(c)
  }

  function EncodeAll(text: string): (units: seq<Unit>)
    ensures |units| == |text| && forall i | 0 <= i < |text| :: units[i] == Encode(text[i])
  {
    if text == [] then [] else [Encode(text[0])] + EncodeAll(text[1..])
  }

  function CodeUnit(a: char, b: char, c: char, d: char): (n: nat)
    requires HexDigit(a) && HexDigit(b) && HexDigit(c) && HexDigit(d)
    ensures n < 0x1_0000
  {
    HexValue(a) * 4096 + HexValue(b) * 256 + HexValue(c) * 16 + HexValue(d)
  }

  function CharOf(n: nat): Option<char>
    requires n < 0x1_0000
  {
    if 0xD800 <= n < 0xE000 then None else Some(n as char)
  }

  /** The character a unit stands for, unless it is half of a surrogate pair or no escape. */
  function Decode(u: Unit): Option<char>
    requires ValidUnit(u)
  {
    match u
    case Plain(c) => Some(c)
    case Short(c) =>
      if c == '\"' || c == '\\' || c == '/' then Some(c)
      else if c == 'n' then Some('\n')
      else if c == 'r' then Some('\r')
      else if c == 't' then Some('\t')
      else if c == 'b' then Some('\U{0008}')
      else if c == 'f' then Some('\U{000C}')
      else None
    case Hex(a, b, c, d) => CharOf(CodeUnit(a, b, c, d))
  }

  /** Splits a JSON string body into units. */
  function Parse(s: string): Option<seq<Unit>> {
    if s == [] then Some([])
    else if s[0] != '\\' then Cons(Plain(s[0]), Parse(s[1..]))
    else if |s| >= 6 && s[1] == 'u' then
      if HexDigit(s[2]) && HexDigit(s[3]) && HexDigit(s[4]) && HexDigit(s[5])
      then Cons(Hex(s[2], s[3], s[4], s[5]), Parse(s[6..])) else None
    else if |s| >= 2 && s[1] != 'u' then Cons(Short(s[1]), Parse(s[2..]))
    else None
  }

  function Cons(u: Unit, rest: Option<seq<Unit>>): Option<seq<Unit>> {
    if rest.None? then None else Some([u] + rest.value)
  }

  function DecodeAll(units: seq<Unit>): Option<string> {
    if units == [] then Some([])
    else if !ValidUnit(units[0]) then None
    else match (Decode(units[0]), DecodeAll(units[1..]))
      case (Some(c), Some(rest)) => Some([c] + rest)
      case (_, _) => None
  }

  lemma ParseUnit(u: Unit, rest: string)
    requires ValidUnit(u)
    ensures Parse(Render(u) + rest) == Cons(u, Parse(rest))
  {
    var s := Render(u) + rest;
    match u
    case Plain(c) => assert s[1..] == rest;
    case Short(c) => assert s[2..] == rest;
    case Hex(a, b, c, d) => assert s[6..] == rest;
  }

  lemma {:induction false} ParseRender(units: seq<Unit>)
    requires ValidUnits(units)
    ensures Parse(RenderAll(units)) == Some(units)
    decreases |units|
  {
    hide Parse, Render, ValidUnit;
    if units == [] {
      NothingToParse();
    } else {
      ParseRender(units[1..]);
      ParseUnit(units[0], RenderAll(units[1..]));
      assert units == [units[0]] + units[1..];
    }
  }

  lemma NothingToParse()
    ensures Parse([]) == Some([])
  {
  }

  lemma EncodedDecodes(c: char)
    ensures ValidUnit(Encode(c)) && Decode(Encode(c)) == Some(c)
    ensures ValidUnit(Literal(Encode(c))) && Decode(Literal(Encode(c))) == Some(c)
  {
    hide HexChar, HexValue, HexDigit;
    if c < ' ' {
      ControlDecodes(c);
    } else {
      SeparatorDigits();
    }
  }

  lemma SeparatorDigits()
    ensures HexDigit('0') && HexDigit('2') && HexDigit('8') && HexDigit('9')
    ensures HexValue('0') == 0 && HexValue('2') == 2 && HexValue('8') == 8 && HexValue('9') == 9
  {
  }

  lemma ControlDecodes(c: char)
    requires c < ' '
    ensures ValidUnit(Encode(c)) && Decode(Encode(c)) == Some(c) && Literal(Encode(c)) == Encode(c)
  {
    hide HexChar, HexValue, HexDigit;
    var n := c as nat;
    assert n / 16 < 2 && n == n / 16 * 16 + n % 16;
    HexRoundTrip(n / 16);
    HexRoundTrip(n % 16);
    SeparatorDigits();
  }

  lemma HexRoundTrip(n: nat)
    requires n < 16
    ensures HexDigit(HexChar(n)) && HexValue(HexChar(n)) == n
  {
  }

  lemma EncodedIsValid(text: string)
    ensures ValidUnits(EncodeAll(text)) && ValidUnits(LiteralAll(EncodeAll(text)))
  {
    hide Encode, Literal, ValidUnit, Decode;
    forall i | 0 <= i < |text| ensures ValidUnit(EncodeAll(text)[i]) && ValidUnit(LiteralAll(EncodeAll(text))[i]) {
      EncodedDecodes(text[i]);
    }
  }

  lemma {:induction false} DecodeEncoded(text: string)
    ensures DecodeAll(EncodeAll(text)) == Some(text)
    ensures DecodeAll(LiteralAll(EncodeAll(text))) == Some(text)
    decreases |text|
  {
    hide Encode, Literal, ValidUnit, Decode, DecodeAll;
    if text == [] {
      NothingToDecode();
    } else {
      DecodeEncoded(text[1..]);
      EncodedDecodes(text[0]);
      DecodeFirst(EncodeAll(text));
      DecodeFirst(LiteralAll(EncodeAll(text)));
      assert EncodeAll(text)[1..] == EncodeAll(text[1..]);
      assert LiteralAll(EncodeAll(text))[1..] == LiteralAll(EncodeAll(text[1..]));
      assert text == [text[0]] + text[1..];
    }
  }

  lemma NothingToDecode()
    ensures DecodeAll([]) == Some([])
  {
  }

  lemma DecodeFirst(units: seq<Unit>)
    requires units != [] && ValidUnit(units[0]) && Decode(units[0]).Some? && DecodeAll(units[1..]).Some?
    ensures DecodeAll(units) == Some([Decode(units[0]).value] + DecodeAll(units[1..]).value)
  {
    hide Decode, ValidUnit;
  }

  /**
   Unescaping the encoding of any text gives the encoding with only the two line terminators
   literal, and it still decodes to the text.
   */
  lemma UnescapedTextDecodes(text: string)
    ensures var encoded := RenderAll(EncodeAll(text)); var unescaped := UnescapeFrom(encoded, 0);
            && unescaped == RenderAll(LiteralAll(EncodeAll(text)))
            && Parse(unescaped).Some? && DecodeAll(Parse(unescaped).value) == Some(text)
  {
    hide Encode, Literal, ValidUnit, Decode, UnescapeFrom, Parse, RenderAll;
    EncodedIsValid(text);
    DecodeEncoded(text);
    UnescapingIsExact(EncodeAll(text));
    ParseRender(LiteralAll(EncodeAll(text)));
  }

  lemma {:induction false} LiteralOfBoth(a: seq<Unit>, b: seq<Unit>)
    ensures LiteralAll(a + b) == LiteralAll(a) + LiteralAll(b)
  {
    assert forall i | 0 <= i < |a + b| :: LiteralAll(a + b)[i] == (LiteralAll(a) + LiteralAll(b))[i];
  }

  lemma {:induction false} RenderOfBoth(a: seq<Unit>, b: seq<Unit>)
    ensures RenderAll(a + b) == RenderAll(a) + RenderAll(b)
    decreases |a|
  {
    if a == [] {
      assert a + b == b;
    } else {
      assert (a + b)[1..] == a[1..] + b;
      RenderOfBoth(a[1..], b);
    }
  }

  /** An escaped backslash, and the letters that would be an escape behind a single one. */
  function Lookalike(d: char): seq<Unit> {
    [Short('\\'), Plain('u'), Plain('2'), Plain('0'), Plain('2'), Plain(d)]
  }

  /** In any JSON text, behind an escaped backslash `u2028` and `u2029` are ordinary text and stay as they are. */
  lemma EscapedBackslashIsLeftAlone(before: seq<Unit>, d: char, after: seq<Unit>)
    requires ValidUnits(before) && ValidUnits(after) && d in ['8', '9']
    ensures UnescapeFrom(RenderAll(before + Lookalike(d) + after), 0)
         == RenderAll(LiteralAll(before)) + RenderAll(Lookalike(d)) + RenderAll(LiteralAll(after))
  {
    hide UnescapeFrom, RenderAll, LiteralAll;
    var units := before + Lookalike(d) + after;
    UnescapingIsExact(units);
    LiteralOfBoth(before + Lookalike(d), after);
    LiteralOfBoth(before, Lookalike(d));
    assert LiteralAll(Lookalike(d)) == Lookalike(d);
    RenderOfBoth(LiteralAll(before) + Lookalike(d), LiteralAll(after));
    RenderOfBoth(LiteralAll(before), Lookalike(d));
  }
}
