/** Serialised payloads: where the text of a JSON object ends. */
module Payloads {

  lemma {:induction false} SplitAtLength(a: string, b: string, c: string, d: string)
    requires a + b == c + d && |b| == |d|
    ensures a == c && b == d
  {
    assert |a| == |c|;
    assert a == (a + b)[..|a|] && c == (c + d)[..|a|];
    assert b == (a + b)[|a|..] && d == (c + d)[|a|..];
  }

  // ---------- the scanner ----------

  /** How far a JSON scanner is: open braces and brackets, inside a string, after a backslash. */
  datatype Scanner = Scanner(depth: int, inString: bool, escaped: bool)

  function Advance(s: Scanner, c: char): Scanner
  {
    if s.escaped then s.(escaped := false)
    else if s.inString then
      if c == '\\' then s.(escaped := true) else if c == '"' then s.(inString := false) else s
    else if c == '"' then s.(inString := true)
    else if c == '{' || c == '[' then s.(depth := s.depth + 1)
    else if c == '}' || c == ']' then s.(depth := s.depth - 1)
    else s
  }

  function Scanned(text: string): Scanner
  {
    if text == "" then Scanner(0, false, false)
    else Advance(Scanned(text[..|text| - 1]), text[|text| - 1])
  }

  predicate Closed(text: string) { Scanned(text).depth == 0 && !Scanned(text).inString }

  /** The shape of a serialised object: everything it opens is closed for the first time at its end. */
  ghost predicate ObjectText(text: string)
  {
    text != "" && Closed(text) && forall k :: 0 < k < |text| ==> !Closed(text[..k])
  }

  lemma {:induction false} PrefixOfSame(a: string, b: string, c: string, d: string)
    requires a + b == c + d
    ensures |a| <= |c| ==> c[..|a|] == a
  {
    if |a| <= |c| { assert c[..|a|] == (c + d)[..|a|] == (a + b)[..|a|]; }
  }

  /** No object text continues another one, so whatever follows it starts where it ends. */
  lemma {:induction false} ObjectTextsSplit(a: string, b: string, c: string, d: string)
    requires a + b == c + d && ObjectText(a) && ObjectText(c)
    ensures a == c && b == d
  {
    PrefixOfSame(a, b, c, d);
    PrefixOfSame(c, d, a, b);
    assert |a| == |c|;
    SplitAtLength(a, b, c, d);
  }

  // ---------- the serialiser ----------

  /** A value to serialise. Atoms are numbers and the three words, as text. */
  datatype Json = Atom(text: string) | Text(chars: string) | List(items: seq<Json>) | Dict(fields: seq<Field>)

  datatype Field = Field(key: string, value: Json)

  const DIGITS := "0123456789abcdef"

  /** The last `k` hexadecimal digits. */
  function Hex(n: nat, k: nat): (text: string)
    ensures |text| == k
  {
    if k == 0 then "" else Hex(n / 16, k - 1) + [DIGITS[n % 16]]
  }

  /** Quotes, backslashes and the usual controls by a letter, everything else outside printable ASCII by its
      code, in two halves beyond the basic plane. */
  function Escape(c: char): string
  {
    if c == '"' || c == '\\' then ['\\', c]
    else if c == '\n' then ['\\', 'n']
    else if c == '\r' then ['\\', 'r']
    else if c == '\t' then ['\\', 't']
    else if c as int == 8 then ['\\', 'b']
    else if c as int == 12 then ['\\', 'f']
    else if ' ' <= c <= '~' then [c]
    else Coded(c as int)
  }

  function Coded(code: int): string
    requires code >= 0
  {
    if code < 0x10000 then Unit(code) else Unit(0xD800 + (code - 0x10000) / 1024) + Unit(0xDC00 + code % 1024)
  }

  function Unit(n: nat): string { ['\\', 'u'] + Hex(n, 4) }

  function EscapeAll(text: string): string
  {
    if text == "" then "" else Escape(text[0]) + EscapeAll(text[1..])
  }

  function Quoted(text: string): string { ['"'] + EscapeAll(text) + ['"'] }

  function Dump(v: Json): string
  {
    match v
    case Atom(text) => text
    case Text(chars) => Quoted(chars)
    case List(items) =>
      Enclosed('[', seq(|items|, i requires 0 <= i < |items| => Dump(items[i])), ']')
    case Dict(fields) =>
      Enclosed('{', seq(|fields|, i requires 0 <= i < |fields| => Pair(fields[i].key, Dump(fields[i].value))), '}')
  }

  function Pair(key: string, value: string): string { Quoted(key) + ": " + value }

  function Enclosed(open: char, parts: seq<string>, close: char): string { [open] + Joined(parts) + [close] }

  function Joined(parts: seq<string>): string
  {
    if parts == [] then ""
    else
      var n := |parts| - 1;
      Joined(parts[..n]) + (if n == 0 then "" else ", ") + parts[n]
  }

  /** Characters that open or close nothing. */
  predicate Neutral(c: char) { c != '"' && c != '\\' && c != '{' && c != '}' && c != '[' && c != ']' }

  predicate Bare(text: string) { forall i :: 0 <= i < |text| ==> Neutral(text[i]) }

  predicate WellFormed(v: Json)
  {
    match v
    case Atom(text) => Bare(text)
    case Text(_) => true
    case List(items) => forall i :: 0 <= i < |items| ==> WellFormed(items[i])
    case Dict(fields) => forall i :: 0 <= i < |fields| ==> WellFormed(fields[i].value)
  }

  // ---------- a dumped value is balanced ----------

  function ScanFrom(s: Scanner, text: string): Scanner
  {
    if text == "" then s else Advance(ScanFrom(s, text[..|text| - 1]), text[|text| - 1])
  }

  lemma {:induction false} ScannedIsScan(text: string)
    ensures Scanned(text) == ScanFrom(Scanner(0, false, false), text)
  {
    if text != "" { ScannedIsScan(text[..|text| - 1]); }
  }

  lemma {:induction false} ScanConcat(s: Scanner, a: string, b: string)
    ensures ScanFrom(s, a + b) == ScanFrom(ScanFrom(s, a), b)
  {
    if b == "" {
      assert a + b == a;
    } else {
      var n := |b| - 1;
      ScanConcat(s, a, b[..n]);
      assert (a + b)[..|a| + n] == a + b[..n];
    }
  }

  /** From `s` the text leads to `to`, never below `floor` on the way. */
  ghost predicate Leads(s: Scanner, text: string, to: Scanner, floor: int)
  {
    ScanFrom(s, text) == to && forall k :: 0 <= k <= |text| ==> ScanFrom(s, text[..k]).depth >= floor
  }

  lemma {:induction false} LeadsConcat(s: Scanner, a: string, mid: Scanner, b: string, to: Scanner, floor: int)
    requires Leads(s, a, mid, floor) && Leads(mid, b, to, floor)
    ensures Leads(s, a + b, to, floor)
  {
    ScanConcat(s, a, b);
    forall k | 0 <= k <= |a + b|
      ensures ScanFrom(s, (a + b)[..k]).depth >= floor
    {
      if k <= |a| {
        assert (a + b)[..k] == a[..k];
      } else {
        assert (a + b)[..k] == a + b[..k - |a|];
        ScanConcat(s, a, b[..k - |a|]);
      }
    }
  }

  lemma {:induction false} LeadsOne(s: Scanner, c: char, floor: int)
    requires s.depth >= floor && Advance(s, c).depth >= floor
    ensures Leads(s, [c], Advance(s, c), floor)
  {
    assert [c][..0] == "" && [c][..1] == [c];
  }

  lemma {:induction false} LeadsNone(s: Scanner, floor: int)
    requires s.depth >= floor
    ensures Leads(s, "", s, floor)
  {
  }

  function Outside(depth: int): Scanner { Scanner(depth, false, false) }

  function Inside(depth: int): Scanner { Scanner(depth, true, false) }

  lemma {:induction false} BareLeads(text: string, depth: int)
    requires Bare(text)
    ensures Leads(Outside(depth), text, Outside(depth), depth)
  {
    if text == "" {
      LeadsNone(Outside(depth), depth);
    } else {
      var n := |text| - 1;
      BareLeads(text[..n], depth);
      LeadsOne(Outside(depth), text[n], depth);
      LeadsConcat(Outside(depth), text[..n], Outside(depth), [text[n]], Outside(depth), depth);
      assert text == text[..n] + [text[n]];
    }
  }

  lemma {:induction false} LetterLeads(text: string, depth: int)
    requires forall i :: 0 <= i < |text| ==> text[i] != '"' && text[i] != '\\'
    ensures Leads(Inside(depth), text, Inside(depth), depth)
  {
    if text == "" {
      LeadsNone(Inside(depth), depth);
    } else {
      var n := |text| - 1;
      LetterLeads(text[..n], depth);
      LeadsOne(Inside(depth), text[n], depth);
      LeadsConcat(Inside(depth), text[..n], Inside(depth), [text[n]], Inside(depth), depth);
      assert text == text[..n] + [text[n]];
    }
  }

  lemma {:induction false} PairLeads(c: char, depth: int)
    ensures Leads(Inside(depth), ['\\', c], Inside(depth), depth)
  {
    var escaped := Scanner(depth, true, true);
    LeadsOne(Inside(depth), '\\', depth);
    LeadsOne(escaped, c, depth);
    LeadsConcat(Inside(depth), ['\\'], escaped, [c], Inside(depth), depth);
    assert ['\\'] + [c] == ['\\', c];
  }

  lemma {:induction false} DigitsAreLetters(i: nat)
    requires i < 16
    ensures DIGITS[i] != '"' && DIGITS[i] != '\\'
  {
  }

  lemma {:induction false} HexIsLetters(n: nat, k: nat)
    ensures forall i :: 0 <= i < k ==> Hex(n, k)[i] != '"' && Hex(n, k)[i] != '\\'
  {
    if k > 0 {
      HexIsLetters(n / 16, k - 1);
      DigitsAreLetters(n % 16);
    }
  }

  lemma {:induction false} UnitLeads(n: nat, depth: int)
    ensures Leads(Inside(depth), Unit(n), Inside(depth), depth)
  {
    PairLeads('u', depth);
    HexIsLetters(n, 4);
    LetterLeads(Hex(n, 4), depth);
    LeadsConcat(Inside(depth), ['\\', 'u'], Inside(depth), Hex(n, 4), Inside(depth), depth);
  }

  lemma {:induction false} CodedLeads(code: nat, depth: int)
    ensures Leads(Inside(depth), Coded(code), Inside(depth), depth)
  {
    if code < 0x10000 {
      UnitLeads(code, depth);
    } else {
      var high, low := 0xD800 + (code - 0x10000) / 1024, 0xDC00 + code % 1024;
      UnitLeads(high, depth);
      UnitLeads(low, depth);
      LeadsConcat(Inside(depth), Unit(high), Inside(depth), Unit(low), Inside(depth), depth);
    }
  }

  lemma {:induction false} EscapeLeads(c: char, depth: int)
    ensures Leads(Inside(depth), Escape(c), Inside(depth), depth)
  {
    var text := Escape(c);
    if c != '"' && c != '\\' && ' ' <= c <= '~' {
      LetterLeads([c], depth);
    } else if text == Coded(c as int) {
      CodedLeads(c as int, depth);
    } else {
      PairLeads(text[1], depth);
      assert text == ['\\', text[1]];
    }
  }

  lemma {:induction false} EscapeAllLeads(text: string, depth: int)
    ensures Leads(Inside(depth), EscapeAll(text), Inside(depth), depth)
  {
    if text == "" {
      LeadsNone(Inside(depth), depth);
    } else {
      EscapeLeads(text[0], depth);
      EscapeAllLeads(text[1..], depth);
      LeadsConcat(Inside(depth), Escape(text[0]), Inside(depth), EscapeAll(text[1..]), Inside(depth), depth);
    }
  }

  lemma {:induction false} QuotedLeads(text: string, depth: int)
    ensures Leads(Outside(depth), Quoted(text), Outside(depth), depth)
  {
    LeadsOne(Outside(depth), '"', depth);
    EscapeAllLeads(text, depth);
    LeadsConcat(Outside(depth), ['"'], Inside(depth), EscapeAll(text), Inside(depth), depth);
    LeadsOne(Inside(depth), '"', depth);
    LeadsConcat(Outside(depth), ['"'] + EscapeAll(text), Inside(depth), ['"'], Outside(depth), depth);
  }

  lemma {:induction false} SeparatorLeads(first: bool, depth: int)
    ensures Leads(Outside(depth), if first then "" else ", ", Outside(depth), depth)
    ensures Leads(Outside(depth), ": ", Outside(depth), depth)
  {
    BareLeads("", depth);
    BareLeads(", ", depth);
    BareLeads(": ", depth);
  }

  lemma {:induction false} JoinedLeads(parts: seq<string>, depth: int)
    requires forall i :: 0 <= i < |parts| ==> Leads(Outside(depth), parts[i], Outside(depth), depth)
    ensures Leads(Outside(depth), Joined(parts), Outside(depth), depth)
  {
    var out := Outside(depth);
    if parts == [] {
      LeadsNone(out, depth);
    } else {
      var n := |parts| - 1;
      var before, gap := Joined(parts[..n]), if n == 0 then "" else ", ";
      JoinedLeads(parts[..n], depth);
      SeparatorLeads(n == 0, depth);
      LeadsConcat(out, before, out, gap, out, depth);
      LeadsConcat(out, before + gap, out, parts[n], out, depth);
    }
  }

  lemma {:induction false} PairFieldLeads(key: string, value: string, depth: int)
    requires Leads(Outside(depth), value, Outside(depth), depth)
    ensures Leads(Outside(depth), Pair(key, value), Outside(depth), depth)
  {
    var out := Outside(depth);
    QuotedLeads(key, depth);
    SeparatorLeads(true, depth);
    LeadsConcat(out, Quoted(key), out, ": ", out, depth);
    LeadsConcat(out, Quoted(key) + ": ", out, value, out, depth);
  }

  lemma {:induction false} EnclosedLeads(open: char, parts: seq<string>, close: char, depth: int)
    requires (open == '[' && close == ']') || (open == '{' && close == '}')
    requires forall i :: 0 <= i < |parts| ==> Leads(Outside(depth + 1), parts[i], Outside(depth + 1), depth + 1)
    ensures Leads(Outside(depth), Enclosed(open, parts, close), Outside(depth), depth)
  {
    var inner := Joined(parts);
    JoinedLeads(parts, depth + 1);
    LeadsOne(Outside(depth), open, depth);
    assert Leads(Outside(depth + 1), inner, Outside(depth + 1), depth);
    LeadsConcat(Outside(depth), [open], Outside(depth + 1), inner, Outside(depth + 1), depth);
    LeadsOne(Outside(depth + 1), close, depth);
    LeadsConcat(Outside(depth), [open] + inner, Outside(depth + 1), [close], Outside(depth), depth);
  }

  /** The dumped fields of a dictionary. */
  function Parts(fields: seq<Field>): (parts: seq<string>)
    ensures |parts| == |fields|
  {
    seq(|fields|, i requires 0 <= i < |fields| => Pair(fields[i].key, Dump(fields[i].value)))
  }

  lemma {:induction false} DumpLeads(v: Json, depth: int)
    requires WellFormed(v)
    ensures Leads(Outside(depth), Dump(v), Outside(depth), depth)
  {
    match v
    case Atom(text) => BareLeads(text, depth);
    case Text(chars) => QuotedLeads(chars, depth);
    case List(items) =>
      var parts := seq(|items|, i requires 0 <= i < |items| => Dump(items[i]));
      forall i | 0 <= i < |items|
        ensures Leads(Outside(depth + 1), parts[i], Outside(depth + 1), depth + 1)
      {
        DumpLeads(items[i], depth + 1);
      }
      EnclosedLeads('[', parts, ']', depth);
    case Dict(fields) =>
      forall i | 0 <= i < |fields|
        ensures Leads(Outside(depth + 1), Parts(fields)[i], Outside(depth + 1), depth + 1)
      {
        DumpLeads(fields[i].value, depth + 1);
        PairFieldLeads(fields[i].key, Dump(fields[i].value), depth + 1);
      }
      EnclosedLeads('{', Parts(fields), '}', depth);
  }

  lemma {:induction false} DictParts(v: Json)
    requires v.Dict? && WellFormed(v)
    ensures Dump(v) == Enclosed('{', Parts(v.fields), '}')
    ensures Leads(Outside(1), Joined(Parts(v.fields)), Outside(1), 1)
  {
    forall i | 0 <= i < |v.fields|
      ensures Leads(Outside(1), Parts(v.fields)[i], Outside(1), 1)
    {
      DumpLeads(v.fields[i].value, 1);
      PairFieldLeads(v.fields[i].key, Dump(v.fields[i].value), 1);
    }
    JoinedLeads(Parts(v.fields), 1);
  }

  /** What the serialiser makes of a dictionary is an object text: it is closed for the first time at its end. */
  lemma {:induction false} DumpedDictIsObjectText(v: Json)
    requires v.Dict? && WellFormed(v)
    ensures ObjectText(Dump(v))
  {
    var inner, text := Joined(Parts(v.fields)), Dump(v);
    DictParts(v);
    DumpLeads(v, 0);
    ScannedIsScan(text);
    forall k | 0 < k < |text|
      ensures !Closed(text[..k])
    {
      assert text[..k] == ['{'] + inner[..k - 1];
      ScannedIsScan(text[..k]);
      ScanConcat(Outside(0), ['{'], inner[..k - 1]);
      assert ScanFrom(Outside(0), ['{']) == Outside(1) by { assert ['{'][..0] == ""; }
    }
  }

  // ---------- an escaped text can be read back ----------

  function Nibble(d: char): int { if d <= '9' then d as int - 48 else d as int - 87 }

  function HexValue(s: string): int
  {
    if s == "" then 0 else HexValue(s[..|s| - 1]) * 16 + Nibble(s[|s| - 1])
  }

  predicate StartsUnit(s: string) { |s| >= 6 && s[0] == '\\' && s[1] == 'u' }

  function UnitValue(s: string): int
    requires StartsUnit(s)
  {
    HexValue(s[2..6])
  }

  predicate StartsPair(s: string) { StartsUnit(s) && 0xD800 <= UnitValue(s) < 0xDC00 && StartsUnit(s[6..]) }

  function LetterCode(c: char): int
  {
    if c == 'n' then 10 else if c == 'r' then 13 else if c == 't' then 9 else if c == 'b' then 8
    else if c == 'f' then 12 else c as int
  }

  /** The code points an escaped text stands for. */
  function Unescaped(s: string): seq<int>
  {
    if s == "" then []
    else if s[0] != '\\' || |s| == 1 then [s[0] as int] + Unescaped(s[1..])
    else if StartsPair(s) then
      [0x10000 + (UnitValue(s) - 0xD800) * 1024 + (UnitValue(s[6..]) - 0xDC00)] + Unescaped(s[12..])
    else if StartsUnit(s) then [UnitValue(s)] + Unescaped(s[6..])
    else [LetterCode(s[1])] + Unescaped(s[2..])
  }

  function Codes(text: string): seq<int> { seq(|text|, i requires 0 <= i < |text| => text[i] as int) }

  lemma {:induction false} NibbleOfDigit(i: nat)
    requires i < 16
    ensures Nibble(DIGITS[i]) == i
  {
  }

  lemma {:induction false} HexStep(n: nat, k: nat)
    ensures k == 0 && n == 0 ==> HexValue(Hex(n, k)) == n
    ensures k > 0 && HexValue(Hex(n / 16, k - 1)) == n / 16 ==> HexValue(Hex(n, k)) == n
  {
    if k > 0 {
      NibbleOfDigit(n % 16);
      assert Hex(n, k)[..k - 1] == Hex(n / 16, k - 1);
    }
  }

  lemma {:induction false} FourDigits(n: nat)
    requires n < 0x10000
    ensures HexValue(Hex(n, 4)) == n
  {
    var a, b, c := n / 16, n / 16 / 16, n / 16 / 16 / 16;
    HexStep(c / 16, 0);
    HexStep(c, 1);
    HexStep(b, 2);
    HexStep(a, 3);
    HexStep(n, 4);
  }

  /** The six characters that stand for a code unit. */
  predicate Stands(u: string, n: int) { |u| == 6 && StartsUnit(u) && HexValue(u[2..6]) == n }

  lemma {:induction false} UnitStands(n: nat)
    requires n < 0x10000
    ensures Stands(Unit(n), n)
  {
    FourDigits(n);
    assert Unit(n)[2..6] == Hex(n, 4);
  }

  lemma {:induction false} StandsFirst(u: string, n: int, rest: string)
    requires Stands(u, n)
    ensures var s := u + rest;
            StartsUnit(s) && UnitValue(s) == n && s[6..] == rest
  {
    assert (u + rest)[2..6] == u[2..6];
  }

  lemma {:induction false} OneReads(u: string, n: int, rest: string)
    requires Stands(u, n) && !(0xD800 <= n < 0xDC00)
    ensures Unescaped(u + rest) == [n] + Unescaped(rest)
  {
    StandsFirst(u, n, rest);
  }

  lemma {:induction false} PairReads(u: string, high: int, v: string, low: int, rest: string)
    requires Stands(u, high) && Stands(v, low) && 0xD800 <= high < 0xDC00
    ensures Unescaped(u + v + rest) == [0x10000 + (high - 0xD800) * 1024 + (low - 0xDC00)] + Unescaped(rest)
  {
    var s := u + v + rest;
    StandsFirst(v, low, rest);
    StandsFirst(u, high, v + rest);
    assert s == u + (v + rest);
    assert s[12..] == rest;
  }

  lemma {:induction false} HalvesRead(code: nat, rest: string)
    requires 0x10000 <= code < 0x110000
    ensures var high, low := 0xD800 + (code - 0x10000) / 1024, 0xDC00 + code % 1024;
            Unescaped(Unit(high) + Unit(low) + rest) == [code] + Unescaped(rest)
  {
    var high, low := 0xD800 + (code - 0x10000) / 1024, 0xDC00 + code % 1024;
    UnitStands(high);
    UnitStands(low);
    PairReads(Unit(high), high, Unit(low), low, rest);
    assert code == 0x10000 + (high - 0xD800) * 1024 + (low - 0xDC00);
  }

  lemma {:induction false} CodedReads(code: nat, rest: string)
    requires code < 0xD800 || 0xE000 <= code < 0x110000
    ensures Unescaped(Coded(code) + rest) == [code] + Unescaped(rest)
  {
    if code < 0x10000 {
      UnitStands(code);
      OneReads(Unit(code), code, rest);
    } else {
      HalvesRead(code, rest);
    }
  }

  lemma {:induction false} EscapeReads(c: char, rest: string)
    ensures Unescaped(Escape(c) + rest) == [c as int] + Unescaped(rest)
  {
    var s := Escape(c) + rest;
    if c != '"' && c != '\\' && ' ' <= c <= '~' {
      assert s[1..] == rest;
    } else if |Escape(c)| == 2 {
      assert s[2..] == rest && s[0] == '\\';
    } else {
      CodedReads(c as int, rest);
    }
  }

  /** Escaping loses nothing: the text is read back, code point by code point. */
  lemma {:induction false} EscapedReadsBack(text: string)
    ensures Unescaped(EscapeAll(text)) == Codes(text)
  {
    if text != "" {
      EscapeReads(text[0], EscapeAll(text[1..]));
      EscapedReadsBack(text[1..]);
      assert Codes(text) == [text[0] as int] + Codes(text[1..]);
    }
  }
}
