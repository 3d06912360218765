/** Canonical JSON text (RFC 8259 restricted to what the encoder writes: sorted
    keys, no white space, minimal escapes) and its parser. */
module JsonText {
  import opened Options
  import opened Text

  /** A JSON value. Objects list their members by key; a float is its own text. */
  datatype Json =
    | JNull
    | JBool(b: bool)
    | JInt(i: int)
    | JFloat(text: string)
    | JStr(s: string)
    | JArr(items: seq<Json>)
    | JObj(members: seq<Member>)

  datatype Member = Member(key: string, value: Json)

  /** Which texts are floats: the shortest round-trip text of a finite float. */
  type FloatTexts = string -> bool

  // --------------------------------------------------------------- numbers

  predicate IsDigit(c: char) {
    '0' <= c <= '9'
  }

  predicate IsNumberChar(c: char) {
    IsDigit(c) || c == '-' || c == '+' || c == '.' || c == 'e' || c == 'E'
  }

  predicate IsFloatChar(c: char) {
    c == '.' || c == 'e' || c == 'E'
  }

  /** A text no integer prints as, made of number characters. */
  predicate FloatShaped(t: string) {
    && t != "" && (forall i :: 0 <= i < |t| ==> IsNumberChar(t[i]))
    && (exists i :: 0 <= i < |t| && IsFloatChar(t[i]))
  }

  ghost predicate FloatsOk(floats: FloatTexts) {
    forall t :: floats(t) ==> FloatShaped(t)
  }

  function PrintNat(n: nat): string {
    if n < 10 then ['0' + n as char] else PrintNat(n / 10) + ['0' + (n % 10) as char]
  }

  function PrintInt(i: int): string {
    if i < 0 then "-" + PrintNat(-i) else PrintNat(i)
  }

  predicate AllDigits(t: string) {
    forall i :: 0 <= i < |t| ==> IsDigit(t[i])
  }

  function DigitValue(c: char): nat
    requires IsDigit(c)
  {
    (c - '0') as nat
  }

  function NatOf(t: string): nat
    requires AllDigits(t)
  {
    if t == "" then 0
    else
      10 * NatOf(t[..|t| - 1]) + DigitValue(t[|t| - 1])
  }

  /** An integer literal: no leading zero, no negative zero. */
  function ParseInt(t: string): Option<int> {
    if t != "" && t[0] == '-' then
      if |t| > 1 && AllDigits(t[1..]) && t[1] != '0' then Some(-(NatOf(t[1..]) as int)) else None
    else if t != "" && AllDigits(t) && (t[0] != '0' || |t| == 1) then Some(NatOf(t))
    else None
  }

  lemma {:induction false} PrintedNat(n: nat)
    ensures AllDigits(PrintNat(n)) && PrintNat(n) != "" && NatOf(PrintNat(n)) == n
    ensures PrintNat(n)[0] == '0' <==> n == 0
    ensures n == 0 ==> PrintNat(n) == "0"
  {
    if n < 10 {
      assert PrintNat(n)[..0] == "";
    } else {
      PrintedNat(n / 10);
      var t := PrintNat(n / 10) + ['0' + (n % 10) as char];
      assert t[..|t| - 1] == PrintNat(n / 10);
    }
  }

  lemma PrintedInt(i: int)
    ensures ParseInt(PrintInt(i)) == Some(i) && PrintInt(i) != ""
    ensures forall k :: 0 <= k < |PrintInt(i)| ==> IsNumberChar(PrintInt(i)[k]) && !IsFloatChar(PrintInt(i)[k])
  {
    PrintedNat(if i < 0 then -i else i);
    if i < 0 { assert PrintInt(i)[1..] == PrintNat(-i); }
  }

  // --------------------------------------------------------------- strings

  function HexDigit(n: nat): char
    requires n < 16
  {
    "0123456789abcdef"[n]
  }

  function HexValue(c: char): Option<nat> {
    if '0' <= c <= '9' then Some((c - '0') as nat)
    else if 'a' <= c <= 'f' then Some((c - 'a') as nat + 10)
    else if 'A' <= c <= 'F' then Some((c - 'A') as nat + 10)
    else None
  }

  /** The escape of one character; only quotes, backslashes and controls have one. */
  function EscapeChar(c: char): string {
    if c == '"' then "\\\""
    else if c == '\\' then "\\\\"
    else if c == '\n' then "\\n"
    else if c == '\r' then "\\r"
    else if c == '\t' then "\\t"
    else if c == 8 as char then "\\b"
    else if c == 12 as char then "\\f"
    else if c < 32 as char then "\\u00" + [HexDigit(c as nat / 16), HexDigit(c as nat % 16)]
    else [c]
  }

  function Escape(s: string): string {
    if s == "" then "" else EscapeChar(s[0]) + Escape(s[1..])
  }

  /** The character after a backslash, and what follows it. */
  function Unescape(s: string): (r: Option<(char, string)>)
    ensures r.Some? ==> |r.value.1| < |s|
  {
    if s == "" then None
    else match s[0]
      case '"' => Some(('"', s[1..]))
      case '\\' => Some(('\\', s[1..]))
      case '/' => Some(('/', s[1..]))
      case 'n' => Some(('\n', s[1..]))
      case 'r' => Some(('\r', s[1..]))
      case 't' => Some(('\t', s[1..]))
      case 'b' => Some((8 as char, s[1..]))
      case 'f' => Some((12 as char, s[1..]))
      case 'u' =>
        if |s| >= 5 && HexValue(s[1]).Some? && HexValue(s[2]).Some? && HexValue(s[3]).Some? && HexValue(s[4]).Some? then
          var code := ((HexValue(s[1]).value * 16 + HexValue(s[2]).value) * 16 + HexValue(s[3]).value) * 16
                      + HexValue(s[4]).value;
          if code < 0xD800 || 0xDFFF < code then Some((code as char, s[5..])) else None
        else None
      case _ => None
  }

  /** The rest of a string literal, up to and including its closing quote. */
  function ParseChars(s: string): (r: Option<(string, string)>)
    ensures r.Some? ==> |r.value.1| < |s|
    decreases |s|
  {
    if s == "" then None
    else if s[0] == '"' then Some(("", s[1..]))
    else if s[0] == '\\' then
      var e := Unescape(s[1..]);
      if e.None? then None
      else
        var r := ParseChars(e.value.1);
        if r.None? then None else Some(([e.value.0] + r.value.0, r.value.1))
    else if s[0] < 32 as char then None
    else
      var r := ParseChars(s[1..]);
      if r.None? then None else Some(([s[0]] + r.value.0, r.value.1))
  }

  lemma EscapedChar(c: char, rest: string)
    ensures c == '"' || c == '\\' || c < 32 as char ==>
              EscapeChar(c)[0] == '\\' && Unescape((EscapeChar(c) + rest)[1..]) == Some((c, rest))
    ensures !(c == '"' || c == '\\' || c < 32 as char) ==> EscapeChar(c) == [c]
  {
    var t := EscapeChar(c) + rest;
    if EscapeChar(c) != [c] {
      if |EscapeChar(c)| == 2 {
        assert t[1..][1..] == rest;
      } else {
        assert t[1..][5..] == rest;
        HexDigits(c as nat / 16);
        HexDigits(c as nat % 16);
        assert t[2] == '0' && t[3] == '0' && t[4] == HexDigit(c as nat / 16) && t[5] == HexDigit(c as nat % 16);
      }
    }
  }

  // Regrouping of concatenations, on arbitrary texts.

  lemma Regroup(first: string, tail: string, rest: string)
    ensures first + "," + tail + "}" + rest == first + ("," + (tail + "}" + rest))
  {
  }

  lemma RegroupTail(a: string, b: string, c: string, d: string)
    ensures a + b + c + d == a + (b + c + d)
  {
  }

  lemma AfterQuote(e: string, v: string, after: string)
    ensures var text := ("\"" + e + "\"") + ":" + v + after;
            text != "" && text[0] == '"' && text[1..] == e + "\"" + (":" + (v + after))
  {
  }

  lemma HexDigits(n: nat)
    requires n < 16
    ensures HexValue(HexDigit(n)) == Some(n)
  {
  }

  lemma {:induction false} ParsedChars(s: string, rest: string)
    ensures ParseChars(Escape(s) + "\"" + rest) == Some((s, rest))
  {
    if s == "" {
      assert (Escape(s) + "\"" + rest)[1..] == rest;
    } else {
      var tail := Escape(s[1..]) + "\"" + rest;
      ParsedChars(s[1..], rest);
      EscapedChar(s[0], tail);
      RegroupTail(EscapeChar(s[0]), Escape(s[1..]), "\"", rest);
      assert s == [s[0]] + s[1..];
      if EscapeChar(s[0]) == [s[0]] {
        assert ([s[0]] + tail)[1..] == tail;
      }
    }
  }

  // ------------------------------------------------- which text is canonical

  /** The characters with a letter of their own after the backslash. */
  const LETTERS: map<char, char> := map[
    '"' := '"', '\\' := '\\', '\n' := 'n', '\r' := 'r', '\t' := 't', 8 as char := 'b', 12 as char := 'f']

  /** A backslash and a letter where there is one, a lower-case hexadecimal code for
      every other control character, and everything else as it is. */
  lemma EscapesAre(c: char)
    ensures c in LETTERS ==> EscapeChar(c) == ['\\', LETTERS[c]]
    ensures c !in LETTERS && c >= 32 as char ==> EscapeChar(c) == [c]
    ensures c !in LETTERS && c < 32 as char ==>
              var e := EscapeChar(c);
              && |e| == 6 && e[..4] == "\\u00" && e[4] in {'0', '1'} && ('0' <= e[5] <= '9' || 'a' <= e[5] <= 'f')
              && HexValue(e[4]).Some? && HexValue(e[5]).Some?
              && HexValue(e[4]).value * 16 + HexValue(e[5]).value == c as nat
  {
    if c !in LETTERS && c < 32 as char { ControlEscape(c); }
  }

  /** The code of a control character without a letter. */
  lemma ControlEscape(c: char)
    requires c !in LETTERS && c < 32 as char
    ensures var e := EscapeChar(c);
            && |e| == 6 && e[..4] == "\\u00" && e[4] in {'0', '1'} && ('0' <= e[5] <= '9' || 'a' <= e[5] <= 'f')
            && HexValue(e[4]).Some? && HexValue(e[5]).Some?
            && HexValue(e[4]).value * 16 + HexValue(e[5]).value == c as nat
  {
    var high, low := c as nat / 16, c as nat % 16;
    HexDigits(high);
    HexDigits(low);
    LowerHex(high);
    LowerHex(low);
    assert EscapeChar(c) == "\\u00" + [HexDigit(high), HexDigit(low)];
  }

  lemma LowerHex(n: nat)
    requires n < 16
    ensures '0' <= HexDigit(n) <= '9' || 'a' <= HexDigit(n) <= 'f'
    ensures n < 2 ==> HexDigit(n) in {'0', '1'}
  {
  }

  /** No shorter way to write one character. */
  lemma ShortestEscape(t: string, c: char, rest: string)
    requires t != "" && t[0] == '\\' && Unescape(t[1..]) == Some((c, rest))
    ensures |EscapeChar(c)| + |rest| <= |t|
  {
    EscapesAre(c);
  }

  /** The printed literal is the shortest of all texts that read as the string. */
  lemma {:induction false} ShortestText(s: string, q: string, rest: string)
    requires ParseChars(q) == Some((s, rest))
    ensures |Escape(s)| + 1 + |rest| <= |q|
    decreases |q|
  {
    if q[0] != '"' {
      var next := if q[0] == '\\' then Unescape(q[1..]).value else (q[0], q[1..]);
      if q[0] == '\\' { ShortestEscape(q, next.0, next.1); } else { EscapesAre(q[0]); }
      var tail := ParseChars(next.1).value;
      assert s == [next.0] + tail.0;
      ShortestText(tail.0, next.1, rest);
      assert s[0] == next.0 && s[1..] == tail.0;
    }
  }

  // ---------------------------------------------------------------- printing

  function Quote(s: string): string {
    "\"" + Escape(s) + "\""
  }

  function Print(j: Json): string {
    match j
    case JNull => "null"
    case JBool(b) => if b then "true" else "false"
    case JInt(i) => PrintInt(i)
    case JFloat(t) => t
    case JStr(s) => Quote(s)
    case JArr(items) => "[" + PrintItems(items) + "]"
    case JObj(members) => "{" + PrintMembers(members) + "}"
  }

  /** The items, each but the first after a comma. */
  function PrintItems(items: seq<Json>): string {
    if items == [] then ""
    else if |items| == 1 then Print(items[0])
    else Print(items[0]) + "," + PrintItems(items[1..])
  }

  function PrintMembers(members: seq<Member>): string {
    if members == [] then ""
    else
      var first := Quote(members[0].key) + ":" + Print(members[0].value);
      if |members| == 1 then first else first + "," + PrintMembers(members[1..])
  }

  // ----------------------------------------------------------------- parsing

  function NumberLength(s: string): (n: nat)
    ensures n <= |s| && forall i :: 0 <= i < n ==> IsNumberChar(s[i])
    ensures n < |s| ==> !IsNumberChar(s[n])
  {
    if s == "" || !IsNumberChar(s[0]) then 0 else 1 + NumberLength(s[1..])
  }

  predicate HasFloatChar(t: string) {
    exists i :: 0 <= i < |t| && IsFloatChar(t[i])
  }

  function ParseNumber(floats: FloatTexts, s: string): (r: Option<(Json, string)>)
    ensures r.Some? ==> |r.value.1| < |s|
  {
    var n := NumberLength(s);
    var token := s[..n];
    if n == 0 then None
    else if HasFloatChar(token) then (if floats(token) then Some((JFloat(token), s[n..])) else None)
    else
      var i := ParseInt(token);
      if i.None? then None else Some((JInt(i.value), s[n..]))
  }

  /** A key may only follow smaller keys, so no key comes twice. */
  predicate KeyFits(previous: Option<string>, key: string) {
    previous.None? || Less(previous.value, key)
  }

  function ParseValue(floats: FloatTexts, s: string): (r: Option<(Json, string)>)
    ensures r.Some? ==> |r.value.1| < |s|
    decreases |s|, 0
  {
    if s == "" then None
    else match s[0]
      case 'n' => if "null" <= s then Some((JNull, s[4..])) else None
      case 't' => if "true" <= s then Some((JBool(true), s[4..])) else None
      case 'f' => if "false" <= s then Some((JBool(false), s[5..])) else None
      case '"' =>
        var r := ParseChars(s[1..]);
        if r.None? then None else Some((JStr(r.value.0), r.value.1))
      case '[' =>
        if |s| > 1 && s[1] == ']' then Some((JArr([]), s[2..]))
        else
          var r := ParseItems(floats, s[1..]);
          if r.None? then None else Some((JArr(r.value.0), r.value.1))
      case '{' =>
        if |s| > 1 && s[1] == '}' then Some((JObj([]), s[2..]))
        else
          var r := ParseMembers(floats, s[1..], None);
          if r.None? then None else Some((JObj(r.value.0), r.value.1))
      case _ => ParseNumber(floats, s)
  }

  /** One or more items, up to and including the closing bracket. */
  function ParseItems(floats: FloatTexts, s: string): (r: Option<(seq<Json>, string)>)
    ensures r.Some? ==> |r.value.1| < |s|
    decreases |s|, 1
  {
    var v := ParseValue(floats, s);
    if v.None? || v.value.1 == "" then None
    else if v.value.1[0] == ']' then Some(([v.value.0], v.value.1[1..]))
    else if v.value.1[0] == ',' then
      var r := ParseItems(floats, v.value.1[1..]);
      if r.None? then None else Some(([v.value.0] + r.value.0, r.value.1))
    else None
  }

  function ParseMembers(floats: FloatTexts, s: string, previous: Option<string>)
    : (r: Option<(seq<Member>, string)>)
    ensures r.Some? ==> |r.value.1| < |s|
    decreases |s|, 1
  {
    if s == "" || s[0] != '"' then None
    else
      var k := ParseChars(s[1..]);
      if k.None? || k.value.1 == "" || k.value.1[0] != ':' || !KeyFits(previous, k.value.0) then None
      else
        var v := ParseValue(floats, k.value.1[1..]);
        if v.None? || v.value.1 == "" then None
        else if v.value.1[0] == '}' then Some(([Member(k.value.0, v.value.0)], v.value.1[1..]))
        else if v.value.1[0] == ',' then
          var r := ParseMembers(floats, v.value.1[1..], Some(k.value.0));
          if r.None? then None else Some(([Member(k.value.0, v.value.0)] + r.value.0, r.value.1))
        else None
  }

  /** A whole text. */
  function Parse(floats: FloatTexts, s: string): Option<Json> {
    var r := ParseValue(floats, s);
    if r.Some? && r.value.1 == "" then Some(r.value.0) else None
  }

  // -------------------------------------------------------------- round trip

  predicate SortedKeys(members: seq<Member>) {
    forall i :: 0 < i < |members| ==> Less(members[i - 1].key, members[i].key)
  }

  /** What the encoder hands to the printer. */
  predicate Printable(floats: FloatTexts, j: Json) {
    match j
    case JFloat(t) => floats(t)
    case JArr(items) => forall i :: 0 <= i < |items| ==> Printable(floats, items[i])
    case JObj(members) => SortedKeys(members) && forall i :: 0 <= i < |members| ==> Printable(floats, members[i].value)
    case _ => true
  }

  /** What can follow a value. */
  predicate Delimited(rest: string) {
    rest == "" || !IsNumberChar(rest[0])
  }

  lemma {:induction false} NumberToken(t: string, rest: string)
    requires (forall i :: 0 <= i < |t| ==> IsNumberChar(t[i])) && Delimited(rest)
    ensures NumberLength(t + rest) == |t|
  {
    if t == "" {
      assert t + rest == rest;
    } else {
      assert (t + rest)[1..] == t[1..] + rest;
      NumberToken(t[1..], rest);
    }
  }

  /** A text that begins with a number character is read as a number. */
  lemma NumberFirst(floats: FloatTexts, s: string)
    requires s != "" && IsNumberChar(s[0])
    ensures ParseValue(floats, s) == ParseNumber(floats, s)
  {
  }

  lemma ParsedNumber(floats: FloatTexts, j: Json, rest: string)
    requires FloatsOk(floats) && Printable(floats, j) && Delimited(rest) && (j.JInt? || j.JFloat?)
    ensures ParseValue(floats, Print(j) + rest) == Some((j, rest))
  {
    var t := Print(j);
    if j.JInt? { PrintedInt(j.i); } else { assert FloatShaped(t); }
    NumberToken(t, rest);
    assert (t + rest)[..|t|] == t && (t + rest)[|t|..] == rest;
    NumberFirst(floats, t + rest);
  }

  lemma ParsedWord(floats: FloatTexts, word: string, rest: string)
    requires word in {"null", "true", "false"}
    ensures ParseValue(floats, word + rest) ==
            Some((if word == "null" then JNull else JBool(word == "true"), rest))
  {
    var text := word + rest;
    assert text[..|word|] == word && text[|word|..] == rest && text[0] == word[0];
  }

  lemma ParsedString(floats: FloatTexts, s: string, rest: string)
    ensures ParseValue(floats, Quote(s) + rest) == Some((JStr(s), rest))
  {
    var text := Quote(s) + rest;
    assert text[1..] == Escape(s) + "\"" + rest;
    ParsedChars(s, rest);
  }

  /** How a printed value begins. */
  lemma {:induction false} PrintedStart(floats: FloatTexts, j: Json)
    requires FloatsOk(floats) && Printable(floats, j)
    ensures Print(j) != "" && Print(j)[0] != ']' && Print(j)[0] != '}'
  {
    match j
    case JInt(i) => PrintedInt(i);
    case JFloat(t) => assert FloatShaped(t);
    case _ =>
  }

  /** Parsing what was printed gives the value back, whatever follows it. */
  lemma {:induction false} ParsedValue(floats: FloatTexts, j: Json, rest: string)
    requires FloatsOk(floats) && Printable(floats, j) && Delimited(rest)
    ensures ParseValue(floats, Print(j) + rest) == Some((j, rest))
    decreases j, 0
  {
    match j
    case JNull => ParsedWord(floats, "null", rest);
    case JBool(b) => ParsedWord(floats, if b then "true" else "false", rest);
    case JInt(_) => ParsedNumber(floats, j, rest);
    case JFloat(_) => ParsedNumber(floats, j, rest);
    case JStr(s) => ParsedString(floats, s, rest);
    case JArr(items) => ParsedArray(floats, items, rest);
    case JObj(members) => ParsedObject(floats, members, rest);
  }

  lemma {:induction false} ParsedArray(floats: FloatTexts, items: seq<Json>, rest: string)
    requires FloatsOk(floats) && (forall i :: 0 <= i < |items| ==> Printable(floats, items[i])) && Delimited(rest)
    ensures ParseValue(floats, Print(JArr(items)) + rest) == Some((JArr(items), rest))
    decreases items, 1
  {
    if items == [] {
      assert Print(JArr([])) == "[]" && ("[]" + rest)[..2] == "[]" && ("[]" + rest)[2..] == rest;
    } else {
      ParsedItems(floats, items, rest);
      PrintedStart(floats, items[0]);
      assert PrintItems(items)[0] == Print(items[0])[0];
      RegroupTail("[", PrintItems(items), "]", rest);
      OpensBracket(floats, items, PrintItems(items) + "]" + rest, rest);
    }
  }

  /** A text that opens a bracket and does not close it at once is read as items. */
  lemma OpensBracket(floats: FloatTexts, items: seq<Json>, u: string, rest: string)
    requires u != "" && u[0] != ']' && ParseItems(floats, u) == Some((items, rest))
    ensures ParseValue(floats, "[" + u) == Some((JArr(items), rest))
  {
    assert ("[" + u)[1..] == u;
  }

  lemma {:induction false} ParsedItems(floats: FloatTexts, items: seq<Json>, rest: string)
    requires FloatsOk(floats) && items != [] && forall i :: 0 <= i < |items| ==> Printable(floats, items[i])
    ensures ParseItems(floats, PrintItems(items) + "]" + rest) == Some((items, rest))
    decreases items, 0
  {
    if |items| == 1 {
      var after := "]" + rest;
      assert PrintItems(items) + "]" + rest == Print(items[0]) + after;
      ParsedValue(floats, items[0], after);
      assert after[1..] == rest && items == [items[0]];
    } else {
      var after := "," + (PrintItems(items[1..]) + "]" + rest);
      assert PrintItems(items) + "]" + rest == Print(items[0]) + after;
      ParsedValue(floats, items[0], after);
      assert after[1..] == PrintItems(items[1..]) + "]" + rest;
      ParsedItems(floats, items[1..], rest);
      assert items == [items[0]] + items[1..];
    }
  }

  lemma {:induction false} ParsedObject(floats: FloatTexts, members: seq<Member>, rest: string)
    requires FloatsOk(floats) && SortedKeys(members) && Delimited(rest)
    requires forall i :: 0 <= i < |members| ==> Printable(floats, members[i].value)
    ensures ParseValue(floats, Print(JObj(members)) + rest) == Some((JObj(members), rest))
    decreases members, 1
  {
    if members == [] {
      assert Print(JObj([])) == "{}" && ("{}" + rest)[..2] == "{}" && ("{}" + rest)[2..] == rest;
    } else {
      ParsedMembers(floats, members, None, rest);
      MembersOpen(members);
      ObjectText(members, rest);
      OpensBrace(floats, members, PrintMembers(members) + "}" + rest, rest);
    }
  }

  lemma MembersOpen(members: seq<Member>)
    requires members != []
    ensures PrintMembers(members) != "" && PrintMembers(members)[0] == '"'
  {
  }

  lemma ObjectText(members: seq<Member>, rest: string)
    ensures Print(JObj(members)) + rest == "{" + (PrintMembers(members) + "}" + rest)
  {
    RegroupTail("{", PrintMembers(members), "}", rest);
  }

  /** A text that opens a brace and does not close it at once is read as members. */
  lemma OpensBrace(floats: FloatTexts, members: seq<Member>, u: string, rest: string)
    requires u != "" && u[0] != '}' && ParseMembers(floats, u, None) == Some((members, rest))
    ensures ParseValue(floats, "{" + u) == Some((JObj(members), rest))
  {
    assert ("{" + u)[1..] == u;
  }

  lemma {:induction false} ParsedMembers(floats: FloatTexts, members: seq<Member>, previous: Option<string>, rest: string)
    requires FloatsOk(floats) && members != [] && SortedKeys(members) && KeyFits(previous, members[0].key)
    requires forall i :: 0 <= i < |members| ==> Printable(floats, members[i].value)
    ensures ParseMembers(floats, PrintMembers(members) + "}" + rest, previous) == Some((members, rest))
    decreases members, 0
  {
    var m := members[0];
    if |members| == 1 {
      ParsedValue(floats, m.value, "}" + rest);
      ParsedLast(floats, m, previous, rest);
      assert members == [m];
    } else {
      var tail := PrintMembers(members[1..]) + "}" + rest;
      ParsedValue(floats, m.value, "," + tail);
      SortedTail(members);
      ParsedMembers(floats, members[1..], Some(m.key), rest);
      ParsedMore(floats, m, tail, members[1..], previous, rest);
      MembersText(members, rest);
      assert members == [m] + members[1..];
    }
  }

  lemma MembersText(members: seq<Member>, rest: string)
    requires |members| > 1
    ensures PrintMembers(members) + "}" + rest ==
            Quote(members[0].key) + ":" + Print(members[0].value) + ("," + (PrintMembers(members[1..]) + "}" + rest))
  {
    Regroup(Quote(members[0].key) + ":" + Print(members[0].value), PrintMembers(members[1..]), rest);
  }

  lemma ParsedLast(floats: FloatTexts, m: Member, previous: Option<string>, rest: string)
    requires ParseValue(floats, Print(m.value) + ("}" + rest)) == Some((m.value, "}" + rest)) && KeyFits(previous, m.key)
    ensures ParseMembers(floats, PrintMembers([m]) + "}" + rest, previous) == Some(([m], rest))
  {
    ParsedMember(floats, m.key, m.value, "}" + rest, previous);
    assert PrintMembers([m]) + "}" + rest == Quote(m.key) + ":" + Print(m.value) + ("}" + rest);
    assert ("}" + rest)[1..] == rest;
  }

  lemma ParsedMore(floats: FloatTexts, m: Member, tail: string, others: seq<Member>, previous: Option<string>, rest: string)
    requires ParseValue(floats, Print(m.value) + ("," + tail)) == Some((m.value, "," + tail)) && KeyFits(previous, m.key)
    requires ParseMembers(floats, tail, Some(m.key)) == Some((others, rest))
    ensures ParseMembers(floats, Quote(m.key) + ":" + Print(m.value) + ("," + tail), previous) == Some(([m] + others, rest))
  {
    ParsedMember(floats, m.key, m.value, "," + tail, previous);
    assert ("," + tail)[1..] == tail;
  }

  lemma SortedTail(members: seq<Member>)
    requires SortedKeys(members) && |members| > 1
    ensures SortedKeys(members[1..]) && Less(members[0].key, members[1].key)
  {
    forall i | 0 < i < |members[1..]| ensures Less(members[1..][i - 1].key, members[1..][i].key) {
      assert Less(members[i].key, members[i + 1].key);
    }
  }

  /** One member is read back, up to what follows its value. */
  lemma ParsedMember(floats: FloatTexts, key: string, value: Json, after: string, previous: Option<string>)
    requires ParseValue(floats, Print(value) + after) == Some((value, after)) && KeyFits(previous, key)
    ensures var text := Quote(key) + ":" + Print(value) + after;
            && text != "" && text[0] == '"'
            && ParseChars(text[1..]) == Some((key, ":" + (Print(value) + after)))
            && (":" + (Print(value) + after))[1..] == Print(value) + after
  {
    AfterQuote(Escape(key), Print(value), after);
    ParsedChars(key, ":" + (Print(value) + after));
  }

  /** The printer and the parser are exact inverses on what the encoder prints. */
  lemma PrintParses(floats: FloatTexts, j: Json)
    requires FloatsOk(floats) && Printable(floats, j)
    ensures Parse(floats, Print(j)) == Some(j)
  {
    ParsedValue(floats, j, "");
    assert Print(j) + "" == Print(j);
  }
}
