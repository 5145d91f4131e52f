/** XML text escaping as done by commons-lang 2 StringEscapeUtils.escapeXml, the inverse
    that an XML parser applies to element content, and the one pull-parser step that
    the gcm extension provider consumes. */
module Xml {
  import opened Wrappers
  import opened Digits
  import opened JavaStrings

  /** The entity names escapeXml knows: the four basic ones plus apos. */
  function EntityName(c: char): Option<string> {
    if c == '"' then Some("quot")
    else if c == '&' then Some("amp")
    else if c == '<' then Some("lt")
    else if c == '>' then Some("gt")
    else if c == '\'' then Some("apos")
    else None
  }

  /** A character escaped text may contain: 7-bit, and none of < > " ' (a bare & still
      occurs, but only as the start of a reference). */
  predicate IsSafe(c: char) {
    c as int <= 0x7F && c != '<' && c != '>' && c != '"' && c != '\''
  }

  /** One character of escapeXml's output: a named entity, a decimal character
      reference for anything above 0x7F, or the character itself. */
  function EscapeChar(c: char): (r: string)
    ensures |r| > 0 && forall i :: 0 <= i < |r| ==> IsSafe(r[i])
    ensures r[0] == '&' <==> (EntityName(c).Some? || c as int > 0x7F)
  {
    match EntityName(c)
    case Some(name) => "&" + name + ";"
    case None => if c as int > 0x7F then "&#" + Decimal(c as int) + ";" else [c]
  }

  /** StringEscapeUtils.escapeXml, character by character from the left. */
  function Escape(s: string): (r: string)
    ensures forall i :: 0 <= i < |r| ==> IsSafe(r[i])
    ensures |r| >= |s|
    ensures r == [] <==> s == []
    decreases |s|
  {
    if s == [] then [] else EscapeChar(s[0]) + Escape(s[1..])
  }

  /** Unicode scalar values, the code points a char can hold. */
  predicate IsScalar(v: int) {
    (0 <= v < 0xD800) || (0xE000 <= v < 0x11_0000)
  }

  /** The end of the run of digits in s that starts at index i. */
  function DigitRun(s: string, i: nat): (k: nat)
    requires i <= |s|
    ensures i <= k <= |s| && AllDigits(s[i..k])
    ensures k < |s| ==> !IsDigit(s[k])
    decreases |s| - i
  {
    if i < |s| && IsDigit(s[i]) then
      var k := DigitRun(s, i + 1);
      assert s[i..k] == [s[i]] + s[i + 1..k];
      k
    else i
  }

  /** The reference at the head of s (which starts with '&'): the character it denotes
      and its length; None when s does not start with a well-formed reference. */
  function ReferenceAt(s: string): (r: Option<(char, nat)>)
    requires |s| > 0 && s[0] == '&'
    ensures r.Some? ==> 1 < r.value.1 <= |s|
  {
    if HasPrefix(s, "&quot;") then Some(('"', 6))
    else if HasPrefix(s, "&amp;") then Some(('&', 5))
    else if HasPrefix(s, "&lt;") then Some(('<', 4))
    else if HasPrefix(s, "&gt;") then Some(('>', 4))
    else if HasPrefix(s, "&apos;") then Some(('\'', 6))
    else if |s| >= 2 && s[1] == '#' then
      var k := DigitRun(s, 2);
      if k > 2 && k < |s| && s[k] == ';' && IsScalar(ParseDecimal(s[2..k])) then
        Some((ParseDecimal(s[2..k]) as char, k + 1))
      else None
    else None
  }

  /** The reference resolution an XML parser applies to element content s; None where
      the parser would fail (markup, or an '&' that does not begin a reference). Only
      the five predefined entities and decimal character references are resolved;
      line-end normalisation and the check for characters XML does not allow are not
      part of it. Resolving never lengthens the text, keeps it empty exactly when it was
      empty, and leaves text without '<' and '&' as it is. */
  function Unescape(s: string): (r: Option<string>)
    ensures r.Some? ==> |r.value| <= |s| && (r.value == [] <==> s == [])
    ensures (forall i :: 0 <= i < |s| ==> s[i] != '<' && s[i] != '&') ==> r == Some(s)
    decreases |s|
  {
    if s == [] then Some([])
    else if s[0] == '<' then None
    else if s[0] == '&' then
      match ReferenceAt(s)
      case None => None
      case Some(ref) =>
        match Unescape(s[ref.1..])
        case None => None
        case Some(t) => Some([ref.0] + t)
    else
      match Unescape(s[1..])
      case None => None
      case Some(t) => assert [s[0]] + s[1..] == s; Some([s[0]] + t)
  }

  /** A run of digits followed by ';' ends where the digits end. */
  lemma {:induction false} DigitRunStops(s: string, i: nat, j: nat)
    requires i <= j < |s| && AllDigits(s[i..j]) && !IsDigit(s[j])
    ensures DigitRun(s, i) == j
    decreases j - i
  {
    if i < j {
      assert s[i] == s[i..j][0];
      assert s[i + 1..j] == s[i..j][1..];
      DigitRunStops(s, i + 1, j);
    }
  }

  /** The reference escapeXml writes for c is read back as c, and nothing more. */
  lemma {:induction false} ReferenceOfEscapeChar(c: char, rest: string)
    requires EscapeChar(c)[0] == '&'
    ensures ReferenceAt(EscapeChar(c) + rest) == Some((c, |EscapeChar(c)|))
  {
    var e := EscapeChar(c);
    var s := e + rest;
    assert s[..|e|] == e;
    if EntityName(c).None? {
      var d := Decimal(c as int);
      assert e == "&#" + d + ";";
      assert s[1] == '#';
      NoNamedPrefix(s);
      assert s[2..2 + |d|] == d;
      DigitRunStops(s, 2, 2 + |d|);
      ParseDecimalOfDecimal(c as int);
    } else {
      assert e[1] == EntityName(c).value[0];
    }
  }

  /** A character reference is not mistaken for a named entity. */
  lemma NoNamedPrefix(s: string)
    requires |s| >= 2 && s[1] == '#'
    ensures !HasPrefix(s, "&quot;") && !HasPrefix(s, "&amp;") && !HasPrefix(s, "&lt;")
    ensures !HasPrefix(s, "&gt;") && !HasPrefix(s, "&apos;")
  {
    assert forall p: string :: |p| >= 2 && HasPrefix(s, p) ==> p[1] == s[..|p|][1] == '#';
  }

  /** Unescaping the escape of one character, followed by anything, yields that
      character followed by the unescaping of the rest. */
  lemma {:induction false} UnescapeEscapeChar(c: char, rest: string)
    ensures Unescape(EscapeChar(c) + rest) ==
      match Unescape(rest)
      case None => None
      case Some(t) => Some([c] + t)
  {
    var e := EscapeChar(c);
    var s := e + rest;
    if e[0] == '&' {
      ReferenceOfEscapeChar(c, rest);
      assert s[|e|..] == rest;
    } else {
      assert e == [c];
      assert s[1..] == rest;
    }
  }

  /** Escaping is lossless: the parser reads back exactly the original text. */
  lemma {:induction false} UnescapeEscape(s: string)
    ensures Unescape(Escape(s)) == Some(s)
    decreases |s|
  {
    if s != [] {
      UnescapeEscapeChar(s[0], Escape(s[1..]));
      UnescapeEscape(s[1..]);
      assert [s[0]] + s[1..] == s;
    }
  }

  // XmlPullParser event types and the names in its TYPES table.
  const START_DOCUMENT := 0
  const END_DOCUMENT := 1
  const START_TAG := 2
  const END_TAG := 3
  const TEXT := 4
  const TYPES: seq<string> := ["START_DOCUMENT", "END_DOCUMENT", "START_TAG", "END_TAG", "TEXT",
    "CDSECT", "ENTITY_REF", "IGNORABLE_WHITESPACE", "PROCESSING_INSTRUCTION", "COMMENT", "DOCDECL"]

  /** What XmlPullParser.next() returned, with getText() at that point. */
  datatype PullEvent = PullEvent(eventType: int, text: string)

  /** The event next() yields right after the start tag of an element whose content is
      the markup-free text s: END_TAG for empty content, otherwise one TEXT event with
      the references resolved; None where the parser throws. */
  function NextAfterStartTag(s: string): (r: Option<PullEvent>)
    ensures s == [] ==> r == Some(PullEvent(END_TAG, ""))
    ensures s != [] && r.Some? ==> r.value.eventType == TEXT && Some(r.value.text) == Unescape(s)
    ensures s != [] ==> (r.Some? <==> Unescape(s).Some?)
  {
    if s == [] then Some(PullEvent(END_TAG, ""))
    else match Unescape(s)
      case None => None
      case Some(t) => Some(PullEvent(TEXT, t))
  }
}
