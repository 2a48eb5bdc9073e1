/** The metadata records of the player stream: escaping, framing and their inverse. */
module Framing {
  import opened Lines
  import opened Wrappers

  // ---------------------------------------------------------------- unescaping

  function DigitValue(c: char, hex: bool): Option<nat> {
    if '0' <= c <= '9' then Some((c - '0') as nat)
    else if hex && 'a' <= c <= 'f' then Some(10 + (c - 'a') as nat)
    else if hex && 'A' <= c <= 'F' then Some(10 + (c - 'A') as nat)
    else None
  }

  predicate IsDigit(c: char, hex: bool) {
    DigitValue(c, hex).Some?
  }

  /** The value of a digit run, most significant digit first. */
  function NumberOf(digits: string, hex: bool): nat
    requires forall i :: 0 <= i < |digits| ==> IsDigit(digits[i], hex)
  {
    if digits == [] then 0
    else
      var front, last := digits[..|digits| - 1], digits[|digits| - 1];
      assert IsDigit(last, hex);
      NumberOf(front, hex) * (if hex then 16 else 10) + DigitValue(last, hex).value
  }

  /** The longest run of digits at the start of `s`. */
  function DigitRun(s: string, hex: bool): (n: nat)
    ensures n <= |s| && (forall i :: 0 <= i < n ==> IsDigit(s[i], hex))
    ensures n < |s| ==> !IsDigit(s[n], hex)
  {
    if s == [] || !IsDigit(s[0], hex) then 0 else 1 + DigitRun(s[1..], hex)
  }

  predicate CodePoint(n: nat) {
    n < 0xD800 || 0xE000 <= n < 0x11_0000
  }

  /** One match of the entity pattern at an ampersand: its length and the character it denotes;
      `Invalid` is a reference to no character, which the decoder refuses. */
  datatype Entity = NoEntity | Invalid | Entity(length: nat, value: char)

  function Numeric(s: string, start: nat, hex: bool): (e: Entity)
    requires start <= |s|
    ensures e.Entity? ==> 0 < e.length <= |s|
  {
    var n := DigitRun(s[start..], hex);
    if n == 0 || start + n >= |s| || s[start + n] != ';' then NoEntity
    else
      var code := NumberOf(s[start..][..n], hex);
      if CodePoint(code) then Entity(start + n + 1, code as char) else Invalid
  }

  const NAMED: seq<(string, char)> :=
    [("&amp;", '&'), ("&lt;", '<'), ("&gt;", '>'), ("&quot;", '"'), ("&apos;", '\'')]

  function Named(s: string, i: nat): (e: Entity)
    requires i <= |NAMED|
    ensures e.Entity? ==> 0 < e.length <= |s|
    decreases |NAMED| - i
  {
    if i == |NAMED| then NoEntity
    else if NAMED[i].0 <= s then Entity(|NAMED[i].0|, NAMED[i].1)
    else Named(s, i + 1)
  }

  function EntityAt(s: string): (e: Entity)
    ensures e.Entity? ==> 0 < e.length <= |s|
  {
    if "&#x" <= s then Numeric(s, 3, true)
    else if "&#" <= s then Numeric(s, 2, false)
    else Named(s, 0)
  }

  /** One left-to-right pass: entities are replaced, everything else is kept. */
  function Unescape(s: string): Option<string>
    decreases |s|
  {
    if s == [] then Some([])
    else
      var e := EntityAt(s);
      if s[0] == '&' && e.Invalid? then None
      else
        var (c, n) := if s[0] == '&' && e.Entity? then (e.value, e.length) else (s[0], 1);
        match Unescape(s[n..])
        case None => None
        case Some(rest) => Some([c] + rest)
  }

  // ------------------------------------------------------------------ escaping

  /** `e` is one way to write `c` without a raw ampersand or less-than sign. */
  ghost predicate Writes(e: string, c: char) {
    || (e == [c] && c != '&' && c != '<')
    || (e == "&amp;" && c == '&') || (e == "&lt;" && c == '<') || (e == "&gt;" && c == '>')
    || (e == "&quot;" && c == '"') || (e == "&apos;" && c == '\'')
    || (exists digits: string, hex: bool :: Reference(e, c, digits, hex))
  }

  /** A numeric reference, in any number of digits. */
  ghost predicate Reference(e: string, c: char, digits: string, hex: bool) {
    && digits != [] && (forall i :: 0 <= i < |digits| ==> IsDigit(digits[i], hex))
    && NumberOf(digits, hex) == c as nat
    && e == (if hex then "&#x" else "&#") + digits + ";"
  }

  /** `escaped` is `text` written character by character. */
  ghost predicate Escapes(escaped: seq<string>, text: string) {
    |escaped| == |text| && forall i :: 0 <= i < |text| ==> Writes(escaped[i], text[i])
  }

  lemma DigitRunStops(digits: string, rest: string, hex: bool)
    requires forall i :: 0 <= i < |digits| ==> IsDigit(digits[i], hex)
    requires rest != [] && !IsDigit(rest[0], hex)
    ensures DigitRun(digits + rest, hex) == |digits|
  {
    var s := digits + rest;
    assert forall i :: 0 <= i < |digits| ==> s[i] == digits[i];
    assert s[|digits|] == rest[0];
  }

  lemma NumericRead(e: string, c: char, rest: string, digits: string, hex: bool)
    requires Reference(e, c, digits, hex)
    ensures e[0] == '&' && EntityAt(e + rest) == Entity(|e|, c)
  {
    var s, start := e + rest, if hex then 3 else 2;
    var tail := [';'] + rest;
    assert s[start..] == digits + tail;
    DigitRunStops(digits, tail, hex);
    assert (digits + tail)[..|digits|] == digits;
    assert s[start + |digits|] == ';';
    assert Numeric(s, start, hex) == Entity(|e|, c);
    assert s[0] == '&' && s[1] == '#';
    assert s[2] == if hex then 'x' else digits[0];
    assert IsDigit(digits[0], hex);
  }

  lemma EntityRead(e: string, c: char, rest: string)
    requires Writes(e, c) && e != [c]
    ensures e != [] && e[0] == '&' && EntityAt(e + rest) == Entity(|e|, c)
  {
    if e == "&amp;" && c == '&' {
      NamedRead(e, c, rest, 0);
    } else if e == "&lt;" && c == '<' {
      NamedRead(e, c, rest, 1);
    } else if e == "&gt;" && c == '>' {
      NamedRead(e, c, rest, 2);
    } else if e == "&quot;" && c == '"' {
      NamedRead(e, c, rest, 3);
    } else if e == "&apos;" && c == '\'' {
      NamedRead(e, c, rest, 4);
    } else {
      var digits, hex :| Reference(e, c, digits, hex);
      NumericRead(e, c, rest, digits, hex);
    }
  }

  lemma NamedRead(e: string, c: char, rest: string, i: nat)
    requires i < |NAMED| && NAMED[i] == (e, c)
    ensures e[0] == '&' && EntityAt(e + rest) == Entity(|e|, c)
  {
    var s := e + rest;
    assert s[0] == e[0] && s[1] == e[1] && s[2] == e[2];
    assert e <= s;
    if i == 0 {
    } else if i == 1 {
      assert Named(s, 0) == Named(s, 1);
    } else if i == 2 {
      assert Named(s, 0) == Named(s, 1) == Named(s, 2);
    } else if i == 3 {
      assert Named(s, 0) == Named(s, 1) == Named(s, 2) == Named(s, 3);
    } else {
      assert s[3] == e[3];
      assert Named(s, 0) == Named(s, 1) == Named(s, 2) == Named(s, 3) == Named(s, 4);
    }
  }

  /** Unescaping inverts every such escaping, literal entity text included. */
  lemma {:induction false} UnescapeInverts(escaped: seq<string>, text: string)
    requires Escapes(escaped, text)
    ensures Unescape(Flatten(escaped)) == Some(text)
  {
    if text != [] {
      var e, c, rest := escaped[0], text[0], Flatten(escaped[1..]);
      UnescapeInverts(escaped[1..], text[1..]);
      var s := e + rest;
      if e == [c] && c != '&' {
        assert s[1..] == rest;
      } else {
        EntityRead(e, c, rest);
        assert s[|e|..] == rest;
      }
      assert [c] + text[1..] == text;
    }
  }

  // ------------------------------------------------------------------- records

  const NAMES: seq<string> := ["player", "status", "title", "artist", "album"]
  const OPEN := "<mpris>"
  const CLOSE := "</mpris>"
  const LINE_END := "\n"

  function FieldText(name: string, text: string): string {
    "<" + name + ">" + text + "</" + name + ">"
  }

  /** The fields of a record, in the order of the follow format. */
  function Body(names: seq<string>, texts: seq<string>): string
    requires |names| == |texts|
  {
    if names == [] then "" else FieldText(names[0], texts[0]) + Body(names[1..], texts[1..])
  }

  function Record(texts: seq<string>): string
    requires |texts| == |NAMES|
  {
    OPEN + Body(NAMES, texts) + CLOSE
  }

  lemma BodyStep(name: string, text: string, names: seq<string>, texts: seq<string>)
    requires |names| == |texts|
    ensures Body([name] + names, [text] + texts) == "<" + name + ">" + text + "</" + name + ">" + Body(names, texts)
  {
    assert ([name] + names)[1..] == names && ([text] + texts)[1..] == texts;
  }

  /** The text of a record. */
  lemma RecordIs(player: string, status: string, title: string, artist: string, album: string)
    ensures Record([player, status, title, artist, album])
         == "<mpris>" + ("<" + "player" + ">" + player + "</" + "player" + ">"
            + ("<" + "status" + ">" + status + "</" + "status" + ">"
            + ("<" + "title" + ">" + title + "</" + "title" + ">"
            + ("<" + "artist" + ">" + artist + "</" + "artist" + ">"
            + ("<" + "album" + ">" + album + "</" + "album" + ">" + ""))))) + "</mpris>"
  {
    BodyStep("album", album, [], []);
    BodyStep("artist", artist, ["album"], [album]);
    BodyStep("title", title, ["artist", "album"], [artist, album]);
    BodyStep("status", status, ["title", "artist", "album"], [title, artist, album]);
    BodyStep("player", player, ["status", "title", "artist", "album"], [status, title, artist, album]);
    assert ["album"] + [] == ["album"] && [album] + [] == [album];
    assert ["artist"] + ["album"] == ["artist", "album"] && [artist] + [album] == [artist, album];
    assert ["title"] + ["artist", "album"] == ["title", "artist", "album"];
    assert [title] + [artist, album] == [title, artist, album];
    assert ["status"] + ["title", "artist", "album"] == ["status", "title", "artist", "album"];
    assert [status] + [title, artist, album] == [status, title, artist, album];
    assert ["player"] + ["status", "title", "artist", "album"] == NAMES;
    assert [player] + [status, title, artist, album] == [player, status, title, artist, album];
  }

  /** The longest prefix without a less-than sign. */
  function TextRun(s: string): (n: nat)
    ensures n <= |s| && (forall i :: 0 <= i < n ==> s[i] != '<') && (n < |s| ==> s[n] == '<')
  {
    if s == [] || s[0] == '<' then 0 else 1 + TextRun(s[1..])
  }

  function After(s: string, prefix: string): Option<string> {
    if prefix <= s then Some(s[|prefix|..]) else None
  }

  /** One field of the record pattern: its text, and what follows its closing tag. */
  function MatchField(s: string, name: string): Option<(string, string)> {
    match After(s, "<" + name + ">")
    case None => None
    case Some(inner) =>
      var n := TextRun(inner);
      match After(inner[n..], "</" + name + ">")
      case None => None
      case Some(rest) => Some((inner[..n], rest))
  }

  /** Every field's text, and what follows the last field. */
  function MatchFields(s: string, names: seq<string>): Option<(seq<string>, string)> {
    if names == [] then Some(([], s))
    else
      match MatchField(s, names[0])
      case None => None
      case Some((text, rest)) =>
        match MatchFields(rest, names[1..])
        case None => None
        case Some((texts, tail)) => Some(([text] + texts, tail))
  }

  function UnescapeAll(texts: seq<string>): Option<seq<string>> {
    if texts == [] then Some([])
    else
      match (Unescape(texts[0]), UnescapeAll(texts[1..]))
      case (Some(text), Some(rest)) => Some([text] + rest)
      case _ => None
  }

  /** A whole record, with or without its line end, back to its field values. */
  function DecodeRecord(record: string): Option<seq<string>> {
    match After(record, OPEN)
    case None => None
    case Some(inner) =>
      match MatchFields(inner, NAMES)
      case None => None
      case Some((texts, tail)) =>
        if tail == CLOSE || tail == CLOSE + LINE_END then UnescapeAll(texts) else None
  }

  // ------------------------------------------------------------------- framing

  /** The closing tag and its line end, at position `i`. */
  predicate TagAt(s: string, i: nat) {
    && i + 9 <= |s|
    && s[i] == '<' && s[i + 1] == '/' && s[i + 2] == 'm' && s[i + 3] == 'p' && s[i + 4] == 'r'
    && s[i + 5] == 'i' && s[i + 6] == 's' && s[i + 7] == '>' && s[i + 8] == '\n'
  }

  /** `endswith` of the closing tag. */
  predicate Closes(line: string) {
    |line| >= 9 && TagAt(line, |line| - 9)
  }

  /** The records a list of lines completes, and the bytes of an unfinished one. */
  function Frames(lines: seq<string>, pending: string): (seq<Option<string>>, string)
    decreases |lines|
  {
    if lines == [] then ([], pending)
    else if pending == [] && lines[0] == LINE_END then
      var (records, rest) := Frames(lines[1..], []);
      ([None] + records, rest)
    else if Closes(lines[0]) then
      var (records, rest) := Frames(lines[1..], []);
      ([Some(pending + lines[0])] + records, rest)
    else Frames(lines[1..], pending + lines[0])
  }

  /** The generator's loop; an incomplete final record is an error. */
  method FollowRecords(stream: string) returns (records: seq<Option<string>>, complete: bool)
    ensures records == Frames(StreamLines(stream, '\n'), []).0
    ensures complete <==> Frames(StreamLines(stream, '\n'), []).1 == []
  {
    var lines := StreamLines(stream, '\n');
    records := [];
    var pending: string := [];
    var i := 0;
    while i < |lines|
      invariant 0 <= i <= |lines|
      invariant Frames(lines, []).0 == records + Frames(lines[i..], pending).0
      invariant Frames(lines, []).1 == Frames(lines[i..], pending).1
    {
      var line := lines[i];
      ghost var later := Frames(lines[i..], pending);
      assert lines[i..][1..] == lines[i + 1..];
      i := i + 1;
      if pending == [] && line == LINE_END {
        ConcatAssoc(records, [None], Frames(lines[i..], []).0);
        records := records + [None];
        continue;
      }
      pending := pending + line;
      if Closes(line) {
        ConcatAssoc(records, [Some(pending)], Frames(lines[i..], []).0);
        records := records + [Some(pending)];
        pending := [];
      }
    }
    complete := pending == [];
  }

  /** What the player reports: no player, or five values with the way each was escaped. */
  datatype Message = NoPlayer | Metadata(values: seq<string>, escaped: seq<seq<string>>) {

    ghost predicate Valid() {
      Metadata? ==>
        && |values| == |escaped| == |NAMES|
        && forall i :: 0 <= i < |NAMES| ==> Escapes(escaped[i], values[i])
    }

    function Text(): string
      requires Metadata? ==> |escaped| == |NAMES|
    {
      if NoPlayer? then LINE_END else Record(FlattenAll(escaped)) + LINE_END
    }
  }

  function FlattenAll(escaped: seq<seq<string>>): (texts: seq<string>)
    ensures |texts| == |escaped|
    ensures forall i :: 0 <= i < |escaped| ==> texts[i] == Flatten(escaped[i])
  {
    if escaped == [] then [] else [Flatten(escaped[0])] + FlattenAll(escaped[1..])
  }

  ghost predicate AllValid(messages: seq<Message>) {
    forall i :: 0 <= i < |messages| ==> messages[i].Valid()
  }

  function Stream(messages: seq<Message>): string
    requires forall i :: 0 <= i < |messages| && messages[i].Metadata? ==> |messages[i].escaped| == |NAMES|
  {
    if messages == [] then "" else messages[0].Text() + Stream(messages[1..])
  }

  // ------------------------------------------------------------ matching back

  lemma {:induction false} EscapedHasNoTag(escaped: seq<string>, text: string)
    requires Escapes(escaped, text)
    ensures '<' !in Flatten(escaped)
  {
    if text != [] {
      assert Writes(escaped[0], text[0]);
      EscapedHasNoTag(escaped[1..], text[1..]);
      assert '<' !in escaped[0];
    }
  }

  lemma TextRunStops(text: string, rest: string)
    requires '<' !in text && rest != [] && rest[0] == '<'
    ensures TextRun(text + rest) == |text|
  {
    var s := text + rest;
    assert forall i :: 0 <= i < |text| ==> s[i] == text[i];
    assert s[|text|] == '<';
  }

  lemma AfterPrefix(prefix: string, rest: string)
    ensures After(prefix + rest, prefix) == Some(rest)
  {
    assert (prefix + rest)[|prefix|..] == rest;
  }

  lemma MatchFieldInverts(name: string, text: string, rest: string)
    requires '<' !in text
    ensures MatchField(FieldText(name, text) + rest, name) == Some((text, rest))
  {
    var open, close := "<" + name + ">", "</" + name + ">";
    var inner := text + (close + rest);
    assert FieldText(name, text) + rest == open + inner;
    AfterPrefix(open, inner);
    TextRunStops(text, close + rest);
    assert inner[|text|..] == close + rest;
    AfterPrefix(close, rest);
    assert inner[..|text|] == text;
  }

  lemma {:induction false} MatchInverts(names: seq<string>, texts: seq<string>, tail: string)
    requires |names| == |texts| && forall i :: 0 <= i < |texts| ==> '<' !in texts[i]
    ensures MatchFields(Body(names, texts) + tail, names) == Some((texts, tail))
  {
    if names == [] {
      assert "" + tail == tail;
    } else {
      var more := Body(names[1..], texts[1..]);
      MatchInverts(names[1..], texts[1..], tail);
      MatchFieldInverts(names[0], texts[0], more + tail);
      ConcatAssoc(FieldText(names[0], texts[0]), more, tail);
      assert [texts[0]] + texts[1..] == texts;
    }
  }

  lemma {:induction false} UnescapeAllInverts(escaped: seq<seq<string>>, values: seq<string>)
    requires |escaped| == |values| && forall i :: 0 <= i < |values| ==> Escapes(escaped[i], values[i])
    ensures UnescapeAll(FlattenAll(escaped)) == Some(values)
  {
    if values != [] {
      UnescapeInverts(escaped[0], values[0]);
      UnescapeAllInverts(escaped[1..], values[1..]);
      assert FlattenAll(escaped)[1..] == FlattenAll(escaped[1..]);
      assert [values[0]] + values[1..] == values;
    }
  }

  /** Matching and unescaping one framed record returns its field values. */
  lemma DecodeInverts(message: Message)
    requires message.Valid() && message.Metadata?
    ensures DecodeRecord(message.Text()) == Some(message.values)
  {
    var texts := FlattenAll(message.escaped);
    forall i | 0 <= i < |texts| ensures '<' !in texts[i] {
      EscapedHasNoTag(message.escaped[i], message.values[i]);
    }
    var inner := Body(NAMES, texts) + (CLOSE + LINE_END);
    assert message.Text() == OPEN + inner;
    AfterPrefix(OPEN, inner);
    MatchInverts(NAMES, texts, CLOSE + LINE_END);
    UnescapeAllInverts(message.escaped, message.values);
  }

  // --------------------------------------------------------------- boundaries

  /** The start of the closing tag, the only tag with these three characters. */
  predicate Mark(s: string, i: nat) {
    i + 3 <= |s| && s[i] == '<' && s[i + 1] == '/' && s[i + 2] == 'm'
  }

  /** No field, whatever its text, supplies the record boundary. */
  lemma {:induction false} BodyHasNoMark(names: seq<string>, texts: seq<string>, tail: string, i: nat)
    requires |names| == |texts| && forall j :: 0 <= j < |texts| ==> '<' !in texts[j]
    requires forall j :: 0 <= j < |names| ==>
      names[j] != [] && names[j][0] != '/' && names[j][0] != 'm' && '<' !in names[j]
    requires i < |Body(names, texts)|
    ensures !Mark(Body(names, texts) + tail, i)
  {
    var field, more := FieldText(names[0], texts[0]), Body(names[1..], texts[1..]);
    var s := Body(names, texts) + tail;
    assert s == field + (more + tail);
    if i >= |field| {
      BodyHasNoMark(names[1..], texts[1..], tail, i - |field|);
      assert forall k :: 0 <= k < |more + tail| ==> s[|field| + k] == (more + tail)[k];
    } else {
      var n, t := |names[0]|, |texts[0]|;
      assert s[i] == field[i];
      if 0 < i < 1 + n {
        assert field[i] == names[0][i - 1];
      } else if 2 + n <= i < 2 + n + t {
        assert field[i] == texts[0][i - 2 - n];
      } else if 4 + n + t <= i < 4 + n + t + n {
        assert field[i] == names[0][i - 4 - n - t];
      }
      if i == 0 {
        assert s[1] == field[1] == names[0][0];
      } else if i == 2 + n + t {
        assert s[i + 2] == field[i + 2] == names[0][0];
      }
    }
  }

  lemma OpenAddsNoMark(body: string, i: nat)
    requires forall j :: 0 <= j < |body| ==> !Mark(body + (CLOSE + LINE_END), j)
    requires i < |OPEN| + |body|
    ensures !Mark(OPEN + body + CLOSE + LINE_END, i)
  {
    var inner := body + (CLOSE + LINE_END);
    var s := OPEN + inner;
    assert OPEN + body + CLOSE + LINE_END == s;
    if i < |OPEN| {
      assert s[i] == OPEN[i] && s[1] == 'm';
    } else {
      assert !Mark(inner, i - |OPEN|);
    }
  }

  lemma BodyIsFramed(body: string)
    requires forall j :: 0 <= j < |body| ==> !Mark(body + (CLOSE + LINE_END), j)
    ensures Framed(OPEN + body + CLOSE + LINE_END)
  {
    var front := OPEN + body;
    var s := front + CLOSE + LINE_END;
    assert s == front + (CLOSE + LINE_END);
    assert TagAt(s, |front|);
    forall i: nat | i < |s| - 9 ensures !Mark(s, i) {
      OpenAddsNoMark(body, i);
    }
  }

  /** A record and its line end: closed at the end and nowhere before. */
  ghost predicate Framed(s: string) {
    Closes(s) && forall i: nat :: i < |s| - 9 ==> !Mark(s, i)
  }

  lemma NoBreakInTag(s: string, i: nat, k: nat)
    requires TagAt(s, i) && i <= k < i + 8
    ensures s[k] != '\n'
  {
    var d := k - i;
    assert d == 0 || d == 1 || d == 2 || d == 3 || d == 4 || d == 5 || d == 6 || d == 7;
  }

  lemma FirstLineOfRecord(s: string)
    requires Framed(s)
    ensures var n := LineLength(s, '\n'); n < |s| ==> !Closes(s[..n]) && Framed(s[n..])
  {
    var n := LineLength(s, '\n');
    if n < |s| {
      if |s| - 9 <= n - 1 {
        NoBreakInTag(s, |s| - 9, n - 1);
      }
      assert n <= |s| - 9;
      RestIsFramed(s, n);
      if n >= 9 {
        assert !Mark(s, n - 9);
      }
    }
  }

  lemma RestIsFramed(s: string, n: nat)
    requires Framed(s) && n <= |s| - 9
    ensures Framed(s[n..])
  {
    var rest := s[n..];
    assert TagAt(rest, |rest| - 9) == TagAt(s, |s| - 9);
    forall i: nat | i < |rest| - 9 ensures !Mark(rest, i) {
      assert !Mark(s, n + i);
    }
  }

  /** A record is framed whole: its own line breaks do not end it, and its closing tag does. */
  lemma {:induction false} FrameRecord(s: string, more: seq<string>, pending: string)
    requires Framed(s) && (pending != [] || s[0] != '\n')
    ensures Frames(StreamLines(s, '\n') + more, pending)
         == ([Some(pending + s)] + Frames(more, []).0, Frames(more, []).1)
    decreases |s|
  {
    var n := LineLength(s, '\n');
    var line, rest := s[..n], s[n..];
    FirstLineOfRecord(s);
    ConcatAssoc([line], StreamLines(rest, '\n'), more);
    FrameStep(line, StreamLines(rest, '\n') + more, pending);
    assert line[0] == s[0];
    if n == |s| {
      assert line == s;
      assert StreamLines(rest, '\n') + more == more;
    } else {
      FrameRecord(rest, more, pending + line);
      Rejoin(pending, s, n);
    }
  }

  lemma Rejoin<T>(before: seq<T>, s: seq<T>, n: nat)
    requires n <= |s|
    ensures (before + s[..n]) + s[n..] == before + s
  {}

  lemma FrameStep(line: string, more: seq<string>, pending: string)
    requires pending != [] || line != LINE_END
    ensures Frames([line] + more, pending)
         == if Closes(line) then ([Some(pending + line)] + Frames(more, []).0, Frames(more, []).1)
            else Frames(more, pending + line)
  {
    assert ([line] + more)[1..] == more;
  }

  lemma MessageIsFramed(message: Message)
    requires message.Valid() && message.Metadata?
    ensures Framed(message.Text()) && message.Text()[0] == '<'
  {
    var texts, s := FlattenAll(message.escaped), message.Text();
    forall i | 0 <= i < |texts| ensures '<' !in texts[i] {
      EscapedHasNoTag(message.escaped[i], message.values[i]);
    }
    var body := Body(NAMES, texts);
    forall j | 0 <= j < |body| ensures !Mark(body + (CLOSE + LINE_END), j) {
      BodyHasNoMark(NAMES, texts, CLOSE + LINE_END, j);
    }
    BodyIsFramed(body);
    assert s[0] == OPEN[0];
  }

  lemma NoPlayerLine()
    ensures StreamLines(LINE_END, '\n') == [LINE_END]
  {
    assert LINE_END[..1] == LINE_END && LINE_END[1..] == [];
  }

  lemma FrameMessage(message: Message, more: string)
    requires message.Valid()
    ensures Frames(StreamLines(message.Text() + more, '\n'), [])
         == ([if message.NoPlayer? then None else Some(message.Text())] + Frames(StreamLines(more, '\n'), []).0,
             Frames(StreamLines(more, '\n'), []).1)
  {
    var s := message.Text();
    StreamLinesConcat(s, more, '\n');
    if message.NoPlayer? {
      NoPlayerLine();
      assert ([s] + StreamLines(more, '\n'))[1..] == StreamLines(more, '\n');
    } else {
      MessageIsFramed(message);
      FrameRecord(s, StreamLines(more, '\n'), []);
      assert [] + s == s;
    }
  }

  /** A framed record, matched and unescaped, is the message. */
  predicate Decoded(record: Option<string>, message: Message) {
    match message
    case NoPlayer => record == None
    case Metadata(values, _) => record.Some? && DecodeRecord(record.value) == Some(values)
  }

  /** Splitting the stream and matching each record returns exactly the messages, in order. */
  lemma {:induction false} RoundTrip(messages: seq<Message>)
    requires AllValid(messages)
    ensures var (records, rest) := Frames(StreamLines(Stream(messages), '\n'), []);
            && rest == [] && |records| == |messages|
            && forall i :: 0 <= i < |messages| ==> Decoded(records[i], messages[i])
  {
    if messages != [] {
      RoundTrip(messages[1..]);
      FrameMessage(messages[0], Stream(messages[1..]));
      if messages[0].Metadata? {
        DecodeInverts(messages[0]);
      }
      var later := Frames(StreamLines(Stream(messages[1..]), '\n'), []).0;
      forall i | 0 < i < |messages| ensures Decoded(later[i - 1], messages[i]) {
        assert messages[i] == messages[1..][i - 1];
      }
    }
  }
}
