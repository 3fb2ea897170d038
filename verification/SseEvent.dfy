/** One event block of a stream: its lines, its event type and its data payload. */
module SseEvent {
  import opened SseFraming

  const COLON: Byte := 58
  const SPACE: Byte := 32
  const EVENT: seq<Byte> := [101, 118, 101, 110, 116, 58]
  const DATA_NAME: seq<Byte> := [100, 97, 116, 97]
  const DATA: seq<Byte> := [100, 97, 116, 97, 58]
  const DONE: seq<Byte> := [91, 68, 79, 78, 69, 93]

  // ----- White space, as the byte library trims it: Unicode white space in UTF-8

  predicate IsSpace1(a: Byte) {
    9 <= a <= 13 || a == 32
  }

  predicate IsSpace2(a: Byte, b: Byte) {
    a == 0xC2 && (b == 0x85 || b == 0xA0)
  }

  predicate IsSpace3(a: Byte, b: Byte, c: Byte) {
    || (a == 0xE1 && b == 0x9A && c == 0x80)
    || (a == 0xE2 && b == 0x80 && (0x80 <= c <= 0x8A || c == 0xA8 || c == 0xA9 || c == 0xAF))
    || (a == 0xE2 && b == 0x81 && c == 0x9F)
    || (a == 0xE3 && b == 0x80 && c == 0x80)
  }

  /** Length of the white-space character that `s` starts with, or 0. */
  function Leading(s: seq<Byte>): (n: nat)
    ensures n <= |s|
  {
    if |s| >= 1 && IsSpace1(s[0]) then 1
    else if |s| >= 2 && IsSpace2(s[0], s[1]) then 2
    else if |s| >= 3 && IsSpace3(s[0], s[1], s[2]) then 3
    else 0
  }

  /** Length of the white-space character that `s` ends with, or 0. */
  function Trailing(s: seq<Byte>): (n: nat)
    ensures n <= |s|
  {
    var k := |s|;
    if k >= 1 && IsSpace1(s[k - 1]) then 1
    else if k >= 2 && IsSpace2(s[k - 2], s[k - 1]) then 2
    else if k >= 3 && IsSpace3(s[k - 3], s[k - 2], s[k - 1]) then 3
    else 0
  }

  function TrimLeft(s: seq<Byte>): (r: seq<Byte>)
    ensures |r| <= |s| && r == s[|s| - |r|..] && Leading(r) == 0
  {
    if Leading(s) == 0 then s else TrimLeft(s[Leading(s)..])
  }

  function TrimRight(s: seq<Byte>): (r: seq<Byte>)
    ensures |r| <= |s| && r == s[..|r|] && Trailing(r) == 0
  {
    if Trailing(s) == 0 then s else TrimRight(s[..|s| - Trailing(s)])
  }

  function TrimSpace(s: seq<Byte>): (r: seq<Byte>)
    ensures forall b :: b in r ==> b in s
  {
    TrimRight(TrimLeft(s))
  }

  /** UTF-8 of a code point of the basic plane. */
  function Utf8(cp: int): seq<Byte>
    requires 0 <= cp < 0x10000
  {
    if cp < 0x80 then [cp]
    else if cp < 0x800 then [0xC0 + cp / 64, 0x80 + cp % 64]
    else [0xE0 + cp / 4096, 0x80 + cp / 64 % 64, 0x80 + cp % 64]
  }

  /** The code points that Unicode calls white space. */
  predicate IsWhite(cp: int) {
    || 0x09 <= cp <= 0x0D || cp == 0x20 || cp == 0x85 || cp == 0xA0 || cp == 0x1680 || 0x2000 <= cp <= 0x200A
    || cp == 0x2028 || cp == 0x2029 || cp == 0x202F || cp == 0x205F || cp == 0x3000
  }

  /** The byte patterns are the white space of Unicode, at either end. */
  lemma WhiteCharacters(cp: int)
    requires 0 <= cp < 0x10000
    ensures Leading(Utf8(cp)) == Trailing(Utf8(cp)) == if IsWhite(cp) then |Utf8(cp)| else 0
  {
    if cp >= 0x800 {
      var a, b, c := cp / 4096, cp / 64 % 64, cp % 64;
      assert cp == 4096 * a + 64 * b + c;
    }
  }

  /** Neither starts nor ends with white space. */
  predicate Plain(v: seq<Byte>) {
    Leading(v) == 0 && Trailing(v) == 0
  }

  lemma TrimPlain(v: seq<Byte>)
    ensures TrimSpace(v) == v <==> Plain(v)
  {
    hide Leading, Trailing;
    var left := TrimLeft(v);
    assert |left| == |v| ==> left == v[0..] == v;
  }

  // ----- The code: fields of a block

  datatype Fields = Fields(eventType: seq<Byte>, payload: seq<Byte>)

  function SplitLines(raw: seq<Byte>): (lines: seq<seq<Byte>>)
    ensures |lines| >= 1
    ensures forall i :: 0 <= i < |lines| ==> LF !in lines[i]
  {
    if raw == [] then [[]]
    else
      var rest := SplitLines(raw[1..]);
      if raw[0] == LF then [[]] + rest else [[raw[0]] + rest[0]] + rest[1..]
  }

  function TrimRightCr(line: seq<Byte>): (r: seq<Byte>)
    ensures |r| <= |line| && r == line[..|r|] && (r != [] ==> r[|r| - 1] != CR)
    ensures forall i :: |r| <= i < |line| ==> line[i] == CR
  {
    if line != [] && line[|line| - 1] == CR then TrimRightCr(line[..|line| - 1]) else line
  }

  function ScanLine(f: Fields, rawLine: seq<Byte>): Fields {
    var line := TrimRightCr(rawLine);
    if EVENT <= line then f.(eventType := TrimSpace(line[|EVENT|..]))
    else if DATA <= line then
      f.(payload := (if |f.payload| > 0 then f.payload + [LF] else f.payload) + TrimSpace(line[|DATA|..]))
    else f
  }

  function ScanLines(lines: seq<seq<Byte>>): Fields {
    if lines == [] then Fields([], [])
    else ScanLine(ScanLines(lines[..|lines| - 1]), lines[|lines| - 1])
  }

  /** The loop over the lines of a block. */
  method ScanBlock(raw: seq<Byte>) returns (eventType: seq<Byte>, dataPayload: seq<Byte>)
    ensures Fields(eventType, dataPayload) == ScanLines(SplitLines(raw))
  {
    hide TrimSpace, TrimRightCr, SplitLines;
    eventType, dataPayload := [], [];
    var lines := SplitLines(raw);
    for i := 0 to |lines|
      invariant Fields(eventType, dataPayload) == ScanLines(lines[..i])
    {
      assert lines[..i + 1][..i] == lines[..i];
      var line := TrimRightCr(lines[i]);
      if EVENT <= line {
        eventType := TrimSpace(line[|EVENT|..]);
      } else if DATA <= line {
        if |dataPayload| > 0 {
          dataPayload := dataPayload + [LF];
        }
        dataPayload := dataPayload + TrimSpace(line[|DATA|..]);
      }
    }
    assert lines[..|lines|] == lines;
  }

  /** The trimmed value of a `data:` line, nothing for any other line. */
  function DataOf(rawLine: seq<Byte>): seq<seq<Byte>> {
    var line := TrimRightCr(rawLine);
    if DATA <= line then [TrimSpace(line[|DATA|..])] else []
  }

  /** What all lines give, in order, when each gives `f` of it. */
  function FlatMap(f: seq<Byte> -> seq<seq<Byte>>, lines: seq<seq<Byte>>): seq<seq<Byte>> {
    if lines == [] then [] else FlatMap(f, lines[..|lines| - 1]) + f(lines[|lines| - 1])
  }

  /** The trimmed values of the `data:` lines, in order. */
  function DataValues(lines: seq<seq<Byte>>): seq<seq<Byte>> {
    FlatMap(DataOf, lines)
  }

  /** Values joined by LF. */
  function Join(values: seq<seq<Byte>>): seq<Byte> {
    if values == [] then []
    else if |values| == 1 then values[0]
    else Join(values[..|values| - 1]) + [LF] + values[|values| - 1]
  }

  function DropLeadingEmpty(values: seq<seq<Byte>>): seq<seq<Byte>> {
    if values != [] && values[0] == [] then DropLeadingEmpty(values[1..]) else values
  }

  lemma {:induction false} DropLeadingEmptyAppend(vs: seq<seq<Byte>>, d: seq<Byte>)
    ensures DropLeadingEmpty(vs) != [] ==> DropLeadingEmpty(vs + [d]) == DropLeadingEmpty(vs) + [d]
    ensures DropLeadingEmpty(vs) == [] ==> DropLeadingEmpty(vs + [d]) == if d == [] then [] else [d]
    ensures DropLeadingEmpty(vs) != [] ==> DropLeadingEmpty(vs)[0] != []
  {
    if vs == [] {
      assert [d][1..] == [];
    } else if vs[0] == [] {
      DropLeadingEmptyAppend(vs[1..], d);
      assert (vs + [d])[1..] == vs[1..] + [d];
    }
  }

  lemma JoinNonempty(vs: seq<seq<Byte>>)
    requires vs != [] && (vs[0] != [] || |vs| >= 2)
    ensures Join(vs) != []
  {
  }

  lemma JoinAppend(vs: seq<seq<Byte>>, d: seq<Byte>)
    ensures Join(vs + [d]) == if vs == [] then d else Join(vs) + [LF] + d
  {
    assert (vs + [d])[..|vs|] == vs;
  }

  /** The payload is the join of the data values after the leading empty ones. */
  lemma {:induction false} PayloadMeaning(lines: seq<seq<Byte>>)
    ensures ScanLines(lines).payload == Join(DropLeadingEmpty(DataValues(lines)))
  {
    if lines != [] {
      hide TrimRightCr, TrimSpace;
      var init, line := lines[..|lines| - 1], TrimRightCr(lines[|lines| - 1]);
      PayloadMeaning(init);
      if DATA <= line {
        assert !(EVENT <= line) by { assert EVENT[0] != DATA[0]; }
        var vs, d := DataValues(init), TrimSpace(line[|DATA|..]);
        DropLeadingEmptyAppend(vs, d);
        var kept := DropLeadingEmpty(vs);
        if kept != [] {
          JoinNonempty(kept);
          JoinAppend(kept, d);
        }
      } else {
        assert DataValues(lines) == DataValues(init);
      }
    }
  }

  // ----- What the code reads, without its own scan

  /** The bytes of a text of one-byte characters. */
  function Ascii(text: string): seq<Byte> {
    seq(|text|, i requires 0 <= i < |text| => text[i] as int % 256)
  }

  lemma FieldNames()
    ensures EVENT == Ascii("event:") && DATA == Ascii("data:") && DATA_NAME == Ascii("data")
    ensures DONE == Ascii("[DONE]")
  {
  }

  /** The lines of a block, joined by LF again, are the block. */
  lemma {:induction false} SplitLinesJoin(raw: seq<Byte>)
    ensures Join(SplitLines(raw)) == raw
  {
    if raw != [] {
      var rest := SplitLines(raw[1..]);
      SplitLinesJoin(raw[1..]);
      assert raw == [raw[0]] + raw[1..];
      if raw[0] == LF {
        JoinFirst([], rest);
        assert [] + [LF] + raw[1..] == [LF] + raw[1..];
      } else {
        JoinPrefix(raw[0], rest);
      }
    }
    hide Join;
  }

  lemma {:induction false} JoinFirst(v: seq<Byte>, vs: seq<seq<Byte>>)
    requires vs != []
    ensures Join([v] + vs) == v + [LF] + Join(vs)
  {
    hide *;
    var n := |vs| - 1;
    var init, d := vs[..n], vs[n];
    assert vs == init + [d] && [v] + vs == ([v] + init) + [d];
    JoinAppend(init, d);
    JoinAppend([v] + init, d);
    if n > 0 {
      JoinFirst(v, init);
      assert v + [LF] + Join(init) + [LF] + d == v + [LF] + (Join(init) + [LF] + d);
    } else {
      assert [v] + init == [v];
      JoinOne(v);
    }
  }

  lemma JoinOne(v: seq<Byte>)
    ensures Join([v]) == v
  {
  }

  lemma {:induction false} JoinPrefix(b: Byte, vs: seq<seq<Byte>>)
    requires vs != []
    ensures Join([[b] + vs[0]] + vs[1..]) == [b] + Join(vs)
  {
    hide *;
    var n := |vs| - 1;
    if n > 0 {
      var init, d := vs[..n], vs[n];
      var us := [[b] + init[0]] + init[1..];
      JoinPrefix(b, init);
      JoinAppend(init, d);
      JoinAppend(us, d);
      assert vs == init + [d] && [[b] + vs[0]] + vs[1..] == us + [d];
      assert [b] + Join(init) + [LF] + d == [b] + (Join(init) + [LF] + d);
    } else {
      assert vs == [vs[0]] && [[b] + vs[0]] + vs[1..] == [[b] + vs[0]];
      JoinOne(vs[0]);
      JoinOne([b] + vs[0]);
    }
  }

  /** The text after the field name, trimmed, if the line starts with the field name. */
  predicate HasField(rawLine: seq<Byte>, name: seq<Byte>, value: seq<Byte>) {
    var line := TrimRightCr(rawLine);
    name <= line && value == TrimSpace(line[|name|..])
  }

  predicate LacksField(rawLine: seq<Byte>, name: seq<Byte>) {
    !(name <= TrimRightCr(rawLine))
  }

  /** The value of the last `event:` line, or nothing if there is none. */
  ghost predicate IsEventType(lines: seq<seq<Byte>>, value: seq<Byte>) {
    || (value == [] && forall i :: 0 <= i < |lines| ==> LacksField(lines[i], Ascii("event:")))
    || exists k ::
         && 0 <= k < |lines| && HasField(lines[k], Ascii("event:"), value)
         && forall i :: k < i < |lines| ==> LacksField(lines[i], Ascii("event:"))
  }

  lemma {:induction false} EventTypeMeaning(lines: seq<seq<Byte>>)
    ensures IsEventType(lines, ScanLines(lines).eventType)
  {
    hide *;
    if lines == [] {
      NoEventType();
    } else {
      var n := |lines| - 1;
      EventTypeMeaning(lines[..n]);
      EventTypeSnoc(lines[..n], lines[n], ScanLines(lines[..n]).eventType);
      EventTypeStep(lines);
      assert lines[..n] + [lines[n]] == lines;
    }
  }

  lemma NoEventType()
    ensures IsEventType([], ScanLines([]).eventType)
  {
  }

  lemma {:induction false} EventTypeStep(lines: seq<seq<Byte>>)
    requires lines != []
    ensures var n := |lines| - 1;
            if LacksField(lines[n], Ascii("event:")) then ScanLines(lines).eventType == ScanLines(lines[..n]).eventType
            else HasField(lines[n], Ascii("event:"), ScanLines(lines).eventType)
  {
    FieldNames();
    hide TrimRightCr, TrimSpace;
  }

  lemma EventTypeSnoc(lines: seq<seq<Byte>>, line: seq<Byte>, value: seq<Byte>)
    requires IsEventType(lines, value)
    ensures LacksField(line, Ascii("event:")) ==> IsEventType(lines + [line], value)
    ensures forall v :: HasField(line, Ascii("event:"), v) ==> IsEventType(lines + [line], v)
  {
    hide HasField, LacksField;
    var all := lines + [line];
    assert forall i :: 0 <= i < |lines| ==> all[i] == lines[i];
    assert all[|lines|] == line;
    if k :| && 0 <= k < |lines| && HasField(lines[k], Ascii("event:"), value)
            && forall i :: k < i < |lines| ==> LacksField(lines[i], Ascii("event:")) {
      assert HasField(all[k], Ascii("event:"), value);
    }
    forall v | HasField(line, Ascii("event:"), v)
      ensures IsEventType(all, v)
    {
      assert HasField(all[|lines|], Ascii("event:"), v);
    }
  }
}
