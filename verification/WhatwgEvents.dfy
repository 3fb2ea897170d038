/** The events of a block to section 9.2.6 of the WHATWG HTML Living Standard, and when they
    are what the stream interceptor reads. */
module WhatwgEvents {
  import opened SseFraming
  import opened SseEvent

  // ----- The standard: fields of the same lines

  /** A line without its line end, which is LF or CR LF (the LF is already gone). */
  function WithoutEnd(rawLine: seq<Byte>): seq<Byte> {
    if rawLine != [] && rawLine[|rawLine| - 1] == CR then rawLine[..|rawLine| - 1] else rawLine
  }

  /** Index of the first colon, or the length. */
  function FirstColon(line: seq<Byte>): (k: nat)
    ensures k <= |line| && (k < |line| ==> line[k] == COLON)
    ensures forall i :: 0 <= i < k ==> line[i] != COLON
  {
    if line == [] || line[0] == COLON then 0 else 1 + FirstColon(line[1..])
  }

  function WithoutSpace(v: seq<Byte>): seq<Byte> {
    if v != [] && v[0] == SPACE then v[1..] else v
  }

  /** The field name is what precedes the first colon, or the whole line. */
  function FieldName(line: seq<Byte>): seq<Byte> {
    line[..FirstColon(line)]
  }

  /** The field value is what follows the colon, less one leading space. */
  function FieldValue(line: seq<Byte>): seq<Byte> {
    var k := FirstColon(line);
    if k == |line| then [] else WithoutSpace(line[k + 1..])
  }

  function StandardOf(line: seq<Byte>): seq<seq<Byte>> {
    if FieldName(line) == DATA_NAME then [FieldValue(line)] else []
  }

  function StandardOfRaw(rawLine: seq<Byte>): seq<seq<Byte>> {
    StandardOf(WithoutEnd(rawLine))
  }

  function StandardValues(lines: seq<seq<Byte>>): seq<seq<Byte>> {
    FlatMap(StandardOfRaw, lines)
  }

  /** The data buffer: each value followed by an LF. */
  function DataBuffer(values: seq<seq<Byte>>): seq<Byte> {
    if values == [] then [] else DataBuffer(values[..|values| - 1]) + values[|values| - 1] + [LF]
  }

  /** An event is dispatched unless its data buffer is empty; its data is the buffer without
      the last LF. So an empty value makes an event with empty data. */
  function Dispatch(values: seq<seq<Byte>>): seq<seq<Byte>> {
    var buffer := DataBuffer(values);
    if buffer == [] then [] else [buffer[..|buffer| - 1]]
  }

  lemma {:induction false} DispatchIsJoin(values: seq<seq<Byte>>)
    ensures values != [] ==> DataBuffer(values) == Join(values) + [LF]
    ensures Dispatch(values) == if values == [] then [] else [Join(values)]
  {
    if |values| >= 2 {
      DispatchIsJoin(values[..|values| - 1]);
    } else if |values| == 1 {
      assert values[..0] == [] && DataBuffer(values[..0]) == [];
    }
  }

  /** The data of the events that the standard dispatches for the lines and a final blank
      line: `open` are the values of the event so far. */
  function StandardEvents(lines: seq<seq<Byte>>, open: seq<seq<Byte>>): seq<seq<Byte>>
    decreases |lines|
  {
    if lines == [] then Dispatch(open)
    else
      var line := WithoutEnd(lines[0]);
      if line == [] then Dispatch(open) + StandardEvents(lines[1..], [])
      else StandardEvents(lines[1..], open + StandardOf(line))
  }

  /** The data of the event that the code reads from a block, if any (what it hands to the
      provider's parser, but for the end marker that some providers send). */
  function CodeEvents(lines: seq<seq<Byte>>): seq<seq<Byte>> {
    var payload := ScanLines(lines).payload;
    if payload == [] then [] else [payload]
  }

  predicate HasData(rawLine: seq<Byte>) {
    StandardOf(WithoutEnd(rawLine)) != []
  }

  ghost predicate ProperLines(lines: seq<seq<Byte>>) {
    forall i :: 0 <= i < |lines| ==> CR !in WithoutEnd(lines[i]) && LF !in lines[i]
  }

  // ----- Splitting at LF

  lemma LastPart(x: seq<Byte>, p: seq<Byte>, y: seq<Byte>, q: seq<Byte>)
    requires LF !in p && LF !in q && x + [LF] + p == y + [LF] + q
    ensures x == y && p == q
  {
    var s := x + [LF] + p;
    assert s[|x|] == LF && s[|y|] == LF;
    assert forall i :: |x| < i < |s| ==> s[i] == p[i - |x| - 1] != LF;
    assert forall i :: |y| < i < |s| ==> s[i] == q[i - |y| - 1] != LF;
    assert |x| == |y|;
    assert x == s[..|x|] && y == s[..|y|] && p == s[|x| + 1..] && q == s[|y| + 1..];
  }

  predicate NoLf(vs: seq<seq<Byte>>) {
    forall i :: 0 <= i < |vs| ==> LF !in vs[i]
  }

  /** Joining loses nothing. */
  lemma JoinHasLf(a: seq<seq<Byte>>)
    requires a != [] && NoLf(a)
    ensures |a| >= 2 <==> LF in Join(a)
  {
    if |a| >= 2 {
      assert (Join(a[..|a| - 1]) + [LF] + a[|a| - 1])[|Join(a[..|a| - 1])|] == LF;
    }
  }

  lemma {:induction false} JoinInjective(a: seq<seq<Byte>>, b: seq<seq<Byte>>)
    requires a != [] && b != [] && NoLf(a) && NoLf(b) && Join(a) == Join(b)
    ensures a == b
  {
    JoinHasLf(a);
    JoinHasLf(b);
    if |a| >= 2 {
      var a0, b0 := a[..|a| - 1], b[..|b| - 1];
      LastPart(Join(a0), a[|a| - 1], Join(b0), b[|b| - 1]);
      JoinInjective(a0, b0);
      assert a == a0 + [a[|a| - 1]] && b == b0 + [b[|b| - 1]];
    }
  }

  // ----- When the two agree

  predicate PlainLine(rawLine: seq<Byte>) {
    var line := WithoutEnd(rawLine);
    DATA <= line ==> Plain(WithoutSpace(line[|DATA|..]))
  }

  predicate BareLine(rawLine: seq<Byte>) {
    WithoutEnd(rawLine) == DATA_NAME
  }

  lemma LineEnds(rawLine: seq<Byte>)
    requires CR !in WithoutEnd(rawLine)
    ensures TrimRightCr(rawLine) == WithoutEnd(rawLine)
  {
  }

  lemma NameIsData(line: seq<Byte>)
    ensures FieldName(line) == DATA_NAME <==> DATA <= line || line == DATA_NAME
    ensures DATA <= line ==> FieldValue(line) == WithoutSpace(line[|DATA|..])
    ensures line == DATA_NAME ==> FieldValue(line) == []
  {
    var k := FirstColon(line);
    assert DATA_NAME <= line ==> forall i :: 0 <= i < 4 ==> line[i] == DATA_NAME[i] != COLON;
    assert DATA <= line ==> line[4] == DATA[4] && line[..4] == DATA[..4] == DATA_NAME;
    assert DATA <= line || line == DATA_NAME ==> k == 4;
    assert line[..k] == DATA_NAME && k < |line| ==> line[..k + 1] == DATA_NAME + [COLON] == DATA;
    assert line[..k] == DATA_NAME && k == |line| ==> line == DATA_NAME;
  }

  lemma TrimWithoutSpace(v: seq<Byte>)
    ensures TrimSpace(v) == TrimSpace(WithoutSpace(v))
    ensures TrimSpace(v) == WithoutSpace(v) <==> Plain(WithoutSpace(v))
  {
    TrimPlain(WithoutSpace(v));
  }

  /** What a line gives the code, `ts`, and the standard, `vs`. */
  ghost predicate LineFacts(rawLine: seq<Byte>, ts: seq<seq<Byte>>, vs: seq<seq<Byte>>) {
    && |ts| <= |vs|
    && (ts == vs <==> PlainLine(rawLine) && !BareLine(rawLine))
    && (|ts| == |vs| <==> !BareLine(rawLine))
    && (ts == [] ==> PlainLine(rawLine) && forall v :: v in vs ==> v == [])
    && NoLf(ts) && NoLf(vs)
  }

  lemma DataLine(rawLine: seq<Byte>, line: seq<Byte>)
    requires line == WithoutEnd(rawLine) == TrimRightCr(rawLine) && LF !in rawLine && DATA <= line
    requires FieldName(line) == DATA_NAME && FieldValue(line) == WithoutSpace(line[|DATA|..])
    ensures LineFacts(rawLine, DataOf(rawLine), StandardOf(line))
  {
    var v := line[|DATA|..];
    TrimWithoutSpace(v);
    NoLfWithin(rawLine, line, v);
    hide TrimSpace, Plain, TrimRightCr, WithoutEnd, WithoutSpace, FieldName, FieldValue, LineFacts;
    assert !BareLine(rawLine);
    assert PlainLine(rawLine) <==> Plain(WithoutSpace(v));
    SingleFacts(rawLine, TrimSpace(v), WithoutSpace(v));
  }

  lemma SingleFacts(rawLine: seq<Byte>, t: seq<Byte>, v: seq<Byte>)
    requires LF !in t && LF !in v && (t == v <==> PlainLine(rawLine)) && !BareLine(rawLine)
    ensures LineFacts(rawLine, [t], [v])
  {
    hide PlainLine, BareLine;
    assert [t] == [v] <==> t == v;
  }

  lemma NoLfWithin(rawLine: seq<Byte>, line: seq<Byte>, v: seq<Byte>)
    requires line == WithoutEnd(rawLine) && LF !in rawLine && |line| >= 5 && v == line[5..]
    ensures LF !in v && LF !in WithoutSpace(v) && LF !in TrimSpace(v)
  {
    hide TrimSpace;
  }

  lemma OtherLine(rawLine: seq<Byte>, line: seq<Byte>)
    requires line == WithoutEnd(rawLine) == TrimRightCr(rawLine) && !(DATA <= line)
    requires FieldName(line) == DATA_NAME <==> line == DATA_NAME
    requires line == DATA_NAME ==> FieldValue(line) == []
    ensures LineFacts(rawLine, DataOf(rawLine), StandardOf(line))
  {
    hide TrimRightCr, WithoutEnd, FieldName, FieldValue;
  }

  ghost predicate AllPlain(lines: seq<seq<Byte>>) {
    forall i :: 0 <= i < |lines| ==> PlainLine(lines[i])
  }

  ghost predicate NoneBare(lines: seq<seq<Byte>>) {
    forall i :: 0 <= i < |lines| ==> !BareLine(lines[i])
  }

  lemma SplitEqual<T>(a: seq<T>, b: seq<T>, c: seq<T>, d: seq<T>)
    requires |a| <= |c| && |b| <= |d|
    ensures a + b == c + d <==> a == c && b == d
    ensures |a + b| == |c + d| <==> |a| == |c| && |b| == |d|
  {
    if a + b == c + d {
      assert a == (a + b)[..|a|] && c == (c + d)[..|c|] && b == (a + b)[|a|..] && d == (c + d)[|c|..];
    }
  }

  /** The same over all lines: if no line gives the second list fewer values, the second list
      is never shorter, and the lists are equal iff all data lines are plain and none is bare. */
  lemma {:induction false} ValuesAgree(
      f: seq<Byte> -> seq<seq<Byte>>, g: seq<Byte> -> seq<seq<Byte>>, lines: seq<seq<Byte>>)
    requires forall i :: 0 <= i < |lines| ==> LineFacts(lines[i], f(lines[i]), g(lines[i]))
    ensures ValueFacts(lines, FlatMap(f, lines), FlatMap(g, lines))
  {
    if lines != [] {
      var n := |lines| - 1;
      ValuesAgree(f, g, lines[..n]);
      AppendFacts(lines, FlatMap(f, lines[..n]), FlatMap(g, lines[..n]), f(lines[n]), g(lines[n]));
      hide LineFacts, ValueFacts;
    }
  }

  ghost predicate ValueFacts(lines: seq<seq<Byte>>, ts: seq<seq<Byte>>, vs: seq<seq<Byte>>) {
    && |ts| <= |vs|
    && (ts == vs <==> AllPlain(lines) && NoneBare(lines))
    && (|ts| == |vs| <==> NoneBare(lines))
    && (ts == [] ==> AllPlain(lines) && forall v :: v in vs ==> v == [])
    && NoLf(ts) && NoLf(vs)
  }

  lemma AppendFacts(lines: seq<seq<Byte>>, ts: seq<seq<Byte>>, vs: seq<seq<Byte>>, t: seq<seq<Byte>>, v: seq<seq<Byte>>)
    requires lines != [] && ValueFacts(lines[..|lines| - 1], ts, vs) && LineFacts(lines[|lines| - 1], t, v)
    ensures ValueFacts(lines, ts + t, vs + v)
  {
    LastLine(lines);
    SplitEqual(ts, t, vs, v);
    hide AllPlain, NoneBare, PlainLine, BareLine;
  }

  lemma {:induction false} LastLine(lines: seq<seq<Byte>>)
    requires lines != []
    ensures var n := |lines| - 1;
            && (AllPlain(lines) <==> AllPlain(lines[..n]) && PlainLine(lines[n]))
            && (NoneBare(lines) <==> NoneBare(lines[..n]) && !BareLine(lines[n]))
  {
    var n := |lines| - 1;
    hide PlainLine, BareLine;
    assert forall i :: 0 <= i < n ==> lines[..n][i] == lines[i];
  }

  lemma {:induction false} DropLeadingEmptySuffix(vs: seq<seq<Byte>>)
    ensures var kept := DropLeadingEmpty(vs);
            && |kept| <= |vs| && kept == vs[|vs| - |kept|..] && (kept != [] ==> kept[0] != [])
  {
    if vs != [] && vs[0] == [] {
      DropLeadingEmptySuffix(vs[1..]);
    }
  }

  /** The code reads what one dispatch of all values gives, iff every value is plain and, if
      there are any, none comes from a line without a colon and the first is not empty. */
  lemma {:induction false} DispatchAgrees(lines: seq<seq<Byte>>)
    requires ProperLines(lines)
    ensures CodeEvents(lines) == Dispatch(StandardValues(lines)) <==> Faithful(lines)
  {
    forall i | 0 <= i < |lines|
      ensures LineFacts(lines[i], DataOf(lines[i]), StandardOfRaw(lines[i]))
    {
      assert CR !in WithoutEnd(lines[i]) && LF !in lines[i];
      hide ProperLines, WithoutEnd, TrimRightCr, DataOf, StandardOf, LineFacts, FieldName, FieldValue;
      var line := WithoutEnd(lines[i]);
      LineEnds(lines[i]);
      NameIsData(line);
      if DATA <= line {
        DataLine(lines[i], line);
      } else {
        OtherLine(lines[i], line);
      }
    }
    hide *;
    var ts, vs := DataValues(lines), StandardValues(lines);
    CodeEventsMeaning(lines);
    ValuesAgree(DataOf, StandardOfRaw, lines);
    ValuesMeaning(lines);
    FactsMeaning(lines, ts, vs);
    FaithfulMeaning(lines);
    DispatchIsJoin(vs);
    ListsAgree(ts, vs);
  }

  lemma {:induction false} CodeEventsMeaning(lines: seq<seq<Byte>>)
    ensures var payload := Join(DropLeadingEmpty(DataValues(lines)));
            CodeEvents(lines) == if payload == [] then [] else [payload]
  {
    PayloadMeaning(lines);
    hide DataValues, ScanLines, Join, DropLeadingEmpty;
  }

  lemma ValuesMeaning(lines: seq<seq<Byte>>)
    ensures DataValues(lines) == FlatMap(DataOf, lines) && StandardValues(lines) == FlatMap(StandardOfRaw, lines)
  {
  }

  /** Whether code and standard read the same data, from the lines alone. */
  ghost predicate Faithful(lines: seq<seq<Byte>>) {
    AllPlain(lines) && (StandardValues(lines) != [] ==> NoneBare(lines) && StandardValues(lines)[0] != [])
  }

  lemma FactsMeaning(lines: seq<seq<Byte>>, ts: seq<seq<Byte>>, vs: seq<seq<Byte>>)
    ensures ValueFacts(lines, ts, vs) <==>
              && |ts| <= |vs|
              && (ts == vs <==> AllPlain(lines) && NoneBare(lines))
              && (|ts| == |vs| <==> NoneBare(lines))
              && (ts == [] ==> AllPlain(lines) && forall v :: v in vs ==> v == [])
              && NoLf(ts) && NoLf(vs)
  {
  }

  lemma FaithfulMeaning(lines: seq<seq<Byte>>)
    ensures Faithful(lines) <==>
              AllPlain(lines) && (StandardValues(lines) != [] ==> NoneBare(lines) && StandardValues(lines)[0] != [])
  {
  }

  lemma {:induction false} ListsAgree(ts: seq<seq<Byte>>, vs: seq<seq<Byte>>)
    requires |ts| <= |vs| && NoLf(ts) && NoLf(vs)
    ensures var payload := Join(DropLeadingEmpty(ts));
            if vs == [] then payload == []
            else (payload != [] && payload == Join(vs)) <==> (ts == vs && vs[0] != [])
  {
    var kept := DropLeadingEmpty(ts);
    DropLeadingEmptySuffix(ts);
    if vs != [] && Join(kept) != [] && Join(kept) == Join(vs) {
      JoinInjective(kept, vs);
    }
    if vs != [] && ts == vs && vs[0] != [] {
      JoinNonempty(vs);
    }
  }

  // ----- Events

  lemma {:induction false} FlatMapCons(f: seq<Byte> -> seq<seq<Byte>>, lines: seq<seq<Byte>>)
    requires lines != []
    ensures FlatMap(f, lines) == f(lines[0]) + FlatMap(f, lines[1..])
    decreases |lines|
  {
    var n := |lines| - 1;
    if n == 0 {
      assert lines[..0] == [] && lines[1..] == [];
    } else {
      FlatMapCons(f, lines[..n]);
      assert lines[..n][1..] == lines[1..][..n - 1];
      SeqAssoc(f(lines[0]), FlatMap(f, lines[1..][..n - 1]), f(lines[n]));
    }
  }

  lemma StandardValuesCons(lines: seq<seq<Byte>>)
    requires lines != []
    ensures StandardValues(lines) == StandardOf(WithoutEnd(lines[0])) + StandardValues(lines[1..])
  {
    hide StandardOf, WithoutEnd, FlatMap;
    FlatMapCons(StandardOfRaw, lines);
  }

  lemma {:induction false} NoDataLeft(lines: seq<seq<Byte>>)
    requires forall i :: 0 <= i < |lines| ==> !HasData(lines[i])
    ensures StandardValues(lines) == [] && StandardEvents(lines, []) == []
    decreases |lines|
  {
    if lines != [] {
      StandardValuesCons(lines);
      NoDataLeft(lines[1..]);
    }
  }

  /** The blank line `j` comes before the data line `k`. */
  predicate CutOff(lines: seq<seq<Byte>>, j: int, k: int) {
    0 <= j < k < |lines| && WithoutEnd(lines[j]) == [] && HasData(lines[k])
  }

  /** The blank line `j` comes between the data lines `i` and `k`. */
  predicate PartedAt(lines: seq<seq<Byte>>, i: int, j: int, k: int) {
    0 <= i < j && CutOff(lines, j, k) && HasData(lines[i])
  }

  /** No blank line parts two data lines, or a data line from the values already open. */
  ghost predicate Unparted(lines: seq<seq<Byte>>, open: seq<seq<Byte>>) {
    (forall i, j, k :: !PartedAt(lines, i, j, k)) && (open != [] ==> forall j, k :: !CutOff(lines, j, k))
  }

  lemma CutOffRest(lines: seq<seq<Byte>>, j: int, k: int)
    requires lines != []
    ensures CutOff(lines[1..], j, k) ==> CutOff(lines, j + 1, k + 1)
    ensures CutOff(lines, j, k) && j > 0 ==> CutOff(lines[1..], j - 1, k - 1)
    ensures CutOff(lines, j, k) ==> 0 <= k - 1 < |lines[1..]| && HasData(lines[1..][k - 1])
  {
    hide WithoutEnd, HasData;
  }

  lemma PartedAtRest(lines: seq<seq<Byte>>, i: int, j: int, k: int)
    requires lines != []
    ensures PartedAt(lines[1..], i, j, k) ==> PartedAt(lines, i + 1, j + 1, k + 1)
    ensures PartedAt(lines, i, j, k) && i > 0 ==> PartedAt(lines[1..], i - 1, j - 1, k - 1)
  {
    CutOffRest(lines, j, k);
    hide CutOff, HasData;
  }

  lemma BlankHasNoData(line: seq<Byte>)
    ensures HasData(line) ==> WithoutEnd(line) != [] && StandardOf(WithoutEnd(line)) != []
    ensures WithoutEnd(line) == [] ==> StandardOf(WithoutEnd(line)) == []
  {
  }

  lemma UnpartedRest(lines: seq<seq<Byte>>, open: seq<seq<Byte>>)
    requires lines != [] && Unparted(lines, open)
    ensures Unparted(lines[1..], open + StandardOf(WithoutEnd(lines[0]))) && Unparted(lines[1..], [])
  {
    var rest := lines[1..];
    BlankHasNoData(lines[0]);
    hide CutOff, PartedAt, StandardOf, WithoutEnd;
    forall i, j, k
      ensures !PartedAt(rest, i, j, k)
    {
      PartedAtRest(lines, i, j, k);
    }
    if open + StandardOf(WithoutEnd(lines[0])) != [] {
      forall j, k
        ensures !CutOff(rest, j, k)
      {
        CutOffRest(lines, j, k);
        CutOffParts(lines, j + 1, k + 1);
      }
    }
  }

  lemma CutOffParts(lines: seq<seq<Byte>>, j: int, k: int)
    requires lines != []
    ensures CutOff(lines, j, k) && j > 0 && StandardOf(WithoutEnd(lines[0])) != [] ==> PartedAt(lines, 0, j, k)
  {
  }

  /** To the standard such a block is one event with all the values, or none. */
  lemma {:induction false} OneDispatch(lines: seq<seq<Byte>>, open: seq<seq<Byte>>)
    requires Unparted(lines, open)
    ensures StandardEvents(lines, open) == Dispatch(open + StandardValues(lines))
    decreases |lines|
  {
    if lines == [] {
      assert open + [] == open;
    } else {
      hide Dispatch, Unparted, StandardOf, HasData;
      var line := WithoutEnd(lines[0]);
      StandardValuesCons(lines);
      UnpartedRest(lines, open);
      if line != [] {
        OneDispatch(lines[1..], open + StandardOf(line));
        SeqAssoc(open, StandardOf(line), StandardValues(lines[1..]));
      } else {
        BlankLine(lines, open);
        if open == [] {
          OneDispatch(lines[1..], []);
        }
      }
    }
  }

  lemma {:induction false} BlankLine(lines: seq<seq<Byte>>, open: seq<seq<Byte>>)
    requires lines != [] && Unparted(lines, open) && WithoutEnd(lines[0]) == []
    ensures StandardValues(lines) == StandardValues(lines[1..])
    ensures open == [] ==> StandardEvents(lines, open) == StandardEvents(lines[1..], [])
    ensures open != [] ==> StandardValues(lines) == [] && open + StandardValues(lines) == open
    ensures open != [] ==> StandardEvents(lines, open) == Dispatch(open)
  {
    StandardValuesCons(lines);
    assert StandardOf([]) == [];
    if open != [] {
      AllParted(lines, open);
      NoDataLeft(lines[1..]);
    }
    hide StandardOf, HasData, StandardValues, Unparted;
  }

  lemma AllParted(lines: seq<seq<Byte>>, open: seq<seq<Byte>>)
    requires lines != [] && Unparted(lines, open) && WithoutEnd(lines[0]) == [] && open != []
    ensures forall k :: 0 <= k < |lines[1..]| ==> !HasData(lines[1..][k])
  {
    hide HasData;
    forall k | 0 <= k < |lines[1..]|
      ensures !HasData(lines[1..][k])
    {
      assert !CutOff(lines, 0, k + 1);
    }
  }

  lemma {:induction false} SomeEvent(lines: seq<seq<Byte>>, open: seq<seq<Byte>>)
    requires open != [] || exists k :: 0 <= k < |lines| && HasData(lines[k])
    ensures |StandardEvents(lines, open)| >= 1
    decreases |lines|
  {
    DispatchIsJoin(open);
    if lines != [] {
      hide Dispatch;
      var line, rest := WithoutEnd(lines[0]), lines[1..];
      if open == [] && !HasData(lines[0]) {
        var k :| 0 <= k < |lines| && HasData(lines[k]);
        assert rest[k - 1] == lines[k];
        SomeEvent(rest, []);
        assert open + StandardOf(line) == [];
      } else if line != [] {
        SomeEvent(rest, open + StandardOf(line));
      } else {
        assert StandardOf([]) == [];
      }
    }
  }

  /** To the standard, data lines that a blank line parts are two events or more. */
  lemma {:induction false} PartedEvents(lines: seq<seq<Byte>>, open: seq<seq<Byte>>)
    requires !Unparted(lines, open)
    ensures |StandardEvents(lines, open)| >= 2
    decreases |lines|
  {
    var line, rest := WithoutEnd(lines[0]), lines[1..];
    assert StandardOf([]) == [];
    PartedRest(lines, open);
    DispatchIsJoin(open);
    hide Dispatch, Unparted, StandardOf;
    if line != [] {
      PartedEvents(rest, open + StandardOf(line));
    } else if open == [] {
      PartedEvents(rest, []);
    } else {
      SomeEvent(rest, []);
    }
  }

  lemma {:induction false} PartedRest(lines: seq<seq<Byte>>, open: seq<seq<Byte>>)
    requires !Unparted(lines, open)
    ensures lines != []
    ensures WithoutEnd(lines[0]) != [] ==> !Unparted(lines[1..], open + StandardOf(WithoutEnd(lines[0])))
    ensures WithoutEnd(lines[0]) == [] && open == [] ==> !Unparted(lines[1..], [])
    ensures WithoutEnd(lines[0]) == [] && open != [] ==> exists k :: 0 <= k < |lines[1..]| && HasData(lines[1..][k])
  {
    if i, j, k :| PartedAt(lines, i, j, k) {
      PartedFrom(lines, open, i, j, k);
    } else {
      var j, k :| CutOff(lines, j, k);
      CutOffFrom(lines, open, j, k);
    }
  }

  lemma PartedFrom(lines: seq<seq<Byte>>, open: seq<seq<Byte>>, i: int, j: int, k: int)
    requires PartedAt(lines, i, j, k)
    ensures lines != [] && 0 <= k - 1 < |lines[1..]| && HasData(lines[1..][k - 1])
    ensures !Unparted(lines[1..], open + StandardOf(WithoutEnd(lines[0])))
    ensures WithoutEnd(lines[0]) == [] ==> !Unparted(lines[1..], [])
  {
    assert lines != [] && CutOff(lines, j, k);
    BlankHasNoData(lines[0]);
    CutOffRest(lines, j, k);
    PartedAtRest(lines, i, j, k);
    hide CutOff, StandardOf, WithoutEnd;
    if i > 0 {
      hide PartedAt;
    }
  }

  lemma CutOffFrom(lines: seq<seq<Byte>>, open: seq<seq<Byte>>, j: int, k: int)
    requires CutOff(lines, j, k) && open != []
    ensures lines != [] && 0 <= k - 1 < |lines[1..]| && HasData(lines[1..][k - 1])
    ensures WithoutEnd(lines[0]) != [] ==> !Unparted(lines[1..], open + StandardOf(WithoutEnd(lines[0])))
  {
    assert lines != [] && (WithoutEnd(lines[0]) != [] ==> j > 0);
    CutOffRest(lines, j, k);
    hide CutOff, StandardOf, WithoutEnd, PartedAt;
  }

  /** For every block whose lines end in LF or CR LF, the code reads the data of the events
      that the standard dispatches iff no blank line parts two data lines, no value has white
      space at its ends beyond one leading space, and, if there are values, no data line lacks
      its colon and the first value is not empty. */
  lemma {:induction false} EventsMatchStandardIff(lines: seq<seq<Byte>>)
    requires ProperLines(lines)
    ensures CodeEvents(lines) == StandardEvents(lines, []) <==> Unparted(lines, []) && Faithful(lines)
  {
    hide Unparted, Faithful, ProperLines, StandardEvents, Dispatch;
    if Unparted(lines, []) {
      OneDispatch(lines, []);
      assert [] + StandardValues(lines) == StandardValues(lines);
      DispatchAgrees(lines);
    } else {
      PartedEvents(lines, []);
    }
  }

  /** The one line `data:`: the code reads nothing, the standard an event with empty data. */
  lemma EmptyValueExample()
    ensures exists line :: line == DATA && ReadsNothing(line)
  {
    var line := DATA;
    assert line == [100, 97, 116, 97, 58] && CR !in line && LF !in line && line[|DATA|..] == [];
    assert ProperLines([line]) && CodeEvents([line]) == [] && StandardEvents([line], []) == [[]] by {
      hide *;
      EndsInLetter(line);
      OneLine(line);
      NothingTrimmed();
      CodeDataLine(line);
      StandardDataLine(line);
      OneLineEvents(line);
      DispatchOne([]);
    }
    assert ReadsNothing(line) by {
      hide CodeEvents, StandardEvents, ProperLines;
    }
    hide ReadsNothing;
  }

  /** The block of this line is an event with empty data to the standard, and nothing to the
      code. */
  ghost predicate ReadsNothing(line: seq<Byte>) {
    ProperLines([line]) && CodeEvents([line]) == [] && StandardEvents([line], []) == [[]]
  }

  lemma DispatchOne(v: seq<Byte>)
    ensures Dispatch([v]) == [v]
  {
    DispatchIsJoin([v]);
  }

  lemma NothingTrimmed()
    ensures TrimSpace([]) == [] && WithoutSpace([]) == []
  {
  }

  /** A block of one line. */
  lemma {:induction false} OneLineEvents(line: seq<Byte>)
    ensures var payload := ScanLine(Fields([], []), line).payload;
            CodeEvents([line]) == if payload == [] then [] else [payload]
    ensures WithoutEnd(line) != [] ==> StandardEvents([line], []) == Dispatch(StandardOf(WithoutEnd(line)))
  {
    hide ScanLine, WithoutEnd, StandardOf, Dispatch;
    var lines: seq<seq<Byte>> := [line];
    assert lines[..0] == [] && lines[1..] == [];
    assert [] + StandardOf(WithoutEnd(line)) == StandardOf(WithoutEnd(line));
    assert ScanLines(lines) == ScanLine(Fields([], []), line);
  }

  /** What the code and the standard take from a data line. */
  lemma {:induction false} CodeDataLine(line: seq<Byte>)
    ensures DATA <= TrimRightCr(line) ==>
              ScanLine(Fields([], []), line).payload == TrimSpace(TrimRightCr(line)[|DATA|..])
  {
    hide TrimRightCr, TrimSpace;
    assert EVENT[0] != DATA[0];
    assert forall t: seq<Byte> :: [] + t == t;
  }

  lemma {:induction false} StandardDataLine(line: seq<Byte>)
    ensures DATA <= line ==> StandardOf(line) == [WithoutSpace(line[|DATA|..])]
  {
    NameIsData(line);
    hide FieldName, FieldValue, WithoutSpace;
  }

  lemma SpacesThenX(v: seq<Byte>)
    requires v == [SPACE, SPACE, 120]
    ensures WithoutSpace(v) == [SPACE, 120] && TrimSpace(v) == [120]
  {
    hide *;
    assert v == [SPACE] + [SPACE, 120] && [SPACE, 120] == [SPACE] + [120];
    SpaceThen([SPACE, 120]);
    SpaceThen([120]);
    TrimWithoutSpace(v);
    TrimWithoutSpace([SPACE, 120]);
    LetterIsPlain();
  }

  lemma SpaceThen(v: seq<Byte>)
    ensures WithoutSpace([SPACE] + v) == v
  {
  }

  lemma LetterIsPlain()
    ensures Plain([120])
  {
  }

  /** The one line `data:  x`, with two spaces: the code reads `x`, the standard ` x`. */
  lemma {:induction false} DoubleSpaceExample(line: seq<Byte>)
    requires line == DATA + [SPACE, SPACE, 120]
    ensures ProperLines([line]) && CodeEvents([line]) == [[120]] && StandardEvents([line], []) == [[SPACE, 120]]
  {
    assert line == [100, 97, 116, 97, 58, 32, 32, 120] && line[|DATA|..] == [SPACE, SPACE, 120];
    assert CR !in line && LF !in line && DATA <= line;
    hide *;
    EndsInLetter(line);
    OneLine(line);
    SpacesThenX(line[|DATA|..]);
    CodeDataLine(line);
    StandardDataLine(line);
    OneLineEvents(line);
    DispatchOne([SPACE, 120]);
  }

  lemma EndsInLetter(line: seq<Byte>)
    requires line != [] && line[|line| - 1] != CR
    ensures WithoutEnd(line) == line && TrimRightCr(line) == line
  {
  }

  lemma OneLine(line: seq<Byte>)
    requires CR !in WithoutEnd(line) && LF !in line
    ensures ProperLines([line])
  {
  }
}
