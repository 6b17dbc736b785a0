/**
 A declarative reading of an event stream (section 9.2.6 of the WHATWG HTML Standard,
 the part the client uses), and the decoder measured against it.
 */
module SseFrames {
  import opened Prelude
  import opened Lines
  import opened Json
  import opened Sse

  // ---------- the reference ----------

  // The newline-terminated lines; an unfinished last line is not one.
  function CompleteLines(bytes: seq<Byte>): seq<seq<Byte>>
    decreases |bytes|
  {
    var at := FirstNewline(bytes);
    if at == |bytes| then [] else [bytes[..at]] + CompleteLines(bytes[at + 1..])
  }

  // Lines as text, up to the first that is not UTF-8.
  function ValidTexts(x: Text, lines: seq<seq<Byte>>): seq<string> {
    if lines == [] then []
    else
      match x.utf8(lines[0])
      case None => []
      case Some(line) => [TrimCarriageReturns(line)] + ValidTexts(x, lines[1..])
  }

  // The blocks a blank line ends; `open` is the block read so far, dropped if never ended.
  function Frames(open: seq<string>, texts: seq<string>): seq<seq<string>>
    decreases |texts|
  {
    if texts == [] then []
    else if texts[0] == "" then [open] + Frames([], texts[1..])
    else Frames(open + [texts[0]], texts[1..])
  }

  // The last event name a frame gives.
  function EventField(frame: seq<string>): Option<string> {
    if frame == [] then None
    else
      match StripPrefix(frame[|frame| - 1], "event:")
      case Some(rest) => Some(TrimEnd(TrimStart(rest)))
      case None => EventField(frame[..|frame| - 1])
  }

  function DataValues(frame: seq<string>): seq<string> {
    if frame == [] then []
    else
      var front := DataValues(frame[..|frame| - 1]);
      match StripPrefix(frame[|frame| - 1], "data:")
      case Some(rest) => front + [TrimStart(rest)]
      case None => front
  }

  function JoinLines(values: seq<string>): string {
    if values == [] then ""
    else if |values| == 1 then values[0]
    else JoinLines(values[..|values| - 1]) + "\n" + values[|values| - 1]
  }

  function DropLeadingEmpty(values: seq<string>): seq<string> {
    if values != [] && values[0] == "" then DropLeadingEmpty(values[1..]) else values
  }

  function FrameEvent(x: Text, frame: seq<string>): Option<StreamEvent> {
    ParseFrame(x, EventField(frame), JoinLines(DropLeadingEmpty(DataValues(frame))))
  }

  function EventsOf(x: Text, frames: seq<seq<string>>): seq<StreamEvent> {
    if frames == [] then [] else Emitted(FrameEvent(x, frames[0])) + EventsOf(x, frames[1..])
  }

  // ---------- the decoder against it ----------

  function DecoderOf(open: seq<string>): Decoder {
    Decoder(EventField(open), JoinLines(DropLeadingEmpty(DataValues(open))))
  }

  function DecodeTexts(x: Text, d: Decoder, texts: seq<string>): seq<StreamEvent>
    decreases |texts|
  {
    if texts == [] then []
    else
      var (next, event) := LineStep(x, d, texts[0]);
      Emitted(event) + DecodeTexts(x, next, texts[1..])
  }

  lemma {:induction false} DecodeReadsTexts(x: Text, d: Decoder, bytes: seq<Byte>)
    ensures Decode(x, d, bytes) == DecodeTexts(x, d, ValidTexts(x, CompleteLines(bytes)))
    decreases |bytes|
  {
    var at := FirstNewline(bytes);
    if at < |bytes| {
      var lines := CompleteLines(bytes);
      assert lines[0] == bytes[..at] && lines[1..] == CompleteLines(bytes[at + 1..]);
      match x.utf8(bytes[..at])
      case None =>
      case Some(line) =>
        var text := TrimCarriageReturns(line);
        var rest := ValidTexts(x, lines[1..]);
        assert ([text] + rest)[1..] == rest;
        DecodeReadsTexts(x, LineStep(x, d, text).0, bytes[at + 1..]);
    }
  }

  lemma JoinIsEmpty(values: seq<string>)
    requires values != [] && values[0] != ""
    ensures JoinLines(values) != ""
  {}

  lemma {:induction false} DropOneMore(values: seq<string>, value: string)
    ensures DropLeadingEmpty(values + [value]) ==
            if DropLeadingEmpty(values) == [] && value == "" then [] else DropLeadingEmpty(values) + [value]
  {
    if values == [] {
      assert values + [value] == [value];
    } else {
      assert (values + [value])[1..] == values[1..] + [value];
      DropOneMore(values[1..], value);
    }
  }

  // Adding a value to the buffer adds it to the joined data.
  lemma AddDataJoins(values: seq<string>, value: string)
    ensures AddData(JoinLines(DropLeadingEmpty(values)), value) == JoinLines(DropLeadingEmpty(values + [value]))
  {
    var kept := DropLeadingEmpty(values);
    DropOneMore(values, value);
    if kept != [] {
      FirstIsNotEmpty(values);
      JoinIsEmpty(kept);
      assert (kept + [value])[..|kept|] == kept;
    }
  }

  lemma {:induction false} FirstIsNotEmpty(values: seq<string>)
    ensures DropLeadingEmpty(values) != [] ==> DropLeadingEmpty(values)[0] != ""
  {
    if values != [] {
      FirstIsNotEmpty(values[1..]);
    }
  }

  // One line into an open frame.
  lemma LineExtendsFrame(x: Text, open: seq<string>, line: string)
    requires line != ""
    ensures LineStep(x, DecoderOf(open), line) == (DecoderOf(open + [line]), None)
  {
    var longer := open + [line];
    assert longer[..|longer| - 1] == open;
    match StripPrefix(line, "event:")
    case Some(rest) =>
      assert line[0] == 'e';
      assert StripPrefix(line, "data:") == None;
    case None =>
      match StripPrefix(line, "data:")
      case Some(rest) => AddDataJoins(DataValues(open), TrimStart(rest));
      case None =>
  }

  lemma {:induction false} DecodeTextsFrames(x: Text, open: seq<string>, texts: seq<string>)
    ensures DecodeTexts(x, DecoderOf(open), texts) == EventsOf(x, Frames(open, texts))
    decreases |texts|
  {
    if texts != [] {
      if texts[0] == "" {
        assert DecoderOf([]) == FRESH;
        DecodeTextsFrames(x, [], texts[1..]);
        assert Frames(open, texts)[1..] == Frames([], texts[1..]);
      } else {
        LineExtendsFrame(x, open, texts[0]);
        DecodeTextsFrames(x, open + [texts[0]], texts[1..]);
        assert [] + DecodeTexts(x, DecoderOf(open + [texts[0]]), texts[1..])
               == DecodeTexts(x, DecoderOf(open + [texts[0]]), texts[1..]);
      }
    }
  }

  /**
   The decoding of a byte stream is its finished frames, in order, up to the first line
   that is not UTF-8; a frame no blank line ends gives nothing.
   */
  lemma DecodingIsItsFrames(x: Text, bytes: seq<Byte>)
    ensures Decode(x, FRESH, bytes) == EventsOf(x, Frames([], ValidTexts(x, CompleteLines(bytes))))
  {
    assert DecoderOf([]) == FRESH;
    DecodeReadsTexts(x, FRESH, bytes);
    DecodeTextsFrames(x, [], ValidTexts(x, CompleteLines(bytes)));
  }

  // ---------- against the standard ----------

  function TotalLength(values: seq<string>): nat {
    if values == [] then 0 else TotalLength(values[..|values| - 1]) + |values[|values| - 1]|
  }

  lemma {:induction false} JoinLength(values: seq<string>)
    requires values != []
    ensures |JoinLines(values)| == TotalLength(values) + |values| - 1
  {
    if |values| > 1 {
      JoinLength(values[..|values| - 1]);
    } else {
      assert TotalLength(values[..0]) == 0;
    }
  }

  lemma {:induction false} TotalOfRest(values: seq<string>)
    requires values != []
    ensures TotalLength(values) == |values[0]| + TotalLength(values[1..])
  {
    if |values| > 1 {
      TotalOfRest(values[..|values| - 1]);
      assert values[..|values| - 1][1..] == values[1..][..|values| - 2];
    }
  }

  lemma {:induction false} DropShortens(values: seq<string>)
    ensures TotalLength(DropLeadingEmpty(values)) == TotalLength(values)
    ensures values != [] && values[0] == "" ==> |DropLeadingEmpty(values)| < |values|
  {
    if values != [] && values[0] == "" {
      TotalOfRest(values);
      DropShortens(values[1..]);
    }
  }

  // The standard removes one leading space from a value.
  function StandardValue(rest: string): string {
    if rest != "" && rest[0] == ' ' then rest[1..] else rest
  }

  /** The decoder trims all leading whitespace: the same exactly when one space is all there is. */
  lemma DataTrimAgreesExactly(rest: string)
    ensures TrimStart(rest) == StandardValue(rest) <==>
            StandardValue(rest) == "" || !IsSpace(StandardValue(rest)[0])
  {
    var value := StandardValue(rest);
    if value != "" && IsSpace(value[0]) {
      assert TrimStart(rest) == TrimStart(value);
    } else if rest != "" && rest[0] == ' ' {
      assert TrimStart(rest) == TrimStart(rest[1..]);
    }
  }

  // ---------- a whole frame against the standard ----------

  predicate Tidy(s: string) {
    s == "" || (!IsSpace(s[0]) && !IsSpace(s[|s| - 1]))
  }

  predicate TidyInFront(s: string) {
    s == "" || !IsSpace(s[0])
  }

  predicate Blank(s: string) {
    forall i :: 0 <= i < |s| ==> IsSpace(s[i])
  }

  // A line is a field name and a value; without a colon it is a name with an empty value.
  // The name buffer ends up with the value of the last `event` line.
  function StandardName(frame: seq<string>): string {
    if frame == [] then ""
    else
      var line := frame[|frame| - 1];
      match StripPrefix(line, "event:")
      case Some(rest) => StandardValue(rest)
      case None => if line == "event" then "" else StandardName(frame[..|frame| - 1])
  }

  // What follows the colon of each `data` line; None where there is no colon.
  function DataFields(frame: seq<string>): seq<Option<string>> {
    if frame == [] then []
    else
      var line, front := frame[|frame| - 1], DataFields(frame[..|frame| - 1]);
      match StripPrefix(line, "data:")
      case Some(rest) => front + [Some(rest)]
      case None => if line == "data" then front + [None] else front
  }

  function ValueOf(field: Option<string>): string {
    match field
    case Some(rest) => StandardValue(rest)
    case None => ""
  }

  function StandardValues(fields: seq<Option<string>>): seq<string> {
    if fields == [] then []
    else StandardValues(fields[..|fields| - 1]) + [ValueOf(fields[|fields| - 1])]
  }

  function StandardData(frame: seq<string>): string {
    JoinLines(StandardValues(DataFields(frame)))
  }

  // What the decoder has at the end of the frame; no name and an empty name are the same.
  function DecodedName(frame: seq<string>): string {
    match EventField(frame)
    case Some(name) => name
    case None => ""
  }

  function DecodedData(frame: seq<string>): string {
    JoinLines(DropLeadingEmpty(DataValues(frame)))
  }

  // The last line that names the event has no white space to trim, or has no colon and
  // the name the decoder keeps from before it is blank.
  predicate NameIsTidy(frame: seq<string>) {
    if frame == [] then true
    else
      var line, front := frame[|frame| - 1], frame[..|frame| - 1];
      match StripPrefix(line, "event:")
      case Some(rest) => Tidy(StandardValue(rest))
      case None => if line == "event" then LastNameBlank(front) else NameIsTidy(front)
  }

  predicate LastNameBlank(frame: seq<string>) {
    if frame == [] then true
    else
      match StripPrefix(frame[|frame| - 1], "event:")
      case Some(rest) => Blank(rest)
      case None => LastNameBlank(frame[..|frame| - 1])
  }

  // No value has white space to trim; of several none lacks its colon and the first is
  // not empty.
  predicate DataIsTidy(fields: seq<Option<string>>) {
    && (forall i :: 0 <= i < |fields| ==> TidyInFront(ValueOf(fields[i])))
    && (|fields| > 1 ==>
          && (forall i :: 0 <= i < |fields| ==> fields[i].Some?)
          && ValueOf(fields[0]) != "")
  }

  // ---------- names ----------

  lemma {:induction false} TrimsToNothing(s: string)
    ensures TrimStart(s) == "" <==> Blank(s)
  {
    if s != "" {
      if IsSpace(s[0]) {
        TrimsToNothing(s[1..]);
        assert forall i :: 0 < i < |s| ==> s[i] == s[1..][i - 1];
      }
    }
  }

  lemma TrimEndIs(s: string)
    ensures TrimEnd(s) <= s && (TrimEnd(s) == s <==> s == "" || !IsSpace(s[|s| - 1]))
    ensures s != "" && !IsSpace(s[0]) ==> TrimEnd(s) != ""
  {}

  // Trimming both ends gives the standard's value exactly when there is nothing to trim.
  lemma TrimIsStandard(rest: string)
    ensures TrimEnd(TrimStart(rest)) == StandardValue(rest) <==> Tidy(StandardValue(rest))
    ensures TrimEnd(TrimStart(rest)) == "" <==> Blank(rest)
  {
    var value, front := StandardValue(rest), TrimStart(rest);
    TrimEndIs(front);
    TrimsToNothing(rest);
    SameLengthIsTidy(rest);
    StartIsShorter(rest);
    if TidyInFront(value) {
      assert front == value;
    } else {
      assert |TrimEnd(front)| <= |front| < |value|;
    }
  }

  lemma StartIsShorter(rest: string)
    ensures |TrimStart(rest)| <= |StandardValue(rest)|
  {
    if rest != "" && rest[0] == ' ' {
      assert TrimStart(rest) == TrimStart(rest[1..]);
    }
  }

  lemma {:induction false} NameBlankIs(frame: seq<string>)
    ensures DecodedName(frame) == "" <==> LastNameBlank(frame)
  {
    if frame != [] {
      match StripPrefix(frame[|frame| - 1], "event:")
      case Some(rest) => TrimIsStandard(rest);
      case None => NameBlankIs(frame[..|frame| - 1]);
    }
  }

  lemma {:induction false} NameAgreesExactly(frame: seq<string>)
    ensures DecodedName(frame) == StandardName(frame) <==> NameIsTidy(frame)
  {
    if frame != [] {
      var front := frame[..|frame| - 1];
      match StripPrefix(frame[|frame| - 1], "event:")
      case Some(rest) => TrimIsStandard(rest);
      case None =>
        NameBlankIs(front);
        NameAgreesExactly(front);
    }
  }

  // ---------- data ----------

  // The decoder's values: those of the lines with a colon, trimmed in front.
  function TrimmedValues(fields: seq<Option<string>>): seq<string> {
    if fields == [] then []
    else
      var front := TrimmedValues(fields[..|fields| - 1]);
      match fields[|fields| - 1]
      case Some(rest) => front + [TrimStart(rest)]
      case None => front
  }

  lemma {:induction false} DataValuesAreTrimmed(frame: seq<string>)
    ensures DataValues(frame) == TrimmedValues(DataFields(frame))
  {
    if frame != [] {
      var front, fields := frame[..|frame| - 1], DataFields(frame);
      DataValuesAreTrimmed(front);
      assert fields != DataFields(front) ==> fields[..|fields| - 1] == DataFields(front);
    }
  }

  lemma {:induction false} StandardValuesAt(fields: seq<Option<string>>, i: nat)
    requires i < |fields|
    ensures |StandardValues(fields)| == |fields| && StandardValues(fields)[i] == ValueOf(fields[i])
  {
    if i < |fields| - 1 {
      StandardValuesAt(fields[..|fields| - 1], i);
    } else if i > 0 {
      StandardValuesAt(fields[..|fields| - 1], i - 1);
    }
  }

  ghost predicate AllTidy(fields: seq<Option<string>>) {
    forall i :: 0 <= i < |fields| ==> fields[i].Some? && TidyInFront(ValueOf(fields[i]))
  }

  lemma AllTidyFront(fields: seq<Option<string>>)
    requires fields != []
    ensures var n := |fields| - 1;
            AllTidy(fields) <==> AllTidy(fields[..n]) && fields[n].Some? && TidyInFront(ValueOf(fields[n]))
  {
    var n := |fields| - 1;
    assert forall i :: 0 <= i < n ==> fields[..n][i] == fields[i];
  }

  // Trimmed values are never longer or more, and as long and as many only if all are tidy.
  lemma {:induction false} TrimmedIsShorter(fields: seq<Option<string>>)
    ensures |StandardValues(fields)| == |fields| && |TrimmedValues(fields)| <= |fields|
    ensures TotalLength(TrimmedValues(fields)) <= TotalLength(StandardValues(fields))
    ensures (|TrimmedValues(fields)| == |fields|
             && TotalLength(TrimmedValues(fields)) == TotalLength(StandardValues(fields))) <==> AllTidy(fields)
    ensures AllTidy(fields) ==> TrimmedValues(fields) == StandardValues(fields)
  {
    if fields != [] {
      var n := |fields| - 1;
      TrimmedIsShorter(fields[..n]);
      AllTidyFront(fields);
      TotalWithLast(StandardValues(fields[..n]), ValueOf(fields[n]));
      match fields[n]
      case Some(rest) =>
        TotalWithLast(TrimmedValues(fields[..n]), TrimStart(rest));
        StartIsShorter(rest);
        SameLengthIsTidy(rest);
      case None =>
    }
  }

  lemma TotalWithLast(values: seq<string>, value: string)
    ensures TotalLength(values + [value]) == TotalLength(values) + |value|
  {
    assert (values + [value])[..|values|] == values;
  }

  lemma SameLengthIsTidy(rest: string)
    ensures |TrimStart(rest)| == |StandardValue(rest)| <==> TidyInFront(StandardValue(rest))
    ensures TidyInFront(StandardValue(rest)) ==> TrimStart(rest) == StandardValue(rest)
  {
    DataTrimAgreesExactly(rest);
    var value := StandardValue(rest);
    if value != "" && IsSpace(value[0]) {
      assert TrimStart(rest) == TrimStart(value) == TrimStart(value[1..]);
    }
  }

  function JoinedLength(values: seq<string>): nat {
    if values == [] then 0 else TotalLength(values) + |values| - 1
  }

  lemma JoinedLengthIs(values: seq<string>)
    ensures |JoinLines(values)| == JoinedLength(values)
  {
    if values != [] {
      JoinLength(values);
    }
  }

  lemma {:induction false} DroppedAreFewer(values: seq<string>)
    ensures |DropLeadingEmpty(values)| <= |values|
    ensures |DropLeadingEmpty(values)| == |values| <==> values == [] || values[0] != ""
  {
    if values != [] && values[0] == "" {
      DroppedAreFewer(values[1..]);
    }
  }

  // With several data lines: by length.
  lemma SeveralAgreeExactly(fields: seq<Option<string>>)
    requires |fields| > 1
    ensures JoinLines(DropLeadingEmpty(TrimmedValues(fields))) == JoinLines(StandardValues(fields)) <==>
            AllTidy(fields) && ValueOf(fields[0]) != ""
  {
    var trimmed, standard := TrimmedValues(fields), StandardValues(fields);
    var kept := DropLeadingEmpty(trimmed);
    TrimmedIsShorter(fields);
    DroppedAreFewer(trimmed);
    DropShortens(trimmed);
    JoinedLengthIs(kept);
    JoinedLengthIs(standard);
    StandardValuesAt(fields, 0);
    if AllTidy(fields) && ValueOf(fields[0]) != "" {
      assert kept == trimmed == standard;
    } else if |kept| == |fields| {
      assert trimmed[0] != "";
      assert TotalLength(kept) < TotalLength(standard);
    }
  }

  lemma SingletonsUnfold(field: Option<string>, value: string)
    ensures StandardValues([field]) == [ValueOf(field)]
    ensures TrimmedValues([field]) == match field case Some(rest) => [TrimStart(rest)] case None => []
    ensures JoinLines(DropLeadingEmpty([value])) == value && JoinLines([value]) == value
  {
    var fields := [field];
    assert fields[..0] == [];
    if value == "" {
      assert [value][1..] == [] && DropLeadingEmpty([value]) == DropLeadingEmpty([value][1..]);
    }
  }

  lemma OneAgreesExactly(field: Option<string>)
    ensures JoinLines(DropLeadingEmpty(TrimmedValues([field]))) == JoinLines(StandardValues([field])) <==>
            TidyInFront(ValueOf(field))
  {
    SingletonsUnfold(field, ValueOf(field));
    match field
    case None =>
    case Some(rest) =>
      SingletonsUnfold(field, TrimStart(rest));
      SameLengthIsTidy(rest);
  }

  lemma SeveralTidy(fields: seq<Option<string>>)
    requires |fields| > 1
    ensures DataIsTidy(fields) <==> AllTidy(fields) && ValueOf(fields[0]) != ""
  {}

  lemma FieldsAgreeExactly(fields: seq<Option<string>>)
    ensures JoinLines(DropLeadingEmpty(TrimmedValues(fields))) == JoinLines(StandardValues(fields)) <==>
            DataIsTidy(fields)
  {
    if |fields| > 1 {
      SeveralAgreeExactly(fields);
      SeveralTidy(fields);
    } else if |fields| == 1 {
      assert fields == [fields[0]];
      OneAgreesExactly(fields[0]);
    }
  }

  lemma DataAgreesExactly(frame: seq<string>)
    ensures DecodedData(frame) == StandardData(frame) <==> DataIsTidy(DataFields(frame))
  {
    DataValuesAreTrimmed(frame);
    FieldsAgreeExactly(DataFields(frame));
  }

  /**
   Over every frame: the decoder has the standard's event name and data exactly when the
   last line that names the event and every data line have nothing more to trim than the
   standard's one space, and of several data lines none lacks its colon and the first is
   not empty. A last name line without a colon agrees when no earlier name is kept.
   */
  lemma FrameAgreesExactly(frame: seq<string>)
    ensures DecodedName(frame) == StandardName(frame) && DecodedData(frame) == StandardData(frame) <==>
            NameIsTidy(frame) && DataIsTidy(DataFields(frame))
  {
    NameAgreesExactly(frame);
    DataAgreesExactly(frame);
  }

  // What a client of a conforming parser would be given; a frame without data gives nothing.
  function StandardEvent(x: Text, frame: seq<string>): Option<StreamEvent> {
    if DataFields(frame) == [] then None else ParseFrame(x, Some(StandardName(frame)), StandardData(frame))
  }

  /** A tidy frame gives the same event as by the standard; empty text is no JSON. */
  lemma TidyFrameGivesTheEvent(x: Text, frame: seq<string>)
    requires x.json("") == None && NameIsTidy(frame) && DataIsTidy(DataFields(frame))
    ensures FrameEvent(x, frame) == StandardEvent(x, frame)
  {
    FrameAgreesExactly(frame);
    EventByName(x, EventField(frame), DecodedData(frame));
    if DataFields(frame) == [] {
      NoTextNoEvent(x, EventField(frame));
    }
  }

  lemma EventByName(x: Text, name: Option<string>, data: string)
    ensures ParseFrame(x, name, data) == ParseFrame(x, Some(if name.Some? then name.value else ""), data)
  {
    if name == None {
      NoNameIsNoEvent(x, data);
    }
  }

  lemma NoTextNoEvent(x: Text, name: Option<string>)
    requires x.json("") == None
    ensures ParseFrame(x, name, "") == None
  {}

  // Without a name, and under an empty one, there is no event.
  lemma NoNameIsNoEvent(x: Text, data: string)
    ensures ParseFrame(x, None, data) == None && ParseFrame(x, Some(""), data) == None
  {}

  // A frame of a name line and a data line.
  lemma NameThenData(name: string, value: string)
    ensures var frame := ["event:" + name, "data:" + value];
            && StandardName(frame) == StandardValue(name) && DataFields(frame) == [Some(value)]
            && (NameIsTidy(frame) <==> Tidy(StandardValue(name)))
  {
    var first, second := "event:" + name, "data:" + value;
    var frame := [first, second];
    assert frame[..1] == [first] && frame[..1][..0] == [];
    assert first[0] != "data:"[0] && second[0] != "event:"[0];
    assert StripPrefix(first, "event:") == Some(name) && StripPrefix(first, "data:") == None;
    assert StripPrefix(second, "data:") == Some(value) && StripPrefix(second, "event:") == None;
    assert DataFields([first]) == [];
  }

  lemma NamedFrameIs(name: string, value: string)
    ensures EventField(["event:" + name, "data:" + value]) == Some(TrimEnd(TrimStart(name)))
  {
    var first, second := "event:" + name, "data:" + value;
    var frame := [first, second];
    assert frame[..1] == [first];
    assert second[0] != "event:"[0];
    assert StripPrefix(first, "event:") == Some(name) && StripPrefix(second, "event:") == None;
  }

  lemma TwoSpaces(name: string)
    requires name != "" && Tidy(name)
    ensures TrimEnd(TrimStart("  " + name)) == name && StandardValue("  " + name) == " " + name
  {
    assert ("  " + name)[1..] == " " + name && (" " + name)[1..] == name;
    TrimEndIs(name);
  }

  /** One data value and nothing to trim from it, and still a difference: with two spaces
      before an event's name the decoder gives the name, the standard a space and the name. */
  lemma PaddedNameDiffers(name: string, value: string)
    requires name != "" && Tidy(name) && TidyInFront(StandardValue(value))
    ensures var frame := ["event:" + ("  " + name), "data:" + value];
            && DecodedData(frame) == StandardData(frame)
            && DecodedName(frame) == name && StandardName(frame) == " " + name
  {
    var frame := ["event:" + ("  " + name), "data:" + value];
    NameThenData("  " + name, value);
    NamedFrameIs("  " + name, value);
    TwoSpaces(name);
    DataAgreesExactly(frame);
  }

  // ---------- the ends of lines ----------

  function IndexOf(text: string, stop: set<char>): (at: nat)
    ensures at <= |text| && (at < |text| ==> text[at] in stop)
    ensures forall i :: 0 <= i < at ==> text[i] !in stop
  {
    if text == "" || text[0] in stop then 0 else 1 + IndexOf(text[1..], stop)
  }

  // The decoder's lines: cut at newlines, carriage returns trimmed from their ends.
  function DecodedLines(text: string): seq<string>
    decreases |text|
  {
    var at := IndexOf(text, {'\n'});
    if at == |text| then [] else [TrimCarriageReturns(text[..at])] + DecodedLines(text[at + 1..])
  }

  // Where the first line ends: at the first newline or carriage return.
  function LineEnd(text: string): (at: nat)
    ensures at <= |text| && (at < |text| ==> text[at] == '\r' || text[at] == '\n')
  {
    IndexOf(text, {'\r', '\n'})
  }

  // The standard's: ended by a newline, a carriage return, or the two together.
  function StandardLines(text: string): seq<string>
    decreases |text|
  {
    var at := LineEnd(text);
    if at == |text| then []
    else if text[at] == '\r' && at + 1 < |text| && text[at + 1] == '\n' then
      [text[..at]] + StandardLines(text[at + 2..])
    else [text[..at]] + StandardLines(text[at + 1..])
  }

  lemma FirstText(x: Text, line: seq<Byte>, rest: seq<seq<Byte>>)
    requires x.utf8(line).Some?
    ensures ValidTexts(x, [line] + rest) == [TrimCarriageReturns(x.utf8(line).value)] + ValidTexts(x, rest)
  {
    assert ([line] + rest)[1..] == rest;
  }

  // A carriage return that no newline follows.
  predicate BareAt(text: string, i: nat)
    requires i < |text|
  {
    text[i] == '\r' && !(i + 1 < |text| && text[i + 1] == '\n')
  }

  // Every carriage return is followed by a newline.
  predicate Paired(text: string) {
    forall i :: 0 <= i < |text| ==> !BareAt(text, i)
  }

  // How many lines the decoder counts does not depend on what a line starts with.
  lemma SkipOne(text: string)
    requires text != "" && text[0] != '\n'
    ensures |DecodedLines(text)| == |DecodedLines(text[1..])|
  {
    var rest := text[1..];
    var at := IndexOf(rest, {'\n'});
    assert IndexOf(text, {'\n'}) == at + 1;
    if at < |rest| {
      assert text[at + 2..] == rest[at + 1..];
    }
  }

  lemma {:induction false} CountSkips(text: string, skip: nat)
    requires skip <= |text| && forall i :: 0 <= i < skip ==> text[i] != '\n'
    ensures |DecodedLines(text)| == |DecodedLines(text[skip..])|
    decreases skip
  {
    if skip == 0 {
      assert text[0..] == text;
    } else {
      SkipOne(text);
      CountSkips(text[1..], skip - 1);
      assert text[1..][skip - 1..] == text[skip..];
    }
  }

  lemma BareInRest(text: string, cut: nat, i: nat)
    requires cut <= i < |text|
    ensures BareAt(text, i) <==> BareAt(text[cut..], i - cut)
  {
    assert text[cut..][i - cut] == text[i];
    assert i + 1 < |text| ==> text[cut..][i - cut + 1] == text[i + 1];
  }

  lemma PairedRest(text: string, cut: nat)
    requires cut <= |text|
    ensures Paired(text) ==> Paired(text[cut..])
  {
    if Paired(text) {
      forall i | 0 <= i < |text[cut..]| ensures !BareAt(text[cut..], i) {
        BareInRest(text, cut, cut + i);
      }
    }
  }

  // Behind one line and the newline, or carriage return and newline, that end it.
  lemma PairedBehindLine(text: string, at: nat, end: nat)
    requires at < end <= |text| && text[end - 1] == '\n'
    requires end == at + 1 || (end == at + 2 && text[at] == '\r')
    requires forall i :: 0 <= i < at ==> text[i] != '\r'
    ensures Paired(text[end..]) ==> Paired(text)
  {
    if Paired(text[end..]) {
      forall i | 0 <= i < |text| ensures !BareAt(text, i) {
        if i >= end {
          BareInRest(text, end, i);
        }
      }
    }
  }

  lemma NothingToTrim(line: string)
    requires forall i :: 0 <= i < |line| ==> line[i] != '\r'
    ensures TrimCarriageReturns(line) == line && TrimCarriageReturns(line + "\r") == line
  {
    assert (line + "\r")[..|line|] == line;
  }

  lemma IndexIs(text: string, stop: set<char>, at: nat)
    requires at < |text| && text[at] in stop && forall i :: 0 <= i < at ==> text[i] !in stop
    ensures IndexOf(text, stop) == at
  {}

  lemma NoneBefore(text: string)
    ensures forall i :: 0 <= i < LineEnd(text) ==> text[i] != '\r' && text[i] != '\n'
  {}

  // The first line is cut off on both sides, and `rest` is behind it.
  predicate OneLine(text: string, line: string, rest: string) {
    && DecodedLines(text) == [line] + DecodedLines(rest)
    && StandardLines(text) == [line] + StandardLines(rest)
    && (Paired(rest) ==> Paired(text))
  }

  // One line that a newline ends, and no carriage return.
  lemma PlainLine(text: string, at: nat)
    requires at == LineEnd(text) < |text| && text[at] == '\n'
    ensures OneLine(text, text[..at], text[at + 1..])
  {
    NoneBefore(text);
    IndexIs(text, {'\n'}, at);
    NothingToTrim(text[..at]);
    PairedBehindLine(text, at, at + 1);
  }

  // One line that a carriage return and a newline end.
  lemma PairedLine(text: string, at: nat)
    requires at == LineEnd(text) && at + 1 < |text| && text[at] == '\r' && text[at + 1] == '\n'
    ensures OneLine(text, text[..at], text[at + 2..])
  {
    NoneBefore(text);
    PairedLineDecoded(text, at);
    PairedBehindLine(text, at, at + 2);
  }

  lemma PairedLineDecoded(text: string, at: nat)
    requires at + 1 < |text| && text[at] == '\r' && text[at + 1] == '\n'
    requires forall i :: 0 <= i < at ==> text[i] != '\r' && text[i] != '\n'
    ensures DecodedLines(text) == [text[..at]] + DecodedLines(text[at + 2..])
  {
    IndexIs(text, {'\n'}, at + 1);
    NothingToTrim(text[..at]);
    assert text[..at + 1] == text[..at] + "\r";
  }

  // One line that only a carriage return ends: the decoder reads on.
  lemma BareLine(text: string, at: nat)
    requires at == LineEnd(text) < |text| && BareAt(text, at)
    ensures |DecodedLines(text)| == |DecodedLines(text[at + 1..])|
    ensures StandardLines(text) == [text[..at]] + StandardLines(text[at + 1..])
  {
    NoneBefore(text);
    CountSkips(text, at + 1);
  }

  lemma NoLine(text: string)
    requires LineEnd(text) == |text|
    ensures DecodedLines(text) == [] && StandardLines(text) == [] && Paired(text)
  {
    NoneBefore(text);
  }

  // At least as many lines, and more if a carriage return is bare.
  predicate HasMoreLines(text: string) {
    && |StandardLines(text)| >= |DecodedLines(text)|
    && (!Paired(text) ==> |StandardLines(text)| > |DecodedLines(text)|)
  }

  // One more line on both sides changes nothing of that.
  lemma OneLineMore(text: string, line: string, rest: string)
    requires OneLine(text, line, rest) && HasMoreLines(rest)
    ensures HasMoreLines(text)
  {
    var decoded, standard := DecodedLines(rest), StandardLines(rest);
    assert |[line] + decoded| == 1 + |decoded| && |[line] + standard| == 1 + |standard|;
  }

  lemma BareHasMore(text: string, at: nat)
    requires at == LineEnd(text) < |text| && BareAt(text, at)
    requires HasMoreLines(text[at + 1..])
    ensures HasMoreLines(text)
  {
    BareLine(text, at);
  }

  // A bare carriage return ends a line for the standard only.
  lemma {:induction false} StandardHasMoreLines(text: string)
    ensures HasMoreLines(text)
    decreases |text|
  {
    var at := LineEnd(text);
    if at == |text| {
      NoLine(text);
    } else if text[at] == '\n' {
      StandardHasMoreLines(text[at + 1..]);
      PlainLine(text, at);
      OneLineMore(text, text[..at], text[at + 1..]);
    } else if at + 1 < |text| && text[at + 1] == '\n' {
      StandardHasMoreLines(text[at + 2..]);
      PairedLine(text, at);
      OneLineMore(text, text[..at], text[at + 2..]);
    } else {
      StandardHasMoreLines(text[at + 1..]);
      BareHasMore(text, at);
    }
  }

  lemma {:induction false} PairedLinesAgree(text: string)
    requires Paired(text)
    ensures DecodedLines(text) == StandardLines(text)
    decreases |text|
  {
    var at := LineEnd(text);
    if at == |text| {
      NoLine(text);
    } else if text[at] == '\n' {
      PlainLine(text, at);
      PairedRest(text, at + 1);
      PairedLinesAgree(text[at + 1..]);
    } else {
      assert !BareAt(text, at);
      PairedLine(text, at);
      PairedRest(text, at + 2);
      PairedLinesAgree(text[at + 2..]);
    }
  }

  /** The decoder's lines are the standard's exactly when every carriage return is followed
      by a newline: neither bare ones nor several in a row. */
  lemma LinesAgreeExactly(text: string)
    ensures DecodedLines(text) == StandardLines(text) <==> Paired(text)
  {
    if Paired(text) {
      PairedLinesAgree(text);
    } else {
      StandardHasMoreLines(text);
    }
  }

  // ---------- from the bytes ----------

  // What UTF-8 promises of the bytes below 128: each stands for its own character, between
  // whatever decodes before and behind it.
  function AsciiChar(c: Byte): char
    requires c < 128
  {
    (c as int) as char
  }

  ghost predicate AsciiSplits(x: Text, a: seq<Byte>, c: Byte, b: seq<Byte>) {
    c < 128 && x.utf8(a + [c] + b).Some? ==>
      && x.utf8(a).Some? && x.utf8(b).Some?
      && x.utf8(a + [c] + b).value == x.utf8(a).value + [AsciiChar(c)] + x.utf8(b).value
  }

  ghost predicate AsciiIsItself(x: Text, a: seq<Byte>, c: Byte) {
    c < 128 && x.utf8(a).Some? && AsciiChar(c) in x.utf8(a).value ==> c in a
  }

  ghost predicate EmptyIsEmpty(x: Text, a: seq<Byte>) {
    x.utf8(a) == Some("") <==> a == []
  }

  ghost predicate IsUtf8(x: Text) {
    && (forall a, c, b :: AsciiSplits(x, a, c, b))
    && (forall a, c :: AsciiIsItself(x, a, c))
    && (forall a :: EmptyIsEmpty(x, a))
  }

  // The part of UTF-8 that is ASCII keeps the promise.
  function AsciiDecode(bytes: seq<Byte>): Option<string> {
    if forall i :: 0 <= i < |bytes| ==> bytes[i] < 128
    then Some(seq(|bytes|, i requires 0 <= i < |bytes| => (bytes[i] as int) as char)) else None
  }

  lemma AsciiIsUtf8(json: string -> Option<Value>)
    ensures IsUtf8(Text(AsciiDecode, json))
  {
    var x := Text(AsciiDecode, json);
    forall a, c, b ensures AsciiSplits(x, a, c, b) {
      var bytes := a + [c] + b;
      assert forall i :: 0 <= i < |a| ==> bytes[i] == a[i];
      assert forall i :: 0 <= i < |b| ==> bytes[|a| + 1 + i] == b[i];
    }
    forall a, c ensures AsciiIsItself(x, a, c) {}
    forall a ensures EmptyIsEmpty(x, a) {}
  }

  const RETURN: Byte := 13

  lemma SplitText(x: Text, bytes: seq<Byte>, at: nat)
    requires IsUtf8(x) && x.utf8(bytes).Some? && at < |bytes| && bytes[at] < 128
    ensures x.utf8(bytes[..at]).Some? && x.utf8(bytes[at + 1..]).Some?
    ensures x.utf8(bytes).value ==
            x.utf8(bytes[..at]).value + [AsciiChar(bytes[at])] + x.utf8(bytes[at + 1..]).value
  {
    assert AsciiSplits(x, bytes[..at], bytes[at], bytes[at + 1..]);
    assert bytes == bytes[..at] + [bytes[at]] + bytes[at + 1..];
  }

  lemma NotInText(x: Text, bytes: seq<Byte>, c: Byte)
    requires IsUtf8(x) && x.utf8(bytes).Some? && c < 128 && c !in bytes
    ensures AsciiChar(c) !in x.utf8(bytes).value
  {
    assert AsciiIsItself(x, bytes, c);
  }

  lemma CutAt(front: string, stop: char, rest: string)
    requires stop !in front
    ensures var text := front + [stop] + rest;
            && IndexOf(text, {stop}) == |front| && text[..|front|] == front && text[|front| + 1..] == rest
  {
    var text := front + [stop] + rest;
    assert forall i :: 0 <= i < |front| ==> text[i] in front;
    IndexIs(text, {stop}, |front|);
  }

  lemma NeverStops(text: string, stop: char)
    requires stop !in text
    ensures IndexOf(text, {stop}) == |text|
  {}

  /** The lines the decoder is given are those of the text its bytes decode to. */
  lemma {:induction false} DecodedLinesAre(x: Text, bytes: seq<Byte>)
    requires IsUtf8(x) && x.utf8(bytes).Some?
    ensures ValidTexts(x, CompleteLines(bytes)) == DecodedLines(x.utf8(bytes).value)
    decreases |bytes|
  {
    var at, text := FirstNewline(bytes), x.utf8(bytes).value;
    if at == |bytes| {
      NotInText(x, bytes, NEWLINE);
      NeverStops(text, '\n');
    } else {
      var line, rest := bytes[..at], bytes[at + 1..];
      SplitText(x, bytes, at);
      NotInText(x, line, NEWLINE);
      CutAt(x.utf8(line).value, '\n', x.utf8(rest).value);
      DecodedLinesAre(x, rest);
      FirstText(x, line, CompleteLines(rest));
    }
  }

  // A carriage return byte that no newline byte follows.
  predicate BareByteAt(bytes: seq<Byte>, i: nat)
    requires i < |bytes|
  {
    bytes[i] == RETURN && !(i + 1 < |bytes| && bytes[i + 1] == NEWLINE)
  }

  predicate PairedBytes(bytes: seq<Byte>) {
    forall i :: 0 <= i < |bytes| ==> !BareByteAt(bytes, i)
  }

  predicate StartsLine(text: string) {
    text != "" && text[0] == '\n'
  }

  predicate StartsLineBytes(bytes: seq<Byte>) {
    bytes != [] && bytes[0] == NEWLINE
  }

  // A text or its bytes begin with a newline together.
  lemma StartsTogether(x: Text, bytes: seq<Byte>)
    requires IsUtf8(x) && x.utf8(bytes).Some?
    ensures StartsLineBytes(bytes) <==> StartsLine(x.utf8(bytes).value)
  {
    var at, text := FirstNewline(bytes), x.utf8(bytes).value;
    assert EmptyIsEmpty(x, []);
    if at == |bytes| {
      NotInText(x, bytes, NEWLINE);
    } else {
      SplitText(x, bytes, at);
      NotInText(x, bytes[..at], NEWLINE);
      assert EmptyIsEmpty(x, bytes[..at]);
      if at > 0 {
        assert text[0] == x.utf8(bytes[..at]).value[0];
      } else {
        assert bytes[..0] == [];
      }
    }
  }

  lemma PairedAtReturn(front: string, rest: string)
    requires '\r' !in front
    ensures Paired(front + "\r" + rest) <==> StartsLine(rest) && Paired(rest)
  {
    var text, at := front + "\r" + rest, |front|;
    assert text[at + 1..] == rest;
    assert BareAt(text, at) <==> !StartsLine(rest);
    if Paired(text) {
      PairedRest(text, at + 1);
    }
    if StartsLine(rest) && Paired(rest) {
      forall i | 0 <= i < |text| ensures !BareAt(text, i) {
        if i < at {
          assert text[i] in front;
        } else if i > at {
          BareInRest(text, at + 1, i);
        }
      }
    }
  }

  lemma PairedBytesAtReturn(front: seq<Byte>, rest: seq<Byte>)
    requires RETURN !in front
    ensures PairedBytes(front + [RETURN] + rest) <==> StartsLineBytes(rest) && PairedBytes(rest)
  {
    var bytes, at := front + [RETURN] + rest, |front|;
    assert forall i :: 0 <= i < |rest| ==> bytes[at + 1 + i] == rest[i];
    assert BareByteAt(bytes, at) <==> !StartsLineBytes(rest);
    if PairedBytes(bytes) {
      forall i | 0 <= i < |rest| ensures !BareByteAt(rest, i) {
        assert !BareByteAt(bytes, at + 1 + i);
      }
    }
    if StartsLineBytes(rest) && PairedBytes(rest) {
      forall i | 0 <= i < |bytes| ensures !BareByteAt(bytes, i) {
        if i < at {
          assert bytes[i] in front;
        } else if i > at {
          assert !BareByteAt(rest, i - at - 1);
        }
      }
    }
  }

  function FirstReturn(bytes: seq<Byte>): (at: nat)
    ensures at <= |bytes| && (at < |bytes| ==> bytes[at] == RETURN)
    ensures RETURN !in bytes[..at]
  {
    if bytes == [] || bytes[0] == RETURN then 0
    else
      var at := FirstReturn(bytes[1..]);
      assert bytes[..at + 1] == [bytes[0]] + bytes[1..][..at];
      at + 1
  }

  lemma {:induction false} PairedTogether(x: Text, bytes: seq<Byte>)
    requires IsUtf8(x) && x.utf8(bytes).Some?
    ensures PairedBytes(bytes) <==> Paired(x.utf8(bytes).value)
    decreases |bytes|
  {
    var at := FirstReturn(bytes);
    if at == |bytes| {
      assert bytes[..at] == bytes;
      NotInText(x, bytes, RETURN);
    } else {
      var front, rest := bytes[..at], bytes[at + 1..];
      SplitText(x, bytes, at);
      NotInText(x, front, RETURN);
      assert bytes == front + [RETURN] + rest;
      PairedBytesAtReturn(front, rest);
      PairedAtReturn(x.utf8(front).value, x.utf8(rest).value);
      StartsTogether(x, rest);
      PairedTogether(x, rest);
    }
  }

  /** From the bytes of a stream that is UTF-8 the decoder cuts the standard's lines exactly
      when every carriage return byte is followed by a newline byte. */
  lemma ByteLinesAgreeExactly(x: Text, bytes: seq<Byte>)
    requires IsUtf8(x) && x.utf8(bytes).Some?
    ensures ValidTexts(x, CompleteLines(bytes)) == StandardLines(x.utf8(bytes).value) <==> PairedBytes(bytes)
  {
    DecodedLinesAre(x, bytes);
    PairedTogether(x, bytes);
    LinesAgreeExactly(x.utf8(bytes).value);
  }
}
