/** What the server writes into an event stream, and that the client reads it all back. */
module SseRoundTrip {
  import opened Prelude
  import opened Lines
  import opened Json
  import opened Sse
  import opened SseFrames

  // ---------- the server's side ----------

  /** The encoders the server uses. */
  datatype Writer = Writer(encode: string -> seq<Byte>, emit: Value -> string)

  // UTF-8 and JSON texts are read back; a text without a newline has no newline byte; JSON
  // escapes control characters and begins with no white space (RFC 8259, sections 2 and 7).
  ghost predicate Reads(x: Text, w: Writer) {
    && (forall text :: x.utf8(w.encode(text)) == Some(text))
    && (forall text :: '\n' !in text ==> NEWLINE !in w.encode(text))
    && (forall value :: x.json(w.emit(value)) == Some(value) && OneLineJson(w.emit(value)))
  }

  predicate OneLineJson(text: string) {
    text != "" && !IsSpace(text[0]) && '\n' !in text && '\r' !in text
  }

  /** What is put on the stream: events, notices to resynchronise a receiver that fell
      behind, and comments that keep the connection alive. */
  datatype Sent = Publish(event: StreamEvent) | Lagged | KeepAlive

  function Name(event: StreamEvent): string {
    match event
    case SessionChanged(_, _) => "session_changed"
    case Progress(_, _, _) => "progress"
    case ResyncRequired => "resync_required"
  }

  function Payload(event: StreamEvent): Value {
    match event
    case SessionChanged(id, revision) =>
      Obj(map["type" := Str("session_changed"), "session_id" := Str(id), "revision" := Num(revision)])
    case Progress(id, turn, progress) =>
      Obj(map["type" := Str("progress"), "session_id" := Str(id), "turn_id" := Str(turn), "progress" := progress])
    case ResyncRequired => Obj(map["type" := Str("resync_required")])
  }

  function FrameTexts(name: string, data: string): seq<string> {
    ["event: " + name, "data: " + data, ""]
  }

  function SentTexts(w: Writer, sent: Sent): seq<string> {
    match sent
    case Publish(event) => FrameTexts(Name(event), w.emit(Payload(event)))
    case Lagged => FrameTexts("resync_required", w.emit(Obj(map[])))
    case KeepAlive => [":", ""]
  }

  function AllTexts(w: Writer, sent: seq<Sent>): seq<string> {
    if sent == [] then [] else SentTexts(w, sent[0]) + AllTexts(w, sent[1..])
  }

  function StreamBytes(w: Writer, texts: seq<string>): seq<Byte> {
    if texts == [] then [] else w.encode(texts[0]) + [NEWLINE] + StreamBytes(w, texts[1..])
  }

  // The events a receiver is meant to get.
  function Gives(sent: Sent): seq<StreamEvent> {
    match sent
    case Publish(event) => [event]
    case Lagged => [ResyncRequired]
    case KeepAlive => []
  }

  function Meant(sent: seq<Sent>): seq<StreamEvent> {
    if sent == [] then [] else Gives(sent[0]) + Meant(sent[1..])
  }

  // ---------- the client's side ----------

  lemma TrimsOneSpace(text: string)
    requires text != "" && !IsSpace(text[0])
    ensures TrimStart(" " + text) == text
  {
    assert (" " + text)[1..] == text;
  }

  lemma TrimsTheName(name: string)
    requires name != "" && !IsSpace(name[0]) && !IsSpace(name[|name| - 1])
    ensures TrimEnd(TrimStart(" " + name)) == name
  {
    TrimsOneSpace(name);
  }

  lemma Stripped(prefix: string, rest: string)
    requires prefix != ""
    ensures StripPrefix(prefix + rest, prefix) == Some(rest) && prefix + rest != ""
  {}

  lemma SpaceInBetween(prefix: string, spaced: string, rest: string)
    requires spaced == prefix + " "
    ensures spaced + rest == prefix + (" " + rest)
  {}

  // What a name line and a data line do to a decoder.
  lemma NameStep(x: Text, d: Decoder, line: string, rest: string)
    requires line != "" && StripPrefix(line, "event:") == Some(rest)
    ensures LineStep(x, d, line) == (d.(eventType := Some(TrimEnd(TrimStart(rest)))), None)
  {}

  lemma DataStep(x: Text, d: Decoder, line: string, rest: string)
    requires line != "" && StripPrefix(line, "event:") == None && StripPrefix(line, "data:") == Some(rest)
    ensures LineStep(x, d, line) == (d.(data := AddData(d.data, TrimStart(rest))), None)
  {}

  lemma NoName(line: string)
    requires line != "" && line[0] == 'd'
    ensures StripPrefix(line, "event:") == None
  {}

  lemma NameLine(x: Text, name: string)
    requires name != "" && !IsSpace(name[0]) && !IsSpace(name[|name| - 1])
    ensures LineStep(x, FRESH, "event: " + name) == (Decoder(Some(name), ""), None)
  {
    SpaceInBetween("event:", "event: ", name);
    Stripped("event:", " " + name);
    TrimsTheName(name);
    NameStep(x, FRESH, "event: " + name, " " + name);
  }

  lemma DataLine(x: Text, name: string, data: string)
    requires data != "" && !IsSpace(data[0])
    ensures LineStep(x, Decoder(Some(name), ""), "data: " + data) == (Decoder(Some(name), data), None)
  {
    SpaceInBetween("data:", "data: ", data);
    Stripped("data:", " " + data);
    NoName("data: " + data);
    TrimsOneSpace(data);
    DataStep(x, Decoder(Some(name), ""), "data: " + data, " " + data);
  }

  // A frame and what follows it.
  lemma FrameDecodes(x: Text, name: string, data: string, rest: seq<string>)
    requires name != "" && !IsSpace(name[0]) && !IsSpace(name[|name| - 1]) && data != "" && !IsSpace(data[0])
    ensures DecodeTexts(x, FRESH, FrameTexts(name, data) + rest) ==
            Emitted(ParseFrame(x, Some(name), data)) + DecodeTexts(x, FRESH, rest)
  {
    var texts := FrameTexts(name, data) + rest;
    NameLine(x, name);
    DataLine(x, name, data);
    assert texts[0] == "event: " + name && texts[1..][0] == "data: " + data && texts[1..][1..][0] == "";
    assert texts[1..][1..][1..] == rest;
    assert DecodeTexts(x, FRESH, texts) == DecodeTexts(x, Decoder(Some(name), ""), texts[1..]);
    assert DecodeTexts(x, Decoder(Some(name), ""), texts[1..]) ==
           DecodeTexts(x, Decoder(Some(name), data), texts[1..][1..]);
  }

  lemma CommentDecodes(x: Text, rest: seq<string>)
    ensures DecodeTexts(x, FRESH, [":", ""] + rest) == DecodeTexts(x, FRESH, rest)
  {
    var texts := [":", ""] + rest;
    assert texts[0] == ":" && texts[1..][0] == "" && texts[1..][1..] == rest;
    assert LineStep(x, FRESH, ":") == (FRESH, None);
    assert ParseFrame(x, None, "") == None;
    assert DecodeTexts(x, FRESH, texts) == DecodeTexts(x, FRESH, texts[1..]);
  }

  lemma FieldsOfPayload(x: Text, event: StreamEvent, data: string)
    requires x.json(data) == Some(Payload(event))
    ensures ParseFrame(x, Some(Name(event)), data) == Some(event)
  {
    var value := Payload(event);
    match event
    case SessionChanged(id, revision) =>
      assert value.GetStr("session_id") == Some(id) && value.GetU64("revision") == Some(revision);
    case Progress(id, turn, progress) =>
      assert value.GetStr("session_id") == Some(id) && value.GetStr("turn_id") == Some(turn);
      assert value.Get("progress") == Some(progress);
    case ResyncRequired =>
  }

  // An event's own name and payload give the event.
  lemma PayloadGivesTheEvent(x: Text, w: Writer, event: StreamEvent)
    requires Reads(x, w)
    ensures ParseFrame(x, Some(Name(event)), w.emit(Payload(event))) == Some(event)
  {
    FieldsOfPayload(x, event, w.emit(Payload(event)));
  }

  // A value carries an event if it has the event's own fields, whatever else it has.
  predicate Carries(value: Value, event: StreamEvent) {
    match event
    case SessionChanged(id, revision) =>
      value.Obj? && Field(value, "session_id") == Some(Str(id)) && Field(value, "revision") == Some(Num(revision))
    case Progress(id, turn, progress) =>
      value.Obj? && Field(value, "session_id") == Some(Str(id)) && Field(value, "turn_id") == Some(Str(turn))
      && Field(value, "progress") == Some(progress)
    case ResyncRequired => true
  }

  function Field(value: Value, key: string): Option<Value>
    requires value.Obj?
  {
    if key in value.fields then Some(value.fields[key]) else None
  }

  /** A frame gives an event exactly when it bears the event's name and its data are JSON that
      carries the event. */
  lemma FrameGivesExactly(x: Text, name: Option<string>, data: string, event: StreamEvent)
    ensures ParseFrame(x, name, data) == Some(event) <==>
              name == Some(Name(event)) && x.json(data).Some? && Carries(x.json(data).value, event)
  {}

  lemma LaggedGivesResync(x: Text, w: Writer)
    requires Reads(x, w)
    ensures ParseFrame(x, Some("resync_required"), w.emit(Obj(map[]))) == Some(ResyncRequired)
  {}

  lemma SentDecodes(x: Text, w: Writer, sent: Sent, rest: seq<string>)
    requires Reads(x, w)
    ensures DecodeTexts(x, FRESH, SentTexts(w, sent) + rest) == Gives(sent) + DecodeTexts(x, FRESH, rest)
  {
    match sent
    case Publish(event) =>
      assert OneLineJson(w.emit(Payload(event)));
      FrameDecodes(x, Name(event), w.emit(Payload(event)), rest);
      PayloadGivesTheEvent(x, w, event);
    case Lagged =>
      assert OneLineJson(w.emit(Obj(map[])));
      FrameDecodes(x, "resync_required", w.emit(Obj(map[])), rest);
      LaggedGivesResync(x, w);
    case KeepAlive => CommentDecodes(x, rest);
  }

  lemma {:induction false} AllDecode(x: Text, w: Writer, sent: seq<Sent>)
    requires Reads(x, w)
    ensures DecodeTexts(x, FRESH, AllTexts(w, sent)) == Meant(sent)
  {
    if sent != [] {
      SentDecodes(x, w, sent[0], AllTexts(w, sent[1..]));
      AllDecode(x, w, sent[1..]);
    }
  }

  // ---------- the bytes in between ----------

  predicate Plain(text: string) {
    '\n' !in text && '\r' !in text
  }

  ghost predicate AllPlain(texts: seq<string>) {
    forall i :: 0 <= i < |texts| ==> Plain(texts[i])
  }

  lemma PlainJoins(front: seq<string>, back: seq<string>)
    requires AllPlain(front) && AllPlain(back)
    ensures AllPlain(front + back)
  {}

  lemma FrameIsPlain(name: string, data: string)
    requires Plain(name) && Plain(data)
    ensures AllPlain(FrameTexts(name, data))
  {
    assert Plain("event: " + name) && Plain("data: " + data) && Plain("");
  }

  lemma NameIsPlain(event: StreamEvent)
    ensures Plain(Name(event))
  {}

  lemma EventIsPlain(x: Text, w: Writer, event: StreamEvent)
    requires Reads(x, w)
    ensures AllPlain(FrameTexts(Name(event), w.emit(Payload(event))))
  {
    NameIsPlain(event);
    assert OneLineJson(w.emit(Payload(event)));
    FrameIsPlain(Name(event), w.emit(Payload(event)));
  }

  lemma LaggedIsPlain(x: Text, w: Writer)
    requires Reads(x, w)
    ensures AllPlain(FrameTexts("resync_required", w.emit(Obj(map[]))))
  {
    NameIsPlain(ResyncRequired);
    assert OneLineJson(w.emit(Obj(map[])));
    FrameIsPlain("resync_required", w.emit(Obj(map[])));
  }

  lemma CommentIsPlain()
    ensures AllPlain([":", ""])
  {}

  lemma SentIsPlain(x: Text, w: Writer, sent: Sent)
    requires Reads(x, w)
    ensures AllPlain(SentTexts(w, sent))
  {
    match sent
    case Publish(event) => EventIsPlain(x, w, event);
    case Lagged => LaggedIsPlain(x, w);
    case KeepAlive => CommentIsPlain();
  }

  lemma {:induction false} TextsArePlain(x: Text, w: Writer, sent: seq<Sent>)
    requires Reads(x, w)
    ensures AllPlain(AllTexts(w, sent))
  {
    if sent != [] {
      SentIsPlain(x, w, sent[0]);
      TextsArePlain(x, w, sent[1..]);
      PlainJoins(SentTexts(w, sent[0]), AllTexts(w, sent[1..]));
    }
  }

  // One line in front of a stream.
  lemma FirstLineOfStream(x: Text, w: Writer, text: string, rest: seq<Byte>)
    requires Reads(x, w) && Plain(text)
    ensures ValidTexts(x, CompleteLines(w.encode(text) + [NEWLINE] + rest)) ==
            [text] + ValidTexts(x, CompleteLines(rest))
  {
    var line := w.encode(text);
    var bytes := line + [NEWLINE] + rest;
    assert x.utf8(line) == Some(text) && NEWLINE !in line;
    assert bytes[|line|] == NEWLINE && forall i :: 0 <= i < |line| ==> bytes[i] in line;
    assert FirstNewline(bytes) == |line| && bytes[..|line|] == line && bytes[|line| + 1..] == rest;
    FirstText(x, line, CompleteLines(rest));
    assert TrimCarriageReturns(text) == text;
  }

  lemma {:induction false} LinesOfStream(x: Text, w: Writer, texts: seq<string>)
    requires Reads(x, w) && AllPlain(texts)
    ensures ValidTexts(x, CompleteLines(StreamBytes(w, texts))) == texts
  {
    if texts != [] {
      FirstLineOfStream(x, w, texts[0], StreamBytes(w, texts[1..]));
      LinesOfStream(x, w, texts[1..]);
    }
  }

  /**
   Whatever the server puts on a stream, the client decodes exactly the events that were
   published, with a resynchronisation for each time it fell behind, in order; comments give
   nothing.
   */
  lemma EveryEventSentIsReceived(x: Text, w: Writer, sent: seq<Sent>)
    requires Reads(x, w)
    ensures Decode(x, FRESH, StreamBytes(w, AllTexts(w, sent))) == Meant(sent)
  {
    var texts := AllTexts(w, sent);
    TextsArePlain(x, w, sent);
    LinesOfStream(x, w, texts);
    DecodeReadsTexts(x, FRESH, StreamBytes(w, texts));
    AllDecode(x, w, sent);
  }
}
