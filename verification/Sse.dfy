/**
 The event-stream decoder: bytes arrive in arbitrary chunks, lines are cut out of a
 buffer, and a blank line dispatches the frame built so far.
 */
module Sse {
  import opened Prelude
  import opened Json
  import opened Lines

  datatype StreamEvent =
    | SessionChanged(sessionId: string, revision: U64)
    | Progress(sessionId: string, turnId: string, progress: Value)
    | ResyncRequired

  /** UTF-8 and JSON decoding; nothing is assumed about either. */
  datatype Text = Text(utf8: seq<Byte> -> Option<string>, json: string -> Option<Value>)

  // ---------- one line ----------

  // The Unicode White_Space characters.
  predicate IsSpace(c: char) {
    || '\t' <= c <= '\r' || c == ' ' || c == '\U{85}' || c == '\U{A0}' || c == '\U{1680}'
    || '\U{2000}' <= c <= '\U{200A}' || c == '\U{2028}' || c == '\U{2029}' || c == '\U{202F}'
    || c == '\U{205F}' || c == '\U{3000}'
  }

  /** The twenty-five of them, one by one. */
  lemma SpacesAre(c: char)
    ensures IsSpace(c) <==>
              c in {'\U{9}', '\U{A}', '\U{B}', '\U{C}', '\U{D}', '\U{20}', '\U{85}', '\U{A0}', '\U{1680}', '\U{2000}',
                    '\U{2001}', '\U{2002}', '\U{2003}', '\U{2004}', '\U{2005}', '\U{2006}', '\U{2007}', '\U{2008}',
                    '\U{2009}', '\U{200A}', '\U{2028}', '\U{2029}', '\U{202F}', '\U{205F}', '\U{3000}'}
  {}

  function TrimStart(s: string): (r: string)
    ensures r == "" || !IsSpace(r[0])
    ensures |r| <= |s| && r == s[|s| - |r|..]
    ensures forall i :: 0 <= i < |s| - |r| ==> IsSpace(s[i])
  {
    if s != "" && IsSpace(s[0]) then TrimStart(s[1..]) else s
  }

  function TrimEnd(s: string): (r: string)
    ensures r == "" || !IsSpace(r[|r| - 1])
    ensures r <= s && forall i :: |r| <= i < |s| ==> IsSpace(s[i])
  {
    if s != "" && IsSpace(s[|s| - 1]) then TrimEnd(s[..|s| - 1]) else s
  }

  function TrimCarriageReturns(s: string): (r: string)
    ensures r == "" || r[|r| - 1] != '\r'
    ensures r <= s && forall i :: |r| <= i < |s| ==> s[i] == '\r'
  {
    if s != "" && s[|s| - 1] == '\r' then TrimCarriageReturns(s[..|s| - 1]) else s
  }

  function StripPrefix(line: string, prefix: string): Option<string> {
    if prefix <= line then Some(line[|prefix|..]) else None
  }

  function ParseFrame(x: Text, eventType: Option<string>, data: string): Option<StreamEvent> {
    match x.json(data)
    case None => None
    case Some(value) =>
      match eventType
      case Some("session_changed") =>
        (match (value.GetStr("session_id"), value.GetU64("revision"))
         case (Some(id), Some(revision)) => Some(SessionChanged(id, revision))
         case _ => None)
      case Some("progress") =>
        (match (value.GetStr("session_id"), value.GetStr("turn_id"), value.Get("progress"))
         case (Some(id), Some(turn), Some(progress)) => Some(Progress(id, turn, progress))
         case _ => None)
      case Some("resync_required") => Some(ResyncRequired)
      case _ => None
  }

  datatype Decoder = Decoder(eventType: Option<string>, data: string)

  const FRESH: Decoder := Decoder(None, "")

  function AddData(data: string, value: string): string {
    if data == "" then value else data + "\n" + value
  }

  function LineStep(x: Text, d: Decoder, line: string): (Decoder, Option<StreamEvent>) {
    if line == "" then (FRESH, ParseFrame(x, d.eventType, d.data))
    else
      match StripPrefix(line, "event:")
      case Some(rest) => (d.(eventType := Some(TrimEnd(TrimStart(rest)))), None)
      case None =>
        match StripPrefix(line, "data:")
        case Some(rest) => (d.(data := AddData(d.data, TrimStart(rest))), None)
        case None => (d, None)
  }

  function Emitted(e: Option<StreamEvent>): seq<StreamEvent> {
    match e
    case Some(event) => [event]
    case None => []
  }

  // ---------- a byte stream, line by line ----------

  // A line that is text, as the decoder is fed it.
  function Feed(x: Text, d: Decoder, bytes: seq<Byte>): Option<(Decoder, Option<StreamEvent>)> {
    match x.utf8(bytes)
    case None => None
    case Some(line) => Some(LineStep(x, d, TrimCarriageReturns(line)))
  }

  // The events of the complete lines of `bytes`, up to the first that is not UTF-8.
  function Decode(x: Text, d: Decoder, bytes: seq<Byte>): seq<StreamEvent>
    decreases |bytes|
  {
    var at := FirstNewline(bytes);
    if at == |bytes| then []
    else
      match Feed(x, d, bytes[..at])
      case None => []
      case Some(fed) => Emitted(fed.1) + Decode(x, fed.0, bytes[at + 1..])
  }

  function Flatten(chunks: seq<seq<Byte>>): seq<Byte> {
    if chunks == [] then [] else chunks[0] + Flatten(chunks[1..])
  }

  lemma NewlineInFront(buf: seq<Byte>, more: seq<Byte>)
    requires FirstNewline(buf) < |buf|
    ensures var at := FirstNewline(buf);
            && FirstNewline(buf + more) == at
            && (buf + more)[..at] == buf[..at]
            && (buf + more)[at + 1..] == buf[at + 1..] + more
  {
    var at := FirstNewline(buf);
    assert (buf + more)[at] == NEWLINE;
    assert Unbroken(buf + more, 0, at);
    var f := FirstNewline(buf + more);
    assert f == at;
  }

  // What a line fed gives, and the decoding of the rest behind it.
  function Onward(x: Text, fed: Option<(Decoder, Option<StreamEvent>)>, rest: seq<Byte>): seq<StreamEvent> {
    match fed
    case None => []
    case Some((next, event)) => Emitted(event) + Decode(x, next, rest)
  }

  // The decoding of bytes that begin with a complete line.
  lemma LineDecodes(x: Text, d: Decoder, bytes: seq<Byte>, line: seq<Byte>, rest: seq<Byte>)
    requires FirstNewline(bytes) == |line| < |bytes| && line == bytes[..|line|] && rest == bytes[|line| + 1..]
    ensures Decode(x, d, bytes) == Onward(x, Feed(x, d, line), rest)
  {}

  lemma NothingInFront(events: seq<StreamEvent>)
    ensures Emitted(None) + events == events
  {}

  lemma FlattenFirst(buf: seq<Byte>, chunks: seq<seq<Byte>>)
    requires chunks != []
    ensures (buf + chunks[0]) + Flatten(chunks[1..]) == buf + Flatten(chunks)
  {}

  datatype Drained = Event(event: StreamEvent) | NeedsMore | Malformed

  class EventStream {
    var text: Text
    var buf: seq<Byte>
    var decoder: Decoder
    var done: bool
    // The chunks still to be read before the stream ends, fails or stays silent too long.
    var incoming: seq<seq<Byte>>

    // The events a reader that keeps asking will still be given.
    function Remaining(): seq<StreamEvent>
      reads this
    {
      if done then [] else Decode(text, decoder, buf + Flatten(incoming))
    }

    constructor (text: Text, chunks: seq<seq<Byte>>)
      ensures Remaining() == Decode(text, FRESH, Flatten(chunks))
      ensures !done && this.text == text
    {
      this.text, buf, decoder, done, incoming := text, [], FRESH, false, chunks;
      new;
      assert [] + Flatten(chunks) == Flatten(chunks);
    }

    // Feeds the first line of the buffer to the decoder; None if it yields no event.
    method TakeLine(newline: nat) returns (r: Option<Drained>)
      requires !done && newline == FirstNewline(buf) < |buf|
      modifies this`buf, this`decoder
      ensures |buf| < |old(buf)|
      ensures match r
              case None => old(Remaining()) == Remaining()
              case Some(Event(e)) => old(Remaining()) == [e] + Remaining()
              case Some(_) => r == Some(Malformed) && old(Remaining()) == []
    {
      ghost var more := Flatten(incoming);
      NewlineInFront(buf, more);
      LineDecodes(text, decoder, buf + more, buf[..newline], buf[newline + 1..] + more);
      var fed := Feed(text, decoder, buf[..newline]);
      buf := buf[newline + 1..];
      if fed == None {
        return Some(Malformed);
      }
      var (next, event) := fed.value;
      decoder := next;
      NothingInFront(Remaining());
      r := match event case Some(e) => Some(Event(e)) case None => None;
    }

    // Feeds the complete lines of the buffer to the decoder until one yields an event.
    method DrainLines() returns (r: Drained)
      requires !done
      modifies this`buf, this`decoder
      ensures r.Event? ==> old(Remaining()) == [r.event] + Remaining()
      ensures r.NeedsMore? ==> old(Remaining()) == Remaining() && FirstNewline(buf) == |buf|
      ensures r.Malformed? ==> old(Remaining()) == []
    {
      while true
        invariant Remaining() == old(Remaining())
        decreases |buf|
      {
        var newline := FirstNewline(buf);
        if newline == |buf| {
          return NeedsMore;
        }
        var taken := TakeLine(newline);
        if taken.Some? {
          return taken.value;
        }
      }
    }

    /**
     Each call gives the next event of the stream's decoding, or None for ever once there
     is none, whatever the chunks were.
     */
    method NextEvent() returns (r: Option<StreamEvent>)
      modifies this
      ensures text == old(text)
      ensures if old(Remaining()) == [] then r == None && done
              else r == Some(old(Remaining())[0]) && Remaining() == old(Remaining())[1..]
    {
      if done {
        return None;
      }
      while true
        invariant !done && text == old(text)
        invariant Remaining() == old(Remaining())
        decreases |incoming|
      {
        var drained := DrainLines();
        match drained {
          case Event(e) =>
            return Some(e);
          case Malformed =>
            done := true;
            return None;
          case NeedsMore =>
        }
        if incoming == [] {
          assert buf + [] == buf;
          done := true;
          return None;
        }
        FlattenFirst(buf, incoming);
        buf := buf + incoming[0];
        incoming := incoming[1..];
      }
    }
  }
}
