/** The dashboard's side of the connection (`CommThread`): how a chunk read
    from the socket is cut into messages and sorted into command responses
    and sensor data, and how a command is written to the socket.

    A chunk is decoded, stripped, split on newlines, and each non-empty piece
    is parsed on its own; `parse` stands for `json.loads` and returns None
    where it raises `JSONDecodeError`. The order of dictionary keys is not
    modelled. */
module CommThread {
  import opened Json
  import opened Strings
  import opened Simulator

  // ---------------------------------------------------------------------
  // The receive loop of `run`
  // ---------------------------------------------------------------------

  /** Python's `"status" in reading` for a decoded value: a key test on a
      dict, an element test on a list, a substring test on a str, and a
      `TypeError` (None) on a number, a bool or None. */
  function StatusIn(j: Json): (r: Option<bool>)
    ensures r.None? <==> !(j.JObj? || j.JArr? || j.JStr?)
    ensures j.JObj? ==> r == Some("status" in j.fields)
  {
    match j
    case JObj(fields) => Some("status" in fields)
    case JArr(items) => Some(JStr("status") in items)
    case JStr(s) => Some(Contains(s, "status"))
    case _ => None
  }

  /** What the loop does with one piece: skip it (empty, or not JSON), treat
      it as a command response, hand it to `data_received`, or raise out of
      the receive loop. */
  datatype Kind = Skip | Ack | Deliver(reading: Json) | Crash

  /** One piece, as the source handles it. The `TypeError` of `"status" in
      reading` is not one of the exceptions caught around it, so it leaves
      the receive loop. */
  function ClassifyAsWritten(msg: string, parse: string -> Option<Json>): (k: Kind)
    ensures k.Crash? <==> msg != [] && parse(msg).Some? && StatusIn(parse(msg).value).None?
    ensures k.Deliver? ==> msg != [] && parse(msg) == Some(k.reading) && StatusIn(k.reading) == Some(false)
  {
    if msg == [] then Skip
    else
      match parse(msg)
      case None => Skip
      case Some(reading) =>
        match StatusIn(reading)
        case None => Crash
        case Some(true) => Ack
        case Some(false) => Deliver(reading)
  }

  /** One piece, as evidently intended: only an object can be a data packet
      or a response; any other decoded value is ignored like text that does
      not parse. */
  function Classify(msg: string, parse: string -> Option<Json>): (k: Kind)
    ensures !k.Crash?
    ensures k.Deliver? <==> msg != [] && parse(msg).Some? && parse(msg).value.JObj? && "status" !in parse(msg).value.fields
    ensures k.Deliver? ==> parse(msg) == Some(k.reading)
    ensures k.Ack? <==> msg != [] && parse(msg).Some? && parse(msg).value.JObj? && "status" in parse(msg).value.fields
  {
    if msg == [] then Skip
    else
      match parse(msg)
      case None => Skip
      case Some(reading) =>
        if !reading.JObj? then Skip
        else if "status" in reading.fields then Ack
        else Deliver(reading)
  }

  /** The pieces of a chunk: `data.decode('utf-8').strip().split('\n')`. */
  function Pieces(chunk: string): (ps: seq<string>)
    ensures |ps| >= 1 && Join(ps, '\n') == Strip(chunk)
    ensures forall k :: 0 <= k < |ps| ==> '\n' !in ps[k]
  {
    Split(Strip(chunk), '\n')
  }

  /** What one chunk produces: the values emitted in order, and whether the
      receive loop was left by an exception, abandoning the connection. */
  datatype ChunkResult = ChunkResult(delivered: seq<Json>, crashed: bool)

  /** The `for msg in messages` loop as written: a crash ends it, and what
      was emitted before stays emitted. */
  function HandleAsWritten(pieces: seq<string>, parse: string -> Option<Json>): (r: ChunkResult)
    ensures |r.delivered| <= |pieces|
    ensures r.crashed <==> exists k :: 0 <= k < |pieces| && ClassifyAsWritten(pieces[k], parse).Crash?
    decreases |pieces|
  {
    if pieces == [] then ChunkResult([], false)
    else
      match ClassifyAsWritten(pieces[0], parse)
      case Crash => ChunkResult([], true)
      case Deliver(reading) =>
        var rest := HandleAsWritten(pieces[1..], parse);
        assert forall k :: 1 <= k < |pieces| ==> pieces[k] == pieces[1..][k - 1];
        ChunkResult([reading] + rest.delivered, rest.crashed)
      case _ =>
        assert forall k :: 1 <= k < |pieces| ==> pieces[k] == pieces[1..][k - 1];
        HandleAsWritten(pieces[1..], parse)
  }

  /** The loop as evidently intended: every piece is classified on its own,
      and only objects without a `"status"` key are emitted. */
  function Handle(pieces: seq<string>, parse: string -> Option<Json>): (r: seq<Json>)
    ensures |r| <= |pieces|
    ensures forall j | j in r :: j.JObj? && "status" !in j.fields
    decreases |pieces|
  {
    if pieces == [] then []
    else
      var rest := Handle(pieces[1..], parse);
      match Classify(pieces[0], parse)
      case Deliver(reading) => [reading] + rest
      case _ => rest
  }

  function ReceiveAsWritten(chunk: string, parse: string -> Option<Json>): ChunkResult {
    HandleAsWritten(Pieces(chunk), parse)
  }

  function Receive(chunk: string, parse: string -> Option<Json>): seq<Json> {
    Handle(Pieces(chunk), parse)
  }

  /** As written, a piece that makes the loop raise loses every piece after
      it in the same chunk, whatever they hold. */
  lemma {:induction false} CrashLosesRest(before: seq<string>, bad: string, after: seq<string>, parse: string -> Option<Json>)
    requires !HandleAsWritten(before, parse).crashed
    requires ClassifyAsWritten(bad, parse).Crash?
    ensures HandleAsWritten(before + [bad] + after, parse)
         == ChunkResult(HandleAsWritten(before, parse).delivered, true)
    decreases |before|
  {
    var all := before + [bad] + after;
    if before == [] {
      assert all[0] == bad;
    } else {
      assert all[0] == before[0];
      assert all[1..] == before[1..] + [bad] + after;
      assert !ClassifyAsWritten(before[0], parse).Crash?;
      CrashLosesRest(before[1..], bad, after, parse);
    }
  }

  /** When every piece that parses is an object, the loop as written and as
      intended agree, and nothing crashes. */
  lemma {:induction false} AgreeOnObjects(pieces: seq<string>, parse: string -> Option<Json>)
    requires forall k :: 0 <= k < |pieces| && pieces[k] != [] && parse(pieces[k]).Some? ==> parse(pieces[k]).value.JObj?
    ensures HandleAsWritten(pieces, parse) == ChunkResult(Handle(pieces, parse), false)
    decreases |pieces|
  {
    if pieces != [] {
      assert forall k :: 0 <= k < |pieces[1..]| ==> pieces[1..][k] == pieces[k + 1];
      AgreeOnObjects(pieces[1..], parse);
    }
  }

  /** One piece on its own: emitted exactly when it is classified as data. */
  lemma HandleOne(p: string, parse: string -> Option<Json>)
    ensures Handle([p], parse) == (if Classify(p, parse).Deliver? then [Classify(p, parse).reading] else [])
    ensures HandleAsWritten([p], parse)
         == match ClassifyAsWritten(p, parse)
            case Crash => ChunkResult([], true)
            case Deliver(reading) => ChunkResult([reading], false)
            case _ => ChunkResult([], false)
  {
    assert [p][1..] == [];
  }

  /** The intended loop handles each piece on its own: a chunk's result is
      the results of its parts, in order. Together with `HandleOne` this
      says exactly which pieces are emitted, in chunk order. */
  lemma {:induction false} HandleConcat(a: seq<string>, b: seq<string>, parse: string -> Option<Json>)
    ensures Handle(a + b, parse) == Handle(a, parse) + Handle(b, parse)
    decreases |a|
  {
    if a == [] {
      assert a + b == b;
    } else {
      assert (a + b)[0] == a[0];
      assert (a + b)[1..] == a[1..] + b;
      HandleConcat(a[1..], b, parse);
    }
  }

  /** As written, a part that does not crash is followed by the next part
      as if it came alone: its emissions come first, and the crash flag is
      the next part's. */
  lemma {:induction false} HandleAsWrittenConcat(a: seq<string>, b: seq<string>, parse: string -> Option<Json>)
    requires !HandleAsWritten(a, parse).crashed
    ensures HandleAsWritten(a + b, parse)
         == ChunkResult(HandleAsWritten(a, parse).delivered + HandleAsWritten(b, parse).delivered,
                        HandleAsWritten(b, parse).crashed)
    decreases |a|
  {
    if a == [] {
      assert a + b == b;
    } else {
      assert (a + b)[0] == a[0];
      assert (a + b)[1..] == a[1..] + b;
      HandleAsWrittenConcat(a[1..], b, parse);
    }
  }

  /** An empty piece, or one `json.loads` rejects, is skipped by both
      loops: it emits nothing, and the pieces after it are still handled. */
  lemma SkippedPiece(before: seq<string>, p: string, after: seq<string>, parse: string -> Option<Json>)
    requires p == [] || parse(p).None?
    ensures Classify(p, parse).Skip? && ClassifyAsWritten(p, parse).Skip?
    ensures Handle(before + [p] + after, parse) == Handle(before + after, parse)
    ensures HandleAsWritten(before + [p] + after, parse) == HandleAsWritten(before + after, parse)
  {
    HandleConcat(before + [p], after, parse);
    HandleConcat(before, [p], parse);
    HandleConcat(before, after, parse);
    HandleOne(p, parse);
    if !HandleAsWritten(before, parse).crashed {
      HandleAsWrittenConcat(before + [p], after, parse);
      HandleAsWrittenConcat(before, [p], parse);
      HandleAsWrittenConcat(before, after, parse);
    } else {
      HandleAsWrittenCrashed(before, [p] + after, parse);
      HandleAsWrittenCrashed(before, after, parse);
      assert before + [p] + after == before + ([p] + after);
    }
  }

  /** As written, once a part crashes nothing after it counts. */
  lemma {:induction false} HandleAsWrittenCrashed(a: seq<string>, b: seq<string>, parse: string -> Option<Json>)
    requires HandleAsWritten(a, parse).crashed
    ensures HandleAsWritten(a + b, parse) == HandleAsWritten(a, parse)
    decreases |a|
  {
    assert a != [];
    assert (a + b)[0] == a[0];
    assert (a + b)[1..] == a[1..] + b;
    if !ClassifyAsWritten(a[0], parse).Crash? {
      HandleAsWrittenCrashed(a[1..], b, parse);
    }
  }

  /** `json.loads` on the two pieces of the chunk below; anything else
      raises `JSONDecodeError`. */
  function ScalarChunkParse(m: string): Option<Json> {
    if m == "5" then Some(JInt(5)) else if m == "{}" then Some(JObj(map[])) else None
  }

  lemma ScalarChunkStripped()
    ensures Strip("5\n{}") == "5\n{}"
  {
    StripStripped("5\n{}");
  }

  lemma ScalarChunkSplit()
    ensures Split("5\n{}", '\n') == ["5", "{}"]
  {
    SplitNoSep("5", '\n');
    SplitNoSep("{}", '\n');
    SplitConcat("5", "{}", '\n');
    assert "5" + ['\n'] + "{}" == "5\n{}";
  }

  /** The chunk `"5\n{}"` has two pieces. */
  lemma ScalarChunkPieces()
    ensures Pieces("5\n{}") == ["5", "{}"]
  {
    ScalarChunkStripped();
    ScalarChunkSplit();
  }

  /** The input that shows the discrepancy: a chunk holding the scalar `5`
      and then an empty object. As written the object is lost and the
      connection is abandoned; as intended the object is emitted. */
  lemma ScalarLineLosesData()
    ensures ReceiveAsWritten("5\n{}", ScalarChunkParse) == ChunkResult([], true)
    ensures Receive("5\n{}", ScalarChunkParse) == [JObj(map[])]
  {
    ScalarChunkPieces();
    var ps := ["5", "{}"];
    assert ps[1..] == ["{}"];
    assert ClassifyAsWritten("5", ScalarChunkParse) == Crash;
    assert Classify("5", ScalarChunkParse) == Skip;
    assert Classify("{}", ScalarChunkParse) == Deliver(JObj(map[]));
    assert Handle(["{}"], ScalarChunkParse) == [JObj(map[])];
  }

  /** `json.loads` on the strings below: only `"{}"` is JSON. */
  function HalvesParse(m: string): Option<Json> {
    if m == "{}" then Some(JObj(map[])) else None
  }

  /** A message that arrives split over two reads is lost: each half is
      parsed on its own and neither is JSON. */
  lemma SplitMessageLost()
    ensures Receive("{}\n", HalvesParse) == [JObj(map[])]
    ensures Receive("{", HalvesParse) == [] && Receive("}\n", HalvesParse) == []
  {
    OneLine("{}");
    OneLine("}");
    assert Strip("{") == "{";
    SplitNoSep("{", '\n');
    assert Pieces("{") == ["{"];
  }

  /** A single stripped line followed by a newline is one piece. */
  lemma OneLine(line: string)
    requires line != [] && Stripped(line) && '\n' !in line
    ensures Pieces(line + "\n") == [line]
  {
    StripTrailing(line, "\n");
    SplitNoSep(line, '\n');
  }

  // ---------------------------------------------------------------------
  // The framing contract between the two ends
  // ---------------------------------------------------------------------

  /** What the server writes for a sequence of values: each serialised and
      followed by one newline. */
  function Wire(frames: seq<Json>, dumps: Json -> string): string
    decreases |frames|
  {
    if frames == [] then "" else dumps(frames[0]) + "\n" + Wire(frames[1..], dumps)
  }

  /** What `json.dumps` guarantees for a value: a non-empty single line with
      no white space at either end, which `json.loads` reads back. */
  predicate GoodDump(j: Json, dumps: Json -> string, parse: string -> Option<Json>) {
    var d := dumps(j);
    d != [] && Stripped(d) && '\n' !in d && parse(d) == Some(j)
  }

  /** The values the client should emit: the objects without a `"status"`
      key, in order. */
  function DataOnly(frames: seq<Json>): (r: seq<Json>)
    ensures |r| <= |frames|
    decreases |frames|
  {
    if frames == [] then []
    else if frames[0].JObj? && "status" !in frames[0].fields then [frames[0]] + DataOnly(frames[1..])
    else DataOnly(frames[1..])
  }

  function Dumped(frames: seq<Json>, dumps: Json -> string): (ds: seq<string>)
    ensures |ds| == |frames| && forall k :: 0 <= k < |frames| ==> ds[k] == dumps(frames[k])
  {
    seq(|frames|, k requires 0 <= k < |frames| => dumps(frames[k]))
  }

  lemma {:induction false} WireIsJoin(frames: seq<Json>, dumps: Json -> string)
    requires frames != []
    ensures Wire(frames, dumps) == Join(Dumped(frames, dumps), '\n') + "\n"
    decreases |frames|
  {
    if |frames| > 1 {
      WireIsJoin(frames[1..], dumps);
      assert Dumped(frames, dumps)[1..] == Dumped(frames[1..], dumps);
    }
  }

  lemma {:induction false} HandleDumped(frames: seq<Json>, dumps: Json -> string, parse: string -> Option<Json>)
    requires forall k :: 0 <= k < |frames| ==> GoodDump(frames[k], dumps, parse)
    ensures Handle(Dumped(frames, dumps), parse) == DataOnly(frames)
    decreases |frames|
  {
    if frames != [] {
      assert Dumped(frames, dumps)[1..] == Dumped(frames[1..], dumps);
      assert GoodDump(frames[0], dumps, parse);
      HandleDumped(frames[1..], dumps, parse);
    }
  }

  /** Every serialised frame is a non-empty stripped line. */
  lemma DumpedLines(frames: seq<Json>, dumps: Json -> string, parse: string -> Option<Json>)
    requires forall k :: 0 <= k < |frames| ==> GoodDump(frames[k], dumps, parse)
    ensures forall k :: 0 <= k < |frames| ==>
      var d := Dumped(frames, dumps)[k]; d != [] && Stripped(d) && '\n' !in d
  {
    forall k | 0 <= k < |frames|
      ensures var d := Dumped(frames, dumps)[k]; d != [] && Stripped(d) && '\n' !in d
    {
      assert GoodDump(frames[k], dumps, parse);
    }
  }

  /** The pieces of a chunk holding whole frames are the serialised frames. */
  lemma WirePieces(frames: seq<Json>, dumps: Json -> string, parse: string -> Option<Json>)
    requires forall k :: 0 <= k < |frames| ==> GoodDump(frames[k], dumps, parse)
    ensures Pieces(Wire(frames, dumps)) == (if frames == [] then [""] else Dumped(frames, dumps))
  {
    if frames == [] {
      assert Strip("") == "";
    } else {
      var ds := Dumped(frames, dumps);
      WireStrip(frames, dumps, parse);
      DumpedLines(frames, dumps, parse);
      SplitJoin(ds, '\n');
    }
  }

  /** Stripping a chunk of whole frames removes only the final newline. */
  lemma WireStrip(frames: seq<Json>, dumps: Json -> string, parse: string -> Option<Json>)
    requires frames != []
    requires forall k :: 0 <= k < |frames| ==> GoodDump(frames[k], dumps, parse)
    ensures Strip(Wire(frames, dumps)) == Join(Dumped(frames, dumps), '\n')
  {
    var ds := Dumped(frames, dumps);
    DumpedLines(frames, dumps, parse);
    WireIsJoin(frames, dumps);
    JoinStripped(ds, '\n');
    StripNewline(Join(ds, '\n'));
  }

  /** Newline framing round-trips: a chunk that holds whole frames gives the
      client exactly the data packets among them, in order. */
  lemma WireRoundTrip(frames: seq<Json>, dumps: Json -> string, parse: string -> Option<Json>)
    requires forall k :: 0 <= k < |frames| ==> GoodDump(frames[k], dumps, parse)
    ensures Receive(Wire(frames, dumps), parse) == DataOnly(frames)
  {
    WirePieces(frames, dumps, parse);
    if frames != [] {
      HandleDumped(frames, dumps, parse);
    }
  }

  /** As written too, when every frame is an object the chunk is handled
      without a crash and the data packets are emitted. */
  lemma WireRoundTripAsWritten(frames: seq<Json>, dumps: Json -> string, parse: string -> Option<Json>)
    requires forall k :: 0 <= k < |frames| ==> GoodDump(frames[k], dumps, parse) && frames[k].JObj?
    ensures ReceiveAsWritten(Wire(frames, dumps), parse) == ChunkResult(DataOnly(frames), false)
  {
    WireRoundTrip(frames, dumps, parse);
    WirePieces(frames, dumps, parse);
    var ps := Pieces(Wire(frames, dumps));
    forall k | 0 <= k < |ps| && ps[k] != [] && parse(ps[k]).Some?
      ensures parse(ps[k]).value.JObj?
    {
      if frames != [] {
        assert ps[k] == dumps(frames[k]);
        assert GoodDump(frames[k], dumps, parse);
      }
    }
    AgreeOnObjects(ps, parse);
  }

  /** The batches among the server's frames, as the objects it writes. */
  function BatchValues(frames: seq<Frame>, round2: real -> real): (r: seq<Json>)
    ensures |r| <= |frames|
    decreases |frames|
  {
    if frames == [] then []
    else if frames[0].BatchFrame? then [FrameJson(frames[0], round2)] + BatchValues(frames[1..], round2)
    else BatchValues(frames[1..], round2)
  }

  function FrameValues(frames: seq<Frame>, round2: real -> real): (js: seq<Json>)
    ensures |js| == |frames| && forall k :: 0 <= k < |frames| ==> js[k] == FrameJson(frames[k], round2)
  {
    seq(|frames|, k requires 0 <= k < |frames| => FrameJson(frames[k], round2))
  }

  /** A server frame the client can tell apart: a response is a status
      object, and no reading in a batch has the id `"status"`. */
  predicate Distinguishable(f: Frame) {
    match f
    case ResponseFrame(j) => IsResponseObject(j)
    case BatchFrame(b) => forall k :: 0 <= k < |b| ==> b[k].id != "status"
  }

  lemma {:induction false} DataOnlyFrames(frames: seq<Frame>, round2: real -> real)
    requires forall k :: 0 <= k < |frames| ==> Distinguishable(frames[k])
    ensures DataOnly(FrameValues(frames, round2)) == BatchValues(frames, round2)
    decreases |frames|
  {
    if frames != [] {
      assert FrameValues(frames, round2)[1..] == FrameValues(frames[1..], round2);
      assert Distinguishable(frames[0]);
      DataOnlyFrames(frames[1..], round2);
    }
  }

  /** End to end: when the server's frames arrive whole in one read, the
      dashboard is handed exactly the batches, in order, and every response
      is taken for an acknowledgement; nothing crashes. */
  lemma ClientSeesBatches(frames: seq<Frame>, round2: real -> real, dumps: Json -> string, parse: string -> Option<Json>)
    requires forall k :: 0 <= k < |frames| ==> Distinguishable(frames[k])
    requires forall k :: 0 <= k < |frames| ==> GoodDump(FrameJson(frames[k], round2), dumps, parse)
    ensures ReceiveAsWritten(Wire(FrameValues(frames, round2), dumps), parse)
         == ChunkResult(BatchValues(frames, round2), false)
  {
    var js := FrameValues(frames, round2);
    forall k | 0 <= k < |js|
      ensures GoodDump(js[k], dumps, parse) && js[k].JObj?
    {
      assert Distinguishable(frames[k]);
    }
    WireRoundTripAsWritten(js, dumps, parse);
    DataOnlyFrames(frames, round2);
  }

  // ---------------------------------------------------------------------
  // send_command
  // ---------------------------------------------------------------------

  /** `{"command": command}` updated with the keyword arguments. */
  function CommandPayload(command: string, kwargs: map<string, Json>): (j: Json)
    requires "command" !in kwargs
    ensures j.JObj? && j.fields.Keys == kwargs.Keys + {"command"}
    ensures j.fields["command"] == JStr(command)
    ensures forall k | k in kwargs :: j.fields[k] == kwargs[k]
  {
    JObj(map["command" := JStr(command)] + kwargs)
  }

  /** `self.socket`: not yet created, or a socket whose peer still accepts
      writes (`alive`) or no longer does. */
  datatype Link = NoSocket | Socket(alive: bool)

  /** The part of `CommThread` that `send_command` uses: the socket and the
      text written to it so far, one entry per `sendall`. */
  class Client {
    var link: Link
    var written: seq<string>

    /** `__init__`: no socket yet. */
    constructor ()
      ensures link == NoSocket && written == []
    {
      link := NoSocket;
      written := [];
    }

    /** `run`, lines creating and connecting the socket. */
    method Connect()
      modifies this
      ensures link == Socket(true) && written == old(written)
    {
      link := Socket(true);
    }

    /** `run`, a connect that fails or a receive loop that ends: the new
        socket object stays in `self.socket` (it is never reset to None), but
        its writes now fail. */
    method Disconnect()
      modifies this
      ensures link == Socket(false) && written == old(written)
    {
      link := Socket(false);
    }

    /** `send_command`: with a socket, the payload is serialised and written
        with no trailing newline; a failed write is logged and dropped;
        without a socket nothing happens. */
    method SendCommand(command: string, kwargs: map<string, Json>, dumps: Json -> string)
      requires "command" !in kwargs
      modifies this
      ensures link == old(link)
      ensures written == old(written) + (if link == Socket(true) then [dumps(CommandPayload(command, kwargs))] else [])
    {
      if link.Socket? {
        var payload := map["command" := JStr(command)];
        payload := payload + kwargs;
        if link.alive {
          written := written + [dumps(JObj(payload))];
        }
      }
    }
  }

  /** What reaches the server for a run of commands sent on a live socket:
      their serialisations back to back, with no delimiter between them. */
  function CommandStream(payloads: seq<Json>, dumps: Json -> string): (s: string)
    ensures (forall k :: 0 <= k < |payloads| ==> '\n' !in dumps(payloads[k])) ==> '\n' !in s
    decreases |payloads|
  {
    if payloads == [] then "" else dumps(payloads[0]) + CommandStream(payloads[1..], dumps)
  }
}
