/** Tele2Ats2File of src/tele2-ats2-api/file.js: a file name with a byte
    stream, and `toBuffer`, which collects the stream's data chunks until it
    ends. The stream is given as the trace of events it emits. */
module ApiFile {
  import opened Js
  import opened Errors

  type Byte = x: int | 0 <= x < 256

  datatype StreamEvent = Data(chunk: seq<Byte>) | End | Failure(error: Thrown)

  /** A value handed to the Tele2Ats2File constructor. */
  datatype FileArgument = Text(text: string) | Stream(events: seq<StreamEvent>) | Undefined

  /** The two constructor arguments, kept unchanged; the `filename` and
      `octetstream` getters are the datatype's fields. */
  datatype Tele2Ats2File = Tele2Ats2File(filename: FileArgument, octetstream: FileArgument)

  /** The state of the promise `toBuffer` returns: None while it is pending. */
  type BufferPromise = Option<Outcome<seq<Byte>>>

  /** `Buffer.concat(chunks)`. */
  function Flatten(chunks: seq<seq<Byte>>): seq<Byte> {
    if chunks == [] then [] else chunks[0] + Flatten(chunks[1..])
  }

  function DataEvents(chunks: seq<seq<Byte>>): (events: seq<StreamEvent>)
    ensures |events| == |chunks|
    ensures forall i :: 0 <= i < |events| ==> events[i] == Data(chunks[i])
  {
    if chunks == [] then [] else [Data(chunks[0])] + DataEvents(chunks[1..])
  }

  /** Puts bytes in front of a resolved buffer; other states are kept. */
  function Prepend(prefix: seq<Byte>, p: BufferPromise): BufferPromise {
    match p
    case Some(Resolved(buffer)) => Some(Resolved(prefix + buffer))
    case _ => p
  }

  /** How the promise settles on an event trace: the first `end` resolves it
      with the chunks received so far, the first `error` rejects it, and later
      events change nothing. */
  function Settlement(events: seq<StreamEvent>): (r: BufferPromise)
    // the promise stays pending exactly while the stream has sent only data
    ensures r.None? <==> forall i :: 0 <= i < |events| ==> events[i].Data?
    // a rejection carries the error of one of the stream's `error` events
    ensures r.Some? && r.value.Rejected? ==> exists i :: 0 <= i < |events| && events[i] == Failure(r.value.error)
  {
    if events == [] then None
    else match events[0]
      case Data(chunk) => Prepend(chunk, Settlement(events[1..]))
      case End => Some(Resolved([]))
      case Failure(e) => Some(Rejected(e))
  }

  /** `toBuffer()`: the `data` handler appends each chunk to `chunks`, the
      `end` handler resolves with their concatenation, the `error` handler
      rejects. A file whose octetstream is not a stream fails on `.on`. */
  method ToBuffer(file: Tele2Ats2File) returns (r: BufferPromise)
    ensures file.octetstream.Stream? ==> r == Settlement(file.octetstream.events)
    ensures file.octetstream.Undefined? ==> r == Some(Rejected(OtherError("TypeError", "Cannot read properties of undefined (reading 'on')")))
    ensures file.octetstream.Text? ==> r == Some(Rejected(OtherError("TypeError", "this.#octetstream.on is not a function")))
  {
    match file.octetstream
    case Undefined =>
      return Some(Rejected(OtherError("TypeError", "Cannot read properties of undefined (reading 'on')")));
    case Text(_) =>
      return Some(Rejected(OtherError("TypeError", "this.#octetstream.on is not a function")));
    case Stream(events) =>
      var chunks: seq<seq<Byte>> := [];
      assert events[0..] == events;
      PrependNothing(Settlement(events));
      for i := 0 to |events|
        invariant Settlement(events) == Prepend(Flatten(chunks), Settlement(events[i..]))
      {
        match events[i]
        case Data(chunk) =>
          assert Settlement(events[i..]) == Prepend(chunk, Settlement(events[i + 1..]));
          PrependTwice(Flatten(chunks), chunk, Settlement(events[i + 1..]));
          FlattenAppend(chunks, chunk);
          chunks := chunks + [chunk];
        case End =>
          assert Flatten(chunks) + [] == Flatten(chunks);
          return Some(Resolved(Flatten(chunks)));
        case Failure(e) =>
          return Some(Rejected(e));
      }
      return None;
  }

  lemma PrependNothing(p: BufferPromise)
    ensures Prepend([], p) == p
  {
    match p
    case Some(Resolved(buffer)) =>
      assert [] + buffer == buffer;
    case _ =>
  }

  lemma PrependTwice(a: seq<Byte>, b: seq<Byte>, p: BufferPromise)
    ensures Prepend(a, Prepend(b, p)) == Prepend(a + b, p)
  {
    match p
    case Some(Resolved(buffer)) =>
      assert a + (b + buffer) == (a + b) + buffer;
    case _ =>
  }

  lemma {:induction false} FlattenAppend(chunks: seq<seq<Byte>>, chunk: seq<Byte>)
    ensures Flatten(chunks + [chunk]) == Flatten(chunks) + chunk
  {
    if chunks != [] {
      assert (chunks + [chunk])[1..] == chunks[1..] + [chunk];
      FlattenAppend(chunks[1..], chunk);
    }
  }

  /** Chunks followed by `end` resolve to the concatenation of the chunks in
      arrival order, whatever comes after. */
  lemma {:induction false} ConcatenatesChunksOnEnd(chunks: seq<seq<Byte>>, rest: seq<StreamEvent>)
    ensures Settlement(DataEvents(chunks) + [End] + rest) == Some(Resolved(Flatten(chunks)))
  {
    if chunks == [] {
      assert DataEvents(chunks) + [End] + rest == [End] + rest;
    } else {
      var events := DataEvents(chunks) + [End] + rest;
      assert events[1..] == DataEvents(chunks[1..]) + [End] + rest;
      ConcatenatesChunksOnEnd(chunks[1..], rest);
    }
  }

  /** An `error` before `end` rejects with that error, whatever comes after. */
  lemma {:induction false} RejectsOnError(chunks: seq<seq<Byte>>, e: Thrown, rest: seq<StreamEvent>)
    ensures Settlement(DataEvents(chunks) + [Failure(e)] + rest) == Some(Rejected(e))
  {
    if chunks == [] {
      assert DataEvents(chunks) + [Failure(e)] + rest == [Failure(e)] + rest;
    } else {
      var events := DataEvents(chunks) + [Failure(e)] + rest;
      assert events[1..] == DataEvents(chunks[1..]) + [Failure(e)] + rest;
      RejectsOnError(chunks[1..], e, rest);
    }
  }

  /** Without `end` or `error` the promise stays pending. */
  lemma {:induction false} PendingUntilSettled(events: seq<StreamEvent>)
    requires forall i :: 0 <= i < |events| ==> events[i].Data?
    ensures Settlement(events) == None
  {
    if events != [] {
      PendingUntilSettled(events[1..]);
    }
  }
}
