/** Incremental framing over sockets that accept and deliver bytes in any portions. */
module FrameIO {
  import opened Bytes
  import opened Codec
  import opened Wire
  import opened Parsing

  type IoKind = nat

  const INVALID_DATA: IoKind := 0
  const WRITE_ZERO: IoKind := 1

  datatype FramingError =
    | BadHeader(error: HeaderError)
    | Truncated
    | Io(kind: IoKind)
    | Closed
    | PhaseChanged
    | Shape
    | Busy

  datatype Poll<+T> = Pending | Ready(value: T)

  /** What a socket is going to do at its next calls. */
  datatype ReadStep = ReadPending | ReadInterrupted | ReadFails(kind: IoKind) | Deliver(most: nat) | ReadsTooMuch

  datatype ReadOutcome = ReadWait | ReadRetry | ReadError(kind: IoKind) | Got(data: seq<byte>) | Overrun

  datatype WriteStep = WritePending | WriteInterrupted | WriteFails(kind: IoKind) | AcceptUpTo(most: nat)
    | ClaimsTooMuch

  datatype WriteOutcome = WriteWait | WriteRetry | WriteError(kind: IoKind) | Took(count: nat)

  /** What a read step makes of the call it answers. */
  predicate ReadAnswers(step: ReadStep, r: ReadOutcome) {
    match step
    case ReadPending => r.ReadWait?
    case ReadInterrupted => r.ReadRetry?
    case ReadFails(kind) => r == ReadError(kind)
    case Deliver(_) => r.Got?
    case ReadsTooMuch => r.Overrun?
  }

  predicate WriteAnswers(step: WriteStep, r: WriteOutcome, size: nat) {
    match step
    case WritePending => r.WriteWait?
    case WriteInterrupted => r.WriteRetry?
    case WriteFails(kind) => r == WriteError(kind)
    case AcceptUpTo(most) => r == Took(if size < most then size else most)
    case ClaimsTooMuch => r == Took(size + 1)
  }

  /** A reader that waits was told to, or has spent its budget of polls. */
  ghost predicate ReadStalls(before: seq<ReadStep>, after: seq<ReadStep>) {
    var n := |before| - |after|;
    && n >= 0 && before[n..] == after
    && (after == [] || n >= POLL_BUDGET - 1 || (n > 0 && before[n - 1] == ReadPending))
  }

  /** A reader that reports a broken socket met it at its last step. */
  ghost predicate ReadBreaks(before: seq<ReadStep>, after: seq<ReadStep>, kind: IoKind) {
    var n := |before| - |after|;
    && n > 0 && before[n..] == after
    && (before[n - 1] == ReadFails(kind) || (before[n - 1] == ReadsTooMuch && kind == INVALID_DATA))
  }

  ghost predicate WriteStalls(before: seq<WriteStep>, after: seq<WriteStep>) {
    var n := |before| - |after|;
    && n >= 0 && before[n..] == after
    && (after == [] || n >= POLL_BUDGET || (n > 0 && before[n - 1] == WritePending))
  }

  ghost predicate WriteBreaks(before: seq<WriteStep>, after: seq<WriteStep>, kind: IoKind) {
    var n := |before| - |after|;
    && n > 0 && before[n..] == after
    && (|| before[n - 1] == WriteFails(kind)
        || (before[n - 1] == AcceptUpTo(0) && kind == WRITE_ZERO)
        || (before[n - 1] == ClaimsTooMuch && kind == INVALID_DATA))
  }

  /** The inbound half of a socket: a byte string and a script of how it comes in. */
  class Inlet {
    var unread: seq<byte>
    var script: seq<ReadStep>
    ghost var given: seq<byte>

    ghost function Total(): seq<byte>
      reads this
    {
      given + unread
    }

    constructor (input: seq<byte>, script: seq<ReadStep>)
      ensures given == [] && unread == input && this.script == script
    {
      unread, this.script := input, script;
      given := [];
    }

    /** At least one byte unless the string is at its end; an exhausted script waits. */
    method PollRead(room: nat) returns (r: ReadOutcome)
      requires room > 0
      modifies this
      ensures Total() == old(Total())
      ensures !r.Got? ==> given == old(given)
      ensures r.Got? ==> |r.data| <= room && given == old(given) + r.data && (r.data == [] ==> unread == [])
      ensures if old(script) == [] then script == [] && r.ReadWait?
              else script == old(script)[1..] && ReadAnswers(old(script)[0], r)
    {
      if script == [] {
        return ReadWait;
      }
      var step := script[0];
      script := script[1..];
      match step {
        case ReadPending => return ReadWait;
        case ReadInterrupted => return ReadRetry;
        case ReadFails(kind) => return ReadError(kind);
        case ReadsTooMuch => return Overrun;
        case Deliver(most) =>
          var n := if most == 0 then 1 else most;
          n := if room < n then room else n;
          n := if |unread| < n then |unread| else n;
          r := Got(unread[..n]);
          given := given + unread[..n];
          assert unread == unread[..n] + unread[n..];
          unread := unread[n..];
      }
    }
  }

  /** The outbound half of a socket. */
  class Outlet {
    var written: seq<byte>
    var script: seq<WriteStep>

    constructor (script: seq<WriteStep>)
      ensures written == [] && this.script == script
    {
      written, this.script := [], script;
    }

    method PollWrite(data: seq<byte>) returns (r: WriteOutcome)
      modifies this
      ensures r.Took? && r.count <= |data| ==> written == old(written) + data[..r.count]
      ensures !(r.Took? && r.count <= |data|) ==> written == old(written)
      ensures if old(script) == [] then script == [] && r.WriteWait?
              else script == old(script)[1..] && WriteAnswers(old(script)[0], r, |data|)
    {
      if script == [] {
        return WriteWait;
      }
      var step := script[0];
      script := script[1..];
      match step {
        case WritePending => return WriteWait;
        case WriteInterrupted => return WriteRetry;
        case WriteFails(kind) => return WriteError(kind);
        case ClaimsTooMuch => return Took(|data| + 1);
        case AcceptUpTo(most) =>
          var n := if |data| < most then |data| else most;
          written := written + data[..n];
          return Took(n);
      }
    }
  }

  const POLL_BUDGET := 64

  /** One frame at a time, keeping progress between polls. `log` is every frame handed out. */
  class FrameReader {
    var bytes: seq<byte>
    var offset: nat
    var header: Option<Header>
    var phase: Option<Protection>
    var failed: bool
    var eof: bool
    ghost var log: seq<Packet>

    /** Bytes taken from the socket are exactly the frames handed out and the part of one in progress. */
    ghost predicate Valid(socket: Inlet)
      reads this, socket
    {
      && AllValid(log)
      && (!failed ==> offset <= |bytes| && socket.given == Flat(log) + bytes[..offset])
      && (!failed ==> Shaped())
      && (!failed && eof ==> bytes == [] && socket.unread == [])
      && Flat(log) <= socket.given
    }

    ghost predicate Shaped()
      reads this
      requires offset <= |bytes|
    {
      || (bytes == [] && offset == 0 && header.None?)
      || (header.None? && |bytes| == HEADER_BYTES && phase.Some?)
      || (header.Some? && phase.Some? && HEADER_BYTES <= offset <= |bytes|
          && |bytes| == FrameLength(header.value, phase.value)
          && DecodeHeader(bytes[..HEADER_BYTES]) == Ok(header.value))
    }

    /** Input not yet turned into frames. */
    ghost function Remaining(socket: Inlet): seq<byte>
      reads this, socket
      requires Flat(log) <= socket.given
    {
      socket.Total()[|Flat(log)|..]
    }

    constructor ()
      ensures log == [] && bytes == [] && offset == 0 && header.None? && phase.None? && !failed && !eof
    {
      bytes, offset, header, phase, failed, eof := [], 0, None, None, false, false;
      log := [];
    }

    /** Forget everything, progress and failures included. */
    method Reset()
      modifies this
      ensures log == [] && bytes == [] && offset == 0 && header.None? && phase.None? && !failed && !eof
    {
      bytes, offset, header, phase, failed, eof := [], 0, None, None, false, false;
      log := [];
    }

    method Fail(error: FramingError) returns (r: Poll<Result<Option<Packet>, FramingError>>)
      modifies `failed, `bytes
      ensures failed && bytes == [] && r == Ready(Err(error))
    {
      failed, bytes := true, [];
      return Ready(Err(error));
    }

    /** A completed header fixes the frame's length; the buffer grows to it. */
    method GrowTo(p: Protection) returns (r: Option<HeaderError>)
      requires !failed && header.None? && |bytes| == HEADER_BYTES && offset == HEADER_BYTES && phase == Some(p)
      modifies `header, `bytes
      ensures match r
              case Some(e) => DecodeHeader(old(bytes)) == Err(e) && bytes == old(bytes) && header.None?
              case None => offset <= |bytes| && Shaped() && bytes[..HEADER_BYTES] == old(bytes) && header.Some?
    {
      var decoded := DecodeHeader(bytes);
      if decoded.Err? {
        return Some(decoded.error);
      }
      header := Some(decoded.value);
      var n := FrameLength(decoded.value, p);
      bytes := bytes + seq(n - HEADER_BYTES, _ => 0);
      assert bytes[..HEADER_BYTES] == old(bytes);
      return None;
    }

    /** Hand out the frame whose last byte has arrived. */
    method Finish(socket: Inlet, p: Protection) returns (frame: Packet)
      requires Valid(socket) && !failed && header.Some? && offset == |bytes| && phase == Some(p)
      modifies `header, `bytes, `offset, `phase, `log
      ensures Valid(socket) && bytes == [] && phase.None? && log == old(log) + [frame]
      ensures frame.Valid() && frame.Protected() == p
      ensures old(Remaining(socket)) == frame.Encoded() + socket.unread
      ensures socket.given == Flat(log)
    {
      hide Flat, FrameOf;
      var h := header.value;
      frame := FrameOf(bytes, h, p);
      HeaderExact(bytes[..HEADER_BYTES], h);
      EncodedFrameOf(bytes, h, p);
      FlatPush(log, frame);
      assert bytes[..offset] == bytes;
      assert old(Remaining(socket)) == bytes + socket.unread;
      header, bytes, offset, phase := None, [], 0, None;
      log := log + [frame];
    }

    /** Bytes read so far, of a frame that is not complete, are a proper beginning of one. */
    lemma Incomplete(socket: Inlet, p: Protection)
      requires Valid(socket) && !failed && phase == Some(p) && 0 < offset < |bytes| && socket.unread == []
      ensures ParseFrame(Remaining(socket), p) == Cut
    {
      var rem := Remaining(socket);
      assert rem == bytes[..offset];
      if header.Some? {
        assert rem[..HEADER_BYTES] == bytes[..HEADER_BYTES];
      }
    }

    lemma WrongHeader(socket: Inlet, p: Protection, e: HeaderError)
      requires Valid(socket) && !failed && |bytes| == HEADER_BYTES == offset && DecodeHeader(bytes) == Err(e)
      ensures ParseFrame(Remaining(socket), p) == Malformed(e)
    {
      assert bytes[..offset] == bytes;
      assert Remaining(socket)[..HEADER_BYTES] == bytes;
    }

    /** Bytes delivered by the socket take their place behind those already read. */
    method Store(socket: Inlet, data: seq<byte>)
      requires !failed && offset <= |bytes| && Shaped() && bytes != [] && |data| <= |bytes| - offset
      requires socket.given == Flat(log) + bytes[..offset] + data && AllValid(log) && !eof
      modifies `bytes, `offset
      ensures Valid(socket) && bytes != [] && |bytes| == old(|bytes|)
    {
      var n := offset + |data|;
      ghost var before := bytes[..offset];
      var filled := bytes[..offset] + data + bytes[n..];
      assert filled[..n] == before + data;
      assert header.Some? ==> filled[..HEADER_BYTES] == bytes[..HEADER_BYTES];
      bytes, offset := filled, n;
      assert Flat(log) + (before + data) == Flat(log) + before + data;
    }

    /** The input ended: cleanly between frames, or in the middle of one. */
    method AtEnd(socket: Inlet, p: Protection) returns (r: Poll<Result<Option<Packet>, FramingError>>)
      requires Valid(socket) && !failed && phase == Some(p) && offset < |bytes| && socket.unread == []
      modifies `eof, `bytes, `failed
      ensures Valid(socket)
      ensures if offset == 0 then r == Ready(Ok(None)) && ParseFrame(old(Remaining(socket)), p) == Ended && !failed
              else r == Ready(Err(Truncated)) && ParseFrame(old(Remaining(socket)), p) == Cut && failed
    {
      hide ParseFrame, Flat;
      if offset == 0 {
        assert Remaining(socket) == [] && ParseFrame([], p) == Ended by { NothingParses(p); }
        eof, bytes := true, [];
        return Ready(Ok(None));
      }
      Incomplete(socket, p);
      r := Fail(Truncated);
    }

    /**
     Reads on until a frame is complete, the input ends, something is wrong, the socket waits or the
     budget is spent. What it answers is what the whole-string parser answers on the remaining input.
     */
    method PollFrame(socket: Inlet, p: Protection) returns (r: Poll<Result<Option<Packet>, FramingError>>)
      requires Valid(socket)
      modifies this, socket
      ensures Valid(socket) && socket.Total() == old(socket.Total())
      ensures if r == Ready(Err(Closed)) then old(failed)
              else if r == Ready(Err(PhaseChanged)) then old(phase.Some? && phase.value != p)
              else Answers(r, old(Remaining(socket)), p, socket.unread)
      ensures match r
              case Pending => log == old(log) && failed == old(failed)
              case Ready(Ok(Some(f))) => log == old(log) + [f]
              case Ready(Ok(None)) => log == old(log)
              case Ready(Err(_)) => log == old(log) && failed
      ensures old(phase.None? || phase.value == p) ==> phase.None? || phase.value == p
      ensures r.Ready? && r.value.Ok? ==> !failed && (r.value.value.Some? ==> phase.None?)
      ensures r.Pending? ==> ReadStalls(old(socket.script), socket.script)
      ensures forall kind :: r == Ready(Err(Io(kind))) ==> ReadBreaks(old(socket.script), socket.script, kind)
    {
      hide ParseFrame, Flat;
      if failed {
        return Ready(Err(Closed));
      }
      if eof {
        assert Remaining(socket) == [] && ParseFrame([], p) == Ended by { NothingParses(p); }
        return Ready(Ok(None));
      }
      if phase.Some? && phase.value != p {
        r := Fail(PhaseChanged);
        return;
      }
      phase := Some(p);
      if bytes == [] {
        bytes := seq(HEADER_BYTES, _ => 0);
      }
      r := Advance(socket, p);
    }

    /** The bounded reading loop. */
    method Advance(socket: Inlet, p: Protection) returns (r: Poll<Result<Option<Packet>, FramingError>>)
      requires Engaged(socket, p)
      modifies this, socket
      ensures Valid(socket) && socket.Total() == old(socket.Total())
      ensures Answers(r, old(Remaining(socket)), p, socket.unread) && After(r, old(log), p)
      ensures r.Pending? ==> ReadStalls(old(socket.script), socket.script)
      ensures forall kind :: r == Ready(Err(Io(kind))) ==> ReadBreaks(old(socket.script), socket.script, kind)
    {
      hide ParseFrame, Flat, Shaped;
      ghost var taken := 0;
      for i := 0 to POLL_BUDGET
        invariant Engaged(socket, p)
        invariant log == old(log) && socket.Total() == old(socket.Total())
        invariant taken <= |old(socket.script)| && old(socket.script)[taken..] == socket.script
        invariant taken + (if header.Some? then 1 else 0) >= i
      {
        ghost var before := socket.script;
        var settled;
        if offset == |bytes| {
          settled := Turn(socket, p);
        } else {
          settled := Fill(socket, p);
          taken := taken + if before == [] then 0 else 1;
        }
        if settled.Some? {
          return settled.value;
        }
      }
      return Pending;
    }

    /** In the middle of reading a frame under phase `p`. */
    ghost predicate Engaged(socket: Inlet, p: Protection)
      reads this, socket
    {
      Valid(socket) && !failed && !eof && phase == Some(p) && bytes != []
    }

    /** The buffer is full: it was the header, or it is the whole frame. */
    method Turn(socket: Inlet, p: Protection) returns (r: Option<Poll<Result<Option<Packet>, FramingError>>>)
      requires Engaged(socket, p) && offset == |bytes|
      modifies this
      ensures Valid(socket)
      ensures r.None? ==> Engaged(socket, p) && log == old(log) && header.Some? && old(header).None?
      ensures r.Some? ==> Answers(r.value, old(Remaining(socket)), p, socket.unread) && After(r.value, old(log), p)
      ensures r.Some? ==> r.value.Ready? && (r.value.value.Err? ==> !r.value.value.error.Io?)
    {
      hide ParseFrame, Flat;
      ghost var rem := Remaining(socket);
      if header.Some? {
        var frame := Finish(socket, p);
        ParseExact(rem, p, frame, socket.unread);
        return Some(Ready(Ok(Some(frame))));
      }
      assert bytes[..offset] == bytes;
      var wrong := GrowTo(p);
      if wrong.None? {
        return None;
      }
      WrongHeader(socket, p, wrong.value);
      var failure := Fail(BadHeader(wrong.value));
      return Some(failure);
    }

    /** One read from the socket, of whatever size it turns out to be. */
    method Fill(socket: Inlet, p: Protection) returns (r: Option<Poll<Result<Option<Packet>, FramingError>>>)
      requires Engaged(socket, p) && offset < |bytes|
      modifies this, socket
      ensures Valid(socket) && socket.Total() == old(socket.Total())
      ensures r.None? ==> Engaged(socket, p) && log == old(log) && header == old(header)
      ensures r.Some? ==> Answers(r.value, old(Remaining(socket)), p, socket.unread) && After(r.value, old(log), p)
      ensures socket.script == if old(socket.script) == [] then [] else old(socket.script)[1..]
      ensures r.None? ==> old(socket.script) != []
      ensures r == Some(Pending) ==> old(socket.script) == [] || old(socket.script)[0] == ReadPending
      ensures forall kind :: r == Some(Ready(Err(Io(kind)))) ==>
                old(socket.script) != []
                && (|| old(socket.script)[0] == ReadFails(kind)
                    || (old(socket.script)[0] == ReadsTooMuch && kind == INVALID_DATA))
    {
      hide ParseFrame, Flat;
      var outcome := socket.PollRead(|bytes| - offset);
      match outcome {
        case ReadWait => return Some(Pending);
        case ReadRetry => return None;
        case ReadError(kind) =>
          var failure := Fail(Io(kind));
          return Some(failure);
        case Overrun =>
          var failure := Fail(Io(INVALID_DATA));
          return Some(failure);
        case Got(data) =>
          if data == [] {
            var end := AtEnd(socket, p);
            return Some(end);
          }
          Store(socket, data);
          return None;
      }
    }

    /** What an answer says about the reader it leaves behind. */
    ghost predicate After(r: Poll<Result<Option<Packet>, FramingError>>, before: seq<Packet>, p: Protection)
      reads this
    {
      match r
      case Pending => log == before && !failed && phase == Some(p)
      case Ready(Ok(Some(f))) => log == before + [f] && !failed && phase.None?
      case Ready(Ok(None)) => log == before && !failed && phase == Some(p)
      case Ready(Err(_)) => log == before && failed && phase == Some(p)
    }
  }

  /** An answer of the incremental reader is the answer of the whole-string parser. */
  ghost predicate Answers(r: Poll<Result<Option<Packet>, FramingError>>, input: seq<byte>, p: Protection,
                          unread: seq<byte>) {
    match r
    case Pending => true
    case Ready(Ok(Some(f))) => f.Protected() == p && ParseFrame(input, p) == Whole(f, unread)
    case Ready(Ok(None)) => ParseFrame(input, p) == Ended
    case Ready(Err(BadHeader(why))) => ParseFrame(input, p) == Malformed(why)
    case Ready(Err(Truncated)) => ParseFrame(input, p) == Cut
    case Ready(Err(Io(_))) => true
    case Ready(Err(_)) => false
  }

  lemma NothingParses(p: Protection)
    ensures ParseFrame([], p) == Ended
  {
  }

  lemma Advanced(a: seq<byte>, bytes: seq<byte>, offset: nat, count: nat)
    requires offset + count <= |bytes|
    ensures a + bytes[..offset] + bytes[offset..][..count] == a + bytes[..offset + count]
  {
    assert bytes[..offset + count] == bytes[..offset] + bytes[offset..][..count];
  }

  lemma Leads(a: seq<byte>, b: seq<byte>, c: seq<byte>)
    ensures a <= a + b <= a + (b + c)
  {
    assert a + (b + c) == a + b + c;
  }

  /** Owns one serialized frame until the socket has taken its last byte. `done` is every frame written. */
  class FrameWriter {
    var bytes: seq<byte>
    var offset: nat
    var failed: bool
    ghost var done: seq<Packet>
    ghost var current: Option<Packet>

    /** The socket holds the finished frames and a beginning of the current one, nothing else. */
    ghost predicate Valid(socket: Outlet)
      reads this, socket
    {
      && AllValid(done)
      && (current.Some? ==> current.value.Valid())
      && (!failed ==> offset <= |bytes| && socket.written == Flat(done) + bytes[..offset]
                      && bytes == (if current.Some? then current.value.Encoded() else []))
      && (failed ==> current.Some? && Flat(done) <= socket.written <= Flat(done + [current.value]))
    }

    constructor ()
      ensures bytes == [] && offset == 0 && !failed && done == [] && current.None?
    {
      bytes, offset, failed := [], 0, false;
      done, current := [], None;
    }

    /** Forget everything, progress and failures included. */
    method Reset()
      modifies this
      ensures bytes == [] && offset == 0 && !failed && done == [] && current.None?
    {
      bytes, offset, failed := [], 0, false;
      done, current := [], None;
    }

    method Start(socket: Outlet, frame: Packet, p: Protection) returns (r: Result<(), FramingError>)
      requires Valid(socket) && frame.Valid()
      modifies `bytes, `offset, `current
      ensures Valid(socket)
      ensures r == (if failed then Err(Closed)
                    else if old(current).Some? then Err(Busy)
                    else if frame.Protected() != p then Err(Shape)
                    else Ok(()))
      ensures current == if r.Ok? then Some(frame) else old(current)
    {
      if failed {
        return Err(Closed);
      }
      if bytes != [] {
        return Err(Busy);
      }
      if frame.tag.Some? != (p == Tagged) {
        return Err(Shape);
      }
      bytes := EncodeHeader(frame.header) + frame.payload;
      if frame.tag.Some? {
        bytes := bytes + frame.tag.value;
      }
      offset := 0;
      current := Some(frame);
      assert bytes == frame.Encoded();
      assert socket.written == Flat(done) + bytes[..0];
      return Ok(());
    }

    /** Give up for good in the middle of a frame. */
    method Break(socket: Outlet)
      requires Valid(socket) && !failed && offset < |bytes|
      modifies `failed, `bytes
      ensures Valid(socket) && failed
    {
      hide Flat;
      ghost var before, after := bytes[..offset], bytes[offset..];
      FlatPush(done, current.value);
      assert current.value.Encoded() == before + after;
      Leads(Flat(done), before, after);
      failed, bytes := true, [];
    }

    /** Whatever portions the socket takes, exactly the current frame's bytes follow the finished ones. */
    method PollFlush(socket: Outlet) returns (r: Poll<Result<(), FramingError>>)
      requires Valid(socket)
      modifies this, socket
      ensures Valid(socket) && old(socket.written) <= socket.written
      ensures match r
              case Pending => done == old(done) && current == old(current) && !failed
              case Ready(Ok(_)) =>
                && !failed && current.None? && socket.written == Flat(done)
                && done == if old(current).Some? then old(done) + [old(current).value] else old(done)
              case Ready(Err(_)) => failed && done == old(done) && current == old(current)
      ensures r.Pending? ==> old(current).Some? && WriteStalls(old(socket.script), socket.script)
      ensures r == Ready(Err(Closed)) ==> old(failed)
      ensures forall kind :: r == Ready(Err(Io(kind))) ==> WriteBreaks(old(socket.script), socket.script, kind)
      ensures r.Ready? && r.value.Err? ==> r.value.error.Closed? || r.value.error.Io?
    {
      hide Flat;
      if failed {
        return Ready(Err(Closed));
      }
      for i := 0 to POLL_BUDGET
        invariant Valid(socket) && !failed && done == old(done) && current == old(current)
        invariant old(socket.written) <= socket.written
        invariant i <= |old(socket.script)| && old(socket.script)[i..] == socket.script
        invariant i > 0 ==> old(current).Some?
      {
        if offset == |bytes| {
          Close(socket);
          return Ready(Ok(()));
        }
        var settled := Push(socket);
        if settled.Some? {
          return settled.value;
        }
      }
      return Pending;
    }

    /** The current frame is out. */
    method Close(socket: Outlet)
      requires Valid(socket) && !failed && offset == |bytes|
      modifies this
      ensures Valid(socket) && !failed && current.None? && socket.written == Flat(done)
      ensures done == if old(current).Some? then old(done) + [old(current).value] else old(done)
    {
      hide Flat;
      assert bytes[..offset] == bytes;
      if current.Some? {
        FlatPush(done, current.value);
        done := done + [current.value];
      }
      assert socket.written == Flat(done);
      bytes, offset, current := [], 0, None;
    }

    /** One write to the socket, of whatever it takes. */
    method Push(socket: Outlet) returns (r: Option<Poll<Result<(), FramingError>>>)
      requires Valid(socket) && !failed && offset < |bytes|
      modifies this, socket
      ensures Valid(socket) && done == old(done) && current == old(current) && old(socket.written) <= socket.written
      ensures r.None? || r == Some(Pending) ==> !failed
      ensures r.Some? && r.value.Ready? ==> r.value.value.Err? && failed
      ensures socket.script == if old(socket.script) == [] then [] else old(socket.script)[1..]
      ensures r.None? ==> old(socket.script) != []
      ensures r == Some(Pending) ==> old(socket.script) == [] || old(socket.script)[0] == WritePending
      ensures r.Some? && r.value.Ready? ==>
                && r.value.value.error.Io? && old(socket.script) != []
                && var step, kind := old(socket.script)[0], r.value.value.error.kind;
                   || step == WriteFails(kind) || (step == AcceptUpTo(0) && kind == WRITE_ZERO)
                   || (step == ClaimsTooMuch && kind == INVALID_DATA)
    {
      hide Flat;
      var portion := bytes[offset..];
      var outcome := socket.PollWrite(portion);
      var error: IoKind;
      match outcome {
        case WriteWait => return Some(Pending);
        case WriteRetry => return None;
        case WriteError(kind) => error := kind;
        case Took(count) =>
          if count == 0 {
            assert portion[..0] == [];
            error := WRITE_ZERO;
          } else if count <= |portion| {
            Advanced(Flat(done), bytes, offset, count);
            offset := offset + count;
            return None;
          } else {
            error := INVALID_DATA;
          }
      }
      Break(socket);
      return Some(Ready(Err(Io(error))));
    }
  }

  /** However the bytes were portioned out, the frames are those of the whole-string parser. */
  lemma ReaderAgreesWithParser(reader: FrameReader, inlet: Inlet)
    requires reader.Valid(inlet)
    ensures ParseAll(inlet.Total(), PhasesOf(reader.log)) == reader.log
  {
    var rest := inlet.Total()[|Flat(reader.log)|..];
    assert inlet.Total() == Flat(reader.log) + rest;
    ParseAllFlat(reader.log, rest);
  }

  /**
   End to end: whatever a reader has handed out after consuming some of what a writer put on the
   wire is a prefix of the frames the writer was given, provided both read and wrote each position
   under the same phase.
   */
  lemma ReaderFollowsWriter(reader: FrameReader, writer: FrameWriter, inlet: Inlet, outlet: Outlet)
    requires reader.Valid(inlet) && writer.Valid(outlet) && inlet.given <= outlet.written
    requires var sent := writer.done + if writer.current.Some? then [writer.current.value] else [];
             forall i :: 0 <= i < |sent| && i < |reader.log| ==> reader.log[i].Protected() == sent[i].Protected()
    ensures reader.log <= writer.done + if writer.current.Some? then [writer.current.value] else []
  {
    hide Flat;
    var sent := writer.done + if writer.current.Some? then [writer.current.value] else [];
    assert outlet.written <= Flat(sent) by {
      if writer.current.Some? {
        FlatPush(writer.done, writer.current.value);
        if !writer.failed {
          var before, after := writer.bytes[..writer.offset], writer.bytes[writer.offset..];
          assert writer.bytes == before + after;
          Leads(Flat(writer.done), before, after);
        }
      } else {
        assert sent == writer.done;
      }
    }
    FramesCrossIntact(sent, reader.log);
  }
}
