/** Values exchanged between a session, its consumers and its connection. */
module SessionTypes {
  import opened Bytes
  import opened Codec
  import opened StreamNumbering

  type Owner = nat
  type Instant = nat
  type Token = u64

  /** A frame before sealing; its payload length is the header length. */
  datatype Frame = Frame(kind: Kind, id: u32, payload: seq<byte>)

  /** Authority scoped to one connection instance and one registered consumer. */
  datatype Handle = Handle(connection: nat, owner: Owner, id: u32)

  datatype Origin = Local | Peer | Dependency

  datatype FailureCode =
    | ProtocolViolation
    | AuthenticationFailed
    | IntegrityFailed
    | FrameTooLarge
    | UnsupportedProtocol
    | StreamState
    | Refused
    | Cancelled
    | ResourceLimit
    | IdExhausted
    | SequenceExhausted
    | TruncatedFrame
    | ConnectionLost
    | DeadlineExceeded
    | DependencyUnavailable
    | Internal

  datatype Failure = Failure(origin: Origin, code: FailureCode)

  datatype CancelReason = Requested | OutOfResources | Broken

  datatype ShutdownReason = Normal | NoMoreIds | Overloaded | Faulty

  datatype Outcome = Completed | CancelledBy(origin: Origin, reason: CancelReason) | Failed(failure: Failure)

  datatype Event =
    | Authenticated
    | StreamOpened(stream: Handle, protocol: Protocol)
    | DataReceived(stream: Handle, bytes: seq<byte>)
    | RemoteEnd(stream: Handle)
    | StreamClosed(stream: Handle, outcome: Outcome)
    | PingFinished(token: Token, elapsed: Result<nat, Failure>)
    | ConnectionClosed(failure: Option<Failure>)

  datatype SessionError =
    | IdViolation(error: IdError)
    | NotOwner
    | SessionClosed
    | Draining
    | WrongConnection
    | WrongStreamOwner
    | InvalidData
    | Capacity
    | Violation

  datatype StreamEntry = StreamEntry(handle: Handle, localOpen: bool, remoteOpen: bool, endWritten: bool)

  datatype Limits = Limits(streams: nat, bufferedPerStream: nat, lastInstant: Instant)

  function FailureOf(code: ErrorCode): FailureCode {
    match code
    case AuthenticationFailed => FailureCode.AuthenticationFailed
    case FrameSizeError => FrameTooLarge
    case UnsupportedProtocol => FailureCode.UnsupportedProtocol
    case StreamStateError => FailureCode.StreamState
    case RefusedStream => Refused
    case InternalError => Internal
    case IdExhausted => FailureCode.IdExhausted
    case ResourceLimit => FailureCode.ResourceLimit
    case Cancelled => FailureCode.Cancelled
    case ProtocolError | NoError => ProtocolViolation
  }

  function CancelCode(reason: CancelReason): ErrorCode {
    match reason
    case Requested => ErrorCode.Cancelled
    case OutOfResources => ErrorCode.ResourceLimit
    case Broken => ErrorCode.InternalError
  }

  function ShutdownCode(reason: ShutdownReason): ErrorCode {
    match reason
    case Normal => NoError
    case NoMoreIds => ErrorCode.IdExhausted
    case Overloaded => ErrorCode.ResourceLimit
    case Faulty => ErrorCode.InternalError
  }

  predicate ConcernsStream(e: Event) {
    e.StreamOpened? || e.DataReceived? || e.RemoteEnd? || e.StreamClosed?
  }

  ghost function Least(s: set<nat>): (m: nat)
    requires s != {}
    ensures m in s && forall x :: x in s ==> m <= x
    decreases |s|
  {
    var y :| y in s;
    var rest := s - {y};
    if rest == {} then
      assert s == {y};
      y
    else
      var m := Least(rest);
      assert forall x :: x in s ==> x == y || x in rest;
      if y < m then y else m
  }

  /** Elements of a finite set of numbers in increasing order, as an ordered map visits its keys. */
  ghost function Ascending(s: set<nat>): seq<nat>
    decreases |s|
  {
    if s == {} then [] else [Least(s)] + Ascending(s - {Least(s)})
  }

  /** The visit lists every element once, smallest first. */
  lemma {:induction false} AscendingVisit(s: set<nat>, r: seq<nat>)
    requires r == Ascending(s)
    ensures forall x :: x in r <==> x in s
    ensures forall i, j :: 0 <= i < j < |r| ==> r[i] < r[j]
    ensures |r| == |s|
    decreases |s|
  {
    if s != {} {
      var m := Least(s);
      var others := s - {m};
      var rest := Ascending(others);
      AscendingVisit(others, rest);
      assert forall x :: x in rest ==> x in s && x != m;
      VisitFrom(m, rest);
      assert r == [m] + rest;
      assert s == {m} + others;
    }
  }

  lemma VisitFrom(m: nat, rest: seq<nat>)
    requires forall x :: x in rest ==> m < x
    requires forall i, j :: 0 <= i < j < |rest| ==> rest[i] < rest[j]
    ensures forall i, j :: 0 <= i < j < |[m] + rest| ==> ([m] + rest)[i] < ([m] + rest)[j]
  {
    forall i, j | 0 <= i < j < |[m] + rest|
      ensures ([m] + rest)[i] < ([m] + rest)[j]
    {
      assert rest[j - 1] in rest;
    }
  }
}
