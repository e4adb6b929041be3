/**
 One direction of one stream: the sender's half, the receiver's half and the frames between
 them. Everything two honest sessions do to a stream is one of the moves below.
 */
module ChannelMoves {
  import opened Bytes
  import opened Codec
  import opened SessionTypes
  import opened Lines

  /** Absent: not created here yet. Gone: out of the stream table for good. */
  datatype Half = Absent | Live | Ended | Gone

  function Rank(k: Kind): nat {
    match k
    case Open => 0
    case Data => 1
    case End => 2
    case Cancel | Error => 3
    case _ => 4
  }

  /** OPEN, then DATA, then at most one END, then at most one CANCEL or ERROR. */
  ghost predicate Ordered(line: seq<Frame>) {
    forall i, j :: 0 <= i < j < |line| ==>
      Rank(line[i].kind) < Rank(line[j].kind) || (line[i].kind == Data && line[j].kind == Data)
  }

  ghost predicate AtMost(line: seq<Frame>, rank: nat) {
    forall i :: 0 <= i < |line| ==> Rank(line[i].kind) <= rank
  }

  ghost predicate AtLeast(line: seq<Frame>, rank: nat) {
    forall i :: 0 <= i < |line| ==> Rank(line[i].kind) >= rank
  }

  /** Error codes one honest session may put on a stream. */
  predicate StreamCode(k: Kind, code: ErrorCode) {
    if k == Kind.Cancel then
      code == ErrorCode.Cancelled || code == ErrorCode.ResourceLimit || code == ErrorCode.InternalError
    else code == RefusedStream || code == ErrorCode.ResourceLimit || code == ErrorCode.UnsupportedProtocol
  }

  /** Payloads are well formed for their kind. */
  ghost predicate WellFormed(f: Frame) {
    match f.kind
    case Open => DecodeOpen(f.payload).Ok?
    case Data => 1 <= |f.payload| <= MAX_PAYLOAD
    case End => f.payload == []
    case Cancel | Error => DecodeError(f.payload).Ok? && StreamCode(f.kind, DecodeError(f.payload).value.code)
    case _ => false
  }

  ghost predicate AllWellFormed(line: seq<Frame>) {
    forall i :: 0 <= i < |line| ==> WellFormed(line[i])
  }

  ghost predicate HasEnd(line: seq<Frame>) {
    exists i :: 0 <= i < |line| && line[i].kind == Kind.End
  }

  /**
   `sent` is what the sender's calls supplied, `got` what the receiver handed out and `finished`
   whether it reported the end. Bytes are lost only when a half is gone.
   */
  ghost predicate Channel(out: Half, inn: Half, line: seq<Frame>, sent: seq<byte>, got: seq<byte>, finished: bool) {
    && Ordered(line) && AllWellFormed(line)
    && (out == Absent ==> line == [] && sent == [] && got == [] && !finished && inn != Ended)
    && (out == Live ==> AtMost(line, 1) && inn != Ended && !finished)
    && (out == Ended ==> AtMost(line, 2))
    && (inn == Absent ==> got == [] && !finished && (line == [] || line[0].kind == Open))
    && (inn == Absent && (out == Live || out == Ended) ==> line != [])
    && (inn == Live ==> AtLeast(line, 1))
    && (inn == Live ==> !finished)
    && (inn == Ended ==> AtLeast(line, 3) && finished)
    && (inn == Absent || inn == Live ==>
          && got + DataBytes(line) <= sent
          && (out == Live || out == Ended || HasEnd(line) ==> got + DataBytes(line) == sent))
    && got <= sent
    && (finished ==> got == sent)
  }

  lemma ChannelShape(out: Half, inn: Half, line: seq<Frame>, sent: seq<byte>, got: seq<byte>, finished: bool)
    requires Channel(out, inn, line, sent, got, finished)
    ensures Ordered(line)
    ensures out == Absent ==> line == []
    ensures inn == Absent && (out == Live || out == Ended) ==> line != [] && line[0].kind == Open
  {
  }

  lemma {:induction false} NoData(line: seq<Frame>)
    requires AtLeast(line, 2)
    ensures DataBytes(line) == []
  {
    if line != [] {
      assert forall i :: 0 <= i < |line[1..]| ==> line[1..][i] == line[i + 1];
      NoData(line[1..]);
      assert Rank(line[0].kind) >= 2;
    }
  }

  /** A prefix of a line keeps a prefix of its bytes, and all of them if it keeps the END. */
  lemma PrefixBytes(line: seq<Frame>, n: nat)
    requires n <= |line| && Ordered(line)
    ensures DataBytes(line[..n]) <= DataBytes(line)
    ensures HasEnd(line[..n]) ==> DataBytes(line[..n]) == DataBytes(line)
  {
    hide DataBytes, Ordered, HasEnd;
    assert line == line[..n] + line[n..];
    DataBytesConcat(line[..n], line[n..]);
    if HasEnd(line[..n]) {
      NothingAfterEnd(line, n);
      NoData(line[n..]);
    }
  }

  lemma NothingAfterEnd(line: seq<Frame>, n: nat)
    requires n <= |line| && Ordered(line) && HasEnd(line[..n])
    ensures AtLeast(line[n..], 2)
  {
    var i :| 0 <= i < n && line[..n][i].kind == Kind.End;
    forall j | 0 <= j < |line[n..]|
      ensures Rank(line[n..][j].kind) >= 2
    {
      assert line[n..][j] == line[n + j];
      assert line[i].kind == Kind.End;
    }
  }

  lemma PrefixShape(line: seq<Frame>, n: nat)
    requires n <= |line| && Ordered(line) && AllWellFormed(line)
    ensures Ordered(line[..n]) && AllWellFormed(line[..n])
    ensures forall r: nat :: AtMost(line, r) ==> AtMost(line[..n], r)
    ensures forall r: nat :: AtLeast(line, r) ==> AtLeast(line[..n], r)
  {
  }

  lemma AppendShape(line: seq<Frame>, f: Frame, low: nat)
    requires Ordered(line) && AllWellFormed(line) && WellFormed(f)
    requires AtMost(line, low) && (low < Rank(f.kind) || (low == 1 && f.kind == Data))
    ensures Ordered(line + [f]) && AllWellFormed(line + [f]) && AtMost(line + [f], Rank(f.kind))
    ensures forall r: nat :: AtLeast(line, r) && r <= Rank(f.kind) ==> AtLeast(line + [f], r)
    ensures DataBytes(line + [f]) == DataBytes(line) + (if f.kind == Data then f.payload else [])
  {
    var all := line + [f];
    forall i, j | 0 <= i < j < |all|
      ensures Rank(all[i].kind) < Rank(all[j].kind) || (all[i].kind == Data && all[j].kind == Data)
    {
      if j == |line| {
        assert Rank(line[i].kind) <= low;
        if low == 1 && f.kind == Data {
          assert Rank(line[i].kind) <= 1;
        }
      }
    }
    DataBytesConcat(line, [f]);
    assert DataBytes([f]) == (if f.kind == Data then f.payload else []) + DataBytes([]);
  }

  // ---------------------------------------------------------------- sender moves

  lemma SendsData(inn: Half, line: seq<Frame>, sent: seq<byte>, got: seq<byte>, finished: bool, f: Frame)
    requires Channel(Live, inn, line, sent, got, finished)
    requires f.kind == Data && WellFormed(f)
    ensures Channel(Live, inn, line + [f], sent + f.payload, got, finished)
  {
    AppendShape(line, f, 1);
    if inn == Absent || inn == Live {
      assert got + DataBytes(line + [f]) == sent + f.payload;
    }
  }

  lemma SendsEnd(inn: Half, line: seq<Frame>, sent: seq<byte>, got: seq<byte>, finished: bool, f: Frame)
    requires Channel(Live, inn, line, sent, got, finished)
    requires f.kind == Kind.End && WellFormed(f)
    ensures Channel(Ended, inn, line + [f], sent, got, finished)
  {
    AppendShape(line, f, 1);
    assert DataBytes(line + [f]) == DataBytes(line);
  }

  /** The sender leaves; of its unsent frames only the OPEN stays. */
  lemma Abandons(out: Half, inn: Half, line: seq<Frame>, sent: seq<byte>, got: seq<byte>, finished: bool, n: nat)
    requires Channel(out, inn, line, sent, got, finished) && out != Absent
    requires n <= |line|
    ensures Channel(Gone, inn, line[..n], sent, got, finished)
  {
    PrefixShape(line, n);
    PrefixBytes(line, n);
    if inn == Absent || inn == Live {
      assert got + DataBytes(line[..n]) <= got + DataBytes(line);
      if HasEnd(line[..n]) {
        var i :| 0 <= i < n && line[..n][i].kind == Kind.End;
        assert line[i].kind == Kind.End;
        assert HasEnd(line);
      }
    }
  }

  /** A departing sender may add one last CANCEL or ERROR. */
  lemma AbandonsWith(out: Half, inn: Half, line: seq<Frame>, sent: seq<byte>, got: seq<byte>, finished: bool, n: nat,
                     f: Frame)
    requires Channel(out, inn, line, sent, got, finished) && (out == Live || out == Ended)
    requires n <= |line| && (inn == Absent ==> n > 0)
    requires Rank(f.kind) == 3 && WellFormed(f)
    ensures Channel(Gone, inn, line[..n] + [f], sent, got, finished)
  {
    Abandons(out, inn, line, sent, got, finished, n);
    AppendShape(line[..n], f, 2);
    assert DataBytes(line[..n] + [f]) == DataBytes(line[..n]);
    if HasEnd(line[..n] + [f]) {
      assert HasEnd(line[..n]);
    }
  }

  /** Normal completion on the sender's side. */
  lemma SenderSettles(inn: Half, line: seq<Frame>, sent: seq<byte>, got: seq<byte>, finished: bool)
    requires Channel(Ended, inn, line, sent, got, finished)
    ensures Channel(Gone, inn, line, sent, got, finished)
  {
    Abandons(Ended, inn, line, sent, got, finished, |line|);
    assert line[..|line|] == line;
  }

  lemma SenderOpens(inn: Half, sent: seq<byte>, got: seq<byte>, finished: bool, line: seq<Frame>, f: Frame)
    requires Channel(Absent, inn, line, sent, got, finished) && (inn == Absent || inn == Gone)
    requires f.kind == Open && WellFormed(f)
    ensures Channel(Live, inn, line + [f], sent, got, finished)
  {
    assert line + [f] == [f];
    assert DataBytes([f]) == DataBytes([f][1..]);
    assert DataBytes([f]) == [];
  }

  /** The sender joins a stream its peer opened. */
  lemma SenderJoins(inn: Half, line: seq<Frame>, sent: seq<byte>, got: seq<byte>, finished: bool)
    requires Channel(Absent, inn, line, sent, got, finished) && inn != Absent
    ensures Channel(Live, inn, line, sent, got, finished)
    ensures Channel(Gone, inn, line, sent, got, finished)
  {
    assert DataBytes(line) == [];
  }

  lemma SenderRefuses(inn: Half, line: seq<Frame>, sent: seq<byte>, got: seq<byte>, finished: bool, f: Frame)
    requires Channel(Absent, inn, line, sent, got, finished) && inn != Absent
    requires Rank(f.kind) == 3 && WellFormed(f)
    ensures Channel(Gone, inn, line + [f], sent, got, finished)
  {
    assert line + [f] == [f];
    assert DataBytes([f]) == DataBytes([f][1..]);
    assert DataBytes([f]) == [];
  }

  // ---------------------------------------------------------------- receiver moves

  lemma TailShape(line: seq<Frame>)
    requires line != [] && Ordered(line) && AllWellFormed(line)
    ensures Ordered(line[1..]) && AllWellFormed(line[1..])
    ensures forall r: nat :: AtMost(line, r) ==> AtMost(line[1..], r)
    ensures AtLeast(line[1..], if line[0].kind == Data then 1 else Rank(line[0].kind) + 1)
    ensures HasEnd(line[1..]) ==> HasEnd(line)
    ensures DataBytes(line) == (if line[0].kind == Data then line[0].payload else []) + DataBytes(line[1..])
  {
    var t := line[1..];
    assert forall i :: 0 <= i < |t| ==> t[i] == line[i + 1];
    if HasEnd(t) {
      var i :| 0 <= i < |t| && t[i].kind == Kind.End;
      assert line[i + 1].kind == Kind.End;
    }
  }

  lemma ReceivesData(out: Half, line: seq<Frame>, sent: seq<byte>, got: seq<byte>, finished: bool)
    requires Channel(out, Live, line, sent, got, finished)
    requires line != [] && line[0].kind == Data
    ensures Channel(out, Live, line[1..], sent, got + line[0].payload, finished)
  {
    TailShape(line);
    assert got + line[0].payload + DataBytes(line[1..]) == got + DataBytes(line);
  }

  lemma ReceivesEnd(out: Half, line: seq<Frame>, sent: seq<byte>, got: seq<byte>, finished: bool)
    requires Channel(out, Live, line, sent, got, finished)
    requires line != [] && line[0].kind == Kind.End
    ensures Channel(out, Ended, line[1..], sent, got, true)
  {
    TailShape(line);
    NoData(line[1..]);
    assert HasEnd(line);
    assert DataBytes(line) == [];
  }

  /** The receiver leaves, with or without consuming the next frame. */
  lemma ReceiverLeaves(out: Half, inn: Half, line: seq<Frame>, sent: seq<byte>, got: seq<byte>, finished: bool, n: nat)
    requires Channel(out, inn, line, sent, got, finished)
    requires n <= 1 && n <= |line|
    ensures Channel(out, Gone, line[n..], sent, got, finished)
  {
    if n == 1 {
      TailShape(line);
    } else {
      assert line[0..] == line;
    }
  }

  lemma ReceivesOpen(out: Half, line: seq<Frame>, sent: seq<byte>, got: seq<byte>, finished: bool)
    requires Channel(out, Absent, line, sent, got, finished)
    requires line != []
    ensures Channel(out, Live, line[1..], sent, got, finished)
    ensures Channel(out, Gone, line[1..], sent, got, finished)
  {
    TailShape(line);
  }

  /** The receiver creates the stream itself, so nothing can be on its way yet. */
  lemma ReceiverCreates(inn: Half, line: seq<Frame>, sent: seq<byte>, got: seq<byte>, finished: bool)
    requires Channel(Absent, inn, line, sent, got, finished)
    ensures Channel(Absent, Live, line, sent, got, finished)
  {
  }
}
