/** Connection-bound integrity: implicit sequence counters and one pending seal per direction. */
module Integrity {
  import opened Bytes
  import opened Codec
  import opened Wire

  type Key = nat
  type Prefix = s: seq<byte> | |s| == 16 witness seq(16, _ => 0)
  type DependencyError = nat

  datatype DirectionKeys = DirectionKeys(key: Key, prefix: Prefix)

  datatype IntegrityError =
    | Closed
    | Busy
    | Shape
    | Exhausted
    | Dependency(error: DependencyError)

  /** Results of the cryptographic provider, which is not modelled: any function may answer. */
  type Mac = (Key, seq<byte>, seq<byte>) -> Result<Tag, DependencyError>
  type Check = (Key, seq<byte>, seq<byte>, Tag) -> Result<(), DependencyError>

  function Nonce(prefix: Prefix, sequence: u64): (r: seq<byte>)
    ensures |r| == 24
  {
    prefix + BigEndian64(sequence)
  }

  lemma NonceInjective(prefix: Prefix, m: u64, n: u64)
    requires Nonce(prefix, m) == Nonce(prefix, n)
    ensures m == n
  {
    assert BigEndian64(m) == Nonce(prefix, m)[16..];
    assert BigEndian64(n) == Nonce(prefix, n)[16..];
    RoundTrip64(m);
    RoundTrip64(n);
  }

  lemma PrefixInjective(p: Prefix, m: u64, q: Prefix, n: u64)
    requires Nonce(p, m) == Nonce(q, n)
    ensures p == q
  {
    assert p == Nonce(p, m)[..16];
    assert q == Nonce(q, n)[..16];
  }

  datatype Guard = Guard(
    send: Option<DirectionKeys>,
    receive: Option<DirectionKeys>,
    sendSequence: u64,
    receiveSequence: u64,
    pending: bool)

  datatype Step<+T> = Step(guard: Guard, result: Result<T, IntegrityError>)

  function NewGuard(send: DirectionKeys, receive: DirectionKeys): Guard {
    Guard(Some(send), Some(receive), 0, 0, false)
  }

  function Close(g: Guard): Guard {
    g.(send := None, receive := None, pending := false)
  }

  function Seal(g: Guard, f: Packet, mac: Mac): Step<Packet> {
    if g.send.None? then Step(g, Err(Closed))
    else if g.pending then Step(g, Err(Busy))
    else if f.tag.Some? then Step(Close(g), Err(Shape))
    else if g.sendSequence == MAX_U64 then Step(Close(g), Err(Exhausted))
    else
      match mac(g.send.value.key, Nonce(g.send.value.prefix, g.sendSequence), f.Covered())
      case Err(e) => Step(Close(g), Err(Dependency(e)))
      case Ok(tag) => Step(g.(pending := true), Ok(f.(tag := Some(tag))))
  }

  function Sent(g: Guard): Step<()> {
    if g.send.None? then Step(g, Err(Closed))
    else if !g.pending then Step(Close(g), Err(Shape))
    else if g.sendSequence == MAX_U64 then Step(g, Err(Exhausted))
    else Step(g.(sendSequence := g.sendSequence + 1, pending := false), Ok(()))
  }

  function Verify(g: Guard, f: Packet, check: Check): Step<Packet> {
    if g.receive.None? then Step(g, Err(Closed))
    else if f.tag.None? then Step(Close(g), Err(Shape))
    else
      match check(g.receive.value.key, Nonce(g.receive.value.prefix, g.receiveSequence), f.Covered(), f.tag.value)
      case Err(e) => Step(Close(g), Err(Dependency(e)))
      case Ok(_) =>
        if g.receiveSequence == MAX_U64 then Step(Close(g), Err(Exhausted))
        else Step(g.(receiveSequence := g.receiveSequence + 1), Ok(f))
  }

  /** The owned state, changed in place. */
  class Integrity {
    var send: Option<DirectionKeys>
    var receive: Option<DirectionKeys>
    var sendSequence: u64
    var receiveSequence: u64
    var pendingSend: bool

    ghost function View(): Guard
      reads this
    {
      Guard(send, receive, sendSequence, receiveSequence, pendingSend)
    }

    constructor (send: DirectionKeys, receive: DirectionKeys)
      ensures View() == NewGuard(send, receive)
    {
      this.send, this.receive := Some(send), Some(receive);
      sendSequence, receiveSequence, pendingSend := 0, 0, false;
    }

    method Release()
      modifies this
      ensures View() == Close(old(View()))
    {
      send, receive, pendingSend := None, None, false;
    }

    method SealFrame(f: Packet, mac: Mac) returns (r: Result<Packet, IntegrityError>)
      modifies this
      ensures View() == Seal(old(View()), f, mac).guard && r == Seal(old(View()), f, mac).result
      ensures r.Ok? <==> old(send.Some? && !pendingSend && sendSequence < MAX_U64) && f.tag.None?
                         && mac(old(send).value.key, Nonce(old(send).value.prefix, old(sendSequence)), f.Covered()).Ok?
      ensures r.Ok? ==> pendingSend && r.value.header == f.header && r.value.payload == f.payload && r.value.tag.Some?
    {
      if send.None? {
        return Err(Closed);
      }
      if pendingSend {
        return Err(Busy);
      }
      if f.tag.Some? {
        Release();
        return Err(Shape);
      }
      if sendSequence == MAX_U64 {
        Release();
        return Err(Exhausted);
      }
      var tag := mac(send.value.key, Nonce(send.value.prefix, sendSequence), f.Covered());
      if tag.Err? {
        Release();
        return Err(Dependency(tag.error));
      }
      pendingSend := true;
      return Ok(f.(tag := Some(tag.value)));
    }

    method MarkSent() returns (r: Result<(), IntegrityError>)
      modifies this
      ensures View() == Sent(old(View())).guard && r == Sent(old(View())).result
      ensures r.Ok? <==> old(send.Some? && pendingSend && sendSequence < MAX_U64)
      ensures sendSequence == old(sendSequence) + if r.Ok? then 1 else 0
    {
      if send.None? {
        return Err(Closed);
      }
      if !pendingSend {
        Release();
        return Err(Shape);
      }
      if sendSequence == MAX_U64 {
        return Err(Exhausted);
      }
      sendSequence := sendSequence + 1;
      pendingSend := false;
      return Ok(());
    }

    method VerifyFrame(f: Packet, check: Check) returns (r: Result<Packet, IntegrityError>)
      modifies this
      ensures View() == Verify(old(View()), f, check).guard && r == Verify(old(View()), f, check).result
      ensures r.Ok? <==> old(receive.Some? && receiveSequence < MAX_U64) && f.tag.Some?
                         && check(old(receive).value.key, Nonce(old(receive).value.prefix, old(receiveSequence)),
                                  f.Covered(), f.tag.value).Ok?
      ensures receiveSequence == old(receiveSequence) + if r.Ok? then 1 else 0
      ensures r.Ok? ==> r.value == f
    {
      if receive.None? {
        return Err(Closed);
      }
      if f.tag.None? {
        Release();
        return Err(Shape);
      }
      var checked := check(receive.value.key, Nonce(receive.value.prefix, receiveSequence), f.Covered(), f.tag.value);
      if checked.Err? {
        Release();
        return Err(Dependency(checked.error));
      }
      if receiveSequence == MAX_U64 {
        Release();
        return Err(Exhausted);
      }
      receiveSequence := receiveSequence + 1;
      return Ok(f);
    }
  }
}
