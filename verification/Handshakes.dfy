/** HELLO and AUTH sequencing for one connection, and the orientation of the keys it derives. */
module Handshakes {
  import opened Bytes
  import opened Codec
  import opened StreamNumbering
  import opened Wire
  import opened Integrity
  import opened Transcripts

  type Secret = nat
  type Shared = nat
  type Prk = nat
  type Identity = nat

  datatype KeyLabel = KeyI2A | KeyA2I
  datatype NonceLabel = NonceI2A | NonceA2I

  /** The primitives behind the ports, as uninterpreted functions shared by both ends. */
  datatype Primitives = Primitives(
    identify: Bytes32 -> Identity,
    agree: (Secret, Bytes32) -> Shared,
    digest: seq<byte> -> Bytes32,
    extract: (Bytes32, Shared) -> Prk,
    expandKey: (Prk, KeyLabel) -> Key,
    expandPrefix: (Prk, NonceLabel) -> Prefix)

  datatype SessionKeys = SessionKeys(send: DirectionKeys, receive: DirectionKeys)

  /** ASCII of "CR2SE-NETWORK-KEYS-V1" and a zero byte. */
  const KEYS_LABEL: seq<byte> :=
    [0x43, 0x52, 0x32, 0x53, 0x45, 0x2D, 0x4E, 0x45, 0x54, 0x57, 0x4F, 0x52, 0x4B, 0x2D,
     0x4B, 0x45, 0x59, 0x53, 0x2D, 0x56, 0x31, 0]

  function DeriveKeys(c: Primitives, role: Role, secret: Secret, remote: Bytes32, transcript: seq<byte>): SessionKeys {
    var shared := c.agree(secret, remote);
    var salt := c.digest(KEYS_LABEL + transcript);
    var prk := c.extract(salt, shared);
    var i2a := DirectionKeys(c.expandKey(prk, KeyI2A), c.expandPrefix(prk, NonceI2A));
    var a2i := DirectionKeys(c.expandKey(prk, KeyA2I), c.expandPrefix(prk, NonceA2I));
    if role == Initiator then SessionKeys(i2a, a2i) else SessionKeys(a2i, i2a)
  }

  /** Opposite roles over one transcript and one agreed secret hold mirrored keys. */
  lemma KeysMirror(c: Primitives, a: Secret, b: Secret, aPublic: Bytes32, bPublic: Bytes32, transcript: seq<byte>)
    requires c.agree(a, bPublic) == c.agree(b, aPublic)
    ensures var i := DeriveKeys(c, Initiator, a, bPublic, transcript);
            var r := DeriveKeys(c, Acceptor, b, aPublic, transcript);
            i.send == r.receive && i.receive == r.send
  {
  }

  datatype HandshakeError =
    | OutOfOrder
    | FromPeer(code: ErrorCode)
    | Payload
    | UnexpectedIdentity
    | Failing(error: DependencyError)

  datatype Established = Established(role: Role, local: Identity, peer: Identity, keys: SessionKeys)

  datatype Remote = Remote(hello: Hello, identity: Identity)

  datatype Hand = Hand(
    role: Role,
    expected: Option<Identity>,
    localIdentity: Identity,
    local: Hello,
    remote: Option<Remote>,
    secret: Option<Secret>,
    keys: Option<SessionKeys>,
    helloSent: bool,
    authSent: bool,
    peerVerified: bool,
    closed: bool)

  datatype HandStep<+T> = HandStep(hand: Hand, result: Result<T, HandshakeError>)

  /** One call's answers from the signing, identity and cryptographic ports. */
  datatype Answers = Answers(
    identifyFails: Option<DependencyError>,
    signature: Result<Signature, DependencyError>,
    verify: (Bytes32, seq<byte>, Signature) -> Result<(), DependencyError>,
    deriveFails: Option<DependencyError>)

  function Begin(role: Role, expected: Option<Identity>, identity: Identity, local: Hello, secret: Secret): Hand {
    Hand(role, expected, identity, local, None, Some(secret), None, false, false, false, false)
  }

  function CloseHand(h: Hand): Hand {
    h.(closed := true, secret := None, keys := None)
  }

  function Other(role: Role): Role {
    if role == Initiator then Acceptor else Initiator
  }

  /** Ordered by role, never by arrival. */
  function TranscriptWith(h: Hand, remote: Hello): seq<byte> {
    if h.role == Initiator then Transcript(h.local, remote) else Transcript(remote, h.local)
  }

  function ReportSent(h: Hand, kind: Kind): HandStep<()> {
    if kind == Kind.Hello && !h.closed && !h.helloSent then HandStep(h.(helloSent := true), Ok(()))
    else if kind == Auth && !h.closed && h.helloSent && !h.authSent && h.remote.Some? then
      HandStep(h.(authSent := true), Ok(()))
    else HandStep(CloseHand(h), Err(OutOfOrder))
  }

  function RawFrame(kind: Kind, payload: seq<byte>): Packet
    requires |payload| <= MAX_PAYLOAD
  {
    Packet(Header(kind, 0, |payload|), payload, None)
  }

  function ProcessHello(c: Primitives, h: Hand, payload: seq<byte>, answers: Answers): HandStep<Option<Packet>> {
    match DecodeHello(payload)
    case Err(_) => HandStep(h, Err(Payload))
    case Ok(remote) =>
      if answers.identifyFails.Some? then HandStep(h, Err(Failing(answers.identifyFails.value)))
      else
        var id := c.identify(remote.identityKey);
        if h.expected.Some? && h.expected.value != id then HandStep(h, Err(UnexpectedIdentity))
        else match answers.signature
             case Err(e) => HandStep(h, Err(Failing(e)))
             case Ok(signature) =>
               HandStep(h.(remote := Some(Remote(remote, id))), Ok(Some(RawFrame(Auth, signature))))
  }

  function ProcessAuth(c: Primitives, h: Hand, payload: seq<byte>, answers: Answers): HandStep<Option<Packet>>
    requires h.remote.Some?
  {
    var remote := h.remote.value.hello;
    var transcript := TranscriptWith(h, remote);
    if |payload| != AUTH_BYTES then HandStep(h, Err(Payload))
    else match answers.verify(remote.identityKey, Authentication(Other(h.role), transcript), payload)
         case Err(e) => HandStep(h, Err(Failing(e)))
         case Ok(_) =>
           if h.secret.None? then HandStep(h, Err(OutOfOrder))
           else if answers.deriveFails.Some? then HandStep(h.(secret := None), Err(Failing(answers.deriveFails.value)))
           else
             HandStep(h.(secret := None,
                         keys := Some(DeriveKeys(c, h.role, h.secret.value, remote.ephemeralKey, transcript)),
                         peerVerified := true),
                      Ok(None))
  }

  /** Order is checked before any primitive is called or secret consumed. */
  function Process(c: Primitives, h: Hand, f: Packet, answers: Answers): HandStep<Option<Packet>> {
    if h.closed || h.peerVerified || f.header.id != 0 || f.tag.Some? then HandStep(h, Err(OutOfOrder))
    else if f.header.kind == Kind.Error then
      match DecodeError(f.payload)
      case Err(_) => HandStep(h, Err(OutOfOrder))
      case Ok(d) => HandStep(h, Err(FromPeer(d.code)))
    else if f.header.kind == Kind.Hello && h.remote.None? then ProcessHello(c, h, f.payload, answers)
    else if f.header.kind == Auth && h.remote.Some? then ProcessAuth(c, h, f.payload, answers)
    else HandStep(h, Err(OutOfOrder))
  }

  function ReceiveHand(c: Primitives, h: Hand, f: Packet, answers: Answers): HandStep<Option<Packet>> {
    var r := Process(c, h, f, answers);
    if r.result.Err? then HandStep(CloseHand(r.hand), r.result) else r
  }

  predicate IsAuthenticated(h: Hand) {
    !h.closed && h.authSent && h.peerVerified
  }

  function TakeEstablished(h: Hand): (Hand, Option<Established>) {
    if IsAuthenticated(h) && h.remote.Some? && h.keys.Some? then
      (h.(keys := None), Some(Established(h.role, h.localIdentity, h.remote.value.identity, h.keys.value)))
    else (h, None)
  }

  /** The handshake as one connection owns it. */
  class Handshake {
    const primitives: Primitives
    const role: Role
    const expected: Option<Identity>
    const localIdentity: Identity
    const local: Hello
    var remote: Option<Remote>
    var secret: Option<Secret>
    var keys: Option<SessionKeys>
    var helloSent: bool
    var authSent: bool
    var peerVerified: bool
    var closed: bool

    ghost function View(): Hand
      reads this
    {
      Hand(role, expected, localIdentity, local, remote, secret, keys, helloSent, authSent, peerVerified, closed)
    }

    constructor (primitives: Primitives, role: Role, expected: Option<Identity>, identity: Identity, local: Hello,
                 secret: Secret)
      ensures View() == Begin(role, expected, identity, local, secret) && this.primitives == primitives
    {
      this.primitives, this.role, this.expected := primitives, role, expected;
      localIdentity, this.local := identity, local;
      remote, this.secret, keys := None, Some(secret), None;
      helloSent, authSent, peerVerified, closed := false, false, false, false;
    }

    method Close()
      modifies this
      ensures View() == CloseHand(old(View()))
    {
      closed, secret, keys := true, None, None;
    }

    method Sent(kind: Kind) returns (r: Result<(), HandshakeError>)
      modifies this
      ensures View() == ReportSent(old(View()), kind).hand && r == ReportSent(old(View()), kind).result
      ensures r.Ok? <==>
                old(!closed) && (if kind == Kind.Hello then !old(helloSent)
                                 else kind == Auth && old(helloSent && !authSent && remote.Some?))
      ensures r.Ok? ==>
                helloSent == (old(helloSent) || kind == Kind.Hello) && authSent == (old(authSent) || kind == Auth)
      ensures r.Err? ==> closed && secret.None? && keys.None?
    {
      if kind == Kind.Hello && !closed && !helloSent {
        helloSent := true;
      } else if kind == Auth && !closed && helloSent && !authSent && remote.Some? {
        authSent := true;
      } else {
        Close();
        return Err(OutOfOrder);
      }
      return Ok(());
    }

    method OnHello(payload: seq<byte>, answers: Answers) returns (r: Result<Option<Packet>, HandshakeError>)
      modifies this
      ensures View() == ProcessHello(primitives, old(View()), payload, answers).hand
      ensures r == ProcessHello(primitives, old(View()), payload, answers).result
      ensures r.Ok? ==> r.value.Some? && remote.Some?
    {
      hide DecodeHello;
      var decoded := DecodeHello(payload);
      if decoded.Err? {
        return Err(Payload);
      }
      if answers.identifyFails.Some? {
        return Err(Failing(answers.identifyFails.value));
      }
      var id := primitives.identify(decoded.value.identityKey);
      if expected.Some? && expected.value != id {
        return Err(UnexpectedIdentity);
      }
      if answers.signature.Err? {
        return Err(Failing(answers.signature.error));
      }
      remote := Some(Remote(decoded.value, id));
      return Ok(Some(RawFrame(Auth, answers.signature.value)));
    }

    method OnAuth(payload: seq<byte>, answers: Answers) returns (r: Result<Option<Packet>, HandshakeError>)
      requires remote.Some?
      modifies this
      ensures View() == ProcessAuth(primitives, old(View()), payload, answers).hand
      ensures r == ProcessAuth(primitives, old(View()), payload, answers).result
      ensures r.Ok? ==> r.value.None? && peerVerified && keys.Some? && secret.None?
    {
      hide Transcript, Authentication, DeriveKeys;
      var hello := remote.value.hello;
      var transcript := if role == Initiator then Transcript(local, hello) else Transcript(hello, local);
      if |payload| != AUTH_BYTES {
        return Err(Payload);
      }
      var proof := answers.verify(hello.identityKey, Authentication(Other(role), transcript), payload);
      if proof.Err? {
        return Err(Failing(proof.error));
      }
      if secret.None? {
        return Err(OutOfOrder);
      }
      var own := secret.value;
      secret := None;
      if answers.deriveFails.Some? {
        return Err(Failing(answers.deriveFails.value));
      }
      keys := Some(DeriveKeys(primitives, role, own, hello.ephemeralKey, transcript));
      peerVerified := true;
      return Ok(None);
    }

    method Receive(f: Packet, answers: Answers) returns (r: Result<Option<Packet>, HandshakeError>)
      modifies this
      ensures View() == ReceiveHand(primitives, old(View()), f, answers).hand
      ensures r == ReceiveHand(primitives, old(View()), f, answers).result
      ensures r.Err? ==> closed && secret.None? && keys.None?
      ensures r.Ok? ==> if r.value.Some? then f.header.kind == Kind.Hello && remote.Some? && old(remote).None?
                        else f.header.kind == Auth && peerVerified && keys.Some? && secret.None?
    {
      hide DecodeError, ProcessHello, ProcessAuth;
      if closed || peerVerified || f.header.id != 0 || f.tag.Some? {
        r := Err(OutOfOrder);
      } else if f.header.kind == Kind.Error {
        var error := DecodeError(f.payload);
        r := Err(if error.Err? then OutOfOrder else FromPeer(error.value.code));
      } else if f.header.kind == Kind.Hello && remote.None? {
        r := OnHello(f.payload, answers);
      } else if f.header.kind == Auth && remote.Some? {
        r := OnAuth(f.payload, answers);
      } else {
        r := Err(OutOfOrder);
      }
      if r.Err? {
        Close();
      }
    }

    method Take() returns (r: Option<Established>)
      modifies this
      ensures View() == TakeEstablished(old(View())).0 && r == TakeEstablished(old(View())).1
      ensures r.Some? <==> old(!closed && authSent && peerVerified && remote.Some? && keys.Some?)
      ensures r.Some? ==>
                keys.None? && r.value == Established(role, localIdentity, remote.value.identity, old(keys).value)
    {
      if closed || !authSent || !peerVerified || remote.None? || keys.None? {
        return None;
      }
      r := Some(Established(role, localIdentity, remote.value.identity, keys.value));
      keys := None;
    }
  }
}
