/** Any number of honest handshakes, in either role, over a network that may deliver anything to any of them. */
module HandshakeRun {
  import opened Bytes
  import opened Codec
  import opened StreamNumbering
  import opened Wire
  import opened Integrity
  import opened Transcripts
  import opened Handshakes

  /** A handshake with its initial secret, the messages it had signed and the facts it released. */
  datatype Party = Party(hand: Hand, initial: Secret, signed: seq<seq<byte>>, facts: seq<Established>)

  /** The honest handshakes there are; several of them may be one identity's. */
  type World = seq<Party>

  datatype Action =
    | Wrote(kind: Kind)
    | Arrives(frame: Packet, answers: Answers)
    | Taking
    | Closing

  /** The identity key of one of the honest handshakes. */
  ghost predicate HonestKey(w: World, key: Bytes32) {
    exists j :: 0 <= j < |w| && w[j].hand.local.identityKey == key
  }

  /** One of the handshakes under this identity key had the message signed. */
  ghost predicate SignedUnder(w: World, key: Bytes32, m: seq<byte>) {
    exists j :: 0 <= j < |w| && w[j].hand.local.identityKey == key && m in w[j].signed
  }

  /**
   Ideal signatures: under an honest identity key only messages verify that some handshake of that
   identity, at any time and in any role, had signed. Other keys are the network's to use as it likes.
   */
  ghost predicate Ideal(w: World, answers: Answers) {
    forall k: Bytes32, m: seq<byte>, s: Signature ::
      HonestKey(w, k) && answers.verify(k, m, s).Ok? ==> SignedUnder(w, k, m)
  }

  /** The message a handshake signs when it takes in a HELLO. */
  ghost function Signing(h: Hand, remote: Hello): seq<byte> {
    Authentication(h.role, TranscriptWith(h, remote))
  }

  ghost function Act(c: Primitives, p: Party, a: Action): Party {
    match a
    case Wrote(kind) => p.(hand := ReportSent(p.hand, kind).hand)
    case Arrives(f, answers) =>
      var h := ReceiveHand(c, p.hand, f, answers).hand;
      p.(hand := h,
         signed := if p.hand.remote.None? && h.remote.Some? then p.signed + [Signing(h, h.remote.value.hello)]
                   else p.signed)
    case Taking =>
      var (h, taken) := TakeEstablished(p.hand);
      p.(hand := h, facts := if taken.Some? then p.facts + [taken.value] else p.facts)
    case Closing => p.(hand := CloseHand(p.hand))
  }

  ghost predicate Next(c: Primitives, w: World, v: World) {
    exists i: nat, a: Action ::
      i < |w| && (a.Arrives? ==> Ideal(w, a.answers)) && v == w[i := Act(c, w[i], a)]
  }

  /** Key agreement commutes between any two of them. */
  ghost predicate Commutes(c: Primitives, w: World) {
    forall i, j :: 0 <= i < |w| && 0 <= j < |w| ==>
      c.agree(w[i].initial, w[j].hand.local.ephemeralKey) == c.agree(w[j].initial, w[i].hand.local.ephemeralKey)
  }

  /** Fresh handshakes under their own identities. */
  ghost predicate Initial(c: Primitives, w: World) {
    && (forall i :: 0 <= i < |w| ==>
          var h := w[i].hand;
          w[i] == Party(Begin(h.role, h.expected, c.identify(h.local.identityKey), h.local, w[i].initial),
                        w[i].initial, [], []))
    && Commutes(c, w)
  }

  ghost predicate Run(c: Primitives, run: seq<World>) {
    && run != [] && Initial(c, run[0])
    && forall k :: 0 < k < |run| ==> Next(c, run[k - 1], run[k])
  }

  ghost function Derived(c: Primitives, p: Party): SessionKeys
    requires p.hand.remote.Some?
  {
    var remote := p.hand.remote.value.hello;
    DeriveKeys(c, p.hand.role, p.initial, remote.ephemeralKey, TranscriptWith(p.hand, remote))
  }

  /** What one party may claim at any time. */
  ghost predicate Honest(c: Primitives, p: Party) {
    && p.hand.localIdentity == c.identify(p.hand.local.identityKey)
    && (p.hand.closed ==> p.hand.secret.None? && p.hand.keys.None?)
    && (p.hand.secret.Some? ==> p.hand.secret.value == p.initial)
    && (match p.hand.remote
        case None => p.signed == [] && !p.hand.peerVerified && !p.hand.authSent
        case Some(r) =>
          && p.signed == [Signing(p.hand, r.hello)]
          && r.identity == c.identify(r.hello.identityKey)
          && (p.hand.expected.Some? ==> p.hand.expected.value == r.identity))
    && (p.hand.keys.Some? ==> p.hand.peerVerified && p.facts == [] && p.hand.keys.value == Derived(c, p))
    && (!p.hand.peerVerified ==> p.facts == [] && p.hand.keys.None?)
    && |p.facts| <= 1
    && (p.facts != [] ==>
          && p.hand.authSent && p.hand.peerVerified
          && p.facts[0] == Established(p.hand.role, p.hand.localIdentity, p.hand.remote.value.identity, Derived(c, p)))
  }

  /** A verified peer that claims an honest key had this very role and transcript signed under it. */
  ghost predicate Backed(w: World, p: Party) {
    p.hand.peerVerified && p.hand.remote.Some? && HonestKey(w, p.hand.remote.value.hello.identityKey) ==>
      SignedUnder(w, p.hand.remote.value.hello.identityKey,
                  Authentication(Other(p.hand.role), TranscriptWith(p.hand, p.hand.remote.value.hello)))
  }

  ghost predicate Invariant(c: Primitives, w: World) {
    Commutes(c, w) && forall i :: 0 <= i < |w| ==> Honest(c, w[i]) && Backed(w, w[i])
  }

  lemma ArrivalKeeps(c: Primitives, w: World, p: Party, f: Packet, answers: Answers)
    requires Honest(c, p) && Backed(w, p) && Ideal(w, answers)
    ensures var p2 := Act(c, p, Arrives(f, answers)); Honest(c, p2) && Backed(w, p2)
  {
    hide Authentication, Transcript, DeriveKeys, DecodeHello, DecodeError, HonestKey, SignedUnder, ProcessHello,
      ProcessAuth;
    var h := p.hand;
    if f.header.kind == Kind.Hello && h.remote.None? {
      HelloKeeps(c, p, f.payload, answers);
    } else if f.header.kind == Auth && h.remote.Some? && !h.peerVerified {
      AuthKeeps(c, w, p, f.payload, answers);
    }
  }

  lemma HelloKeeps(c: Primitives, p: Party, payload: seq<byte>, answers: Answers)
    requires Honest(c, p) && p.hand.remote.None?
    ensures var h := ProcessHello(c, p.hand, payload, answers).hand;
            && h == p.hand.(remote := h.remote)
            && (ProcessHello(c, p.hand, payload, answers).result.Err? ==> h == p.hand)
            && Honest(c, p.(hand := h,
                            signed := if h.remote.Some? then p.signed + [Signing(h, h.remote.value.hello)]
                                      else p.signed))
  {
    hide Authentication, Transcript, DeriveKeys, DecodeHello;
  }

  lemma AuthKeeps(c: Primitives, w: World, p: Party, payload: seq<byte>, answers: Answers)
    requires Honest(c, p) && Backed(w, p) && Ideal(w, answers) && p.hand.remote.Some? && !p.hand.peerVerified
    ensures var h := ProcessAuth(c, p.hand, payload, answers).hand;
            && h == p.hand.(secret := h.secret, keys := h.keys, peerVerified := h.peerVerified)
            && Honest(c, p.(hand := h)) && Backed(w, p.(hand := h))
            && (ProcessAuth(c, p.hand, payload, answers).result.Err? ==> !h.peerVerified)
  {
    hide Authentication, Transcript, DeriveKeys, HonestKey, SignedUnder;
  }

  lemma OtherKeeps(c: Primitives, w: World, p: Party, a: Action)
    requires Honest(c, p) && Backed(w, p) && !a.Arrives?
    ensures var p2 := Act(c, p, a); Honest(c, p2) && Backed(w, p2)
  {
    hide Authentication, Transcript, DeriveKeys, HonestKey, SignedUnder, Derived;
    if p.hand.remote.Some? {
      DerivedSame(c, p, Act(c, p, a));
    }
  }

  lemma DerivedSame(c: Primitives, p: Party, q: Party)
    requires p.hand.remote.Some? && q.hand.remote == p.hand.remote && q.hand.role == p.hand.role
    requires q.hand.local == p.hand.local && q.initial == p.initial
    ensures Derived(c, q) == Derived(c, p)
  {
    hide Transcript, DeriveKeys;
  }

  lemma FixedByActs(c: Primitives, p: Party, a: Action)
    ensures var p2 := Act(c, p, a);
            && p2.hand.role == p.hand.role && p2.hand.local == p.hand.local
            && p2.initial == p.initial && p2.hand.expected == p.hand.expected
            && p.signed <= p2.signed
  {
    hide Authentication, Transcript, DeriveKeys, DecodeHello, DecodeError;
  }

  /** What no step changes: who is there, under which keys, and what was ever signed. */
  ghost predicate Continues(w: World, v: World) {
    && |v| == |w|
    && forall i :: 0 <= i < |w| ==>
         && v[i].hand.role == w[i].hand.role && v[i].hand.local == w[i].hand.local
         && v[i].initial == w[i].initial && v[i].hand.expected == w[i].hand.expected
         && w[i].signed <= v[i].signed
  }

  lemma BackedStays(w: World, v: World, p: Party)
    requires Continues(w, v) && Backed(w, p)
    ensures Backed(v, p)
  {
    hide Authentication, Transcript;
    if p.hand.remote.Some? {
      var key := p.hand.remote.value.hello.identityKey;
      if HonestKey(v, key) {
        var j :| 0 <= j < |v| && v[j].hand.local.identityKey == key;
        assert w[j].hand.local.identityKey == key;
      }
      var m := Authentication(Other(p.hand.role), TranscriptWith(p.hand, p.hand.remote.value.hello));
      if SignedUnder(w, key, m) {
        var j :| 0 <= j < |w| && w[j].hand.local.identityKey == key && m in w[j].signed;
        assert v[j].hand.local.identityKey == key && m in v[j].signed;
      }
    }
  }

  lemma StepKeeps(c: Primitives, w: World, v: World)
    requires Invariant(c, w) && Next(c, w, v)
    ensures Invariant(c, v) && Continues(w, v)
  {
    hide Act, Honest, Backed, Ideal;
    var i: nat, a: Action :| i < |w| && (a.Arrives? ==> Ideal(w, a.answers)) && v == w[i := Act(c, w[i], a)];
    FixedByActs(c, w[i], a);
    if a.Arrives? {
      ArrivalKeeps(c, w, w[i], a.frame, a.answers);
    } else {
      OtherKeeps(c, w, w[i], a);
    }
    forall j | 0 <= j < |v|
      ensures Honest(c, v[j]) && Backed(v, v[j])
    {
      BackedStays(w, v, v[j]);
    }
  }

  lemma {:induction false} RunKeeps(c: Primitives, run: seq<World>, k: nat)
    requires Run(c, run) && k < |run|
    ensures Invariant(c, run[k]) && Continues(run[0], run[k])
  {
    hide Next, Invariant;
    if k == 0 {
      assert Invariant(c, run[0]) by { Begins(c, run[0]); }
    } else {
      RunKeeps(c, run, k - 1);
      StepKeeps(c, run[k - 1], run[k]);
    }
  }

  lemma Begins(c: Primitives, w: World)
    requires Initial(c, w)
    ensures Invariant(c, w)
  {
  }

  /**
   Secrets and facts: facts are released at most once, only after the local AUTH was written and
   the peer's proof verified, and meet any pin; a closed handshake holds no private or session key.
   */
  lemma FactsAreReleasedOnce(c: Primitives, run: seq<World>, k: nat, i: nat)
    requires Run(c, run) && k < |run| && i < |run[k]|
    ensures var p := run[k][i];
            && |p.facts| <= 1
            && (p.facts != [] ==> p.hand.authSent && p.hand.peerVerified && p.hand.keys.None?
                                  && (p.hand.expected.Some? ==> p.facts[0].peer == p.hand.expected.value))
            && (p.hand.closed ==> p.hand.secret.None? && p.hand.keys.None?)
  {
    hide Backed, Derived;
    RunKeeps(c, run, k);
  }

  /** Two handshakes of opposite role, each of which took in the other's own HELLO. */
  ghost predicate Met(p: Party, q: Party) {
    && q.hand.role == Other(p.hand.role)
    && p.hand.remote.Some? && p.hand.remote.value.hello == q.hand.local
    && q.hand.remote.Some? && q.hand.remote.value.hello == p.hand.local
  }

  /** The HELLO a handshake took in and had proved carries an honest identity key. */
  ghost predicate Proved(w: World, p: Party) {
    p.hand.peerVerified && p.hand.remote.Some? && HonestKey(w, p.hand.remote.value.hello.identityKey)
  }

  /**
   A proof under an honest key, replayed or not, can only come from a handshake of that identity with this
   very one.
   */
  lemma ProofMeansMeeting(c: Primitives, w: World, i: nat) returns (j: nat)
    requires Invariant(c, w) && i < |w| && Proved(w, w[i])
    ensures j < |w| && Met(w[i], w[j]) && w[j].hand.local.identityKey == w[i].hand.remote.value.hello.identityKey
  {
    hide Authentication, Transcript, DeriveKeys, Honest;
    var p := w[i];
    var key := p.hand.remote.value.hello.identityKey;
    var m := Authentication(Other(p.hand.role), TranscriptWith(p.hand, p.hand.remote.value.hello));
    assert Backed(w, p);
    j :| 0 <= j < |w| && w[j].hand.local.identityKey == key && m in w[j].signed;
    SignerMet(c, p, w[j]);
  }

  lemma SignerMet(c: Primitives, p: Party, q: Party)
    requires Honest(c, q) && p.hand.remote.Some?
    requires Authentication(Other(p.hand.role), TranscriptWith(p.hand, p.hand.remote.value.hello)) in q.signed
    ensures Met(p, q)
  {
    hide Authentication, Transcript, DeriveKeys;
    var role, transcript := Other(p.hand.role), TranscriptWith(p.hand, p.hand.remote.value.hello);
    var theirs := TranscriptWith(q.hand, q.hand.remote.value.hello);
    AuthenticationInjective(role, transcript, q.hand.role, theirs);
    if p.hand.role == Initiator {
      TranscriptInjective(p.hand.local, p.hand.remote.value.hello, q.hand.remote.value.hello, q.hand.local);
    } else {
      TranscriptInjective(p.hand.remote.value.hello, p.hand.local, q.hand.local, q.hand.remote.value.hello);
    }
  }

  /** Released facts mirror each other: identities crossed, send keys equal receive keys. */
  ghost predicate Mirrored(a: Established, b: Established) {
    && b.role == Other(a.role)
    && a.peer == b.local && b.peer == a.local
    && a.keys.send == b.keys.receive && a.keys.receive == b.keys.send
  }

  /** Once two handshakes have met, the facts they release mirror each other. */
  lemma MetMeansMirrored(c: Primitives, w: World, i: nat, j: nat)
    requires Invariant(c, w) && i < |w| && j < |w| && Met(w[i], w[j])
    requires w[i].facts != [] && w[j].facts != []
    ensures Mirrored(w[i].facts[0], w[j].facts[0])
  {
    hide Transcript, DeriveKeys, Backed;
    var p, q := w[i], w[j];
    if p.hand.role == Initiator {
      KeysMirror(c, p.initial, q.initial, p.hand.local.ephemeralKey, q.hand.local.ephemeralKey,
                 Transcript(p.hand.local, q.hand.local));
    } else {
      KeysMirror(c, q.initial, p.initial, q.hand.local.ephemeralKey, p.hand.local.ephemeralKey,
                 Transcript(q.hand.local, p.hand.local));
    }
  }

  /**
   Handshake agreement against an active network: a handshake that released facts about an honest
   identity key has met a handshake of that identity, and if that one released facts too, they mirror
   each other. Proofs from any other handshake, of the same identities or not, do not do.
   */
  lemma Agreement(c: Primitives, run: seq<World>, k: nat, i: nat) returns (j: nat)
    requires Run(c, run) && k < |run| && i < |run[k]|
    requires run[k][i].facts != [] && Proved(run[k], run[k][i])
    ensures j < |run[k]| && Met(run[k][i], run[k][j])
    ensures run[k][j].facts != [] ==> Mirrored(run[k][i].facts[0], run[k][j].facts[0])
  {
    hide Run, Invariant, Proved, Met;
    RunKeeps(c, run, k);
    j := ProofMeansMeeting(c, run[k], i);
    if run[k][j].facts != [] {
      MetMeansMirrored(c, run[k], i, j);
    }
  }

  /** A pin on an honest identity is enough: the handshake that released facts has met one of that identity. */
  lemma PinnedMeansMeeting(c: Primitives, run: seq<World>, k: nat, i: nat, n: nat) returns (j: nat)
    requires Run(c, run) && k < |run| && i < |run[k]| && n < |run[k]|
    requires forall x: Bytes32, y: Bytes32 :: c.identify(x) == c.identify(y) ==> x == y
    requires run[k][i].facts != [] && run[k][i].hand.expected == Some(run[k][n].hand.localIdentity)
    ensures Proved(run[k], run[k][i])
    ensures j < |run[k]| && Met(run[k][i], run[k][j]) && run[k][j].hand.localIdentity == run[k][n].hand.localIdentity
  {
    hide Derived, Backed, Run, Met;
    RunKeeps(c, run, k);
    var w := run[k];
    var remote := w[i].hand.remote.value;
    assert c.identify(remote.hello.identityKey) == c.identify(w[n].hand.local.identityKey);
    assert HonestKey(w, remote.hello.identityKey);
    j := ProofMeansMeeting(c, w, i);
  }
}
