/** Two honest handshakes whose frames reach each other complete, whoever else is there. */
module HandshakeCompletion {
  import opened Bytes
  import opened Codec
  import opened StreamNumbering
  import opened Wire
  import opened Transcripts
  import opened Handshakes
  import opened HandshakeRun

  /** Ports that sign, and that accept exactly one message under one key. */
  function Trusting(key: Bytes32, message: seq<byte>, signature: Signature): Answers {
    Answers(None, Ok(signature),
            (k: Bytes32, m: seq<byte>, s: Signature) => if k == key && m == message then Ok(()) else Err(0), None)
  }

  /** Ports that sign and accept nothing. */
  function Wary(signature: Signature): Answers {
    Answers(None, Ok(signature), (k: Bytes32, m: seq<byte>, s: Signature) => Err(0), None)
  }

  predicate Welcomes(c: Primitives, h: Hand, remote: Hello) {
    h.expected.Some? ==> h.expected.value == c.identify(remote.identityKey)
  }

  /** The peer's HELLO is taken in and a message for it is signed. */
  lemma HelloTaken(c: Primitives, p: Party, remote: Hello, signature: Signature)
    requires !p.hand.closed && !p.hand.peerVerified && p.hand.remote.None? && Welcomes(c, p.hand, remote)
    ensures var a := Arrives(RawFrame(Kind.Hello, EncodeHello(remote)), Wary(signature));
            var h := p.hand.(remote := Some(Remote(remote, c.identify(remote.identityKey))));
            Act(c, p, a) == p.(hand := h, signed := p.signed + [Signing(h, remote)])
  {
    hide EncodeHello, DecodeHello, Authentication, Transcript;
    HelloExact(EncodeHello(remote), remote);
  }

  /** The peer's proof over this very handshake is accepted, and the keys are derived. */
  lemma AuthTaken(c: Primitives, p: Party, signature: Signature)
    requires !p.hand.closed && !p.hand.peerVerified && p.hand.remote.Some? && p.hand.secret.Some?
    ensures var remote := p.hand.remote.value.hello;
            var transcript := TranscriptWith(p.hand, remote);
            var a := Arrives(RawFrame(Auth, signature),
                             Trusting(remote.identityKey, Authentication(Other(p.hand.role), transcript), signature));
            Act(c, p, a) == p.(hand := p.hand.(secret := None, peerVerified := true,
                                                keys := Some(DeriveKeys(c, p.hand.role, p.hand.secret.value,
                                                                        remote.ephemeralKey, transcript))))
  {
    hide Authentication, Transcript, DeriveKeys;
  }

  lemma LineReported(c: Primitives, p: Party)
    requires !p.hand.closed
    ensures !p.hand.helloSent ==> Act(c, p, Wrote(Kind.Hello)) == p.(hand := p.hand.(helloSent := true))
    ensures p.hand.helloSent && !p.hand.authSent && p.hand.remote.Some? ==>
              Act(c, p, Wrote(Auth)) == p.(hand := p.hand.(authSent := true))
  {
  }

  lemma FactsTaken(c: Primitives, p: Party)
    requires IsAuthenticated(p.hand) && p.hand.remote.Some? && p.hand.keys.Some?
    ensures |Act(c, p, Taking).facts| == |p.facts| + 1
  {
  }

  /** One more step at the end of a run. */
  lemma Prolonged(c: Primitives, run: seq<World>, i: nat, a: Action) returns (longer: seq<World>)
    requires Run(c, run) && i < |run[|run| - 1]| && (a.Arrives? ==> Ideal(run[|run| - 1], a.answers))
    ensures Run(c, longer) && run <= longer && |longer| == |run| + 1
    ensures longer[|longer| - 1] == run[|run| - 1][i := Act(c, run[|run| - 1][i], a)]
  {
    hide Act, Ideal, Initial;
    var w := run[|run| - 1];
    var v := w[i := Act(c, w[i], a)];
    assert Next(c, w, v);
    longer := run + [v];
    forall k | 0 < k < |longer|
      ensures Next(c, longer[k - 1], longer[k])
    {
      assert k < |run| ==> Next(c, run[k - 1], run[k]);
    }
  }

  /** Ports that trust one signed message are ideal. */
  lemma TrustingIsIdeal(w: World, key: Bytes32, message: seq<byte>, signature: Signature)
    requires SignedUnder(w, key, message) || !HonestKey(w, key)
    ensures Ideal(w, Trusting(key, message, signature))
  {
    hide HonestKey, SignedUnder;
  }

  lemma WaryIsIdeal(w: World, signature: Signature)
    ensures Ideal(w, Wary(signature))
  {
    hide HonestKey, SignedUnder;
  }

  /** A handshake after it wrote its HELLO and took in the peer's. */
  ghost function Greeted(c: Primitives, p: Party, remote: Hello): Party {
    var h := p.hand.(helloSent := true, remote := Some(Remote(remote, c.identify(remote.identityKey))));
    p.(hand := h, signed := [Signing(h, remote)])
  }

  /** A handshake after it wrote its AUTH and accepted the peer's. */
  ghost function Agreed(c: Primitives, p: Party): Party
    requires p.hand.remote.Some? && p.hand.secret.Some?
  {
    var remote := p.hand.remote.value.hello;
    p.(hand := p.hand.(authSent := true, secret := None, peerVerified := true,
                       keys := Some(DeriveKeys(c, p.hand.role, p.hand.secret.value, remote.ephemeralKey,
                                               TranscriptWith(p.hand, remote)))))
  }

  ghost predicate Fresh(p: Party) {
    && !p.hand.closed && !p.hand.helloSent && !p.hand.authSent && !p.hand.peerVerified && p.hand.remote.None?
    && p.hand.secret.Some? && p.signed == [] && p.facts == []
  }

  /** HELLO out and the peer's HELLO in, at one end. */
  lemma Greets(c: Primitives, run: seq<World>, i: nat, remote: Hello, signature: Signature) returns (longer: seq<World>)
    requires Run(c, run) && i < |run[|run| - 1]| && Fresh(run[|run| - 1][i])
             && Welcomes(c, run[|run| - 1][i].hand, remote)
    ensures Run(c, longer) && run <= longer
    ensures longer[|longer| - 1] == run[|run| - 1][i := Greeted(c, run[|run| - 1][i], remote)]
  {
    hide Run, Act, Ideal, Signing, EncodeHello;
    assert run != [] by { Begun(c, run); }
    var w := run[|run| - 1];
    LineReported(c, w[i]);
    longer := Prolonged(c, run, i, Wrote(Kind.Hello));
    var v := longer[|longer| - 1];
    WaryIsIdeal(v, signature);
    HelloTaken(c, v[i], remote, signature);
    longer := Prolonged(c, longer, i, Arrives(RawFrame(Kind.Hello, EncodeHello(remote)), Wary(signature)));
    assert longer[|longer| - 1][i].signed == Greeted(c, w[i], remote).signed by {
      SignsAlike(v[i].hand, w[i].hand, remote, c);
    }
  }

  lemma Begun(c: Primitives, run: seq<World>)
    requires Run(c, run)
    ensures run != []
  {
  }

  /** What is signed depends on the role and the two HELLOs only. */
  lemma SignsAlike(h: Hand, k: Hand, remote: Hello, c: Primitives)
    requires h.role == k.role && h.local == k.local
    ensures forall r: Option<Remote>, b: bool ::
              Signing(h.(remote := r), remote) == Signing(k.(remote := r, helloSent := b), remote)
  {
    hide Authentication, Transcript;
  }

  /** AUTH out and the peer's AUTH in, at one end. */
  lemma Proves(c: Primitives, run: seq<World>, i: nat, signature: Signature) returns (longer: seq<World>)
    requires Run(c, run) && i < |run[|run| - 1]|
    requires var h := run[|run| - 1][i].hand;
             && !h.closed && h.helloSent && !h.authSent && !h.peerVerified && h.remote.Some? && h.secret.Some?
             && SignedUnder(run[|run| - 1], h.remote.value.hello.identityKey,
                            Authentication(Other(h.role), TranscriptWith(h, h.remote.value.hello)))
    ensures Run(c, longer) && run <= longer
    ensures longer[|longer| - 1] == run[|run| - 1][i := Agreed(c, run[|run| - 1][i])]
  {
    hide Run, Act, Ideal, Authentication, Transcript, DeriveKeys, SignedUnder;
    assert run != [] by { Begun(c, run); }
    var w := run[|run| - 1];
    LineReported(c, w[i]);
    longer := Prolonged(c, run, i, Wrote(Auth));
    var v := longer[|longer| - 1];
    var remote := w[i].hand.remote.value.hello;
    var message := Authentication(Other(w[i].hand.role), TranscriptWith(w[i].hand, remote));
    assert SignedUnder(v, remote.identityKey, message) by { SignedStill(c, w, v, i, remote.identityKey, message); }
    TrustingIsIdeal(v, remote.identityKey, message, signature);
    AuthTaken(c, v[i], signature);
    longer := Prolonged(c, longer, i,
                        Arrives(RawFrame(Auth, signature), Trusting(remote.identityKey, message, signature)));
  }

  lemma SignedStill(c: Primitives, w: World, v: World, i: nat, key: Bytes32, message: seq<byte>)
    requires i < |w| && |v| == |w| && v == w[i := v[i]] && v[i].signed == w[i].signed
             && v[i].hand.local == w[i].hand.local
    requires SignedUnder(w, key, message)
    ensures SignedUnder(v, key, message)
  {
    var j :| 0 <= j < |w| && w[j].hand.local.identityKey == key && message in w[j].signed;
    assert v[j].hand.local.identityKey == key && message in v[j].signed;
  }

  /** Each of two that greeted each other had signed what the other waits for. */
  lemma MutuallySigned(c: Primitives, w: World, i: nat, j: nat, p: Party, q: Party)
    requires i < |w| && j < |w| && q.hand.role == Other(p.hand.role)
    requires w[j].hand.local == q.hand.local && w[j].signed == Greeted(c, q, p.hand.local).signed
    requires w[i].hand.role == p.hand.role && w[i].hand.local == p.hand.local
    requires w[i].hand.remote == Some(Remote(q.hand.local, c.identify(q.hand.local.identityKey)))
    ensures SignedUnder(w, q.hand.local.identityKey,
                        Authentication(Other(w[i].hand.role), TranscriptWith(w[i].hand, q.hand.local)))
  {
    hide Authentication, Transcript;
    assert w[j].hand.local.identityKey == q.hand.local.identityKey;
  }

  lemma StartsFresh(c: Primitives, w: World, i: nat)
    requires Initial(c, w) && i < |w|
    ensures Fresh(w[i])
  {
  }

  /**
   Completion: from any start, two handshakes of opposite role that welcome each other can be run to
   the point where both have released facts, once, and the facts mirror each other.
   */
  lemma HandshakesComplete(c: Primitives, w: World, i: nat, j: nat, signatures: (Signature, Signature))
    returns (run: seq<World>)
    requires Initial(c, w) && i < |w| && j < |w| && i != j && w[j].hand.role == Other(w[i].hand.role)
    requires Welcomes(c, w[i].hand, w[j].hand.local) && Welcomes(c, w[j].hand, w[i].hand.local)
    ensures Run(c, run) && run[0] == w
    ensures var end := run[|run| - 1];
            && |end| == |w| && |end[i].facts| == 1 && |end[j].facts| == 1 && Met(end[i], end[j])
            && Mirrored(end[i].facts[0], end[j].facts[0])
  {
    hide Act, Authentication, Transcript, DeriveKeys, SignedUnder, Signing, Initial, Next, Invariant, Mirrored;
    var p, q := w[i], w[j];
    StartsFresh(c, w, i);
    StartsFresh(c, w, j);
    run := [w];
    run := Greets(c, run, i, q.hand.local, signatures.0);
    run := Greets(c, run, j, p.hand.local, signatures.1);
    MutuallySigned(c, run[|run| - 1], i, j, p, q);
    run := Proves(c, run, i, signatures.1);
    MutuallySigned(c, run[|run| - 1], j, i, q, p);
    run := Proves(c, run, j, signatures.0);
    FactsTaken(c, run[|run| - 1][i]);
    run := Prolonged(c, run, i, Taking);
    FactsTaken(c, run[|run| - 1][j]);
    run := Prolonged(c, run, j, Taking);
    RunKeeps(c, run, |run| - 1);
    assert Met(run[|run| - 1][i], run[|run| - 1][j]) by {
      TakingKeepsHands(c, run[|run| - 3][i]);
      TakingKeepsHands(c, run[|run| - 3][j]);
    }
    MetMeansMirrored(c, run[|run| - 1], i, j);
  }

  lemma TakingKeepsHands(c: Primitives, p: Party)
    ensures Act(c, p, Taking).hand == p.hand.(keys := Act(c, p, Taking).hand.keys)
  {
  }
}
