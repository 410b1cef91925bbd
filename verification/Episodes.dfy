/** Concrete episodes: a whole run from the initial state, and one replay over each wire. */
module Episodes {
  import opened Values
  import opened Contract
  import opened Pep
  import opened System
  import opened Transport
  import opened Witnesses
  import Base64Url
  import Caep
  import Journey
  import Pdp
  import Refinement
  import Revocation
  import Runs
  import Sealed
  import Token

  /** A PEP at the edge before a domain that allows everything, a request of u-1, and the token minted for it. */
  lemma EdgeCase(prims: Token.Primitives, secret: Base64Url.Bytes) returns (x: Case)
    requires prims.Sound()
    ensures x.Setting() && x.PdpMinted() && FastPath(x.cfg, 0, x.h, x.r) && x.cfg.verifier == Some(x.svc.issuer)
    ensures Refinement.WellConfigured(x.cfg) && Refinement.BoundAndMonotone(x.domains)
    ensures x.svc.issuer.ttl == LIFETIME && x.r.resource.properties == Props(map[])
  {
    KindIsAColonPair();
    x := OpenStage(prims, secret, "1", EDGE, "acct:wallet", SpiffeOnly, "", "1");
  }

  // ----- A revoke that comes too late -----

  /** A world with this case's PEP in it, listening for events. */
  ghost predicate Hosts(w: World, x: Case) {
    && w.svc == x.svc && w.data == Null && w.domains == x.domains
    && w.nodes == map["pep" := Node(x.cfg, Grpc, true)]
  }

  /** Nobody is revoked yet, the token is minted, and check 0 of this case, if it has arrived, is at this stage. */
  ghost predicate At(s: State, x: Case, stage: Option<Stage>) {
    && s.now == 0 && s.mints == [Mint(x.m, 0)] && s.revoked == map["pep" := {}]
    && s.checks == if stage.None? then map[] else map[0 := Check("pep", x.h, "cid", 0, stage.value, {}, 0, Err(()))]
  }

  lemma MintedTokenIsPresentable(w: World, x: Case)
    requires x.Setting() && x.PdpMinted() && x.cfg.verifier == Some(x.svc.issuer) && w.svc == x.svc
    ensures Presentable(w, [Mint(x.m, 0)], x.cfg, x.h)
  {
    var (mints, secret) := ([Mint(x.m, 0)], x.svc.issuer.secret);
    var payload := w.svc.prims.encodeClaims(ClaimsOf(w, mints[0]));
    assert mints[0] in mints && payload in Signed(w, mints, secret);
    Sealed.SealIsAuthentic(x.svc.prims.mac, secret, Signed(w, mints, secret), payload);
  }

  lemma CallMoves(w: World, s: State, x: Case)
    requires Hosts(w, x) && Pdp.Allows(w.svc, 0, x.m) && Init(w, s) && s.now == 0
    ensures Enabled(w, s, OutsideCall(x.m)) && At(Next(w, s, OutsideCall(x.m)), x, None)
  {}

  lemma ArrivalMoves(w: World, s: State, x: Case)
    requires Hosts(w, x) && At(s, x, None) && Presentable(w, s.mints, x.cfg, x.h)
    ensures var a := Arrive(0, "pep", x.h, "cid");
            Enabled(w, s, a) && Unforged(w, s, a) && At(Next(w, s, a), x, Some(Arrived))
  {}

  lemma GuardMoves(w: World, s: State, x: Case)
    requires Hosts(w, x) && At(s, x, Some(Arrived)) && Guarded(x.cfg, x.h, "cid") == Ok(x.p)
    ensures Enabled(w, s, Guard(0)) && At(Next(w, s, Guard(0)), x, Some(PastGuard(x.p)))
  {}

  lemma ScreenMoves(w: World, s: State, x: Case)
    requires Hosts(w, x) && At(s, x, Some(PastGuard(x.p)))
    ensures Enabled(w, s, Screen(0)) && At(Next(w, s, Screen(0)), x, Some(PastScreen(x.p)))
  {}

  lemma LateMoves(w: World, s: State, x: Case, e: Caep.Event)
    requires Hosts(w, x) && At(s, x, Some(PastScreen(x.p))) && RequestFor(x.cfg, x.h, "cid", x.p) == Ok(x.r)
    requires FastPath(x.cfg, 0, x.h, x.r) && e.kind == Caep.REVOKED && e.subject == x.h.headers.subjectId
    ensures Enabled(w, s, Signal("pep", e)) && Enabled(w, Next(w, s, Signal("pep", e)), TryToken(0))
    ensures Runs.Allowed(Next(w, Next(w, s, Signal("pep", e)), TryToken(0)), 0)
  {
    HitIsDue(w, s, x);
    Revocation.RevokeAfterScreenIsNotSeen(w, s, 0, e);
  }

  lemma HitIsDue(w: World, s: State, x: Case)
    requires Hosts(w, x) && At(s, x, Some(PastScreen(x.p))) && RequestFor(x.cfg, x.h, "cid", x.p) == Ok(x.r)
    requires FastPath(x.cfg, 0, x.h, x.r)
    ensures Revocation.AboutToHit(w, s, 0) && "pep" in s.revoked
  {}

  lemma ToArrival(w: World, x: Case) returns (states: seq<State>, steps: seq<Step>)
    requires Hosts(w, x) && Pdp.Allows(w.svc, 0, x.m) && Presentable(w, [Mint(x.m, 0)], x.cfg, x.h)
    ensures Runs.IsUnforgedRun(w, states, steps) && |steps| == 2 && At(states[2], x, Some(Arrived))
  {
    var s := State(0, [], map["pep" := {}], map[]);
    assert Init(w, s);
    states, steps := [s], [];
    CallMoves(w, s, x);
    s := Next(w, s, OutsideCall(x.m));
    Runs.Continued(w, states, steps, OutsideCall(x.m), s);
    states, steps := states + [s], steps + [OutsideCall(x.m)];
    var arrive := Arrive(0, "pep", x.h, "cid");
    ArrivalMoves(w, s, x);
    s := Next(w, s, arrive);
    Runs.Continued(w, states, steps, arrive, s);
    states, steps := states + [s], steps + [arrive];
  }

  lemma ToScreen(w: World, x: Case, before: seq<State>, taken: seq<Step>) returns (states: seq<State>, steps: seq<Step>)
    requires Hosts(w, x) && Guarded(x.cfg, x.h, "cid") == Ok(x.p)
    requires Runs.IsUnforgedRun(w, before, taken) && |taken| == 2 && At(before[2], x, Some(Arrived))
    ensures Runs.IsUnforgedRun(w, states, steps) && |steps| == 4 && states[2] == before[2]
    ensures steps[3] == Screen(0) && At(states[4], x, Some(PastScreen(x.p)))
  {
    GuardMoves(w, before[2], x);
    var s3 := Next(w, before[2], Guard(0));
    Runs.Continued(w, before, taken, Guard(0), s3);
    ScreenMoves(w, s3, x);
    var s4 := Next(w, s3, Screen(0));
    Runs.Continued(w, before + [s3], taken + [Guard(0)], Screen(0), s4);
    states, steps := before + [s3] + [s4], taken + [Guard(0)] + [Screen(0)];
  }

  lemma ToLateAllow(w: World, x: Case, before: seq<State>, taken: seq<Step>, e: Caep.Event)
      returns (states: seq<State>, steps: seq<Step>)
    requires Hosts(w, x) && RequestFor(x.cfg, x.h, "cid", x.p) == Ok(x.r) && FastPath(x.cfg, 0, x.h, x.r)
    requires e.kind == Caep.REVOKED && e.subject == x.h.headers.subjectId
    requires Runs.IsUnforgedRun(w, before, taken) && |taken| == 4 && At(before[4], x, Some(PastScreen(x.p)))
    ensures Runs.IsUnforgedRun(w, states, steps) && |steps| == 6 && states[2] == before[2] && steps[3] == taken[3]
    ensures steps[4] == Signal("pep", e) && steps[5] == TryToken(0) && Runs.Allowed(states[6], 0)
  {
    LateMoves(w, before[4], x, e);
    var s5 := Next(w, before[4], Signal("pep", e));
    Runs.Continued(w, before, taken, Signal("pep", e), s5);
    var s6 := Next(w, s5, TryToken(0));
    Runs.Continued(w, before + [s5], taken + [Signal("pep", e)], TryToken(0), s6);
    states, steps := before + [s5] + [s6], taken + [Signal("pep", e)] + [TryToken(0)];
  }

  lemma RevokeIsInForce(x: Case, s: seq<State>, a: seq<Step>, e: Caep.Event)
    requires |s| == 7 && |a| == 6 && At(s[2], x, Some(Arrived)) && a[4] == Signal("pep", e) && a[5] == TryToken(0)
    requires e.kind == Caep.REVOKED && e.subject == x.h.headers.subjectId
    ensures Revocation.RevokeHolds(s, a, 4, 2, 6, 0, e)
  {}

  /** The hypotheses of the theorems about runs are met together with a real hit, and the boundary of revocation is
      real: a check that has read the cache is let through although its subject's revoke is applied by then. */
  lemma LateRevoke(prims: Token.Primitives, secret: Base64Url.Bytes)
      returns (w: World, states: seq<State>, steps: seq<Step>, e: Caep.Event)
    requires prims.Sound()
    ensures Sane(w) && |states| == 7 && |steps| == 6 && Runs.IsUnforgedRun(w, states, steps)
    ensures steps[3] == Screen(0) && steps[5] == TryToken(0)
    ensures Revocation.RevokeHolds(states, steps, 4, 2, 6, 0, e) && Runs.Allowed(states[6], 0)
  {
    var x := EdgeCase(prims, secret);
    w := World(x.svc, Null, x.domains, map["pep" := Node(x.cfg, Grpc, true)]);
    e := Caep.Event(Caep.REVOKED, x.h.headers.subjectId, 0);
    MintedTokenIsPresentable(w, x);
    states, steps := ToArrival(w, x);
    states, steps := ToScreen(w, x, states, steps);
    states, steps := ToLateAllow(w, x, states, steps, e);
    RevokeIsInForce(x, states, steps, e);
  }

  // ----- A replay over each wire -----

  lemma PdpAllowsHit(x: Case)
    requires x.Setting() && x.PdpMinted() && FastPath(x.cfg, 0, x.h, x.r) && x.cfg.verifier == Some(x.svc.issuer)
    requires Refinement.WellConfigured(x.cfg) && Refinement.BoundAndMonotone(x.domains)
    ensures Pdp.Allows(x.svc, 0, x.r)
  {
    var c := Pdp.ClaimsFor(x.svc.prims, x.m);
    Token.VerifyIssued(x.svc.prims, x.svc.issuer, x.svc.issuer, 0, 0, c);
    var stamped := Token.Stamped(x.svc.issuer, 0, c);
    Refinement.HitRefinesPdp(x.svc, Null, x.domains, x.cfg, x.h, "cid", x.p, x.r, x.m, stamped, InProcess, 0, 0);
  }

  lemma ReplayOver(svc: Pdp.Service, cfg: Config, h: Http, p: Passed, r: Request, wire: Wire)
    requires svc.prims.Sound() && cfg.prims == svc.prims && cfg.verifier == Some(svc.issuer)
    requires RequestFor(cfg, h, "cid", p) == Ok(r) && Pdp.Allows(svc, 0, r)
    requires Token.Unix(0) < Token.Unix(svc.issuer.ttl) && r.resource.properties == Props(map[])
    ensures FastPath(cfg, 0, Journey.WithToken(h, Pdp.Minted(svc, 0, Received(wire, r))), r) <==> !wire.JsonHttp?
  {
    RemoteAllowsIff(wire, svc, 0, r);
    var again := Journey.WithToken(h, Pdp.Minted(svc, 0, Received(wire, r)));
    assert RequestFor(cfg, again, "cid", p) == Ok(r);
    Journey.ReplayHitsIff(wire, svc, cfg, h, "cid", "cid", p, r, r, 0, 0);
  }

  /** An allowed request without lifted properties: the token minted over protobuf opens the fast path at once, and the
      one minted over JSON does not. */
  lemma EmptyReplay(prims: Token.Primitives, secret: Base64Url.Bytes) returns (x: Case)
    requires prims.Sound()
    ensures Refinement.WellConfigured(x.cfg) && Guarded(x.cfg, x.h, "cid") == Ok(x.p)
    ensures RequestFor(x.cfg, x.h, "cid", x.p) == Ok(x.r) && Pdp.Allows(x.svc, 0, x.r)
    ensures FastPath(x.cfg, 0, Journey.WithToken(x.h, Pdp.Minted(x.svc, 0, Received(Grpc, x.r))), x.r)
    ensures !FastPath(x.cfg, 0, Journey.WithToken(x.h, Pdp.Minted(x.svc, 0, Received(JsonHttp, x.r))), x.r)
  {
    x := EdgeCase(prims, secret);
    PdpAllowsHit(x);
    ReplayOver(x.svc, x.cfg, x.h, x.p, x.r, Grpc);
    ReplayOver(x.svc, x.cfg, x.h, x.p, x.r, JsonHttp);
  }
}
