/** The decision path as one step system: a PDP anyone may call, any number of PEPs with their caches, a clock, and
    checks that each take several steps, interleaved with everything else. */
module System {
  import opened Values
  import opened Contract
  import opened Pep
  import opened Transport
  import opened Refinement
  import Base64Url
  import Caep
  import Pdp
  import Policy
  import Sealed
  import Token

  /** A PEP, the wire to its PDP, and whether it has a revocation cache. */
  datatype Node = Node(cfg: Config, wire: Wire, listens: bool)

  datatype World = World(svc: Pdp.Service, data: Json, domains: Policy.Domains, nodes: map<string, Node>)

  /** What it takes to trace an allow back to the PDP: the same sound primitives everywhere. The policy and the
      configurations may be any. */
  ghost predicate Coherent(w: World) {
    w.svc.prims.Sound() && forall n :: n in w.nodes ==> w.nodes[n].cfg.prims == w.svc.prims
  }

  /** What it takes for the fast path to agree with the PDP, on top of that. */
  ghost predicate Sane(w: World) {
    && Coherent(w) && Pdp.Framework(w.svc, w.data, w.domains) && BoundAndMonotone(w.domains)
    && forall n :: n in w.nodes ==> WellConfigured(w.nodes[n].cfg)
  }

  /** A token minted by the PDP: for which request, as the PDP received it, and when. */
  datatype Mint = Mint(request: Request, at: int)

  /** What became of a call to the PDP. */
  datatype Fate = Delivered | NeverArrived | ReplyLost

  /** How an outcome came about: without an allow, from a decision made during this check, or from a token. */
  datatype How = Refused | FreshDecision(mint: nat) | ReusedToken

  datatype Stage =
    | Arrived
    | PastGuard(passed: Passed)
    | PastScreen(passed: Passed)
    | Missed(request: Request)
    | Replied(request: Request, mint: nat)
    | Finished(out: Outcome, how: How, built: Option<Request>)

  /** A check under way. It records when it arrived, the cache contents it read, the clock its token was verified
      against, and the PDP's reply. */
  datatype Check = Check(
    node: string, http: Http, cid: string, since: int, stage: Stage,
    seen: set<string>, triedAt: int, reply: Result<Response, ()>)

  datatype State = State(now: int, mints: seq<Mint>, revoked: map<string, set<string>>, checks: map<nat, Check>)

  datatype Step =
    | Tick(to: int)
    | Signal(node: string, event: Caep.Event)
    | OutsideCall(request: Request)
    | Arrive(id: nat, node: string, http: Http, cid: string)
    | Guard(id: nat)
    | Screen(id: nat)
    | TryToken(id: nat)
    | AskPdp(id: nat, fate: Fate)
    | Conclude(id: nat)

  // ----- What clients can present -----

  function ClaimsOf(w: World, m: Mint): Token.Claims {
    Token.Stamped(w.svc.issuer, m.at, Pdp.ClaimsFor(w.svc.prims, m.request))
  }

  /** The payloads sealed so far under a secret: the PDP is the only minter and signs with its own. */
  ghost function Signed(w: World, mints: seq<Mint>, secret: Base64Url.Bytes): iset<Base64Url.Bytes> {
    iset m | m in mints && secret == w.svc.issuer.secret :: w.svc.prims.encodeClaims(ClaimsOf(w, m))
  }

  /** A client may present any string at all, short of forging a signature. */
  ghost predicate Presentable(w: World, mints: seq<Mint>, cfg: Config, h: Http) {
    cfg.verifier.Some? ==>
      Sealed.Authentic(w.svc.prims.mac, cfg.verifier.value.secret, Signed(w, mints, cfg.verifier.value.secret),
                       h.headers.decisionToken)
  }

  // ----- Steps -----

  /** If the step is an arrival, it brings no forged token. */
  ghost predicate Unforged(w: World, s: State, a: Step) {
    a.Arrive? && a.node in w.nodes ==> Presentable(w, s.mints, w.nodes[a.node].cfg, a.http)
  }

  ghost predicate Enabled(w: World, s: State, a: Step) {
    match a
    case Tick(to) => to >= s.now
    case Signal(node, _) => node in w.nodes && node in s.revoked && w.nodes[node].listens
    case OutsideCall(_) => true
    case Arrive(id, node, _, _) => id !in s.checks && node in w.nodes && node in s.revoked
    case Guard(id) => id in s.checks && s.checks[id].node in w.nodes && s.checks[id].stage.Arrived?
    case Screen(id) =>
      id in s.checks && s.checks[id].node in w.nodes && s.checks[id].node in s.revoked && s.checks[id].stage.PastGuard?
    case TryToken(id) => id in s.checks && s.checks[id].node in w.nodes && s.checks[id].stage.PastScreen?
    case AskPdp(id, _) => id in s.checks && s.checks[id].node in w.nodes && s.checks[id].stage.Missed?
    case Conclude(id) => id in s.checks && s.checks[id].stage.Replied?
  }

  function Refuse(c: Check, out: Outcome): Check {
    c.(stage := Finished(out, Refused, None))
  }

  function AfterGuard(cfg: Config, c: Check): Check {
    match Guarded(cfg, c.http, c.cid)
    case Err(out) => Refuse(c, out)
    case Ok(p) => c.(stage := PastGuard(p))
  }

  /** The one read of the revocation cache. */
  function AfterScreen(c: Check, revoked: set<string>): Check
    requires c.stage.PastGuard?
  {
    var subject, screened := c.http.headers.subjectId, c.(seen := revoked);
    if subject != "" && subject in revoked
    then Refuse(screened, Refusal(DenyForbidden, "session_revoked", c.cid))
    else screened.(stage := PastScreen(c.stage.passed))
  }

  function AfterToken(cfg: Config, c: Check, now: int): Check
    requires c.stage.PastScreen?
  {
    var tried := c.(triedAt := now);
    match RequestFor(cfg, c.http, c.cid, c.stage.passed)
    case Err(_) => Refuse(tried, Refusal(DenyForbidden, "l2_request_build_failed", c.cid))
    case Ok(r) =>
      if FastPath(cfg, now, c.http, r)
      then tried.(stage := Finished(Reused(c.http, c.cid), ReusedToken, Some(r)))
      else tried.(stage := Missed(r))
  }

  /** The PDP evaluates and mints at its own moment; the PEP sees the reply only if it is delivered. */
  function AfterPdp(w: World, wire: Wire, c: Check, now: int, mints: nat, fate: Fate): Check
    requires c.stage.Missed?
  {
    var r := c.stage.request;
    c.(stage := Replied(r, mints), reply := if fate.Delivered? then Remote(wire, w.svc, now, r) else Err(()))
  }

  function AfterReply(c: Check): Check
    requires c.stage.Replied?
  {
    var out := Answered(c.reply, c.cid);
    var how := if out.kind == Allow then FreshDecision(c.stage.mint) else Refused;
    c.(stage := Finished(out, how, Some(c.stage.request)))
  }

  function MintsAfter(w: World, s: State, r: Request): seq<Mint> {
    if Pdp.Allows(w.svc, s.now, r) then s.mints + [Mint(r, s.now)] else s.mints
  }

  ghost function Next(w: World, s: State, a: Step): State
    requires Enabled(w, s, a)
  {
    match a
    case Tick(to) => s.(now := to)
    case Signal(node, e) => s.(revoked := s.revoked[node := Caep.Applied(s.revoked[node], e)])
    case OutsideCall(r) => s.(mints := MintsAfter(w, s, r))
    case Arrive(id, node, h, cid) =>
      s.(checks := s.checks[id := Check(node, h, cid, s.now, Arrived, {}, s.now, Err(()))])
    case Guard(id) =>
      var c := s.checks[id];
      s.(checks := s.checks[id := AfterGuard(w.nodes[c.node].cfg, c)])
    case Screen(id) =>
      var c := s.checks[id];
      s.(checks := s.checks[id := AfterScreen(c, s.revoked[c.node])])
    case TryToken(id) =>
      var c := s.checks[id];
      s.(checks := s.checks[id := AfterToken(w.nodes[c.node].cfg, c, s.now)])
    case AskPdp(id, fate) =>
      var c := s.checks[id];
      var wire := w.nodes[c.node].wire;
      s.(mints := if fate.NeverArrived? then s.mints else MintsAfter(w, s, Received(wire, c.stage.request)),
         checks := s.checks[id := AfterPdp(w, wire, c, s.now, |s.mints|, fate)])
    case Conclude(id) => s.(checks := s.checks[id := AfterReply(s.checks[id])])
  }

  // ----- The invariant -----

  /** The same joined resource name, and the same type and id when the type of r is a colon pair. */
  predicate SameResource(m: Request, r: Request) {
    && m.resource.kind + "/" + m.resource.id == r.resource.kind + "/" + r.resource.id
    && (IsColonPair(r.resource.kind) ==> m.resource.kind == r.resource.kind && m.resource.id == r.resource.id)
  }

  /** A minted decision that stands behind an allow of request r: same tuple, no higher level. */
  predicate Backs(m: Mint, r: Request) {
    && m.request.subject.id == r.subject.id
    && m.request.action.name == r.action.name
    && SameResource(m.request, r)
    && m.request.resource.properties.Entries() == r.resource.properties.Entries()
    && Policy.AalRank(m.request.subject.Aal()) <= Policy.AalRank(r.subject.Aal())
  }

  predicate Built(w: World, c: Check, r: Request) {
    && c.node in w.nodes
    && Guarded(w.nodes[c.node].cfg, c.http, c.cid).Ok?
    && RequestFor(w.nodes[c.node].cfg, c.http, c.cid, Guarded(w.nodes[c.node].cfg, c.http, c.cid).value) == Ok(r)
  }

  ghost predicate MintOk(w: World, s: State, m: Mint) {
    m.at <= s.now && Pdp.Allows(w.svc, m.at, m.request)
  }

  /** The outcome is the one the check's own ladder gives for what it saw. */
  predicate OutcomeOk(w: World, c: Check, out: Outcome)
    requires c.node in w.nodes
  {
    out == Checked(w.nodes[c.node].cfg, c.http, c.cid, c.seen, c.triedAt, (r: Request) => c.reply)
  }

  predicate Unrevoked(c: Check) {
    c.http.headers.subjectId == "" || c.http.headers.subjectId !in c.seen
  }

  /** The request was built, the fast path missed, and the screen was passed. */
  predicate AtPdp(w: World, c: Check, r: Request) {
    Built(w, c, r) && !FastPath(w.nodes[c.node].cfg, c.triedAt, c.http, r) && Unrevoked(c)
  }

  /** Mint k came of this check's request, during the check, with the very reply the check got. */
  predicate FreshlyBacked(w: World, mints: seq<Mint>, c: Check, r: Request, k: nat)
    requires c.node in w.nodes
  {
    var wire := w.nodes[c.node].wire;
    && k < |mints| && mints[k].request == Received(wire, r) && c.since <= mints[k].at
    && c.reply == Remote(wire, w.svc, mints[k].at, r)
  }

  /** The token the check carries is live and has the claims of mint m, made before the token was tried. */
  predicate CarriesMint(w: World, c: Check, m: Mint)
    requires c.node in w.nodes
  {
    var cfg := w.nodes[c.node].cfg;
    && m.at <= c.triedAt < m.at + w.svc.issuer.ttl
    && cfg.verifier.Some?
    && Token.Verify(w.svc.prims, cfg.verifier.value, c.triedAt, c.http.headers.decisionToken) == Ok(ClaimsOf(w, m))
  }

  ghost predicate ReuseBacked(w: World, mints: seq<Mint>, c: Check, r: Request)
    requires c.node in w.nodes
  {
    exists m :: m in mints && Backs(m, r) && CarriesMint(w, c, m)
  }

  predicate FreshAllow(w: World, mints: seq<Mint>, c: Check, out: Outcome, r: Request, k: nat)
    requires c.node in w.nodes
  {
    Built(w, c, r) && FreshlyBacked(w, mints, c, r, k) && out == Answered(c.reply, c.cid)
  }

  ghost predicate ReuseAllow(w: World, mints: seq<Mint>, c: Check, out: Outcome, r: Request)
    requires c.node in w.nodes
  {
    Built(w, c, r) && ReuseBacked(w, mints, c, r) && out == Reused(c.http, c.cid)
  }

  /** The check stands where the ladder puts it, given what it has seen. */
  predicate OnLadder(w: World, c: Check) {
    && c.node in w.nodes
    && match c.stage
       case Arrived => true
       case PastGuard(p) => Guarded(w.nodes[c.node].cfg, c.http, c.cid) == Ok(p)
       case PastScreen(p) => Guarded(w.nodes[c.node].cfg, c.http, c.cid) == Ok(p) && Unrevoked(c)
       case Missed(r) => AtPdp(w, c, r)
       case Replied(r, _) => AtPdp(w, c, r)
       case Finished(out, how, _) => OutcomeOk(w, c, out) && (out.kind == Allow <==> !how.Refused?)
  }

  /** An allow the check has, or is about to have, is accounted for. */
  ghost predicate Backed(w: World, mints: seq<Mint>, c: Check)
    requires c.node in w.nodes
  {
    match c.stage
    case Replied(r, k) => c.reply.Ok? && c.reply.value.decision ==> FreshlyBacked(w, mints, c, r, k)
    case Finished(out, how, r) =>
      && (how.FreshDecision? ==> r.Some? && FreshAllow(w, mints, c, out, r.value, how.mint))
      && (how.ReusedToken? ==> r.Some? && ReuseAllow(w, mints, c, out, r.value))
    case _ => true
  }

  ghost predicate CheckOk(w: World, s: State, c: Check) {
    && OnLadder(w, c)
    && c.since <= c.triedAt <= s.now
    && Presentable(w, s.mints, w.nodes[c.node].cfg, c.http)
    && Backed(w, s.mints, c)
  }

  ghost predicate Inv(w: World, s: State) {
    && s.revoked.Keys == w.nodes.Keys
    && (forall k :: 0 <= k < |s.mints| ==> MintOk(w, s, s.mints[k]))
    && (forall id :: id in s.checks ==> CheckOk(w, s, s.checks[id]))
  }

  predicate Init(w: World, s: State) {
    s.mints == [] && s.revoked == (map n | n in w.nodes :: {}) && s.checks == map[]
  }

  // ----- Each check stays on its ladder, in any world -----

  lemma HitOutcome(w: World, c: Check, r: Request)
    requires Built(w, c, r) && Unrevoked(c) && FastPath(w.nodes[c.node].cfg, c.triedAt, c.http, r)
    ensures OutcomeOk(w, c, Reused(c.http, c.cid))
  {}

  lemma NoRequestOutcome(w: World, c: Check, p: Passed)
    requires c.node in w.nodes && Guarded(w.nodes[c.node].cfg, c.http, c.cid) == Ok(p) && Unrevoked(c)
    requires RequestFor(w.nodes[c.node].cfg, c.http, c.cid, p).Err?
    ensures OutcomeOk(w, c, Refusal(DenyForbidden, "l2_request_build_failed", c.cid))
  {}

  lemma TokenStaysOnLadder(w: World, c: Check, now: int)
    requires OnLadder(w, c) && c.stage.PastScreen?
    ensures OnLadder(w, AfterToken(w.nodes[c.node].cfg, c, now))
  {
    var (cfg, tried) := (w.nodes[c.node].cfg, c.(triedAt := now));
    var r := RequestFor(cfg, c.http, c.cid, c.stage.passed);
    if r.Err? {
      NoRequestOutcome(w, tried, c.stage.passed);
    } else if FastPath(cfg, now, c.http, r.value) {
      HitOutcome(w, tried, r.value);
    }
  }

  lemma CheckStaysOnLadder(w: World, s: State, a: Step, id: nat)
    requires Enabled(w, s, a) && id in Next(w, s, a).checks
    requires id in s.checks ==> OnLadder(w, s.checks[id])
    ensures OnLadder(w, Next(w, s, a).checks[id])
  {
    if a == TryToken(id) {
      TokenStaysOnLadder(w, s.checks[id], s.now);
    }
  }

  // ----- Each step keeps the invariant -----

  lemma SignedGrows(w: World, mints: seq<Mint>, more: seq<Mint>, cfg: Config, h: Http)
    requires mints <= more && Presentable(w, mints, cfg, h)
    ensures Presentable(w, more, cfg, h)
  {
    if cfg.verifier.Some? {
      var secret := cfg.verifier.value.secret;
      forall payload | payload in Signed(w, mints, secret)
        ensures payload in Signed(w, more, secret)
      {
        var m :| m in mints && secret == w.svc.issuer.secret && payload == w.svc.prims.encodeClaims(ClaimsOf(w, m));
        assert m in more;
      }
    }
  }

  /** Time passing and tokens being minted change nothing for the checks that stand still. */
  lemma CheckFrame(w: World, s: State, s': State, c: Check)
    requires CheckOk(w, s, c) && s.now <= s'.now && s.mints <= s'.mints
    ensures CheckOk(w, s', c)
  {
    SignedGrows(w, s.mints, s'.mints, w.nodes[c.node].cfg, c.http);
    if c.stage.Finished? && c.stage.how.ReusedToken? {
      var m :| m in s.mints && Backs(m, c.stage.built.value) && CarriesMint(w, c, m);
      assert m in s'.mints;
    }
  }

  /** Claims that verify under any PEP's verifier are those of a token the PDP minted, unexpired. */
  lemma VerifiedClaimsWereMinted(w: World, mints: seq<Mint>, cfg: Config, h: Http, now: int) returns (k: nat)
    requires w.svc.prims.Sound() && cfg.verifier.Some? && Presentable(w, mints, cfg, h)
    requires Token.Verify(w.svc.prims, cfg.verifier.value, now, h.headers.decisionToken).Ok?
    ensures k < |mints|
    ensures Token.Verify(w.svc.prims, cfg.verifier.value, now, h.headers.decisionToken) == Ok(ClaimsOf(w, mints[k]))
    ensures now < mints[k].at + w.svc.issuer.ttl
  {
    var secret, tok := cfg.verifier.value.secret, h.headers.decisionToken;
    Sealed.OpenOnlySigned(w.svc.prims.mac, secret, Signed(w, mints, secret), tok);
    var payload := Sealed.Open(w.svc.prims.mac, secret, tok).value;
    var m :| m in mints && secret == w.svc.issuer.secret && payload == w.svc.prims.encodeClaims(ClaimsOf(w, m));
    k :| 0 <= k < |mints| && mints[k] == m;
  }

  lemma BoundMintBacks(w: World, m: Mint, r: Request)
    requires w.svc.prims.Sound() && ContractValid(m.request)
    requires Binds(w.svc.prims, ClaimsOf(w, m), r)
    ensures Backs(m, r)
  {
    if IsColonPair(r.resource.kind) {
      BoundTuple(w.svc.prims, ClaimsOf(w, m), m.request, r);
    }
    Token.DigestInjective(w.svc.prims, m.request.resource.properties, r.resource.properties);
  }

  /** A hit is backed by a mint less than one lifetime old, whose claims bind the request. */
  lemma HitIsBacked(w: World, s: State, c: Check, r: Request) returns (k: nat)
    requires Coherent(w) && Inv(w, s) && CheckOk(w, s, c) && Built(w, c, r)
    requires FastPath(w.nodes[c.node].cfg, s.now, c.http, r)
    ensures k < |s.mints| && MintOk(w, s, s.mints[k]) && CarriesMint(w, c.(triedAt := s.now), s.mints[k])
    ensures Backs(s.mints[k], r) && Binds(w.svc.prims, ClaimsOf(w, s.mints[k]), r)
    ensures s.now < s.mints[k].at + w.svc.issuer.ttl
  {
    k := VerifiedClaimsWereMinted(w, s.mints, w.nodes[c.node].cfg, c.http, s.now);
    assert MintOk(w, s, s.mints[k]);
    BoundMintBacks(w, s.mints[k], r);
  }

  lemma HitStep(w: World, s: State, c: Check, r: Request)
    requires Coherent(w) && Inv(w, s) && CheckOk(w, s, c) && c.stage.PastScreen? && Built(w, c, r)
    requires FastPath(w.nodes[c.node].cfg, s.now, c.http, r)
    ensures CheckOk(w, s, c.(triedAt := s.now, stage := Finished(Reused(c.http, c.cid), ReusedToken, Some(r))))
  {
    var k := HitIsBacked(w, s, c, r);
    var m := s.mints[k];
    var after := c.(triedAt := s.now, stage := Finished(Reused(c.http, c.cid), ReusedToken, Some(r)));
    HitOutcome(w, after, r);
    assert m in s.mints && CarriesMint(w, after, m);
    assert ReuseAllow(w, s.mints, after, after.stage.out, r);
  }

  lemma TokenStep(w: World, s: State, c: Check)
    requires Coherent(w) && Inv(w, s) && CheckOk(w, s, c) && c.stage.PastScreen?
    ensures CheckOk(w, s, AfterToken(w.nodes[c.node].cfg, c, s.now))
  {
    var cfg := w.nodes[c.node].cfg;
    var r := RequestFor(cfg, c.http, c.cid, c.stage.passed);
    if r.Err? {
      NoRequestOutcome(w, c.(triedAt := s.now), c.stage.passed);
    } else if FastPath(cfg, s.now, c.http, r.value) {
      HitStep(w, s, c, r.value);
    }
  }

  /** An allowed reply means that the PDP minted, at the end of the list. */
  lemma ReplyBacked(w: World, s: State, c: Check, r: Request, fate: Fate)
    requires c.node in w.nodes && c.since <= s.now
    requires var wire := w.nodes[c.node].wire;
             && fate.Delivered? && c.reply == Remote(wire, w.svc, s.now, r)
             && c.reply.Ok? && c.reply.value.decision
    ensures FreshlyBacked(w, MintsAfter(w, s, Received(w.nodes[c.node].wire, r)), c, r, |s.mints|)
  {
    RemoteAllowsIff(w.nodes[c.node].wire, w.svc, s.now, r);
  }

  lemma PdpStep(w: World, s: State, s': State, c: Check, fate: Fate)
    requires Inv(w, s) && CheckOk(w, s, c) && c.stage.Missed? && s'.now == s.now
    requires s'.mints == if fate.NeverArrived? then s.mints
                         else MintsAfter(w, s, Received(w.nodes[c.node].wire, c.stage.request))
    ensures CheckOk(w, s', AfterPdp(w, w.nodes[c.node].wire, c, s.now, |s.mints|, fate))
  {
    SignedGrows(w, s.mints, s'.mints, w.nodes[c.node].cfg, c.http);
    var after := AfterPdp(w, w.nodes[c.node].wire, c, s.now, |s.mints|, fate);
    if after.reply.Ok? && after.reply.value.decision {
      ReplyBacked(w, s, after, c.stage.request, fate);
    }
  }

  lemma CheckSteps(w: World, s: State, c: Check)
    requires CheckOk(w, s, c)
    ensures c.stage.Arrived? ==> CheckOk(w, s, AfterGuard(w.nodes[c.node].cfg, c))
    ensures c.stage.PastGuard? && c.node in s.revoked ==> CheckOk(w, s, AfterScreen(c, s.revoked[c.node]))
    ensures c.stage.Replied? ==> CheckOk(w, s, AfterReply(c))
  {}

  lemma MintsStayOk(w: World, s: State, r: Request)
    requires Inv(w, s)
    ensures forall k :: 0 <= k < |MintsAfter(w, s, r)| ==> MintOk(w, s, MintsAfter(w, s, r)[k])
    ensures s.mints <= MintsAfter(w, s, r)
  {}

  /** A step that touches at most one check keeps the invariant when that check ends up well. */
  lemma OneCheckMoves(w: World, s: State, s': State, id: nat, c: Check)
    requires Inv(w, s) && s'.revoked.Keys == s.revoked.Keys && s'.now == s.now && s.mints <= s'.mints
    requires forall k :: 0 <= k < |s'.mints| ==> MintOk(w, s, s'.mints[k])
    requires s'.checks == s.checks[id := c] && CheckOk(w, s', c)
    ensures Inv(w, s')
  {
    forall other | other in s'.checks
      ensures CheckOk(w, s', s'.checks[other])
    {
      if other != id {
        CheckFrame(w, s, s', s.checks[other]);
      }
    }
    forall k | 0 <= k < |s'.mints|
      ensures MintOk(w, s', s'.mints[k])
    {
      assert MintOk(w, s, s'.mints[k]);
    }
  }

  lemma NoCheckMoves(w: World, s: State, s': State)
    requires Inv(w, s) && s'.revoked.Keys == s.revoked.Keys && s.now <= s'.now && s.mints <= s'.mints
    requires forall k :: 0 <= k < |s'.mints| ==> MintOk(w, s, s'.mints[k])
    requires s'.checks == s.checks
    ensures Inv(w, s')
  {
    forall id | id in s'.checks
      ensures CheckOk(w, s', s'.checks[id])
    {
      CheckFrame(w, s, s', s.checks[id]);
    }
    forall k | 0 <= k < |s'.mints|
      ensures MintOk(w, s', s'.mints[k])
    {
      assert MintOk(w, s, s'.mints[k]);
    }
  }

  /** Steps of a check up to its request. */
  lemma EarlyStepKeepsInv(w: World, s: State, a: Step)
    requires Inv(w, s) && Enabled(w, s, a) && Unforged(w, s, a) && (a.Arrive? || a.Guard? || a.Screen?)
    ensures Inv(w, Next(w, s, a))
  {
    var s' := Next(w, s, a);
    if !a.Arrive? {
      CheckSteps(w, s, s.checks[a.id]);
    }
    OneCheckMoves(w, s, s', a.id, s'.checks[a.id]);
  }

  /** Steps of a check from its token on. */
  lemma LateStepKeepsInv(w: World, s: State, a: Step)
    requires Coherent(w) && Inv(w, s) && Enabled(w, s, a) && (a.TryToken? || a.Conclude?)
    ensures Inv(w, Next(w, s, a))
  {
    var s' := Next(w, s, a);
    if a.TryToken? {
      TokenStep(w, s, s.checks[a.id]);
    } else {
      CheckSteps(w, s, s.checks[a.id]);
    }
    OneCheckMoves(w, s, s', a.id, s'.checks[a.id]);
  }

  lemma CallKeepsInv(w: World, s: State, id: nat, fate: Fate)
    requires Inv(w, s) && Enabled(w, s, AskPdp(id, fate))
    ensures Inv(w, Next(w, s, AskPdp(id, fate)))
  {
    var (s', c) := (Next(w, s, AskPdp(id, fate)), s.checks[id]);
    MintsStayOk(w, s, Received(w.nodes[c.node].wire, c.stage.request));
    PdpStep(w, s, s', c, fate);
    OneCheckMoves(w, s, s', id, s'.checks[id]);
  }

  /** Steps that belong to no check. */
  lemma OtherStepKeepsInv(w: World, s: State, a: Step)
    requires Inv(w, s) && Enabled(w, s, a) && (a.Tick? || a.Signal? || a.OutsideCall?)
    ensures Inv(w, Next(w, s, a))
  {
    if a.OutsideCall? {
      MintsStayOk(w, s, a.request);
    }
    NoCheckMoves(w, s, Next(w, s, a));
  }

  lemma StepKeepsInv(w: World, s: State, a: Step)
    requires Coherent(w) && Inv(w, s) && Enabled(w, s, a) && Unforged(w, s, a)
    ensures Inv(w, Next(w, s, a))
  {
    if a.Tick? || a.Signal? || a.OutsideCall? {
      OtherStepKeepsInv(w, s, a);
    } else if a.Arrive? || a.Guard? || a.Screen? {
      EarlyStepKeepsInv(w, s, a);
    } else if a.AskPdp? {
      CallKeepsInv(w, s, a.id, a.fate);
    } else {
      LateStepKeepsInv(w, s, a);
    }
  }
}
