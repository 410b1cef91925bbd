/** Safety over whole runs: where every allow comes from, and that the fast path changes nothing else. */
module Runs {
  import opened Values
  import opened Contract
  import opened Pep
  import opened Transport
  import opened System
  import Journey
  import Pdp
  import Refinement

  ghost predicate Follows(w: World, states: seq<State>, steps: seq<Step>, i: nat)
    requires i < |steps| && |states| == |steps| + 1
  {
    Enabled(w, states[i], steps[i]) && states[i + 1] == Next(w, states[i], steps[i])
  }

  ghost predicate IsRun(w: World, states: seq<State>, steps: seq<Step>) {
    && |states| == |steps| + 1
    && Init(w, states[0])
    && forall i :: 0 <= i < |steps| ==> Follows(w, states, steps, i)
  }

  /** A run in which nobody presents a forged signature. */
  ghost predicate IsUnforgedRun(w: World, states: seq<State>, steps: seq<Step>) {
    IsRun(w, states, steps) && forall i :: 0 <= i < |steps| ==> Unforged(w, states[i], steps[i])
  }

  lemma Continued(w: World, states: seq<State>, steps: seq<Step>, a: Step, s: State)
    requires IsUnforgedRun(w, states, steps) && Enabled(w, states[|steps|], a) && Unforged(w, states[|steps|], a)
    requires s == Next(w, states[|steps|], a)
    ensures IsUnforgedRun(w, states + [s], steps + [a])
  {
    var (more, taken) := (states + [s], steps + [a]);
    forall i | 0 <= i < |taken|
      ensures Follows(w, more, taken, i) && Unforged(w, more[i], taken[i])
    {
      if i < |steps| {
        assert Follows(w, states, steps, i) && Unforged(w, states[i], steps[i]);
      }
    }
  }

  lemma CheckHasAStep(w: World, states: seq<State>, steps: seq<Step>, j: nat, id: nat)
    requires IsRun(w, states, steps) && j < |states| && id in states[j].checks
    ensures j > 0 && Enabled(w, states[j - 1], steps[j - 1])
    ensures states[j] == Next(w, states[j - 1], steps[j - 1])
  {
    assert j > 0;
    assert Follows(w, states, steps, j - 1);
  }

  /** In any world, every check of a run stands where the ladder puts it. */
  lemma {:induction false} RunStaysOnLadder(w: World, states: seq<State>, steps: seq<Step>, j: nat, id: nat)
    requires IsRun(w, states, steps) && j < |states| && id in states[j].checks
    ensures OnLadder(w, states[j].checks[id])
  {
    CheckHasAStep(w, states, steps, j, id);
    if id in states[j - 1].checks {
      RunStaysOnLadder(w, states, steps, j - 1, id);
    }
    CheckStaysOnLadder(w, states[j - 1], steps[j - 1], id);
  }

  lemma {:induction false} RunKeepsInv(w: World, states: seq<State>, steps: seq<Step>, i: nat)
    requires Coherent(w) && IsUnforgedRun(w, states, steps) && i < |states|
    ensures Inv(w, states[i])
  {
    if i > 0 {
      RunKeepsInv(w, states, steps, i - 1);
      assert Follows(w, states, steps, i - 1) && Unforged(w, states[i - 1], steps[i - 1]);
      StepKeepsInv(w, states[i - 1], steps[i - 1]);
    }
  }

  // ----- Where an allow comes from -----

  predicate Allowed(s: State, id: nat) {
    id in s.checks && s.checks[id].stage.Finished? && s.checks[id].stage.out.kind == Allow
  }

  lemma BuiltOnARoute(w: World, c: Check, r: Request)
    requires Sane(w) && Built(w, c, r)
    ensures IsColonPair(r.resource.kind)
  {}

  /** A mint behind a PEP-built request makes the request itself one the PDP allows. */
  lemma BackedIsAllowed(w: World, s: State, c: Check, r: Request, m: Mint, t: int)
    requires Sane(w) && MintOk(w, s, m) && Backs(m, r) && Built(w, c, r)
    ensures ContractValid(r) && Pdp.Allows(w.svc, t, r)
  {
    var cfg := w.nodes[c.node].cfg;
    var p := Guarded(cfg, c.http, c.cid).value;
    BuiltOnARoute(w, c, r);
    Refinement.BuiltIsValidIff(cfg, c.http, c.cid, p, r, m.request);
    Refinement.BuiltRequestsPassGate3(cfg, c.http, c.cid, p, r);
    Refinement.AllowCarriesOver(w.svc, w.data, w.domains, m.request, r, m.at, t);
  }

  lemma FreshBacks(wire: Wire, m: Mint, r: Request)
    requires m.request == Received(wire, r)
    ensures Backs(m, r)
  {
    RequestArrives(wire, r);
    SameInputOnEveryWire(wire, r);
  }

  /** The mint, if any, that made or will make the outcome of a check an allow. */
  function Deciding(c: Check): Option<nat> {
    match c.stage
    case Replied(_, k) => if c.reply.Ok? && c.reply.value.decision then Some(k) else None
    case Finished(_, FreshDecision(k), _) => Some(k)
    case _ => None
  }

  /** Step a is check id's own call to the PDP, answered by an allow that is mint k. */
  ghost predicate Calls(w: World, s: State, a: Step, s': State, id: nat, k: nat) {
    && a == AskPdp(id, Delivered) && id in s.checks && s.checks[id].stage.Missed? && s.checks[id].node in w.nodes
    && k == |s.mints|
    && s'.mints == s.mints + [Mint(Received(w.nodes[s.checks[id].node].wire, s.checks[id].stage.request), s.now)]
  }

  lemma OnlyOwnCallsDecide(w: World, s: State, a: Step, id: nat, k: nat)
    requires Enabled(w, s, a) && id in Next(w, s, a).checks && Deciding(Next(w, s, a).checks[id]) == Some(k)
    ensures Calls(w, s, a, Next(w, s, a), id, k) || (id in s.checks && Deciding(s.checks[id]) == Some(k))
  {}

  lemma MintsGrow(w: World, s: State, a: Step)
    requires Enabled(w, s, a)
    ensures s.mints <= Next(w, s, a).mints
  {}

  lemma CallStep(w: World, states: seq<State>, steps: seq<Step>, j: nat, id: nat, k: nat)
    requires IsRun(w, states, steps) && j < |states|
    requires id in states[j].checks && Deciding(states[j].checks[id]) == Some(k)
    ensures j > 0 && states[j - 1].mints <= states[j].mints
    ensures Calls(w, states[j - 1], steps[j - 1], states[j], id, k)
            || (id in states[j - 1].checks && Deciding(states[j - 1].checks[id]) == Some(k))
  {
    CheckHasAStep(w, states, steps, j, id);
    OnlyOwnCallsDecide(w, states[j - 1], steps[j - 1], id, k);
    MintsGrow(w, states[j - 1], steps[j - 1]);
  }

  /** A fresh decision goes back to a call of the check's own, and its mint is the one that call added. */
  lemma {:induction false} FindCall(w: World, states: seq<State>, steps: seq<Step>, j: nat, id: nat, k: nat)
      returns (q: nat)
    requires IsRun(w, states, steps) && j < |states|
    requires id in states[j].checks && Deciding(states[j].checks[id]) == Some(k)
    ensures q < j && Calls(w, states[q], steps[q], states[q + 1], id, k)
    ensures states[q + 1].mints <= states[j].mints
  {
    CallStep(w, states, steps, j, id, k);
    if Calls(w, states[j - 1], steps[j - 1], states[j], id, k) {
      q := j - 1;
    } else {
      q := FindCall(w, states, steps, j - 1, id, k);
    }
  }

  predicate Reuses(s: State, id: nat) {
    id in s.checks && s.checks[id].stage.Finished? && s.checks[id].stage.how.ReusedToken?
  }

  lemma OnlyTriesReuse(w: World, s: State, a: Step, id: nat)
    requires Enabled(w, s, a) && Reuses(Next(w, s, a), id)
    ensures a == TryToken(id) || (Reuses(s, id) && Next(w, s, a).checks[id] == s.checks[id])
  {}

  lemma TryIsOnTheSpot(w: World, s: State, id: nat)
    requires Enabled(w, s, TryToken(id))
    ensures Next(w, s, TryToken(id)).mints == s.mints && Next(w, s, TryToken(id)).checks[id].triedAt == s.now
  {}

  /** Step q tries the token of check id, which then stands as it does in state s. */
  ghost predicate Tries(states: seq<State>, steps: seq<Step>, q: nat, s: State, id: nat)
    requires q < |steps| && |states| == |steps| + 1
  {
    && steps[q] == TryToken(id) && states[q + 1].mints == states[q].mints <= s.mints
    && id in s.checks && id in states[q + 1].checks && states[q + 1].checks[id] == s.checks[id]
    && s.checks[id].triedAt == states[q].now
  }

  lemma TryStep(w: World, states: seq<State>, steps: seq<Step>, j: nat, id: nat)
    requires IsRun(w, states, steps) && j < |states| && Reuses(states[j], id)
    ensures j > 0 && states[j - 1].mints <= states[j].mints
    ensures Tries(states, steps, j - 1, states[j], id)
            || (Reuses(states[j - 1], id) && states[j - 1].checks[id] == states[j].checks[id])
  {
    CheckHasAStep(w, states, steps, j, id);
    OnlyTriesReuse(w, states[j - 1], steps[j - 1], id);
    MintsGrow(w, states[j - 1], steps[j - 1]);
    if steps[j - 1] == TryToken(id) {
      TryIsOnTheSpot(w, states[j - 1], id);
    }
  }

  lemma {:induction false} FindTry(w: World, states: seq<State>, steps: seq<Step>, j: nat, id: nat) returns (q: nat)
    requires IsRun(w, states, steps) && j < |states| && Reuses(states[j], id)
    ensures q < j && Tries(states, steps, q, states[j], id)
  {
    TryStep(w, states, steps, j, id);
    if Tries(states, steps, j - 1, states[j], id) {
      q := j - 1;
    } else {
      q := FindTry(w, states, steps, j - 1, id);
    }
  }

  /** How the allow of check c was come by, at step q: by a call of its own that minted m and whose token it hands out,
      or by trying a live token with the claims of a mint m that was there before. */
  ghost predicate Earned(w: World, states: seq<State>, steps: seq<Step>, q: nat, id: nat, c: Check, r: Request, m: Mint)
    requires q < |steps| && |states| == |steps| + 1 && c.node in w.nodes && c.stage.Finished?
  {
    match c.stage.how
    case Refused => false
    case FreshDecision(_) =>
      && steps[q] == AskPdp(id, Delivered)
      && states[q + 1].mints == states[q].mints + [m]
      && m == Mint(Received(w.nodes[c.node].wire, r), states[q].now)
      && c.stage.out.token == Pdp.Minted(w.svc, m.at, m.request)
    case ReusedToken =>
      && steps[q] == TryToken(id) && c.triedAt == states[q].now
      && m in states[q].mints && CarriesMint(w, c, m)
      && c.stage.out.token == c.http.headers.decisionToken
  }

  lemma FreshAllowHasItsToken(w: World, mints: seq<Mint>, c: Check, out: Outcome, r: Request, k: nat)
    requires c.node in w.nodes && FreshAllow(w, mints, c, out, r, k) && out.kind == Allow
    ensures Backs(mints[k], r) && out.token == Pdp.Minted(w.svc, mints[k].at, mints[k].request)
  {
    var (wire, m) := (w.nodes[c.node].wire, mints[k]);
    FreshBacks(wire, m, r);
    AnAllowWasAnswered(c.reply, c.cid);
    Journey.TokenComesBack(wire, w.svc, m.at, r, c.cid);
  }

  lemma AnAllowWasAnswered(reply: Result<Response, ()>, cid: string)
    requires Answered(reply, cid).kind == Allow
    ensures reply.Ok? && reply.value.decision
  {}

  lemma FreshAllowIsEarned(w: World, states: seq<State>, steps: seq<Step>, j: nat, id: nat, r: Request)
      returns (m: Mint, q: nat)
    requires IsRun(w, states, steps) && j < |states| && Allowed(states[j], id)
    requires CheckOk(w, states[j], states[j].checks[id])
    requires states[j].checks[id].stage.how.FreshDecision? && states[j].checks[id].stage.built == Some(r)
    ensures q < j && m in states[j].mints && Backs(m, r) && Built(w, states[j].checks[id], r)
    ensures Earned(w, states, steps, q, id, states[j].checks[id], r, m)
  {
    var c := states[j].checks[id];
    var k := c.stage.how.mint;
    q := FindCall(w, states, steps, j, id, k);
    FreshAllowHasItsToken(w, states[j].mints, c, c.stage.out, r, k);
    m := states[j].mints[k];
    assert states[q + 1].mints[k] == m;
  }

  lemma ReusedAllowIsEarned(w: World, states: seq<State>, steps: seq<Step>, j: nat, id: nat, r: Request)
      returns (m: Mint, q: nat)
    requires Coherent(w) && IsUnforgedRun(w, states, steps) && j < |states| && Allowed(states[j], id)
    requires states[j].checks[id].stage.how.ReusedToken? && states[j].checks[id].stage.built == Some(r)
    ensures states[j].checks[id].node in w.nodes
    ensures q < j && m in states[j].mints && Backs(m, r) && Built(w, states[j].checks[id], r)
    ensures Earned(w, states, steps, q, id, states[j].checks[id], r, m)
  {
    q := FindTry(w, states, steps, j, id);
    RunKeepsInv(w, states, steps, q + 1);
    var c := states[q + 1].checks[id];
    assert CheckOk(w, states[q + 1], c);
    assert ReuseAllow(w, states[q].mints, c, c.stage.out, r);
    m :| m in states[q].mints && Backs(m, r) && CarriesMint(w, c, m);
  }

  /** Whatever the policy, every allow of every PEP in every run answers a request of a subject and is earned: by a PDP
      allow that this check's own call brought, or by a token with the claims of an earlier PDP allow, for the same
      tuple at no higher level and less than one lifetime old. The PDP found that tuple valid, and the request itself
      is valid exactly when the PEP's route names a colon pair and its profile is one of the three. */
  lemma EveryAllowIsBacked(w: World, states: seq<State>, steps: seq<Step>, j: nat, id: nat)
      returns (r: Request, m: Mint, q: nat)
    requires Coherent(w) && IsUnforgedRun(w, states, steps) && j < |states| && Allowed(states[j], id)
    ensures var c := states[j].checks[id];
            && Built(w, c, r) && r.subject.id == c.http.headers.subjectId != ""
            && q < j && MintOk(w, states[j], m) && Backs(m, r) && Earned(w, states, steps, q, id, c, r, m)
            && ContractValid(m.request)
            && (ContractValid(r) <==> IsColonPair(r.resource.kind) && KnownProfile(w.nodes[c.node].cfg.profile))
  {
    RunKeepsInv(w, states, steps, j);
    var c := states[j].checks[id];
    assert CheckOk(w, states[j], c);
    r := c.stage.built.value;
    if c.stage.how.FreshDecision? {
      m, q := FreshAllowIsEarned(w, states, steps, j, id, r);
    } else {
      m, q := ReusedAllowIsEarned(w, states, steps, j, id, r);
    }
    var cfg := w.nodes[c.node].cfg;
    if IsColonPair(r.resource.kind) {
      Refinement.BuiltIsValidIff(cfg, c.http, c.cid, Guarded(cfg, c.http, c.cid).value, r, m.request);
    }
  }

  /** The same check with the fast path switched off and the PDP asked at time t. */
  function WithoutFastPath(w: World, c: Check, t: int): Outcome
    requires c.node in w.nodes
  {
    var node := w.nodes[c.node];
    Checked(node.cfg.(verifier := None), c.http, c.cid, c.seen, t, (r: Request) => Remote(node.wire, w.svc, t, r))
  }

  lemma PlainLadderAllows(w: World, c: Check, r: Request, t: int)
    requires Built(w, c, r) && Unrevoked(c) && Pdp.Allows(w.svc, t, r)
    ensures WithoutFastPath(w, c, t).kind == Allow
  {
    var node := w.nodes[c.node];
    RemoteAllowsIff(node.wire, w.svc, t, r);
    LadderIgnoresVerifier(node.cfg, c.http, c.cid);
    var pdp := (x: Request) => Remote(node.wire, w.svc, t, x);
    Journey.AllowIff(node.cfg.(verifier := None), c.http, c.cid, c.seen, t, pdp);
  }

  lemma LadderIgnoresVerifier(cfg: Config, h: Http, cid: string)
    ensures Guarded(cfg.(verifier := None), h, cid) == Guarded(cfg, h, cid)
    ensures Guarded(cfg, h, cid).Ok? ==>
              var p := Guarded(cfg, h, cid).value;
              RequestFor(cfg.(verifier := None), h, cid, p) == RequestFor(cfg, h, cid, p)
  {}

  /** The cached form refines the plain one: whatever any PEP allows in any run, the same ladder without the fast path
      allows too, whenever the PDP is asked. */
  lemma FastPathRefinesPlainLadder(w: World, states: seq<State>, steps: seq<Step>, j: nat, id: nat, t: int)
    requires Sane(w) && IsUnforgedRun(w, states, steps) && j < |states| && Allowed(states[j], id)
    ensures states[j].checks[id].node in w.nodes
    ensures WithoutFastPath(w, states[j].checks[id], t).kind == Allow
  {
    var r, m, _ := EveryAllowIsBacked(w, states, steps, j, id);
    var (s, c) := (states[j], states[j].checks[id]);
    RunKeepsInv(w, states, steps, j);
    assert CheckOk(w, s, c);
    AllowedPassedTheScreen(w, c);
    BackedIsAllowed(w, s, c, r, m, t);
    PlainLadderAllows(w, c, r, t);
  }

  lemma AllowedPassedTheScreen(w: World, c: Check)
    requires OnLadder(w, c) && c.stage.Finished? && c.stage.out.kind == Allow
    ensures Guarded(w.nodes[c.node].cfg, c.http, c.cid).Ok? && Unrevoked(c)
  {}

  /** In any reachable state, a token that would be honoured is one the PDP would still agree with. */
  lemma HitAgreesWithPdpNow(w: World, states: seq<State>, steps: seq<Step>, j: nat, id: nat, r: Request)
    requires Sane(w) && IsUnforgedRun(w, states, steps) && j < |states| && id in states[j].checks
    requires Built(w, states[j].checks[id], r)
    requires FastPath(w.nodes[states[j].checks[id].node].cfg, states[j].now, states[j].checks[id].http, r)
    ensures Pdp.Allows(w.svc, states[j].now, Received(w.nodes[states[j].checks[id].node].wire, r))
  {
    RunKeepsInv(w, states, steps, j);
    var (s, c) := (states[j], states[j].checks[id]);
    assert CheckOk(w, s, c);
    var node := w.nodes[c.node];
    var k := HitIsBacked(w, s, c, r);
    var m := s.mints[k];
    var p := Guarded(node.cfg, c.http, c.cid).value;
    Refinement.HitRefinesPdp(w.svc, w.data, w.domains, node.cfg, c.http, c.cid, p, r, m.request, ClaimsOf(w, m),
                             node.wire, m.at, s.now);
  }

  /** The fast path is transparent: in any reachable state and for any cache contents, the ladder with and without it,
      over the live PDP, differ in nothing but which allow they report. */
  lemma FastPathIsTransparent(w: World, states: seq<State>, steps: seq<Step>, j: nat, id: nat, revoked: set<string>,
                              t: int)
    requires Sane(w) && IsUnforgedRun(w, states, steps) && j < |states| && id in states[j].checks
    ensures states[j].checks[id].node in w.nodes
    ensures var c := states[j].checks[id];
            var node := w.nodes[c.node];
            var pdp := (r: Request) => Remote(node.wire, w.svc, t, r);
            var fast := Checked(node.cfg, c.http, c.cid, revoked, states[j].now, pdp);
            var plain := Checked(node.cfg.(verifier := None), c.http, c.cid, revoked, states[j].now, pdp);
            && fast.kind == plain.kind && fast.requiredAcr == plain.requiredAcr
            && (fast.kind != Allow ==> fast == plain)
  {
    RunKeepsInv(w, states, steps, j);
    var (s, c) := (states[j], states[j].checks[id]);
    assert CheckOk(w, s, c);
    var node := w.nodes[c.node];
    var pdp := (r: Request) => Remote(node.wire, w.svc, t, r);
    forall r | Built(w, c, r) && FastPath(node.cfg, s.now, c.http, r)
      ensures Answered(pdp(r), c.cid).kind == Allow && Answered(pdp(r), c.cid).requiredAcr == ""
    {
      HitAgreesWithPdpNow(w, states, steps, j, id, r);
      RemoteAllow(node.wire, w.svc, s.now, t, r, c.cid);
    }
    SameLadder(w, c, revoked, s.now, pdp);
  }

  /** Where a hit means an allow of the PDP, the two ladders agree. */
  lemma SameLadder(w: World, c: Check, revoked: set<string>, now: int, pdp: Decider)
    requires c.node in w.nodes
    requires forall r :: Built(w, c, r) && FastPath(w.nodes[c.node].cfg, now, c.http, r) ==>
               Answered(pdp(r), c.cid).kind == Allow && Answered(pdp(r), c.cid).requiredAcr == ""
    ensures var cfg := w.nodes[c.node].cfg;
            var fast := Checked(cfg, c.http, c.cid, revoked, now, pdp);
            var plain := Checked(cfg.(verifier := None), c.http, c.cid, revoked, now, pdp);
            && fast.kind == plain.kind && fast.requiredAcr == plain.requiredAcr
            && (fast.kind != Allow ==> fast == plain)
  {
    var cfg := w.nodes[c.node].cfg;
    LadderIgnoresVerifier(cfg, c.http, c.cid);
    var p := Guarded(cfg, c.http, c.cid);
    if p.Ok? && RequestFor(cfg, c.http, c.cid, p.value).Ok? {
      assert Built(w, c, RequestFor(cfg, c.http, c.cid, p.value).value);
    }
  }

  lemma RemoteAllow(wire: Wire, svc: Pdp.Service, now: int, t: int, r: Request, cid: string)
    requires Pdp.Allows(svc, now, Received(wire, r))
    ensures Answered(Remote(wire, svc, t, r), cid).kind == Allow
    ensures Answered(Remote(wire, svc, t, r), cid).requiredAcr == ""
  {
    RemoteAllowsIff(wire, svc, now, r);
    RemoteAllowsIff(wire, svc, t, r);
    Pdp.TokenIffAllow(svc, now, t, r);
  }
}
