/** What revocation guarantees however the steps of checks interleave with everything else, and its exact limit. */
module Revocation {
  import opened Values
  import opened Contract
  import opened Pep
  import opened Transport
  import opened System
  import opened Runs
  import opened Traces
  import Caep
  import Pdp

  /** A PEP screens only requests that name a subject. Of a request that names none, it takes a run whose allows go back
      to the PDP to say that it is never allowed; of any other, nothing. */
  ghost predicate Screens(w: World, states: seq<State>, steps: seq<Step>, subject: string) {
    subject != "" || (Coherent(w) && IsUnforgedRun(w, states, steps))
  }

  /** Every allow has an instant between the check's arrival and its end at which its cache read found the subject not
      revoked. */
  lemma EveryAllowSawItsSubjectUnrevoked(w: World, states: seq<State>, steps: seq<Step>, i: nat, j: nat, id: nat)
      returns (k: nat)
    requires IsRun(w, states, steps) && i <= j < |states|
    requires id in states[i].checks && states[i].checks[id].stage.Arrived? && Allowed(states[j], id)
    requires Screens(w, states, steps, states[i].checks[id].http.headers.subjectId)
    ensures var c := states[i].checks[id];
            && i <= k < j && steps[k] == Screen(id)
            && c.node in states[k].revoked && c.http.headers.subjectId !in states[k].revoked[c.node]
  {
    RequestStays(w, states, steps, i, j, id);
    AllowHasSeen(w, states, steps, j, id);
    k := FindScreen(w, states, steps, j, id);
    if k < i {
      SeenStays(w, states, steps, k, i, id);
      assert false;
    }
  }

  lemma AllowHasSeen(w: World, states: seq<State>, steps: seq<Step>, j: nat, id: nat)
    requires IsRun(w, states, steps) && j < |states| && Allowed(states[j], id)
    requires Screens(w, states, steps, states[j].checks[id].http.headers.subjectId)
    ensures var c := states[j].checks[id];
            HasScreened(w, c) && c.http.headers.subjectId !in c.seen
  {
    var c := states[j].checks[id];
    if c.http.headers.subjectId == "" {
      var r, m, _ := EveryAllowIsBacked(w, states, steps, j, id);
      assert false;
    }
    RunStaysOnLadder(w, states, steps, j, id);
    AllowedPassedTheScreen(w, c);
  }

  /** No restore of the subject is applied at the node by steps a to b - 1. */
  ghost predicate NoRestore(steps: seq<Step>, node: string, subject: string, a: nat, b: nat)
    requires b <= |steps|
  {
    forall e, x :: a <= x < b && steps[x] == Signal(node, e) && e.subject == subject ==> e.kind != Caep.RESTORED
  }

  predicate RevokedAt(s: State, node: string, subject: string) {
    node in s.revoked && subject in s.revoked[node]
  }

  /** Without a restore the subject stays revoked. */
  lemma {:induction false} StaysRevoked(w: World, states: seq<State>, steps: seq<Step>, q: nat, k: nat, node: string,
                                        subject: string)
    requires IsRun(w, states, steps) && q <= k < |states|
    requires RevokedAt(states[q], node, subject) && NoRestore(steps, node, subject, q, k)
    ensures RevokedAt(states[k], node, subject)
    decreases k
  {
    if k > q {
      StaysRevoked(w, states, steps, q, k - 1, node, subject);
      assert Follows(w, states, steps, k - 1);
      assert steps[k - 1].Signal? && steps[k - 1].node == node ==>
             steps[k - 1] == Signal(node, steps[k - 1].event);
    }
  }

  /** Step k is the check's screen, and it does not find the subject. */
  ghost predicate ReadsClear(states: seq<State>, steps: seq<Step>, k: nat, id: nat, node: string, subject: string)
    requires k < |steps| && |states| == |steps| + 1
  {
    steps[k] == Screen(id) && node in states[k].revoked && subject !in states[k].revoked[node]
  }

  /** If a check is allowed although its subject is revoked at its PEP from state q on, it read the cache before q. */
  lemma ScreenedBefore(w: World, states: seq<State>, steps: seq<Step>, q: nat, i: nat, j: nat, id: nat) returns (k: nat)
    requires IsRun(w, states, steps) && q <= j < |states| && i <= j
    requires id in states[i].checks && states[i].checks[id].stage.Arrived? && Allowed(states[j], id)
    requires Screens(w, states, steps, states[i].checks[id].http.headers.subjectId)
    requires var c := states[i].checks[id];
             && RevokedAt(states[q], c.node, c.http.headers.subjectId)
             && NoRestore(steps, c.node, c.http.headers.subjectId, q, j)
    ensures i <= k < q && ReadsClear(states, steps, k, id, states[i].checks[id].node,
                                     states[i].checks[id].http.headers.subjectId)
  {
    var c := states[i].checks[id];
    k := EveryAllowSawItsSubjectUnrevoked(w, states, steps, i, j, id);
    if q <= k {
      StaysRevoked(w, states, steps, q, k, c.node, c.http.headers.subjectId);
      assert false;
    }
  }

  /** Step q revokes the subject of the check that arrives at i, at its PEP, and no restore follows before j. */
  ghost predicate RevokeHolds(states: seq<State>, steps: seq<Step>, q: nat, i: nat, j: nat, id: nat, e: Caep.Event)
    requires q < j < |states| && |states| == |steps| + 1 && i < |states|
  {
    && id in states[i].checks && states[i].checks[id].stage.Arrived?
    && steps[q] == Signal(states[i].checks[id].node, e)
    && e.kind == Caep.REVOKED && e.subject == states[i].checks[id].http.headers.subjectId
    && NoRestore(steps, states[i].checks[id].node, e.subject, q + 1, j)
  }

  lemma RevokeTakesEffect(w: World, states: seq<State>, steps: seq<Step>, q: nat, i: nat, j: nat, id: nat,
                          e: Caep.Event)
    requires IsRun(w, states, steps) && q < j < |states| && i <= j && RevokeHolds(states, steps, q, i, j, id, e)
    ensures RevokedAt(states[q + 1], states[i].checks[id].node, states[i].checks[id].http.headers.subjectId)
  {
    var node := states[i].checks[id].node;
    assert Follows(w, states, steps, q);
    assert states[q + 1].revoked[node] == Caep.Applied(states[q].revoked[node], e);
  }

  /** What the check comes to when no one is revoked. */
  function Unscreened(w: World, c: Check): Outcome
    requires c.node in w.nodes
  {
    Checked(w.nodes[c.node].cfg, c.http, c.cid, {}, c.triedAt, (r: Request) => c.reply)
  }

  lemma ClearIsUnscreened(w: World, c: Check)
    requires c.node in w.nodes && Unrevoked(c)
    ensures Checked(w.nodes[c.node].cfg, c.http, c.cid, c.seen, c.triedAt, (r: Request) => c.reply) == Unscreened(w, c)
  {}

  /** The exact boundary. A revoke applied while a check is under way lets it through if and only if the check had read
      the cache before and everything else on the ladder lets it through, be it a token that hits or the PDP. */
  lemma LateRevokeIff(w: World, states: seq<State>, steps: seq<Step>, q: nat, i: nat, j: nat, id: nat, e: Caep.Event)
    requires IsRun(w, states, steps) && i <= q < j < |states| && RevokeHolds(states, steps, q, i, j, id, e)
    requires Screens(w, states, steps, e.subject)
    requires id in states[j].checks && states[j].checks[id].stage.Finished?
    ensures var (node, c) := (states[i].checks[id].node, states[j].checks[id]);
            && c.node == node && node in w.nodes
            && (Allowed(states[j], id) <==>
                && (exists k :: i <= k < q && ReadsClear(states, steps, k, id, node, e.subject))
                && Unscreened(w, c).kind == Allow)
  {
    var (node, c) := (states[i].checks[id].node, states[j].checks[id]);
    RequestStays(w, states, steps, i, j, id);
    OutcomeIsTheLadders(w, states, steps, j, id);
    if Allowed(states[j], id) {
      var k := LateAllowReadClear(w, states, steps, q, i, j, id, e);
      ClearAtScreen(w, states, steps, k, j, id, node);
    }
    if k :| i <= k < q && ReadsClear(states, steps, k, id, node, e.subject) {
      ClearAtScreen(w, states, steps, k, j, id, node);
    }
  }

  lemma LateAllowReadClear(w: World, states: seq<State>, steps: seq<Step>, q: nat, i: nat, j: nat, id: nat,
                           e: Caep.Event) returns (k: nat)
    requires IsRun(w, states, steps) && i <= q < j < |states| && RevokeHolds(states, steps, q, i, j, id, e)
    requires Screens(w, states, steps, e.subject)
    requires Allowed(states[j], id)
    ensures i <= k < q && ReadsClear(states, steps, k, id, states[i].checks[id].node, e.subject)
  {
    RevokeTakesEffect(w, states, steps, q, i, j, id, e);
    k := ScreenedBefore(w, states, steps, q + 1, i, j, id);
  }

  /** A check whose screen did not find its subject goes on as if no one were revoked. */
  lemma ClearAtScreen(w: World, states: seq<State>, steps: seq<Step>, k: nat, j: nat, id: nat, node: string)
    requires IsRun(w, states, steps) && k < j < |states| && id in states[j].checks
    requires states[j].checks[id].node == node && node in w.nodes
    requires ReadsClear(states, steps, k, id, node, states[j].checks[id].http.headers.subjectId)
    ensures var c := states[j].checks[id];
            Checked(w.nodes[node].cfg, c.http, c.cid, c.seen, c.triedAt, (r: Request) => c.reply) == Unscreened(w, c)
  {
    SeenStays(w, states, steps, k, j, id);
    ClearIsUnscreened(w, states[j].checks[id]);
  }

  /** A check that arrives after a revoke of its subject was applied, and is seen before any restore, is not an allow,
      whatever token it carries and however its steps interleave with everything else. */
  lemma RevokedIsNeverAllowed(w: World, states: seq<State>, steps: seq<Step>, q: nat, i: nat, j: nat, id: nat,
                              e: Caep.Event)
    requires IsRun(w, states, steps) && q < i <= j < |states| && RevokeHolds(states, steps, q, i, j, id, e)
    requires Screens(w, states, steps, e.subject)
    ensures !Allowed(states[j], id)
  {
    if Allowed(states[j], id) {
      RevokeTakesEffect(w, states, steps, q, i, j, id, e);
      var k := ScreenedBefore(w, states, steps, q + 1, i, j, id);
      assert false;
    }
  }

  /** A check past its screen, with a token that hits. */
  ghost predicate AboutToHit(w: World, s: State, id: nat) {
    && id in s.checks && s.checks[id].stage.PastScreen? && s.checks[id].node in w.nodes
    && var (c, cfg) := (s.checks[id], w.nodes[s.checks[id].node].cfg);
       var r := RequestFor(cfg, c.http, c.cid, c.stage.passed);
       r.Ok? && FastPath(cfg, s.now, c.http, r.value)
  }

  /** In steps: a revoke applied after the screen does not stop a check whose token then hits. */
  lemma RevokeAfterScreenIsNotSeen(w: World, s: State, id: nat, e: Caep.Event)
    requires AboutToHit(w, s, id)
    requires e.kind == Caep.REVOKED && e.subject == s.checks[id].http.headers.subjectId
    requires Enabled(w, s, Signal(s.checks[id].node, e))
    ensures var late := Next(w, s, Signal(s.checks[id].node, e));
            && RevokedAt(late, s.checks[id].node, e.subject)
            && Enabled(w, late, TryToken(id)) && Allowed(Next(w, late, TryToken(id)), id)
  {}

  /** A check whose token missed, with a request the PDP allows. */
  ghost predicate AboutToBeGranted(w: World, s: State, id: nat) {
    && id in s.checks && s.checks[id].stage.Missed? && s.checks[id].node in w.nodes
    && Pdp.Allows(w.svc, s.now, s.checks[id].stage.request)
  }

  /** Nor does it stop one that goes on to the PDP, which knows nothing of revocations. */
  lemma RevokeBeforePdpIsNotSeen(w: World, s: State, id: nat, e: Caep.Event)
    requires AboutToBeGranted(w, s, id)
    requires e.kind == Caep.REVOKED && e.subject == s.checks[id].http.headers.subjectId
    requires Enabled(w, s, Signal(s.checks[id].node, e))
    ensures var late := Next(w, s, Signal(s.checks[id].node, e));
            && RevokedAt(late, s.checks[id].node, e.subject)
            && Enabled(w, late, AskPdp(id, Delivered))
            && var told := Next(w, late, AskPdp(id, Delivered));
               Enabled(w, told, Conclude(id)) && Allowed(Next(w, told, Conclude(id)), id)
  {
    var c := s.checks[id];
    RemoteAllowsIff(w.nodes[c.node].wire, w.svc, s.now, c.stage.request);
  }
}
