/** From the transmitter to every check: what an Emit of a revoke that returned nil guarantees at the PEPs, however its
    pushes interleave with checks, PDP calls, other events and the clock. */
module Rollout {
  import opened System
  import opened Runs
  import opened Revocation
  import Caep
  import Replicas

  /** The PEPs that listen for events, as the transmitter sees them. They share its secret. */
  function SitesOf(w: World, signer: Caep.Signer, s: State): map<string, Caep.Site> {
    map n | n in w.nodes && n in s.revoked && w.nodes[n].listens :: Caep.Site(signer, s.revoked[n])
  }

  /** The event a push brings to this PEP's receiver arrives as a signal, and any other push changes nothing. */
  lemma PushIsASignal(w: World, signer: Caep.Signer, s: State, p: Replicas.Push)
    ensures Replicas.Brought(signer, p, p.url) == [] || p.url !in SitesOf(w, signer, s) ==>
              Replicas.Landed(SitesOf(w, signer, s), p) == SitesOf(w, signer, s)
    ensures Replicas.Brought(signer, p, p.url) != [] && p.url in SitesOf(w, signer, s) ==>
              var signal := Signal(p.url, Replicas.Brought(signer, p, p.url)[0]);
              && Enabled(w, s, signal)
              && Replicas.Landed(SitesOf(w, signer, s), p) == SitesOf(w, signer, Next(w, s, signal))
  {
    var sites := SitesOf(w, signer, s);
    if p.url in sites {
      var site := sites[p.url];
      assert site.(revoked := site.revoked) == site;
    }
  }

  /** Step q of the run is this push, as far as the receivers go. */
  ghost predicate Carries(w: World, signer: Caep.Signer, states: seq<State>, q: nat, p: Replicas.Push) {
    && q + 1 < |states|
    && SitesOf(w, signer, states[q + 1]) == Replicas.Landed(SitesOf(w, signer, states[q]), p)
  }

  /** The pushes of one Emit, in order, at these steps of the run. Anything may happen between them. */
  ghost predicate Emits(w: World, signer: Caep.Signer, states: seq<State>, pushes: seq<Replicas.Push>, at: seq<nat>) {
    && |at| == |pushes|
    && (forall i, k :: 0 <= i < k < |at| ==> at[i] < at[k])
    && (forall i :: 0 <= i < |at| ==> Carries(w, signer, states, at[i], pushes[i]))
  }

  /** No push contributes an error, so that Emit returns nil. */
  ghost predicate ReturnsNil(w: World, signer: Caep.Signer, states: seq<State>, pushes: seq<Replicas.Push>,
                             at: seq<nat>)
    requires Emits(w, signer, states, pushes, at)
  {
    forall i :: 0 <= i < |pushes| ==>
      Caep.Pushed(SitesOf(w, signer, states[at[i]]), pushes[i].url, pushes[i].text, pushes[i].fault).1.None?
  }

  lemma AcceptedRevoke(w: World, signer: Caep.Signer, s: State, s': State, p: Replicas.Push, now: int, e: Caep.Event)
    requires signer.Sound() && p.text == signer.Sign(now, e) && e.kind == Caep.REVOKED
    requires Caep.Pushed(SitesOf(w, signer, s), p.url, p.text, p.fault).1.None?
    requires SitesOf(w, signer, s') == Replicas.Landed(SitesOf(w, signer, s), p)
    ensures RevokedAt(s', p.url, e.subject)
  {
    Caep.SignedSetArrives(signer, now, e);
    var sites := SitesOf(w, signer, s);
    assert p.url in sites;
    Replicas.CleanPush(sites, p.url, signer, now, e, p.fault, p.url);
    assert p.url in SitesOf(w, signer, s');
  }

  /** Once an Emit of a revoke has returned nil, and even as soon as its push to that PEP is through, no check that then
      arrives at a subscribed PEP is allowed for the subject, until a restore. */
  lemma CleanRevokeHoldsEverywhere(w: World, states: seq<State>, steps: seq<Step>, signer: Caep.Signer, now: int,
                                   e: Caep.Event, urls: seq<string>, faults: seq<Caep.Fault>, at: seq<nat>,
                                   n: nat, i: nat, j: nat, id: nat)
    requires IsRun(w, states, steps) && Screens(w, states, steps, e.subject)
    requires signer.Sound() && e.kind == Caep.REVOKED
    requires |faults| == |urls| && n < |urls|
    requires var pushes := Replicas.Loop(urls, signer.Sign(now, e), faults);
             Emits(w, signer, states, pushes, at) && ReturnsNil(w, signer, states, pushes, at)
    requires at[n] < i <= j < |states| && id in states[i].checks && states[i].checks[id].stage.Arrived?
    requires states[i].checks[id].node == urls[n] && states[i].checks[id].http.headers.subjectId == e.subject
    requires NoRestore(steps, urls[n], e.subject, at[n] + 1, j)
    ensures !Allowed(states[j], id)
  {
    RevokedOncePushed(w, states, signer, now, e, urls, faults, at, n);
    if Allowed(states[j], id) {
      var k := ScreenedBefore(w, states, steps, at[n] + 1, i, j, id);
      assert false;
    }
  }

  lemma RevokedOncePushed(w: World, states: seq<State>, signer: Caep.Signer, now: int, e: Caep.Event,
                          urls: seq<string>, faults: seq<Caep.Fault>, at: seq<nat>, n: nat)
    requires signer.Sound() && e.kind == Caep.REVOKED && |faults| == |urls| && n < |urls|
    requires var pushes := Replicas.Loop(urls, signer.Sign(now, e), faults);
             Emits(w, signer, states, pushes, at) && ReturnsNil(w, signer, states, pushes, at)
    ensures at[n] + 1 < |states| && RevokedAt(states[at[n] + 1], urls[n], e.subject)
  {
    var pushes := Replicas.Loop(urls, signer.Sign(now, e), faults);
    assert Carries(w, signer, states, at[n], pushes[n]);
    AcceptedRevoke(w, signer, states[at[n]], states[at[n] + 1], pushes[n], now, e);
  }
}
