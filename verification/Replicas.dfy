/** When two receivers agree: through Emits that succeed, and through any pushes at all, lost, repeated or
    interleaved. */
module Replicas {
  import opened Values
  import opened Caep

  /** A URL whose receiver shares the transmitter's secret. */
  ghost predicate Replica(sites: map<string, Site>, url: string, signer: Signer) {
    url in sites && sites[url].signer == signer
  }

  /** An Emit that returned nil applied the event exactly to the subscribers. */
  lemma {:induction false} CleanEmit(sites: map<string, Site>, urls: seq<string>, signer: Signer, now: int, e: Event,
                                     faults: seq<Fault>, url: string)
    requires |faults| == |urls| && signer.Sound()
    requires Replica(sites, url, signer)
    requires forall i :: 0 <= i < |urls| ==> ErrorAt(sites, urls, signer.Sign(now, e), faults, i).None?
    ensures var after := SitesAfter(sites, urls, signer.Sign(now, e), faults);
            Replica(after, url, signer)
            && after[url].revoked == if url in urls then Applied(sites[url].revoked, e) else sites[url].revoked
  {
    if urls != [] {
      var n := |urls| - 1;
      CleanPrefix(sites, urls, signer.Sign(now, e), faults);
      CleanEmit(sites, urls[..n], signer, now, e, faults[..n], url);
      var before := SitesAfter(sites, urls[..n], signer.Sign(now, e), faults[..n]);
      CleanPush(before, urls[n], signer, now, e, faults[n], url);
      assert urls == urls[..n] + [urls[n]];
    }
  }

  lemma CleanPrefix(sites: map<string, Site>, urls: seq<string>, text: string, faults: seq<Fault>)
    requires |faults| == |urls| > 0
    requires forall i :: 0 <= i < |urls| ==> ErrorAt(sites, urls, text, faults, i).None?
    ensures var n := |urls| - 1;
            && (forall i :: 0 <= i < n ==> ErrorAt(sites, urls[..n], text, faults[..n], i).None?)
            && Pushed(SitesAfter(sites, urls[..n], text, faults[..n]), urls[n], text, faults[n]).1.None?
  {
    var n := |urls| - 1;
    forall i | 0 <= i < n
      ensures ErrorAt(sites, urls[..n], text, faults[..n], i).None?
    {
      assert urls[..n][..i] == urls[..i] && faults[..n][..i] == faults[..i];
      assert ErrorAt(sites, urls, text, faults, i).None?;
    }
    assert ErrorAt(sites, urls, text, faults, n).None?;
  }

  /** An accepted push of a signed event applies it at its receiver and leaves the others alone. */
  lemma CleanPush(sites: map<string, Site>, to: string, signer: Signer, now: int, e: Event, fault: Fault, url: string)
    requires signer.Sound() && Replica(sites, url, signer)
    requires Pushed(sites, to, signer.Sign(now, e), fault).1.None?
    ensures var after := Pushed(sites, to, signer.Sign(now, e), fault).0;
            Replica(after, url, signer)
            && after[url].revoked == if url == to then Applied(sites[url].revoked, e) else sites[url].revoked
  {
    SignedSetArrives(signer, now, e);
  }

  /** One Emit: the event, its time, and what the network did to each push. */
  datatype Emission = Emission(now: int, event: Event, faults: seq<Fault>)

  ghost predicate ReturnsNil(sites: map<string, Site>, urls: seq<string>, signer: Signer, em: Emission) {
    && |em.faults| == |urls|
    && forall i :: 0 <= i < |urls| ==> ErrorAt(sites, urls, signer.Sign(em.now, em.event), em.faults, i).None?
  }

  function AfterEmission(sites: map<string, Site>, urls: seq<string>, signer: Signer, em: Emission): map<string, Site>
    requires |em.faults| == |urls|
  {
    SitesAfter(sites, urls, signer.Sign(em.now, em.event), em.faults)
  }

  ghost predicate AllReturnNil(sites: map<string, Site>, urls: seq<string>, signer: Signer, run: seq<Emission>)
    decreases |run|
  {
    run == [] ||
    (ReturnsNil(sites, urls, signer, run[0])
     && AllReturnNil(AfterEmission(sites, urls, signer, run[0]), urls, signer, run[1..]))
  }

  ghost function AfterRun(sites: map<string, Site>, urls: seq<string>, signer: Signer, run: seq<Emission>)
      : map<string, Site>
    requires AllReturnNil(sites, urls, signer, run)
    decreases |run|
  {
    if run == [] then sites else AfterRun(AfterEmission(sites, urls, signer, run[0]), urls, signer, run[1..])
  }

  /** Subscribers sharing the secret that start equal stay equal through any sequence of Emits that all return nil. */
  lemma {:induction false} ReplicasAgree(sites: map<string, Site>, urls: seq<string>, signer: Signer,
                                         run: seq<Emission>, a: string, b: string)
    requires signer.Sound() && a in urls && b in urls
    requires Replica(sites, a, signer) && Replica(sites, b, signer) && sites[a].revoked == sites[b].revoked
    requires AllReturnNil(sites, urls, signer, run)
    ensures var after := AfterRun(sites, urls, signer, run);
            Replica(after, a, signer) && Replica(after, b, signer) && after[a].revoked == after[b].revoked
    decreases |run|
  {
    if run != [] {
      var em := run[0];
      CleanEmit(sites, urls, signer, em.now, em.event, em.faults, a);
      CleanEmit(sites, urls, signer, em.now, em.event, em.faults, b);
      ReplicasAgree(AfterEmission(sites, urls, signer, em), urls, signer, run[1..], a, b);
    }
  }

  // ----- Any pushes at all -----

  datatype Push = Push(url: string, text: string, fault: Fault)

  function Landed(sites: map<string, Site>, p: Push): map<string, Site> {
    Pushed(sites, p.url, p.text, p.fault).0
  }

  function AfterPushes(sites: map<string, Site>, pushes: seq<Push>): map<string, Site> {
    if pushes == [] then sites
    else
      var n := |pushes| - 1;
      Landed(AfterPushes(sites, pushes[..n]), pushes[n])
  }

  /** The pushes of one Emit. */
  function Loop(urls: seq<string>, text: string, faults: seq<Fault>): seq<Push>
    requires |faults| == |urls|
  {
    seq(|urls|, i requires 0 <= i < |urls| => Push(urls[i], text, faults[i]))
  }

  /** An Emit is its pushes, one after the other. */
  lemma {:induction false} EmitIsItsLoop(sites: map<string, Site>, urls: seq<string>, text: string, faults: seq<Fault>)
    requires |faults| == |urls|
    ensures SitesAfter(sites, urls, text, faults) == AfterPushes(sites, Loop(urls, text, faults))
  {
    if urls != [] {
      var n := |urls| - 1;
      EmitIsItsLoop(sites, urls[..n], text, faults[..n]);
      assert Loop(urls, text, faults)[..n] == Loop(urls[..n], text, faults[..n]);
    }
  }

  /** The event a push brings to this URL's receiver, if it gets there and verifies. */
  function Brought(signer: Signer, p: Push, url: string): seq<Event> {
    if p.url == url && (p.fault.Clean? || p.fault.ReplyLost?) && signer.Verify(TrimSpace(p.text)).Ok?
    then [signer.Verify(TrimSpace(p.text)).value] else []
  }

  /** The events that reach this URL's receiver, in arrival order. */
  function Arrivals(signer: Signer, pushes: seq<Push>, url: string): seq<Event> {
    if pushes == [] then []
    else
      var n := |pushes| - 1;
      Arrivals(signer, pushes[..n], url) + Brought(signer, pushes[n], url)
  }

  lemma PushIsItsEvent(sites: map<string, Site>, p: Push, url: string, signer: Signer, log: seq<Event>)
    requires Replica(sites, url, signer) && sites[url].revoked == Replay(log)
    ensures Replica(Landed(sites, p), url, signer)
    ensures Landed(sites, p)[url].revoked == Replay(log + Brought(signer, p, url))
  {
    var more := Brought(signer, p, url);
    if more == [] {
      assert log + more == log;
    } else {
      assert (log + more)[..|log|] == log;
    }
  }

  /** A receiver's cache is the replay of what it held before and what reached it, whatever became of the other
      pushes. */
  lemma {:induction false} SiteIsItsLog(sites: map<string, Site>, pushes: seq<Push>, url: string, signer: Signer,
                                        before: seq<Event>)
    requires Replica(sites, url, signer) && sites[url].revoked == Replay(before)
    ensures var after := AfterPushes(sites, pushes);
            Replica(after, url, signer) && after[url].revoked == Replay(before + Arrivals(signer, pushes, url))
  {
    if pushes == [] {
      assert before + [] == before;
    } else {
      var n := |pushes| - 1;
      var (first, last) := (Arrivals(signer, pushes[..n], url), Brought(signer, pushes[n], url));
      SiteIsItsLog(sites, pushes[..n], url, signer, before);
      PushIsItsEvent(AfterPushes(sites, pushes[..n]), pushes[n], url, signer, before + first);
      assert before + first + last == before + (first + last);
    }
  }

  /** After any pushes, of one Emit or many, in turn or interleaved, lost or not, two receivers agree exactly when the
      events that reached them give every subject the same last word. */
  lemma ReplicasAgreeIff(sites: map<string, Site>, pushes: seq<Push>, signer: Signer, a: string, b: string,
                         beforeA: seq<Event>, beforeB: seq<Event>)
    requires Replica(sites, a, signer) && sites[a].revoked == Replay(beforeA)
    requires Replica(sites, b, signer) && sites[b].revoked == Replay(beforeB)
    ensures var after := AfterPushes(sites, pushes);
            && Replica(after, a, signer) && Replica(after, b, signer)
            && (after[a].revoked == after[b].revoked <==>
                forall s :: LastWordIsRevoke(beforeA + Arrivals(signer, pushes, a), s)
                            <==> LastWordIsRevoke(beforeB + Arrivals(signer, pushes, b), s))
  {
    SiteIsItsLog(sites, pushes, a, signer, beforeA);
    SiteIsItsLog(sites, pushes, b, signer, beforeB);
    SameLastWords(beforeA + Arrivals(signer, pushes, a), beforeB + Arrivals(signer, pushes, b));
  }

  lemma SameLastWords(x: seq<Event>, y: seq<Event>)
    ensures Replay(x) == Replay(y) <==> forall s :: LastWordIsRevoke(x, s) <==> LastWordIsRevoke(y, s)
  {
    forall s
      ensures s in Replay(x) <==> LastWordIsRevoke(x, s)
      ensures s in Replay(y) <==> LastWordIsRevoke(y, s)
    {
      ReplayIsTheLastWord(x, s);
      ReplayIsTheLastWord(y, s);
    }
  }

  // ----- How replicas come apart -----

  function TwoSites(signer: Signer, a: set<string>, b: set<string>): map<string, Site> {
    map["a" := Site(signer, a), "b" := Site(signer, b)]
  }

  lemma CleanPushToA(signer: Signer, a: set<string>, b: set<string>, now: int, e: Event)
    requires signer.Sound()
    ensures var p := Pushed(TwoSites(signer, a, b), "a", signer.Sign(now, e), Clean);
            p.0 == TwoSites(signer, Applied(a, e), b) && p.1.None?
  {
    SignedSetArrives(signer, now, e);
    assert "a" != "b";
  }

  lemma CleanPushToB(signer: Signer, a: set<string>, b: set<string>, now: int, e: Event)
    requires signer.Sound()
    ensures var p := Pushed(TwoSites(signer, a, b), "b", signer.Sign(now, e), Clean);
            p.0 == TwoSites(signer, a, Applied(b, e)) && p.1.None?
  {
    SignedSetArrives(signer, now, e);
    assert "a" != "b";
  }

  /** Every Emit must return nil: with one lost request, an error at the transmitter, the replicas differ. */
  lemma LostRequestSplitsReplicas(signer: Signer, now: int, subject: string)
    requires signer.Sound()
    ensures var sites := TwoSites(signer, {}, {});
            var em := Emission(now, Event(REVOKED, subject, 0), [Clean, RequestLost]);
            && !ReturnsNil(sites, ["a", "b"], signer, em)
            && AfterEmission(sites, ["a", "b"], signer, em) == TwoSites(signer, {subject}, {})
  {
    var (sites, e) := (TwoSites(signer, {}, {}), Event(REVOKED, subject, 0));
    var urls, faults := ["a", "b"], [Clean, RequestLost];
    var text := signer.Sign(now, e);
    CleanPushToA(signer, {}, {}, now, e);
    var pushes := [Push("a", text, Clean), Push("b", text, RequestLost)];
    assert Loop(urls, text, faults) == pushes;
    EmitIsItsLoop(sites, urls, text, faults);
    assert pushes[..1] == [Push("a", text, Clean)] && pushes[..1][..0] == [];
    assert AfterPushes(sites, pushes[..1][..0]) == sites;
    assert ErrorAt(sites, urls, text, faults, 1).Some?;
    assert Applied({}, e) == {subject};
    assert AfterPushes(sites, pushes[..1]) == TwoSites(signer, {subject}, {});
  }

  /** z has exactly the pushes of x and of y, those of each in its own order. */
  ghost predicate Interleaves(x: seq<Push>, y: seq<Push>, z: seq<Push>) {
    if z == [] then x == [] && y == []
    else (x != [] && x[0] == z[0] && Interleaves(x[1..], y, z[1..]))
         || (y != [] && y[0] == z[0] && Interleaves(x, y[1..], z[1..]))
  }

  /** No push of these is answered by anything but a 202. */
  ghost predicate AllAccepted(sites: map<string, Site>, pushes: seq<Push>) {
    forall i :: 0 <= i < |pushes| ==>
      Pushed(AfterPushes(sites, pushes[..i]), pushes[i].url, pushes[i].text, pushes[i].fault).1.None?
  }

  /** The Emits must run one at a time too: the loops of a revoke and a restore can interleave so that every push is
      accepted, both Emits return nil, and one receiver ends with the subject revoked and the other without. */
  lemma ConcurrentEmitsSplitReplicas(signer: Signer, now: int, subject: string) returns (z: seq<Push>)
    requires signer.Sound()
    ensures var (sites, urls, faults) := (TwoSites(signer, {}, {}), ["a", "b"], [Clean, Clean]);
            var revoke := Loop(urls, signer.Sign(now, Event(REVOKED, subject, 0)), faults);
            var restore := Loop(urls, signer.Sign(now, Event(RESTORED, subject, 0)), faults);
            && Interleaves(revoke, restore, z) && AllAccepted(sites, z)
            && AfterPushes(sites, z) == TwoSites(signer, {}, {subject})
  {
    var sites := TwoSites(signer, {}, {});
    var (e, f) := (Event(REVOKED, subject, 0), Event(RESTORED, subject, 0));
    var (x, y) := (signer.Sign(now, e), signer.Sign(now, f));
    var (p0, p1, p2, p3) := (Push("a", x, Clean), Push("a", y, Clean), Push("b", y, Clean), Push("b", x, Clean));
    z := [p0, p1, p2, p3];
    assert Applied({}, e) == {subject} && Applied({subject}, f) == {} && Applied({}, f) == {};
    CleanPushToA(signer, {}, {}, now, e);
    CleanPushToA(signer, {subject}, {}, now, f);
    CleanPushToB(signer, {}, {}, now, f);
    CleanPushToB(signer, {}, {}, now, e);
    TwoMore(sites, [], p0, TwoSites(signer, {subject}, {}), p1, sites);
    assert [] + [p0, p1] == [p0, p1] && [p0, p1] + [p2, p3] == z;
    TwoMore(sites, [p0, p1], p2, sites, p3, TwoSites(signer, {}, {subject}));
    Woven4(p0, p1, p2, p3);
    assert Loop(["a", "b"], x, [Clean, Clean]) == [p0, p3] && Loop(["a", "b"], y, [Clean, Clean]) == [p1, p2];
  }

  ghost predicate Accepts(sites: map<string, Site>, p: Push, after: map<string, Site>) {
    Pushed(sites, p.url, p.text, p.fault) == (after, None)
  }

  lemma OneMore(sites: map<string, Site>, pushes: seq<Push>, p: Push, after: map<string, Site>)
    requires AllAccepted(sites, pushes) && Accepts(AfterPushes(sites, pushes), p, after)
    ensures AllAccepted(sites, pushes + [p]) && AfterPushes(sites, pushes + [p]) == after
  {
    var all := pushes + [p];
    assert all[..|pushes|] == pushes;
    forall i | 0 <= i < |all|
      ensures Pushed(AfterPushes(sites, all[..i]), all[i].url, all[i].text, all[i].fault).1.None?
    {
      if i < |pushes| {
        assert all[..i] == pushes[..i] && all[i] == pushes[i];
      }
    }
  }

  lemma TwoMore(sites: map<string, Site>, pushes: seq<Push>, p: Push, middle: map<string, Site>, q: Push,
                after: map<string, Site>)
    requires AllAccepted(sites, pushes) && Accepts(AfterPushes(sites, pushes), p, middle) && Accepts(middle, q, after)
    ensures AllAccepted(sites, pushes + [p, q]) && AfterPushes(sites, pushes + [p, q]) == after
  {
    OneMore(sites, pushes, p, middle);
    OneMore(sites, pushes + [p], q, after);
    assert pushes + [p] + [q] == pushes + [p, q];
  }

  lemma Woven4(p0: Push, p1: Push, p2: Push, p3: Push)
    ensures Interleaves([p0, p3], [p1, p2], [p0, p1, p2, p3])
  {
    assert Interleaves([], [], []);
    assert [p3][1..] == [] && Interleaves([p3], [], [p3]);
    assert [p2][1..] == [] && [p2, p3][1..] == [p3] && Interleaves([p3], [p2], [p2, p3]);
    assert [p1, p2][1..] == [p2] && [p1, p2, p3][1..] == [p2, p3] && Interleaves([p3], [p1, p2], [p1, p2, p3]);
    assert [p0, p3][1..] == [p3] && [p0, p1, p2, p3][1..] == [p1, p2, p3];
  }
}
