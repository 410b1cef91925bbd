/** One check from end to end: when it allows, that the wire does not matter, when a replayed token hits, and how an
    obligation travels from the policy document to the outcome. */
module Journey {
  import opened Values
  import opened Contract
  import opened Pep
  import opened Transport
  import Engine
  import Pdp
  import Policy
  import Sealed
  import Token

  // ----- When a check allows -----

  /** Both ways to an allow, and everything that has to be passed first. */
  lemma AllowIff(cfg: Config, h: Http, cid: string, revoked: set<string>, now: int, pdp: Decider)
    ensures Checked(cfg, h, cid, revoked, now, pdp).kind == Allow <==>
            && Guarded(cfg, h, cid).Ok?
            && (h.headers.subjectId == "" || h.headers.subjectId !in revoked)
            && RequestFor(cfg, h, cid, Guarded(cfg, h, cid).value).Ok?
            && var r := RequestFor(cfg, h, cid, Guarded(cfg, h, cid).value).value;
               FastPath(cfg, now, h, r) || (pdp(r).Ok? && pdp(r).value.decision)
  {}

  /** Whatever the outcome, it keeps the correlation id it was given. */
  lemma OutcomeKeepsItsId(cfg: Config, h: Http, cid: string, revoked: set<string>, now: int, pdp: Decider)
    ensures Checked(cfg, h, cid, revoked, now, pdp).correlationId == cid
  {}

  // ----- The wire does not matter -----

  /** The level a list of obligations asks for, if any asks. */
  function RequestedAcr(obligations: seq<Obligation>): Option<string> {
    match FirstStepUp(obligations)
    case None => None
    case Some(ob) => Some(ob.details.GetString("required_acr"))
  }

  lemma {:induction false} RequestedAcrDependsOnEntries(a: seq<Obligation>, b: seq<Obligation>)
    requires |a| == |b|
    requires forall i :: 0 <= i < |a| ==> a[i].kind == b[i].kind && a[i].details.Entries() == b[i].details.Entries()
    ensures RequestedAcr(a) == RequestedAcr(b)
  {
    if a != [] {
      assert a[0].kind == b[0].kind && a[0].details.Entries() == b[0].details.Entries();
      RequestedAcrDependsOnEntries(a[1..], b[1..]);
    }
  }

  /** Any response, one without a context included, is classified the same after travelling back over any wire. */
  lemma ClassifyCommutes(w: Wire, resp: Response, cid: string)
    ensures Classify(Returned(w, resp), cid) == Classify(resp, cid)
  {
    if resp.context.Some? {
      RequestedAcrDependsOnEntries(Returned(w, resp).context.value.obligations, resp.context.value.obligations);
    }
  }

  /** The same check gives the same kind, reason and required level whichever wire reaches the PDP. The token it hands
      out is the same too unless the lifted properties are empty. */
  lemma WireIndependence(w: Wire, v: Wire, svc: Pdp.Service, cfg: Config, h: Http, cid: string, revoked: set<string>,
                         now: int, pdpNow: int)
    ensures var a := Checked(cfg, h, cid, revoked, now, (r: Request) => Remote(w, svc, pdpNow, r));
            var b := Checked(cfg, h, cid, revoked, now, (r: Request) => Remote(v, svc, pdpNow, r));
            && a.kind == b.kind && a.reasonCode == b.reasonCode && a.requiredAcr == b.requiredAcr
            && a.correlationId == b.correlationId
            && ((BeforePdp(cfg, h, cid, revoked, now).Ok?
                 && !BeforePdp(cfg, h, cid, revoked, now).value.resource.properties.IsEmpty()) ==> a == b)
  {
    var before := BeforePdp(cfg, h, cid, revoked, now);
    if before.Ok? {
      RemoteAnswer(w, svc, pdpNow, before.value, cid);
      RemoteAnswer(v, svc, pdpNow, before.value, cid);
    }
  }

  lemma RemoteAnswer(w: Wire, svc: Pdp.Service, now: int, r: Request, cid: string)
    ensures var a, b := Answered(Remote(w, svc, now, r), cid), Answered(Remote(InProcess, svc, now, r), cid);
            && a.(token := "") == b.(token := "")
            && (r.resource.properties.Props? && !r.resource.properties.IsEmpty() ==> a == b)
  {
    AnswerOnEveryWire(w, svc, now, r);
    var resp := Pdp.Evaluate(svc, now, Received(w, r));
    if resp.Ok? {
      ClassifyCommutes(w, resp.value, cid);
      SameButForToken(resp.value, Pdp.Evaluate(svc, now, r).value, cid);
    }
  }

  lemma SameButForToken(a: Response, b: Response, cid: string)
    requires a.decision == b.decision && a.context.Some? && b.context.Some?
    requires a.context.value.obligations == b.context.value.obligations
    requires a.context.value.reasonCode == b.context.value.reasonCode
    ensures Classify(a, cid).(token := "") == Classify(b, cid).(token := "")
  {}

  /** When the PDP is reached and allows, the outcome carries the very token it minted for the request it received. */
  lemma FreshAllowHandsOutItsToken(w: Wire, svc: Pdp.Service, cfg: Config, h: Http, cid: string, revoked: set<string>,
                                   now: int, pdpNow: int)
    requires BeforePdp(cfg, h, cid, revoked, now).Ok?
    ensures var r := BeforePdp(cfg, h, cid, revoked, now).value;
            var out := Checked(cfg, h, cid, revoked, now, (x: Request) => Remote(w, svc, pdpNow, x));
            && (out.kind == Allow <==> Pdp.Allows(svc, pdpNow, r))
            && (out.kind == Allow ==> out.token == Pdp.Minted(svc, pdpNow, Received(w, r)))
  {
    var r := BeforePdp(cfg, h, cid, revoked, now).value;
    RemoteAllowsIff(w, svc, pdpNow, r);
    if Pdp.Allows(svc, pdpNow, r) {
      TokenComesBack(w, svc, pdpNow, r, cid);
    }
  }

  /** An allow comes back over any wire with the token that was minted for the request as it arrived. */
  lemma TokenComesBack(w: Wire, svc: Pdp.Service, now: int, r: Request, cid: string)
    requires Remote(w, svc, now, r).Ok? && Remote(w, svc, now, r).value.decision
    ensures Answered(Remote(w, svc, now, r), cid).token == Pdp.Minted(svc, now, Received(w, r))
  {
    ClassifyCommutes(w, Pdp.Evaluate(svc, now, Received(w, r)).value, cid);
  }

  // ----- Replaying a token -----

  function WithToken(h: Http, tok: string): Http {
    h.(headers := h.headers.(decisionToken := tok))
  }

  /** A token minted for request m opens the fast path of any PEP sharing the secret exactly while it lives and for
      exactly the requests with the same subject, action, joined resource name and properties, at no lower level. */
  lemma MintedTokenHitsIff(svc: Pdp.Service, cfg: Config, h: Http, m: Request, r: Request, mintedAt: int, now: int)
    requires svc.prims.Sound() && cfg.prims == svc.prims
    requires cfg.verifier.Some? && cfg.verifier.value.secret == svc.issuer.secret
    requires h.headers.decisionToken == Pdp.Minted(svc, mintedAt, m)
    ensures FastPath(cfg, now, h, r) <==>
            && Token.Unix(now) < Token.Unix(mintedAt + svc.issuer.ttl)
            && r.subject.id == m.subject.id && r.action.name == m.action.name
            && r.resource.kind + "/" + r.resource.id == m.resource.kind + "/" + m.resource.id
            && r.resource.properties == m.resource.properties
            && Policy.AalRank(r.subject.Aal()) >= Policy.AalRank(m.subject.Aal())
  {
    Token.VerifyIssued(svc.prims, svc.issuer, cfg.verifier.value, mintedAt, now, Pdp.ClaimsFor(svc.prims, m));
    Token.DigestInjective(svc.prims, m.resource.properties, r.resource.properties);
    TokenHasADot(svc, mintedAt, m);
  }

  /** After the PDP allowed a request, the same request carrying the returned token takes the fast path exactly while
      the token lives, except that over JSON it never does when the lifted properties are empty: the PDP then digested
      a nil map and the PEP digests an empty one. */
  lemma ReplayHitsIff(w: Wire, svc: Pdp.Service, cfg: Config, h: Http, cid: string, cid': string, p: Passed, r: Request,
                      r': Request, mintedAt: int, now: int)
    requires svc.prims.Sound() && cfg.prims == svc.prims
    requires cfg.verifier.Some? && cfg.verifier.value.secret == svc.issuer.secret
    requires RequestFor(cfg, h, cid, p) == Ok(r)
    requires Pdp.Allows(svc, mintedAt, Received(w, r))
    requires RequestFor(cfg, WithToken(h, Pdp.Minted(svc, mintedAt, Received(w, r))), cid', p) == Ok(r')
    ensures FastPath(cfg, now, WithToken(h, Pdp.Minted(svc, mintedAt, Received(w, r))), r') <==>
            && Token.Unix(now) < Token.Unix(mintedAt + svc.issuer.ttl)
            && (w.JsonHttp? ==> !r.resource.properties.IsEmpty())
  {
    var m := Received(w, r);
    var tok := Pdp.Minted(svc, mintedAt, m);
    RequestArrives(w, r);
    SameInputOnEveryWire(w, r);
    SameTupleUnderAnyCid(cfg, h, tok, cid, cid', p, r, r');
    MintedTokenHitsIff(svc, cfg, WithToken(h, tok), m, r', mintedAt, now);
  }

  lemma TokenHasADot(svc: Pdp.Service, mintedAt: int, m: Request)
    ensures '.' in Pdp.Minted(svc, mintedAt, m)
  {
    var payload := svc.prims.encodeClaims(Token.Stamped(svc.issuer, mintedAt, Pdp.ClaimsFor(svc.prims, m)));
    Sealed.SealHasADot(svc.prims.mac, svc.issuer.secret, payload);
  }

  lemma SameTupleUnderAnyCid(cfg: Config, h: Http, tok: string, cid: string, cid': string, p: Passed, r: Request,
                             r': Request)
    requires RequestFor(cfg, h, cid, p) == Ok(r) && RequestFor(cfg, WithToken(h, tok), cid', p) == Ok(r')
    ensures r'.subject == r.subject && r'.action == r.action && r'.resource == r.resource
    ensures r.resource.properties.Props?
  {}

  lemma GuardIgnoresToken(cfg: Config, h: Http, tok: string, cid: string, cid': string)
    requires Guarded(cfg, h, cid).Ok?
    ensures Guarded(cfg, WithToken(h, tok), cid') == Ok(Guarded(cfg, h, cid).value)
    ensures var p := Guarded(cfg, h, cid).value;
            RequestFor(cfg, WithToken(h, tok), cid', p).Ok? <==> RequestFor(cfg, h, cid, p).Ok?
  {}

  /** So a live replay is answered without the PDP, unless the subject has been revoked meanwhile. */
  lemma LiveReplaySkipsPdp(w: Wire, svc: Pdp.Service, cfg: Config, h: Http, cid: string, cid': string, p: Passed,
                           r: Request, revoked: set<string>, mintedAt: int, now: int)
    requires svc.prims.Sound() && cfg.prims == svc.prims
    requires cfg.verifier.Some? && cfg.verifier.value.secret == svc.issuer.secret
    requires Guarded(cfg, h, cid) == Ok(p) && RequestFor(cfg, h, cid, p) == Ok(r)
    requires Pdp.Allows(svc, mintedAt, Received(w, r))
    requires Token.Unix(now) < Token.Unix(mintedAt + svc.issuer.ttl)
    requires w.JsonHttp? ==> !r.resource.properties.IsEmpty()
    requires h.headers.subjectId !in revoked
    ensures var again := WithToken(h, Pdp.Minted(svc, mintedAt, Received(w, r)));
            BeforePdp(cfg, again, cid', revoked, now) == Err(Reused(again, cid'))
  {
    var tok := Pdp.Minted(svc, mintedAt, Received(w, r));
    GuardIgnoresToken(cfg, h, tok, cid, cid');
    var r' := RequestFor(cfg, WithToken(h, tok), cid', p).value;
    ReplayHitsIff(w, svc, cfg, h, cid, cid', p, r, r', mintedAt, now);
  }

  // ----- The obligation pipeline -----

  predicate AsksStepUp(item: Json) {
    Member(Some(item), "type") == Some(Str(STEP_UP))
  }

  function AcrOf(item: Json): string {
    match At2(item, "details", "required_acr")
    case Some(Str(acr)) => acr
    case _ => ""
  }

  /** The first obligation of a policy document that is an object of type step_up. */
  function FirstAsking(items: seq<Json>): (first: Option<Json>)
    ensures first.None? <==> forall i :: 0 <= i < |items| ==> !AsksStepUp(items[i])
    ensures first.Some? ==> exists i :: 0 <= i < |items| && items[i] == first.value && AsksStepUp(items[i])
                              && forall j :: 0 <= j < i ==> !AsksStepUp(items[j])
  {
    if items == [] then None
    else if AsksStepUp(items[0]) then Some(items[0])
    else
      var rest := FirstAsking(items[1..]);
      assert rest.Some? ==> exists i :: 0 <= i < |items| && items[i] == rest.value && AsksStepUp(items[i])
                              && forall j :: 0 <= j < i ==> !AsksStepUp(items[j]) by {
        if rest.Some? {
          var i :| 0 <= i < |items[1..]| && items[1..][i] == rest.value && AsksStepUp(items[1..][i])
                   && forall j :: 0 <= j < i ==> !AsksStepUp(items[1..][j]);
          assert items[i + 1] == rest.value;
          assert forall j :: 1 <= j < i + 1 ==> items[j] == items[1..][j - 1];
        }
      }
      rest
  }

  lemma StepUpItem(fields: map<string, Json>)
    ensures Pdp.ToObligation(fields).kind == STEP_UP <==> AsksStepUp(Obj(fields))
    ensures Pdp.ToObligation(fields).details.GetString("required_acr") == AcrOf(Obj(fields))
  {}

  lemma FirstOfMapped(fields: map<string, Json>, rest: seq<map<string, Json>>)
    ensures var ob := Pdp.ToObligation(fields);
            RequestedAcr(Pdp.ToObligations([fields] + rest)) ==
            if ob.kind == STEP_UP then Some(ob.details.GetString("required_acr"))
            else RequestedAcr(Pdp.ToObligations(rest))
  {
    var all := Pdp.ToObligations([fields] + rest);
    assert all[0] == Pdp.ToObligation(fields) && all[1..] == Pdp.ToObligations(rest);
  }

  lemma {:induction false} PipelineKeepsTheFirst(items: seq<Json>)
    ensures RequestedAcr(Pdp.ToObligations(Engine.Objects(items))) ==
            match FirstAsking(items) case None => None case Some(item) => Some(AcrOf(item))
  {
    if items != [] {
      PipelineKeepsTheFirst(items[1..]);
      var rest := Engine.Objects(items[1..]);
      if items[0].Obj? {
        StepUpItem(items[0].fields);
        assert Engine.Objects(items) == [items[0].fields] + rest;
        FirstOfMapped(items[0].fields, rest);
      } else {
        assert Engine.Objects(items) == rest;
      }
    }
  }

  /** For any decision document that does not allow, over any wire, the outcome is a step-up exactly when some object
      obligation has type step_up, and it asks for the level of the first such obligation in document order. The reason
      is the document's; a plain denial without one says "forbidden". */
  lemma ObligationPipeline(w: Wire, svc: Pdp.Service, now: int, r: Request, doc: map<string, Json>, cid: string)
    requires Member(Some(Obj(doc)), "allow") != Some(Bool(true))
    ensures var out := Classify(Returned(w, Pdp.Assembled(svc, now, r, Engine.Parsed(doc))), cid);
            var listed := Member(Some(Obj(doc)), "obligations");
            match FirstAsking(if listed.Some? && listed.value.Arr? then listed.value.items else [])
            case Some(item) =>
              && out.kind == DenyStepUp && out.requiredAcr == AcrOf(item)
              && out.reasonCode == Props(doc).GetString("reason_code")
            case None =>
              && out.kind == DenyForbidden && out.requiredAcr == ""
              && out.reasonCode == (var rc := Props(doc).GetString("reason_code"); if rc != "" then rc else "forbidden")
  {
    ClassifyCommutes(w, Pdp.Assembled(svc, now, r, Engine.Parsed(doc)), cid);
    PipelineKeepsTheFirst(Engine.Items(doc));
  }
}
