/** Continuous access evaluation: signed security events, each receiver's revocation cache, and the push fan-out. */
module Caep {
  import opened Values
  import opened Base64Url
  import opened Sealed
  import Token

  datatype Event = Event(kind: string, subject: string, issuedAt: int)

  const REVOKED := "session-revoked"
  const RESTORED := "session-restored"

  // ----- The cache -----

  function Applied(revoked: set<string>, e: Event): set<string> {
    if e.kind == REVOKED then revoked + {e.subject}
    else if e.kind == RESTORED then revoked - {e.subject}
    else revoked
  }

  function Replay(log: seq<Event>): set<string> {
    if log == [] then {} else Applied(Replay(log[..|log| - 1]), log[|log| - 1])
  }

  /** The last recognised event about the subject, in arrival order, was a revoke. */
  ghost predicate LastWordIsRevoke(log: seq<Event>, subject: string) {
    exists i :: 0 <= i < |log| && log[i].kind == REVOKED && log[i].subject == subject
                && forall j :: i < j < |log| && log[j].subject == subject ==> log[j].kind != RESTORED
  }

  class RevocationCache {
    var revoked: map<string, bool>
    ghost var log: seq<Event>

    ghost predicate Valid()
      reads this
    {
      Contents() == Replay(log)
    }

    ghost function Contents(): set<string>
      reads this
    {
      set s | s in revoked && revoked[s]
    }

    constructor ()
      ensures Valid() && log == []
    {
      revoked, log := map[], [];
    }

    method Apply(e: Event)
      requires Valid()
      modifies this
      ensures Valid() && log == old(log) + [e]
      ensures Contents() == Applied(old(Contents()), e)
    {
      if e.kind == REVOKED {
        revoked := revoked[e.subject := true];
      } else if e.kind == RESTORED {
        revoked := revoked - {e.subject};
      }
      log := log + [e];
      assert log[..|log| - 1] == old(log);
    }

    method IsRevoked(subject: string) returns (b: bool)
      requires Valid()
      ensures b <==> subject in Contents()
      ensures b <==> LastWordIsRevoke(log, subject)
    {
      ReplayIsTheLastWord(log, subject);
      b := subject in revoked && revoked[subject];
    }
  }

  /** The cache equals its log. */
  lemma {:induction false} ReplayIsTheLastWord(log: seq<Event>, subject: string)
    ensures subject in Replay(log) <==> LastWordIsRevoke(log, subject)
  {
    if log != [] {
      var n := |log| - 1;
      var (before, e) := (log[..n], log[n]);
      ReplayIsTheLastWord(before, subject);
      if LastWordIsRevoke(log, subject) {
        var i :| 0 <= i < |log| && log[i].kind == REVOKED && log[i].subject == subject
                 && forall j :: i < j < |log| && log[j].subject == subject ==> log[j].kind != RESTORED;
        if i < n {
          assert before[i] == log[i];
          assert LastWordIsRevoke(before, subject);
        }
      }
      if subject in Replay(log) {
        if e.kind == REVOKED && e.subject == subject {
          assert log[n] == e;
        } else {
          var i :| 0 <= i < n && before[i].kind == REVOKED && before[i].subject == subject
                   && forall j :: i < j < n && before[j].subject == subject ==> before[j].kind != RESTORED;
          assert log[i] == before[i];
          assert forall j :: i < j < n ==> log[j] == before[j];
        }
      }
    }
  }

  function About(log: seq<Event>, subject: string): seq<Event> {
    if log == [] then []
    else
      var n := |log| - 1;
      About(log[..n], subject) + if log[n].subject == subject then [log[n]] else []
  }

  lemma {:induction false} OnlyEventsAboutMatter(log: seq<Event>, subject: string)
    ensures subject in Replay(log) <==> subject in Replay(About(log, subject))
  {
    if log != [] {
      var n := |log| - 1;
      OnlyEventsAboutMatter(log[..n], subject);
      var about := About(log, subject);
      if log[n].subject == subject {
        assert about[..|about| - 1] == About(log[..n], subject) && about[|about| - 1] == log[n];
      } else {
        assert about == About(log[..n], subject);
      }
    }
  }

  /** However two receivers' logs shuffle events of different subjects, equal per-subject orders give equal caches. */
  lemma ShuffleAcrossSubjects(a: seq<Event>, b: seq<Event>)
    requires forall s :: About(a, s) == About(b, s)
    ensures Replay(a) == Replay(b)
  {
    forall s
      ensures s in Replay(a) <==> s in Replay(b)
    {
      OnlyEventsAboutMatter(a, s);
      OnlyEventsAboutMatter(b, s);
    }
  }

  // ----- Security event tokens -----

  datatype SetError = Unsealed(e: SealError) | BadEvent

  datatype Signer = Signer(
    secret: Bytes, mac: Hmac, encodeEvent: Event -> Bytes, decodeEvent: Bytes -> Option<Event>)
  {
    ghost predicate Sound() {
      forall e :: decodeEvent(encodeEvent(e)) == Some(e)
    }

    function Sign(now: int, e: Event): string {
      Seal(mac, secret, encodeEvent(e.(issuedAt := Token.Unix(now))))
    }

    function Verify(text: string): Result<Event, SetError> {
      match Open(mac, secret, text)
      case Err(e) => Err(Unsealed(e))
      case Ok(payload) =>
        match decodeEvent(payload)
        case None => Err(BadEvent)
        case Some(e) => Ok(e)
    }
  }

  /** White space in the sense of Go's `bytes.TrimSpace`. */
  predicate IsSpace(c: char) {
    c in {'\t', '\n', '\U{0B}', '\U{0C}', '\r', ' ', '\U{85}', '\U{A0}', '\U{1680}', '\U{2028}', '\U{2029}',
          '\U{202F}', '\U{205F}', '\U{3000}'}
    || '\U{2000}' <= c <= '\U{200A}'
  }

  function TrimSpace(s: string): string
    decreases |s|
  {
    if s == "" then ""
    else if IsSpace(s[0]) then TrimSpace(s[1..])
    else if IsSpace(s[|s| - 1]) then TrimSpace(s[..|s| - 1])
    else s
  }

  /** Only a text sealed under the shared secret ever reaches a cache. */
  lemma AcceptedSetWasSigned(signer: Signer, signed: iset<Event>, text: string)
    requires signer.Sound()
    requires Authentic(signer.mac, signer.secret, iset e | e in signed :: signer.encodeEvent(e), text)
    requires signer.Verify(text).Ok?
    ensures signer.Verify(text).value in signed
  {
    OpenOnlySigned(signer.mac, signer.secret, iset e | e in signed :: signer.encodeEvent(e), text);
  }

  /** A signed event survives the push: trimming leaves the text alone and the receiver recovers the event, stamped. */
  lemma SignedSetArrives(signer: Signer, now: int, e: Event)
    requires signer.Sound()
    ensures var text := signer.Sign(now, e);
            TrimSpace(text) == text && signer.Verify(text) == Ok(e.(issuedAt := Token.Unix(now)))
  {
    var payload := signer.encodeEvent(e.(issuedAt := Token.Unix(now)));
    OpenSeal(signer.mac, signer.secret, payload);
    EncodeDigits(payload);
    EncodeDigits(signer.mac(signer.secret, Encode(payload)));
    var text := signer.Sign(now, e);
    assert forall i :: 0 <= i < |text| ==> text[i] == '.' || IsDigit(text[i]);
    assert forall c :: c == '.' || IsDigit(c) ==> !IsSpace(c);
  }

  // ----- The push endpoint -----

  const ACCEPTED := 202
  const BAD_REQUEST := 400
  const UNAUTHORIZED := 401

  /** A request body that could not be read is None. */
  function Handled(signer: Signer, revoked: set<string>, body: Option<string>): (int, set<string>) {
    match body
    case None => (BAD_REQUEST, revoked)
    case Some(text) =>
      match signer.Verify(TrimSpace(text))
      case Err(_) => (UNAUTHORIZED, revoked)
      case Ok(e) => (ACCEPTED, Applied(revoked, e))
  }

  /** What the push endpoint answers, and what it does: a text that does not verify is refused and changes nothing. */
  lemma EndpointSays(signer: Signer, revoked: set<string>, text: string)
    ensures var (status, after) := Handled(signer, revoked, Some(text));
            var event := signer.Verify(TrimSpace(text));
            && (event.Err? ==> status == 401 && after == revoked)
            && (event.Ok? ==> status == 202
                              && after == (if event.value.kind == "session-revoked" then revoked + {event.value.subject}
                                           else if event.value.kind == "session-restored"
                                           then revoked - {event.value.subject} else revoked))
    ensures Handled(signer, revoked, None) == (400, revoked)
  {}

  predicate AllSpace(s: string) {
    forall i :: 0 <= i < |s| ==> IsSpace(s[i])
  }

  /** Trimming takes white space off both ends and nothing else. */
  lemma {:induction false} TrimmedEnds(s: string) returns (before: string, after: string)
    ensures s == before + TrimSpace(s) + after && AllSpace(before) && AllSpace(after)
    ensures TrimSpace(s) == "" || (!IsSpace(TrimSpace(s)[0]) && !IsSpace(TrimSpace(s)[|TrimSpace(s)| - 1]))
    decreases |s|
  {
    before, after := "", "";
    if s != "" {
      var n := |s| - 1;
      if IsSpace(s[0]) {
        before, after := TrimmedEnds(s[1..]);
        Longer([s[0]], s[1..], before, TrimSpace(s), after);
        before := [s[0]] + before;
      } else if IsSpace(s[n]) {
        before, after := TrimmedEnds(s[..n]);
        assert s == s[..n] + [s[n]];
        after := after + [s[n]];
      }
    }
  }

  lemma Longer(head: string, rest: string, before: string, middle: string, after: string)
    requires rest == before + middle + after
    ensures head + rest == head + before + middle + after
  {}

  /** A receiver accepts an event whatever its age: a restore delivered again lifts any later revoke of its subject. */
  lemma OldRestoreLiftsRevoke(signer: Signer, revoked: set<string>, signedAt: int, now: int, subject: string)
    requires signer.Sound()
    ensures var (restore, revoke) := (Event(RESTORED, subject, 0), Event(REVOKED, subject, 0));
            var revoking := Handled(signer, revoked, Some(signer.Sign(now, revoke)));
            var restoring := Handled(signer, revoking.1, Some(signer.Sign(signedAt, restore)));
            && revoking == (ACCEPTED, revoked + {subject})
            && restoring == (ACCEPTED, revoked - {subject})
  {
    SignedSetArrives(signer, signedAt, Event(RESTORED, subject, 0));
    SignedSetArrives(signer, now, Event(REVOKED, subject, 0));
    assert (revoked + {subject}) - {subject} == revoked - {subject};
  }

  class Receiver {
    const signer: Signer
    const sink: RevocationCache

    constructor (signer: Signer, sink: RevocationCache)
      ensures this.signer == signer && this.sink == sink
    {
      this.signer, this.sink := signer, sink;
    }

    method Handle(body: Option<string>) returns (status: int)
      requires sink.Valid()
      modifies sink
      ensures sink.Valid()
      ensures (status, sink.Contents()) == Handled(signer, old(sink.Contents()), body)
      ensures status == 400 <==> body.None?
      ensures status == 401 <==> body.Some? && signer.Verify(TrimSpace(body.value)).Err?
      ensures status == 202 <==> body.Some? && signer.Verify(TrimSpace(body.value)).Ok?
      ensures sink.log == old(sink.log) + if status == 202 then [signer.Verify(TrimSpace(body.value)).value] else []
    {
      if body.None? {
        return BAD_REQUEST;
      }
      var event := signer.Verify(TrimSpace(body.value));
      if event.Err? {
        return UNAUTHORIZED;
      }
      sink.Apply(event.value);
      status := ACCEPTED;
    }
  }

  // ----- The fan-out -----

  /** A subscriber's endpoint as the transmitter sees it: the receiver behind a URL and its cache. */
  datatype Site = Site(signer: Signer, revoked: set<string>)

  /** What goes wrong on the way: nothing, an unusable URL, a lost request, or a lost reply. */
  datatype Fault = Clean | BadUrl | RequestLost | ReplyLost

  datatype EmitError = NotBuilt(url: string) | NotSent(url: string) | Answered(url: string, status: int)

  function Delivered(sites: map<string, Site>, url: string, text: string): map<string, Site>
    requires url in sites
  {
    var site := sites[url];
    sites[url := site.(revoked := Handled(site.signer, site.revoked, Some(text)).1)]
  }

  predicate Reaches(sites: map<string, Site>, url: string, fault: Fault) {
    url in sites && (fault.Clean? || fault.ReplyLost?)
  }

  /** One push: the sites afterwards, and the error it contributes. */
  function Pushed(sites: map<string, Site>, url: string, text: string, fault: Fault)
      : (map<string, Site>, Option<EmitError>)
  {
    if fault.BadUrl? then (sites, Some(NotBuilt(url)))
    else if !Reaches(sites, url, fault) then (sites, Some(NotSent(url)))
    else
      var status := Handled(sites[url].signer, sites[url].revoked, Some(text)).0;
      (Delivered(sites, url, text),
       if fault.ReplyLost? then Some(NotSent(url))
       else if status != ACCEPTED then Some(Answered(url, status)) else None)
  }

  /** The sites after pushing to every URL in turn. */
  function SitesAfter(sites: map<string, Site>, urls: seq<string>, text: string, faults: seq<Fault>): map<string, Site>
    requires |faults| == |urls|
  {
    if urls == [] then sites
    else
      var n := |urls| - 1;
      Pushed(SitesAfter(sites, urls[..n], text, faults[..n]), urls[n], text, faults[n]).0
  }

  /** The error, if any, that the push to the i-th URL contributes. */
  function ErrorAt(sites: map<string, Site>, urls: seq<string>, text: string, faults: seq<Fault>, i: nat)
      : Option<EmitError>
    requires |faults| == |urls| && i < |urls|
  {
    Pushed(SitesAfter(sites, urls[..i], text, faults[..i]), urls[i], text, faults[i]).1
  }

  /** The first error among the first n pushes. */
  ghost function Earliest(sites: map<string, Site>, urls: seq<string>, text: string, faults: seq<Fault>, n: nat)
      : Option<EmitError>
    requires |faults| == |urls| && n <= |urls|
  {
    if n == 0 then None
    else
      var before := Earliest(sites, urls, text, faults, n - 1);
      if before.Some? then before else ErrorAt(sites, urls, text, faults, n - 1)
  }

  lemma {:induction false} EarliestIsNone(sites: map<string, Site>, urls: seq<string>, text: string,
                                          faults: seq<Fault>, n: nat)
    requires |faults| == |urls| && n <= |urls|
    ensures Earliest(sites, urls, text, faults, n).None? <==>
            forall i :: 0 <= i < n ==> ErrorAt(sites, urls, text, faults, i).None?
  {
    if n > 0 {
      EarliestIsNone(sites, urls, text, faults, n - 1);
      assert ErrorAt(sites, urls, text, faults, n - 1).None? || !ErrorAt(sites, urls, text, faults, n - 1).None?;
    }
  }

  /** Emit's result: nil if and only if no push failed, otherwise the error of the first push that did. */
  lemma {:induction false} EarliestIsTheFirst(sites: map<string, Site>, urls: seq<string>, text: string,
                                              faults: seq<Fault>, n: nat)
    requires |faults| == |urls| && n <= |urls|
    ensures var first := Earliest(sites, urls, text, faults, n);
            && (first.None? <==> forall i :: 0 <= i < n ==> ErrorAt(sites, urls, text, faults, i).None?)
            && (first.Some? ==>
                  exists i :: 0 <= i < n && first == ErrorAt(sites, urls, text, faults, i)
                    && forall j :: 0 <= j < i ==> ErrorAt(sites, urls, text, faults, j).None?)
  {
    EarliestIsNone(sites, urls, text, faults, n);
    if n > 0 {
      EarliestIsNone(sites, urls, text, faults, n - 1);
      if Earliest(sites, urls, text, faults, n - 1).Some? {
        EarliestIsTheFirst(sites, urls, text, faults, n - 1);
      }
    }
  }

  /** Pushing never adds or removes a site, nor changes its signer. */
  lemma {:induction false} SignersStay(sites: map<string, Site>, urls: seq<string>, text: string, faults: seq<Fault>)
    requires |faults| == |urls|
    ensures var after := SitesAfter(sites, urls, text, faults);
            after.Keys == sites.Keys && forall url :: url in sites ==> after[url].signer == sites[url].signer
  {
    if urls != [] {
      SignersStay(sites, urls[..|urls| - 1], text, faults[..|urls| - 1]);
    }
  }

  /** The receiver behind this URL takes the text. */
  predicate Takes(sites: map<string, Site>, url: string, text: string) {
    url in sites && sites[url].signer.Verify(TrimSpace(text)).Ok?
  }

  /** What goes wrong with one push, whatever the others did: a request that cannot be built, one that gets no answer,
      or one that the receiver refuses with 401. */
  predicate Fails(sites: map<string, Site>, url: string, text: string, fault: Fault, error: EmitError) {
    if fault.BadUrl? then error == NotBuilt(url)
    else if url !in sites || !fault.Clean? then error == NotSent(url)
    else !Takes(sites, url, text) && error == Answered(url, 401)
  }

  lemma ErrorSays(sites: map<string, Site>, urls: seq<string>, text: string, faults: seq<Fault>, i: nat)
    requires |faults| == |urls| && i < |urls|
    ensures var error := ErrorAt(sites, urls, text, faults, i);
            && (error.None? <==> faults[i].Clean? && Takes(sites, urls[i], text))
            && (error.Some? ==> Fails(sites, urls[i], text, faults[i], error.value))
  {
    var before := SitesAfter(sites, urls[..i], text, faults[..i]);
    SignersStay(sites, urls[..i], text, faults[..i]);
    if urls[i] in sites {
      EndpointSays(sites[urls[i]].signer, before[urls[i]].revoked, text);
    }
  }

  /** Emit's result, from the network alone. */
  lemma ResultSays(sites: map<string, Site>, urls: seq<string>, text: string, faults: seq<Fault>)
    requires |faults| == |urls|
    ensures var result := Earliest(sites, urls, text, faults, |urls|);
            && (result.None? <==> forall i :: 0 <= i < |urls| ==> faults[i].Clean? && Takes(sites, urls[i], text))
            && (result.Some? ==>
                  exists i :: 0 <= i < |urls| && Fails(sites, urls[i], text, faults[i], result.value)
                    && forall j :: 0 <= j < i ==> faults[j].Clean? && Takes(sites, urls[j], text))
  {
    EarliestIsTheFirst(sites, urls, text, faults, |urls|);
    forall i | 0 <= i < |urls|
      ensures ErrorAt(sites, urls, text, faults, i).None? <==> faults[i].Clean? && Takes(sites, urls[i], text)
      ensures ErrorAt(sites, urls, text, faults, i).Some? ==>
                Fails(sites, urls[i], text, faults[i], ErrorAt(sites, urls, text, faults, i).value)
    {
      ErrorSays(sites, urls, text, faults, i);
    }
  }

  /** What the transmitter makes of an answer, if one came: the status tells exactly. */
  function PostError(url: string, status: Option<int>): Option<EmitError> {
    match status
    case None => Some(NotSent(url))
    case Some(code) => if code == ACCEPTED then None else Some(Answered(url, code))
  }

  class Network {
    var sites: map<string, Site>
    var posts: seq<(string, string)>

    /** `client.Do`: one attempt, recorded whether or not it arrives. */
    method Post(url: string, text: string, fault: Fault) returns (status: Option<int>)
      requires !fault.BadUrl?
      modifies this
      ensures posts == old(posts) + [(url, text)]
      ensures Pushed(old(sites), url, text, fault) == (sites, PostError(url, status))
    {
      posts := posts + [(url, text)];
      status := None;
      if Reaches(sites, url, fault) {
        if fault.Clean? {
          status := Some(Handled(sites[url].signer, sites[url].revoked, Some(text)).0);
        }
        sites := Delivered(sites, url, text);
      }
    }
  }

  /** The requests that could be built, in subscriber order. */
  function Attempted(urls: seq<string>, text: string, faults: seq<Fault>): seq<(string, string)>
    requires |faults| == |urls|
  {
    if urls == [] then []
    else
      var n := |urls| - 1;
      Attempted(urls[..n], text, faults[..n]) + if faults[n].BadUrl? then [] else [(urls[n], text)]
  }

  /** How many of these requests can be built. */
  function Buildable(faults: seq<Fault>): nat {
    if faults == [] then 0
    else Buildable(faults[..|faults| - 1]) + if faults[|faults| - 1].BadUrl? then 0 else 1
  }

  /** Every subscriber whose URL is usable is tried exactly once, in its place. */
  lemma {:induction false} AttemptsSay(urls: seq<string>, text: string, faults: seq<Fault>)
    requires |faults| == |urls|
    ensures |Attempted(urls, text, faults)| == Buildable(faults)
    ensures forall i :: 0 <= i < |urls| && !faults[i].BadUrl? ==>
              Buildable(faults[..i]) < Buildable(faults)
              && Attempted(urls, text, faults)[Buildable(faults[..i])] == (urls[i], text)
  {
    if urls != [] {
      var n := |urls| - 1;
      AttemptsSay(urls[..n], text, faults[..n]);
      forall i | 0 <= i < n && !faults[i].BadUrl?
        ensures Buildable(faults[..i]) < Buildable(faults[..n])
        ensures Attempted(urls[..n], text, faults[..n])[Buildable(faults[..i])] == (urls[i], text)
      {
        assert faults[..n][..i] == faults[..i];
      }
    }
  }

  /** What one more push adds to an Emit under way. */
  lemma OnePushMore(sites: map<string, Site>, urls: seq<string>, text: string, faults: seq<Fault>, i: nat)
    requires |faults| == |urls| && i < |urls|
    ensures var before := SitesAfter(sites, urls[..i], text, faults[..i]);
            var push := Pushed(before, urls[i], text, faults[i]);
            var first := Earliest(sites, urls, text, faults, i);
            && SitesAfter(sites, urls[..i + 1], text, faults[..i + 1]) == push.0
            && Earliest(sites, urls, text, faults, i + 1) == (if first.Some? then first else push.1)
    ensures Attempted(urls[..i + 1], text, faults[..i + 1]) ==
            Attempted(urls[..i], text, faults[..i]) + if faults[i].BadUrl? then [] else [(urls[i], text)]
  {
    assert urls[..i + 1][..i] == urls[..i] && faults[..i + 1][..i] == faults[..i];
  }

  class Transmitter {
    const signer: Signer
    const subscribers: seq<string>
    const client: Network

    constructor (signer: Signer, subscribers: seq<string>, client: Network)
      ensures this.signer == signer && this.subscribers == subscribers && this.client == client
    {
      this.signer, this.subscribers, this.client := signer, subscribers, client;
    }

    /** Every subscriber is tried once, in order, whatever went wrong before; the result is the earliest error. */
    method Emit(now: int, e: Event, faults: seq<Fault>) returns (firstErr: Option<EmitError>)
      requires |faults| == |subscribers|
      modifies client
      ensures var text := signer.Sign(now, e);
              && client.posts == old(client.posts) + Attempted(subscribers, text, faults)
              && client.sites == SitesAfter(old(client.sites), subscribers, text, faults)
      ensures firstErr == Earliest(old(client.sites), subscribers, signer.Sign(now, e), faults, |subscribers|)
      ensures firstErr.None? <==>
              forall i :: 0 <= i < |subscribers| ==>
                faults[i].Clean? && Takes(old(client.sites), subscribers[i], signer.Sign(now, e))
    {
      var text := signer.Sign(now, e);
      firstErr := None;
      ghost var start := client.sites;
      for i := 0 to |subscribers|
        invariant client.posts == old(client.posts) + Attempted(subscribers[..i], text, faults[..i])
        invariant client.sites == SitesAfter(start, subscribers[..i], text, faults[..i])
        invariant firstErr == Earliest(start, subscribers, text, faults, i)
      {
        var url := subscribers[i];
        OnePushMore(start, subscribers, text, faults, i);
        if faults[i].BadUrl? {
          if firstErr.None? {
            firstErr := Some(NotBuilt(url));
          }
          continue;
        }
        var status := client.Post(url, text, faults[i]);
        if status.None? {
          if firstErr.None? {
            firstErr := Some(NotSent(url));
          }
          continue;
        }
        if status.value != ACCEPTED && firstErr.None? {
          firstErr := Some(Answered(url, status.value));
        }
      }
      assert subscribers[..|subscribers|] == subscribers && faults[..|subscribers|] == faults;
      ResultSays(start, subscribers, text, faults);
    }
  }
}
