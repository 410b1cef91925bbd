/** The signed text `body.sig` shared by decision tokens and security event tokens: both halves are base64url, and
    the signature is an HMAC (section 2 of RFC 2104) of the body *text*, not of the decoded payload. */
module Sealed {
  import opened Values
  import opened Text
  import opened Base64Url

  /** HMAC-SHA256 of a text under a key. Nothing is assumed about it here. */
  type Hmac = (Bytes, string) -> Bytes

  datatype SealError = Malformed | BadSignatureText | SignatureMismatch | BadBodyText

  function Seal(mac: Hmac, key: Bytes, payload: Bytes): string {
    var body := Encode(payload);
    body + "." + Encode(mac(key, body))
  }

  function Open(mac: Hmac, key: Bytes, text: string): Result<Bytes, SealError> {
    match Cut(text, '.')
    case None => Err(Malformed)
    case Some((body, sig)) =>
      match Decode(sig)
      case None => Err(BadSignatureText)
      case Some(want) =>
        if want != mac(key, body) then Err(SignatureMismatch)
        else match Decode(body)
          case None => Err(BadBodyText)
          case Some(payload) => Ok(payload)
  }

  /** What signing rules out for an outsider: a text whose signature checks out under `key` has a body that was
      sealed from one of the `signed` payloads. */
  ghost predicate Authentic(mac: Hmac, key: Bytes, signed: iset<Bytes>, text: string) {
    forall body, sig :: Cut(text, '.') == Some((body, sig)) && Decode(sig) == Some(mac(key, body)) ==>
      exists payload :: payload in signed && body == Encode(payload)
  }

  lemma OpenSeal(mac: Hmac, key: Bytes, payload: Bytes)
    ensures Open(mac, key, Seal(mac, key, payload)) == Ok(payload)
  {
    var body := Encode(payload);
    EncodeDigits(payload);
    CutOf(body, '.', Encode(mac(key, body)));
    DecodeEncode(payload);
    DecodeEncode(mac(key, body));
  }

  /** Exactly the texts that open: a body before the first dot, and after it an encoding of the MAC of the body's
      text. */
  lemma OpensExactly(mac: Hmac, key: Bytes, text: string, payload: Bytes)
    ensures Open(mac, key, text) == Ok(payload) <==>
            exists body, sig :: '.' !in body && text == body + "." + sig
              && Decode(sig) == Some(mac(key, body)) && Decode(body) == Some(payload)
  {
    CutIsFirst(text, '.');
    if Open(mac, key, text) == Ok(payload) {
      var (body, sig) := Cut(text, '.').value;
      assert '.' !in body && text == body + "." + sig;
    }
    if body, sig :| '.' !in body && text == body + "." + sig
                    && Decode(sig) == Some(mac(key, body)) && Decode(body) == Some(payload) {
      CutOf(body, '.', sig);
    }
  }

  /** Only sealed payloads open: the body text of an accepted text is exactly one that was signed. */
  lemma OpenOnlySigned(mac: Hmac, key: Bytes, signed: iset<Bytes>, text: string)
    requires Authentic(mac, key, signed, text)
    requires Open(mac, key, text).Ok?
    ensures Open(mac, key, text).value in signed
    ensures exists sig :: text == Encode(Open(mac, key, text).value) + "." + sig
  {
    CutIsFirst(text, '.');
    var (body, sig) := Cut(text, '.').value;
    var payload :| payload in signed && body == Encode(payload);
    DecodeEncode(payload);
    assert text == Encode(payload) + "." + sig;
  }

  /** A sealed text is authentic as soon as its payload is among the signed ones. */
  lemma SealIsAuthentic(mac: Hmac, key: Bytes, signed: iset<Bytes>, payload: Bytes)
    requires payload in signed
    ensures Authentic(mac, key, signed, Seal(mac, key, payload))
  {
    EncodeDigits(payload);
    CutOf(Encode(payload), '.', Encode(mac(key, Encode(payload))));
  }

  /** A text whose body is that of a sealed one opens exactly when its signature decodes to the MAC. */
  lemma OpensIff(mac: Hmac, key: Bytes, payload: Bytes, sig: string)
    ensures Open(mac, key, Encode(payload) + "." + sig) == Ok(payload) <==>
            Decode(sig) == Some(mac(key, Encode(payload)))
  {
    EncodeDigits(payload);
    CutOf(Encode(payload), '.', sig);
    DecodeEncode(payload);
  }

  /** The text of a signature is never unique: a line break at any place in it leaves it valid, whatever the MAC. */
  lemma SignatureTextNotUnique(mac: Hmac, key: Bytes, payload: Bytes)
    ensures var (body, sig) := (Encode(payload), Encode(mac(key, Encode(payload))));
            forall at, c :: 0 <= at <= |sig| && IsLineBreak(c) ==>
              var other := body + "." + (sig[..at] + [c] + sig[at..]);
              other != Seal(mac, key, payload) && Open(mac, key, other) == Ok(payload)
  {
    var (body, sig) := (Encode(payload), Encode(mac(key, Encode(payload))));
    forall at, c | 0 <= at <= |sig| && IsLineBreak(c)
      ensures var other := body + "." + (sig[..at] + [c] + sig[at..]);
              other != Seal(mac, key, payload) && Open(mac, key, other) == Ok(payload)
    {
      var broken := sig[..at] + [c] + sig[at..];
      LineBreaksAreSkipped(sig[..at], c, sig[at..]);
      assert sig[..at] + sig[at..] == sig;
      DecodeEncode(mac(key, body));
      OpensIff(mac, key, payload, broken);
      assert |body + "." + broken| == |Seal(mac, key, payload)| + 1;
    }
  }

  /** Line breaks aside, the sealed text is the only one that opens to its payload exactly when the MAC fills whole
      base64 triples, which one of 32 octets does not. */
  lemma SealedTextUniqueIff(mac: Hmac, key: Bytes, signed: iset<Bytes>, payload: Bytes)
    requires payload in signed
    ensures (forall text :: (NoLineBreaks(text) && Authentic(mac, key, signed, text)
                             && Open(mac, key, text) == Ok(payload)) ==> text == Seal(mac, key, payload))
            <==> |mac(key, Encode(payload))| % 3 == 0
  {
    if |mac(key, Encode(payload))| % 3 == 0 {
      forall text | NoLineBreaks(text) && Authentic(mac, key, signed, text) && Open(mac, key, text) == Ok(payload)
        ensures text == Seal(mac, key, payload)
      {
        OnlySealedText(mac, key, signed, payload, text);
      }
    } else {
      AnotherSpelling(mac, key, signed, payload);
    }
  }

  lemma OnlySealedText(mac: Hmac, key: Bytes, signed: iset<Bytes>, payload: Bytes, text: string)
    requires |mac(key, Encode(payload))| % 3 == 0
    requires NoLineBreaks(text) && Authentic(mac, key, signed, text) && Open(mac, key, text) == Ok(payload)
    ensures text == Seal(mac, key, payload)
  {
    OpenOnlySigned(mac, key, signed, text);
    var body := Encode(payload);
    var sig :| text == body + "." + sig;
    OpensIff(mac, key, payload, sig);
    assert sig == text[|body| + 1..];
    OnlyText(sig, mac(key, body));
  }

  lemma AnotherSpelling(mac: Hmac, key: Bytes, signed: iset<Bytes>, payload: Bytes)
    requires payload in signed && |mac(key, Encode(payload))| % 3 != 0
    ensures var text := Encode(payload) + "." + Spelled(mac(key, Encode(payload)), 1);
            && NoLineBreaks(text) && Authentic(mac, key, signed, text)
            && Open(mac, key, text) == Ok(payload) && text != Seal(mac, key, payload)
  {
    var body := Encode(payload);
    var sum := mac(key, body);
    var (sig, text) := (Spelled(sum, 1), body + "." + Spelled(sum, 1));
    EncodeDigits(payload);
    AnotherText(sum);
    OpensIff(mac, key, payload, sig);
    CutOf(body, '.', sig);
    assert text[|body| + 1..] == sig && Seal(mac, key, payload)[|body| + 1..] == Encode(sum);
  }

  lemma SealHasADot(mac: Hmac, key: Bytes, payload: Bytes)
    ensures '.' in Seal(mac, key, payload)
  {
    assert Seal(mac, key, payload)[|Encode(payload)|] == '.';
  }
}
