/** The application-level middleware in front of every route: a Referer
    allowlist, then in-place decoding of the encrypted body on the chat
    route only. */
module Gate {
  import opened Optional
  import opened Text

  /** Host fragments that the Referer header must contain one of. */
  const AllowedFragments: seq<string> := ["mashaojie.cn", "localhost", "192.168."]

  /** The URL fragment that selects the body-decoding step. */
  const ChatRoute: string := "/chat-process"

  const UnauthorizedStatus: int := 401
  const UnauthorizedText: string := "Unauthorized"

  /** An incoming request as the middleware sees it. `B` is the parsed JSON
      body; the Referer is taken as present. */
  datatype Request<B> = Request(referer: string, url: string, body: B)

  /** What the middleware does with a request:
      - `Rejected`: answered with a status and text, `next` is not called;
      - `Forwarded`: `next` is called with `body` as the request body, and
        `decoded` says whether the decoding step ran;
      - `DecodeThrew`: decryption or parsing threw, so the exception leaves
        the middleware and `next` is not called with a body. */
  datatype Decision<B> =
    | Rejected(status: int, text: string)
    | Forwarded(body: B, decoded: bool)
    | DecodeThrew

  /** The Referer check exactly as written: rejected when it contains none
      of the three fragments. */
  predicate RefererAllowed(referer: string)
  {
    !(!Contains(referer, "mashaojie.cn") && !Contains(referer, "localhost") && !Contains(referer, "192.168."))
  }

  lemma WitnessFragment(referer: string, i: nat)
    requires i < |AllowedFragments| && Contains(referer, AllowedFragments[i])
    ensures exists f :: f in AllowedFragments && Contains(referer, f)
  {
    var f := AllowedFragments[i];
    assert f in AllowedFragments && Contains(referer, f);
  }

  /** The three-way test is membership of some fragment of the allowlist. */
  lemma AllowedIffSomeFragment(referer: string)
    ensures RefererAllowed(referer) <==> exists f :: f in AllowedFragments && Contains(referer, f)
  {
    if RefererAllowed(referer) {
      if Contains(referer, "mashaojie.cn") {
        WitnessFragment(referer, 0);
      } else if Contains(referer, "localhost") {
        WitnessFragment(referer, 1);
      } else {
        WitnessFragment(referer, 2);
      }
    } else {
      forall f | f in AllowedFragments
        ensures !Contains(referer, f)
      {
        assert f == "mashaojie.cn" || f == "localhost" || f == "192.168.";
      }
    }
  }

  /** The decoding step applies to any URL that contains the chat route. */
  predicate DecodesBody(url: string)
  {
    Contains(url, ChatRoute)
  }

  /** The middleware. `decode` stands for reading `queryData` from the raw
      body, decrypting it and parsing the plaintext as JSON, in one opaque
      step; `None` means that step threw. */
  function Middleware<B>(req: Request<B>, decode: B -> Option<B>): (d: Decision<B>)
    ensures d.Rejected? <==> forall f :: f in AllowedFragments ==> !Contains(req.referer, f)
    ensures d.Rejected? ==> d.status == 401 && d.text == "Unauthorized"
    ensures d.Forwarded? ==> d.decoded == Contains(req.url, "/chat-process")
    ensures d.Forwarded? && !d.decoded ==> d.body == req.body
    ensures d.Forwarded? && d.decoded ==> decode(req.body) == Some(d.body)
    ensures d.DecodeThrew? <==> !d.Rejected? && Contains(req.url, "/chat-process") && decode(req.body).None?
  {
    AllowedIffSomeFragment(req.referer);
    if !RefererAllowed(req.referer) then
      Rejected(UnauthorizedStatus, UnauthorizedText)
    else if DecodesBody(req.url) then
      match decode(req.body)
      case Some(b) => Forwarded(b, true)
      case None => DecodeThrew
    else
      Forwarded(req.body, false)
  }

  /** A rejected request never reaches the decoding step: whatever `decode`
      does, the decision is the same rejection. */
  lemma RejectionIgnoresDecode<B>(req: Request<B>, decode1: B -> Option<B>, decode2: B -> Option<B>)
    requires Middleware(req, decode1).Rejected?
    ensures Middleware(req, decode2) == Middleware(req, decode1)
  {
  }

  /** Off the chat route the decoding step is never consulted: the body
      passes through unchanged whatever `decode` does. */
  lemma OtherRoutesIgnoreDecode<B>(req: Request<B>, decode: B -> Option<B>)
    requires RefererAllowed(req.referer) && !DecodesBody(req.url)
    ensures Middleware(req, decode) == Forwarded(req.body, false)
  {
  }

  /** Both mount points of the relay route, with or without the `/api`
      prefix and with any query string, are decoded. */
  lemma {:induction false} PrefixedRoutesDecoded(prefix: string, query: string)
    ensures DecodesBody(prefix + "/chat-process" + query)
  {
    ContainsSelf(ChatRoute);
    ContainsInContext(prefix, ChatRoute, query, ChatRoute);
  }

  /** The allowlist is a substring test on the whole header, not a host
      match: a Referer from any host passes when its path mentions an
      allowed fragment. */
  lemma {:induction false} AllowlistIsSubstringTest(host: string, path: string, f: string)
    requires f in AllowedFragments
    ensures RefererAllowed(host + "/" + path + f)
  {
    ContainsSelf(f);
    ContainsInContext(host + "/" + path, f, "", f);
    assert host + "/" + path + f + "" == host + "/" + path + f;
  }
}
