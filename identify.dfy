/** Classification of an incoming HTTP request into the smart-HTTP
    operations the server answers (identify-request.js). Each predicate
    looks at the method, the URL's pathname and `service` query parameter,
    and two request headers, whose names Node has already lower-cased. */
module Identify {
  import opened Common

  datatype Request = Request(
    verb: string,                    // `req.method`
    pathname: string,
    service: Option<string>,         // `u.query.service`; None when absent
    contentType: Option<string>,     // `req.headers['content-type']`
    requestHeaders: Option<string>)  // `req.headers['access-control-request-headers']`

  const InfoRefsSuffix: string := "/info/refs"
  const UploadPackSuffix: string := "git-upload-pack"
  const ReceivePackSuffix: string := "git-receive-pack"
  const UploadPackContentType: string := "application/x-git-upload-pack-request"
  const ReceivePackContentType: string := "application/x-git-receive-pack-request"

  predicate AdvertisedService(service: Option<string>) {
    service == Some("git-upload-pack") || service == Some("git-receive-pack")
  }

  /** The advertisement preflight. It shadows neither POST preflight: a
      path ending in "/info/refs" ends in no pack service's name. */
  predicate PreflightInfoRefs(r: Request)
    ensures PreflightInfoRefs(r) ==> PreflightPull(r) != Some(true) && PreflightPush(r) != Some(true)
  {
    InfoRefsSuffixExclusive(r.pathname);
    r.verb == "OPTIONS" && EndsWith(r.pathname, InfoRefsSuffix) && AdvertisedService(r.service)
  }

  /** The advertisement itself, a GET, which none of the POST tests accepts */
  predicate InfoRefs(r: Request)
    ensures InfoRefs(r) ==> !Pull(r) && !Push(r) && !PreflightInfoRefs(r)
  {
    r.verb == "GET" && EndsWith(r.pathname, InfoRefsSuffix) && AdvertisedService(r.service)
  }

  /** The CORS preflight tests for the two POST operations. On an OPTIONS
      request without an access-control-request-headers header the source
      calls `.includes` on `undefined`, which throws: the result is then None. */
  function PreflightFor(r: Request, suffix: string): (b: Option<bool>)
    ensures b == None <==> r.verb == "OPTIONS" && r.requestHeaders == None
    ensures b == Some(true) ==> r.verb == "OPTIONS" && EndsWith(r.pathname, suffix)
  {
    if r.verb != "OPTIONS" then Some(false)
    else match r.requestHeaders
      case None => None
      case Some(h) => Some(Includes(h, "content-type") && EndsWith(r.pathname, suffix))
  }

  /** The fetch preflight. When it holds, the push preflight cannot: the
      two service names differ near the end of the path. */
  function PreflightPull(r: Request): (b: Option<bool>)
    ensures b == None <==> r.verb == "OPTIONS" && r.requestHeaders == None
    ensures b == Some(true) ==> PreflightPush(r) == Some(false)
  {
    PackSuffixesExclusive(r.pathname);
    PreflightFor(r, UploadPackSuffix)
  }

  /** The push preflight */
  function PreflightPush(r: Request): (b: Option<bool>)
    ensures b == None <==> r.verb == "OPTIONS" && r.requestHeaders == None
    ensures b == Some(true) ==> r.verb == "OPTIONS" && EndsWith(r.pathname, ReceivePackSuffix)
  {
    PreflightFor(r, ReceivePackSuffix)
  }

  /** A fetch. It is never also a push: the two content types differ. */
  predicate Pull(r: Request)
    ensures Pull(r) ==> !Push(r)
  {
    assert UploadPackContentType[18] != ReceivePackContentType[18];
    r.verb == "POST" && r.contentType == Some(UploadPackContentType) && EndsWith(r.pathname, UploadPackSuffix)
  }

  predicate Push(r: Request) {
    r.verb == "POST" && r.contentType == Some(ReceivePackContentType) && EndsWith(r.pathname, ReceivePackSuffix)
  }

  /** The k-th character from the end of a string is that of any suffix it ends with. */
  lemma {:induction false} FromTheEnd(p: string, suffix: string, k: nat)
    requires EndsWith(p, suffix) && 0 < k <= |suffix|
    ensures p[|p| - k] == suffix[|suffix| - k]
  {
    assert p[|p| - |suffix|..][|suffix| - k] == p[|p| - k];
  }

  /** No pathname ends with both "git-upload-pack" and "git-receive-pack":
      the sixth character from the end is 'd' in one and 'e' in the other. */
  lemma {:induction false} PackSuffixesExclusive(p: string)
    ensures !(EndsWith(p, UploadPackSuffix) && EndsWith(p, ReceivePackSuffix))
  {
    if EndsWith(p, UploadPackSuffix) {
      FromTheEnd(p, UploadPackSuffix, 6);
    }
    if EndsWith(p, ReceivePackSuffix) {
      FromTheEnd(p, ReceivePackSuffix, 6);
    }
  }

  /** A pathname ending in "/info/refs" ends in 's', never in a pack service's 'k'. */
  lemma {:induction false} InfoRefsSuffixExclusive(p: string)
    ensures EndsWith(p, InfoRefsSuffix) ==> !EndsWith(p, UploadPackSuffix) && !EndsWith(p, ReceivePackSuffix)
  {
    if EndsWith(p, InfoRefsSuffix) {
      FromTheEnd(p, InfoRefsSuffix, 1);
    }
    if EndsWith(p, UploadPackSuffix) {
      FromTheEnd(p, UploadPackSuffix, 1);
    }
    if EndsWith(p, ReceivePackSuffix) {
      FromTheEnd(p, ReceivePackSuffix, 1);
    }
  }

  datatype Kind = PreflightInfoRefsKind | PreflightPullKind | PreflightPushKind | InfoRefsKind | PullKind | PushKind

  /** The kinds whose predicate holds of `r`, in the server's dispatch order */
  function Matches(r: Request): seq<Kind> {
    (if PreflightInfoRefs(r) then [PreflightInfoRefsKind] else [])
    + (if PreflightPull(r) == Some(true) then [PreflightPullKind] else [])
    + (if PreflightPush(r) == Some(true) then [PreflightPushKind] else [])
    + (if InfoRefs(r) then [InfoRefsKind] else [])
    + (if Pull(r) then [PullKind] else [])
    + (if Push(r) then [PushKind] else [])
  }

  /** The six predicates are mutually exclusive: a request is at most one
      smart-HTTP operation. The preflights need OPTIONS, the others GET or
      POST; the info/refs pair differ in method; pull and push differ in
      content type; the two POST preflights differ in the pathname suffix. */
  lemma AtMostOneKind(r: Request)
    ensures |Matches(r)| <= 1
  {
    PackSuffixesExclusive(r.pathname);
    InfoRefsSuffixExclusive(r.pathname);
    assert "OPTIONS" != "GET" && "OPTIONS" != "POST" && "GET" != "POST";
    assert UploadPackContentType != ReceivePackContentType by {
      assert UploadPackContentType[18] != ReceivePackContentType[18];
    }
  }
}
