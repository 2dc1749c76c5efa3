/**
 * Session endpoints (SessionController): the client-profile checks of
 * addSession and updateClientProfile, and getURL, which derives the address
 * the client reached the server at, honouring reverse-proxy headers.
 */
module Session {
  import opened Wrappers
  import opened Text

  // ----- Requests and getURL -----

  /**
   * The parts of an HTTP request getURL reads: the header names (none when
   * the container withholds them), each name's value, and the request URL.
   */
  datatype Request = Request(headerNames: Option<seq<string>>, header: string -> Option<string>, requestURL: string)

  const ForwardedHost: string := "X-Forwarded-Host"
  const ForwardedProto: string := "X-Forwarded-Proto"
  const SessionMarker: string := "/session"

  /** The position of the last name that equals `target` ignoring case, or -1. */
  function LastMatch(names: seq<string>, target: string): (r: int)
    ensures -1 <= r < |names|
    ensures r >= 0 ==> EqualsIgnoreCase(names[r], target)
    ensures forall j :: r < j < |names| ==> !EqualsIgnoreCase(names[j], target)
    decreases |names|
  {
    if names == [] then -1
    else if EqualsIgnoreCase(names[|names| - 1], target) then |names| - 1
    else
      var r := LastMatch(names[..|names| - 1], target);
      assert forall j :: r < j < |names| - 1 ==> names[j] == names[..|names| - 1][j];
      r
  }

  /** The value getURL keeps for `target`: the one read at the last matching name, or none. */
  function LastHeader(names: seq<string>, header: string -> Option<string>, target: string): Option<string>
  {
    var k := LastMatch(names, target);
    if k == -1 then None else header(names[k])
  }

  /** A character Java's regular-expression '.' does not match. */
  predicate LineTerminator(c: char)
  {
    c == '\n' || c == '\r' || c == '\U{0085}' || c == '\U{2028}' || c == '\U{2029}'
  }

  /** The end of the run of non-terminator characters starting at `from`. */
  function LineEnd(s: string, from: nat): (r: nat)
    requires from <= |s|
    ensures from <= r <= |s|
    ensures forall k :: from <= k < r ==> !LineTerminator(s[k])
    ensures r < |s| ==> LineTerminator(s[r])
    decreases |s| - from
  {
    if from == |s| || LineTerminator(s[from]) then from else LineEnd(s, from + 1)
  }

  /** replaceFirst("/session(.*)", ""): cut from the first "/session" to the end of its line. */
  function StripSession(url: string): (r: string)
    ensures |r| <= |url|
    ensures !Contains(url, SessionMarker) ==> r == url
  {
    var i := IndexOf(url, SessionMarker);
    if i == -1 then url else url[..i] + url[LineEnd(url, i + |SessionMarker|)..]
  }

  /** The address getURL reports for a request, or none for a missing request. */
  function RequestAddress(request: Option<Request>): (r: Option<string>)
    ensures r.None? <==> request.None?
  {
    if request.None? then None
    else
      var req := request.value;
      if req.headerNames.Some? &&
         LastHeader(req.headerNames.value, req.header, ForwardedProto).Some? &&
         LastHeader(req.headerNames.value, req.header, ForwardedHost).Some?
      then
        Some(LastHeader(req.headerNames.value, req.header, ForwardedProto).value + "://" +
             LastHeader(req.headerNames.value, req.header, ForwardedHost).value)
      else Some(StripSession(req.requestURL))
  }

  /** getURL: scans every header name, the last matching one setting host or protocol. */
  method GetURL(request: Option<Request>) returns (r: Option<string>)
    ensures r == RequestAddress(request)
  {
    if request.None? {
      return None;
    }
    var req := request.value;
    if req.headerNames.Some? {
      var names := req.headerNames.value;
      var protocol: Option<string> := None;
      var host: Option<string> := None;
      var i := 0;
      while i < |names|
        invariant 0 <= i <= |names|
        invariant host == LastHeader(names[..i], req.header, ForwardedHost)
        invariant protocol == LastHeader(names[..i], req.header, ForwardedProto)
      {
        assert names[..i + 1][..i] == names[..i];
        var name := names[i];
        if EqualsIgnoreCase(name, ForwardedHost) {
          host := req.header(name);
        }
        if EqualsIgnoreCase(name, ForwardedProto) {
          protocol := req.header(name);
        }
        i := i + 1;
      }
      assert names[..i] == names;
      if protocol.Some? && host.Some? {
        return Some(protocol.value + "://" + host.value);
      }
    }
    return Some(StripSession(req.requestURL));
  }

  /** Both forwarding headers present: the URL is built from them and the request URL is ignored. */
  lemma ProxiedAddress(req: Request, protocol: string, host: string)
    requires req.headerNames.Some?
    requires LastHeader(req.headerNames.value, req.header, ForwardedProto) == Some(protocol)
    requires LastHeader(req.headerNames.value, req.header, ForwardedHost) == Some(host)
    ensures RequestAddress(Some(req)) == Some(protocol + "://" + host)
    ensures forall url :: RequestAddress(Some(req.(requestURL := url))) == RequestAddress(Some(req))
  {
  }

  /** Without header names, or with either forwarding header missing, the request URL decides. */
  lemma DirectAddress(req: Request)
    requires || req.headerNames.None?
             || LastHeader(req.headerNames.value, req.header, ForwardedProto).None?
             || LastHeader(req.headerNames.value, req.header, ForwardedHost).None?
    ensures RequestAddress(Some(req)) == Some(StripSession(req.requestURL))
  {
  }

  /**
   * The cut starts at the first "/session" and runs to the first line
   * terminator after it (or the end); everything else is kept in order.
   */
  lemma StripSessionCut(url: string)
    requires Contains(url, SessionMarker)
    ensures var i := IndexOf(url, SessionMarker);
      var j := LineEnd(url, i + |SessionMarker|);
      && OccursAt(url, SessionMarker, i)
      && (forall k: nat :: k < i ==> !OccursAt(url, SessionMarker, k))
      && (forall k :: i + |SessionMarker| <= k < j ==> !LineTerminator(url[k]))
      && (j == |url| || LineTerminator(url[j]))
      && StripSession(url) == url[..i] + url[j..]
  {
  }

  /** On a single-line URL the result is the text before the first "/session", which no longer holds one. */
  lemma {:induction false} StripSessionSingleLine(url: string)
    requires forall k :: 0 <= k < |url| ==> !LineTerminator(url[k])
    ensures Contains(url, SessionMarker) ==> StripSession(url) == url[..IndexOf(url, SessionMarker)]
    ensures !Contains(StripSession(url), SessionMarker)
    ensures StripSession(StripSession(url)) == StripSession(url)
  {
    if Contains(url, SessionMarker) {
      var i := IndexOf(url, SessionMarker);
      assert LineEnd(url, i + |SessionMarker|) == |url|;
      var r := url[..i];
      assert StripSession(url) == r + url[|url|..] == r;
      forall k: nat | k <= |r| ensures !OccursAt(r, SessionMarker, k) {
        if k + |SessionMarker| <= |r| {
          assert k < i && !OccursAt(url, SessionMarker, k);
          assert r[k..k + |SessionMarker|] == url[k..k + |SessionMarker|];
        }
      }
    }
  }

  // ----- Client profiles -----

  /** The client-supplied playback profile of a session. */
  datatype ClientProfile = ClientProfile(
    client: Option<string>,
    format: Option<string>,
    codecs: Option<seq<string>>,
    formats: Option<seq<string>>,
    local: bool,
    url: Option<string>)

  /** The four fields both endpoints insist on. */
  predicate Complete(p: ClientProfile)
  {
    p.client.Some? && p.format.Some? && p.codecs.Some? && p.formats.Some?
  }

  datatype AddOutcome = ProfileInvalid | Accepted(profile: Option<ClientProfile>)

  /**
   * addSession's handling of the optional profile: an incomplete one is
   * refused; a complete one is stamped with the client's locality and URL;
   * no profile at all is passed on as none.
   */
  function AddSessionProfile(profile: Option<ClientProfile>, local: bool, request: Option<Request>): (r: AddOutcome)
    ensures r == ProfileInvalid <==> profile.Some? && !Complete(profile.value)
    ensures r.Accepted? ==> (r.profile.None? <==> profile.None?)
    ensures r.Accepted? && profile.Some? ==>
      && Complete(r.profile.value)
      && r.profile.value.local == local && r.profile.value.url == RequestAddress(request)
      && r.profile.value.(local := profile.value.local, url := profile.value.url) == profile.value
  {
    if profile.None? then Accepted(None)
    else if !Complete(profile.value) then ProfileInvalid
    else Accepted(Some(profile.value.(local := local, url := RequestAddress(request))))
  }

  /** updateClientProfile's check: the profile is required and must be complete. */
  predicate UpdateAccepts(profile: Option<ClientProfile>)
  {
    profile.Some? && Complete(profile.value)
  }

  /** The two endpoints agree on present profiles; only addSession accepts a missing one. */
  lemma ProfileChecksAgree(profile: Option<ClientProfile>, local: bool, request: Option<Request>)
    ensures profile.Some? ==> (UpdateAccepts(profile) <==> AddSessionProfile(profile, local, request).Accepted?)
    ensures profile.None? ==> !UpdateAccepts(profile) && AddSessionProfile(profile, local, request) == Accepted(None)
  {
  }
}
