/** vcl_client/api.py: the authenticated RPC calls to the VCL server and the
    checks and list transforms applied to their replies. Replies are taken as
    already decoded from XML-RPC. */
module Api {
  import opened Base
  import Cfg

  const REQUEST_ENDPOINT := "XMLRPCaddRequest"
  const IMAGES_ENDPOINT := "XMLRPCgetImages"
  const REQUEST_LIST_ENDPOINT := "XMLRPCgetRequestIds"
  const TEST_ENDPOINT := "XMLRPCtest"

  const CREDENTIALS_MISSING := "Credentials not found. Run `vcl config`."
  const NO_MATCHES := "No matches found for that filter."
  const ENDPOINT_REJECTED := "Endpoint did not accept credentials."
  const ENDPOINT_INVALID := "Credentials or endpoint invalid."
  /** What both list commands print when the server lists no request. */
  const NO_REQUESTS := "No requests found."

  /** The stored username and keyring password. */
  datatype Credentials = Credentials(username: Option<string>, password: Option<string>)

  /** The server's reply to one call: a decoded body, an XML-RPC fault, or a
      transport failure (urllib2) before any reply arrived. */
  datatype Response<+T> = Reply(body: T) | Fault | Unreachable

  /** `response[0][0]['status']` of a reply, with the whole reply as `%s` prints it. */
  datatype StatusBody = StatusBody(status: string, raw: string)

  /** One entry of the server's 'requests' list. */
  datatype RequestInfo = RequestInfo(requestid: string, imageid: string, imagename: string,
                                     state: string, ostype: string, os: string)

  /** auth_check: a missing or empty username or password prints a hint and exits 1. */
  function AuthCheck(c: Credentials): (r: Run<()>)
    ensures r.outcome.Ok? <==> !Falsy(c.username) && !Falsy(c.password)
    ensures r.outcome.Ok? ==> r.events == []
    ensures !r.outcome.Ok? ==> r.events == [Echo(CREDENTIALS_MISSING)] && r.outcome == Raised(SystemExit(1))
  {
    if Falsy(c.username) || Falsy(c.password) then Run([Echo(CREDENTIALS_MISSING)], Raised(SystemExit(1)))
    else Run([], Ok(()))
  }

  /** The headers of every call, built from the stored credentials. */
  function MakeHeaders(c: Credentials): (h: Headers)
    ensures h.user == c.username && h.pass == c.password
    ensures h.contentType == "text/xml" && h.apiVersion == "2"
  {
    Headers("text/xml", c.username, c.password, "2")
  }

  /** What the caller of call_api sees of a reply. */
  function Received<T>(reply: Response<T>): (o: Outcome<T>)
    ensures reply.Reply? <==> o.Ok?
    ensures reply.Reply? ==> o == Ok(reply.body)
    ensures reply.Fault? ==> o == Raised(RpcFault)
    ensures reply.Unreachable? ==> o == Raised(NetworkError)
  {
    match reply
    case Reply(b) => Ok(b)
    case Fault => Raised(RpcFault)
    case Unreachable => Raised(NetworkError)
  }

  /** Sending one request with the stored credentials' headers. */
  function Send<T>(c: Credentials, endpoint: string, reply: Response<T>): Run<T> {
    Run([Post(endpoint, MakeHeaders(c))], Received(reply))
  }

  /** call_api: the credential check comes first; without credentials no
      request is built or sent. */
  function CallApi<T>(c: Credentials, endpoint: string, reply: Response<T>): (r: Run<T>)
    ensures (Falsy(c.username) || Falsy(c.password)) ==>
              r == Run([Echo(CREDENTIALS_MISSING)], Raised(SystemExit(1)))
    ensures !(Falsy(c.username) || Falsy(c.password)) ==>
              r.events == [Post(endpoint, MakeHeaders(c))] && r.outcome == Received(reply)
    ensures forall e :: e in r.events && e.Post? ==> !Falsy(e.headers.user) && !Falsy(e.headers.pass)
  {
    var gate := AuthCheck(c);
    if gate.outcome.Ok? then Send(c, endpoint, reply) else Run(gate.events, Raised(SystemExit(1)))
  }

  /** The status check of request (and of request.boot): anything other than
      'success' is a RuntimeError naming the status. */
  function SubmissionStatus(body: StatusBody): (o: Outcome<()>)
    ensures o.Ok? <==> body.status == "success"
    ensures !o.Ok? ==> o.Raised? && o.exc.RuntimeError? && Contains(o.exc.msg, body.status)
  {
    if body.status != "success" then
      var msg := "Got unknown status: " + body.status + ". Full response: " + body.raw + ".";
      ContainsMiddle("Got unknown status: ", body.status, ". Full response: " + body.raw + ".");
      assert msg == "Got unknown status: " + body.status + (". Full response: " + body.raw + ".");
      Raised(RuntimeError(msg))
    else Ok(())
  }

  /** Apply a status check to the body of a delivered reply. */
  function Checked(call: Run<StatusBody>, check: StatusBody -> Outcome<()>): Run<()> {
    match call.outcome
    case Ok(body) => Run(call.events, check(body))
    case Raised(e) => Run(call.events, Raised(e))
    case Polling => Run(call.events, Polling)
  }

  /** request: submit a reservation and fail unless the server says 'success'. */
  function Request(c: Credentials, reply: Response<StatusBody>): (r: Run<()>)
    ensures reply.Reply? && !Falsy(c.username) && !Falsy(c.password) ==>
              (r.outcome.Ok? <==> reply.body.status == "success")
    ensures r.outcome.Raised? && r.outcome.exc.RuntimeError? ==>
              reply.Reply? && Contains(r.outcome.exc.msg, reply.body.status)
  {
    Checked(CallApi(c, REQUEST_ENDPOINT, reply), SubmissionStatus)
  }

  /** Does an image's name contain the filter term, ignoring case? */
  predicate NameMatches(image: Image, term: string) {
    Contains(Lower(image.name), Lower(term))
  }

  /** The images whose name matches the term, in catalogue order. */
  function Matching(images: seq<Image>, term: string): (r: seq<Image>)
    ensures |r| <= |images|
    ensures forall x :: x in r ==> x in images && NameMatches(x, term)
  {
    if images == [] then []
    else if NameMatches(images[0], term) then [images[0]] + Matching(images[1..], term)
    else Matching(images[1..], term)
  }

  /** Filtering a catalogue is filtering its parts: the order is kept. */
  lemma {:induction false} MatchingAppend(a: seq<Image>, b: seq<Image>, term: string)
    ensures Matching(a + b, term) == Matching(a, term) + Matching(b, term)
  {
    if a == [] {
      assert a + b == b;
    } else {
      assert (a + b)[1..] == a[1..] + b;
      MatchingAppend(a[1..], b, term);
    }
  }

  /** Every matching image is kept. */
  lemma {:induction false} MatchingComplete(images: seq<Image>, term: string, x: Image)
    requires x in images && NameMatches(x, term)
    ensures x in Matching(images, term)
  {
    if images[0] != x {
      MatchingComplete(images[1..], term, x);
    }
  }

  /** The filter ignores the case of the term. */
  lemma {:induction false} MatchingIgnoresTermCase(images: seq<Image>, term: string)
    ensures Matching(images, Lower(term)) == Matching(images, term)
  {
    LowerIdempotent(term);
    if images != [] {
      MatchingIgnoresTermCase(images[1..], term);
    }
  }

  /** The filter step of images: a falsy term keeps everything, otherwise the
      case-insensitive matches are kept and an empty result is an error. */
  function FilterImages(images: seq<Image>, term: Option<string>): (r: Outcome<seq<Image>>)
    ensures Falsy(term) ==> r == Ok(images)
    ensures !Falsy(term) ==> (r.Ok? <==> Matching(images, term.value) != [])
    ensures !Falsy(term) && r.Ok? ==> r.value == Matching(images, term.value)
    ensures !r.Ok? ==> r == Raised(ValueError(NO_MATCHES))
  {
    if Falsy(term) then Ok(images)
    else
      var kept := Matching(images, term.value);
      if kept == [] then Raised(ValueError(NO_MATCHES)) else Ok(kept)
  }

  /** The result of one images call together with the cache it leaves behind. */
  datatype Cached = Cached(run: Run<seq<Image>>, cache: Option<seq<Image>>)

  /** When does images go to the server? On refresh, or when nothing is cached. */
  predicate Fetches(cache: Option<seq<Image>>, refresh: bool) {
    refresh || cache.None?
  }

  /** Specification of images: `fetch` is what the server call would give. */
  function ImagesSpec(cache: Option<seq<Image>>, term: Option<string>, refresh: bool,
                      fetch: Run<seq<Image>>): (c: Cached)
    ensures Fetches(cache, refresh) ==> c.run.events == fetch.events
    ensures !Fetches(cache, refresh) ==> c.run.events == [] && c.cache == cache
    ensures Fetches(cache, refresh) && fetch.outcome.Ok? ==> c.cache == Some(fetch.outcome.value)
    ensures !fetch.outcome.Ok? ==> c.cache == cache
    ensures c.run.outcome.Ok? ==> c.cache.Some? && forall x :: x in c.run.outcome.value ==> x in c.cache.value
  {
    if Fetches(cache, refresh) then
      match fetch.outcome
      case Ok(all) => Cached(Run(fetch.events, FilterImages(all, term)), Some(all))
      case Raised(e) => Cached(Run(fetch.events, Raised(e)), cache)
      case Polling => Cached(Run(fetch.events, Polling), cache)
    else Cached(Run([], FilterImages(cache.value, term)), cache)
  }

  /** A list cached by a fetch is read back by the next call, with no server
      call, whatever the filter of the first call did. */
  lemma CacheReadBack(cache: Option<seq<Image>>, term1: Option<string>, refresh: bool,
                      all: seq<Image>, events: seq<Event>, term2: Option<string>, fetch2: Run<seq<Image>>)
    requires Fetches(cache, refresh)
    ensures var first := ImagesSpec(cache, term1, refresh, Run(events, Ok(all)));
            first.cache == Some(all) &&
            ImagesSpec(first.cache, term2, false, fetch2) == Cached(Run([], FilterImages(all, term2)), Some(all))
  {
  }

  /** The cache step of images, shared with request.images; `fetch` is that
      module's call_api for the catalogue. */
  method LoadImages(cfg: Cfg.Config, term: Option<string>, refresh: bool, fetch: Run<seq<Image>>)
    returns (r: Run<seq<Image>>)
    modifies cfg`imageCache
    ensures Cached(r, cfg.imageCache) == ImagesSpec(old(cfg.imageCache), term, refresh, fetch)
  {
    var all: seq<Image>;
    var events: seq<Event> := [];
    if refresh || cfg.imageCache.None? {
      events := fetch.events;
      if !fetch.outcome.Ok? {
        r := Run(events, if fetch.outcome.Raised? then Raised(fetch.outcome.exc) else Polling);
        return;
      }
      all := fetch.outcome.value;
      cfg.imageCache := Some(all);
    } else {
      all := cfg.imageCache.value;
    }
    r := Run(events, FilterImages(all, term));
  }

  /** images: the catalogue from the cache or, through call_api, from the server. */
  method Images(cfg: Cfg.Config, term: Option<string>, refresh: bool, reply: Response<seq<Image>>)
    returns (r: Run<seq<Image>>)
    modifies cfg`imageCache
    ensures Cached(r, cfg.imageCache) ==
            ImagesSpec(old(cfg.imageCache), term, refresh,
                       CallApi(Credentials(cfg.username, cfg.password), IMAGES_ENDPOINT, reply))
  {
    r := LoadImages(cfg, term, refresh, CallApi(Credentials(cfg.username, cfg.password), IMAGES_ENDPOINT, reply));
  }

  /** One row of the request listing: [imageid, imagename, state, ostype, OS]. */
  function RequestRow(r: RequestInfo): seq<string> {
    [r.imageid, r.imagename, r.state, r.ostype, r.os]
  }

  function ProjectRequests(rs: seq<RequestInfo>): (rows: seq<seq<string>>)
    ensures |rows| == |rs|
    ensures forall i :: 0 <= i < |rs| ==> rows[i] == RequestRow(rs[i])
  {
    if rs == [] then [] else [RequestRow(rs[0])] + ProjectRequests(rs[1..])
  }

  /** request_list: the projected rows, or None when the server lists nothing. */
  function RequestList(c: Credentials, reply: Response<seq<RequestInfo>>): (r: Run<Option<seq<seq<string>>>>)
    ensures r.outcome.Ok? <==> CallApi(c, REQUEST_LIST_ENDPOINT, reply).outcome.Ok?
    ensures r.outcome == Ok(None) <==> CallApi(c, REQUEST_LIST_ENDPOINT, reply).outcome == Ok([])
    ensures r.outcome.Ok? && r.outcome.value.Some? ==>
              var rs := reply.body;
              |r.outcome.value.value| == |rs| > 0 &&
              forall i :: 0 <= i < |rs| ==> r.outcome.value.value[i] == [rs[i].imageid, rs[i].imagename, rs[i].state, rs[i].ostype, rs[i].os]
  {
    var call := CallApi(c, REQUEST_LIST_ENDPOINT, reply);
    match call.outcome
    case Ok(rs) => Run(call.events, Ok(if rs != [] then Some(ProjectRequests(rs)) else None))
    case Raised(e) => Run(call.events, Raised(e))
    case Polling => Run(call.events, Polling)
  }

  /** The status check of test_call: a bare ValueError unless 'success'. */
  function TestStatus(body: StatusBody): (o: Outcome<()>)
    ensures o.Ok? <==> body.status == "success"
    ensures !o.Ok? ==> o == Raised(ValueError(""))
  {
    if body.status != "success" then Raised(ValueError("")) else Ok(())
  }

  /** test_call: call the test endpoint, a ValueError unless 'success'. */
  function TestCall(c: Credentials, reply: Response<StatusBody>): (r: Run<()>)
    ensures reply.Reply? && !Falsy(c.username) && !Falsy(c.password) ==>
              r.outcome == (if reply.body.status == "success" then Ok(()) else Raised(ValueError("")))
  {
    Checked(CallApi(c, TEST_ENDPOINT, reply), TestStatus)
  }

  /** The error mapping of validate_credentials: a fault or a ValueError means the
      endpoint refused the credentials; every other exception, sys.exit included
      (a bare `except:` catches it), means credentials or endpoint are invalid. */
  function CredentialVerdict(o: Outcome<()>): (v: Outcome<()>)
    ensures o.Ok? <==> v.Ok?
    ensures o.Raised? && (o.exc == RpcFault || o.exc.ValueError?) ==> v == Raised(ValueError(ENDPOINT_REJECTED))
    ensures o.Raised? && !(o.exc == RpcFault || o.exc.ValueError?) ==> v == Raised(ValueError(ENDPOINT_INVALID))
    ensures v.Raised? ==> v.exc.ValueError?
  {
    match o
    case Ok(_) => Ok(())
    case Raised(e) => if e == RpcFault || e.ValueError? then Raised(ValueError(ENDPOINT_REJECTED))
                      else Raised(ValueError(ENDPOINT_INVALID))
    case Polling => Polling
  }
}
