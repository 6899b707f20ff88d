/** vcl_client/request.py: the older RPC helper module used by vcl.py. It
    sends the same headers as api.py but does no credential check of its own. */
module Request {
  import opened Base
  import Api
  import Cfg

  /** call_api without a credential check: the request is always sent. */
  function CallApi<T>(c: Api.Credentials, endpoint: string, reply: Api.Response<T>): (r: Run<T>)
    ensures r.events == [Post(endpoint, Api.MakeHeaders(c))]
    ensures r.outcome == Api.Received(reply)
  {
    Api.Send(c, endpoint, reply)
  }

  /** Unlike api.call_api, missing credentials do not stop the call: the request
      goes out with whatever the store holds. */
  lemma UngatedCall<T>(c: Api.Credentials, endpoint: string, reply: Api.Response<T>)
    requires Falsy(c.username) || Falsy(c.password)
    ensures CallApi(c, endpoint, reply).events == [Post(endpoint, Api.MakeHeaders(c))]
    ensures Api.CallApi(c, endpoint, reply).events == [Echo(Api.CREDENTIALS_MISSING)]
  {
  }

  /** boot: submit the reservation tuple; a status other than 'success' is a
      RuntimeError naming it. */
  function Boot(c: Api.Credentials, reply: Api.Response<Api.StatusBody>): (r: Run<()>)
    ensures r.events == [Post(Api.REQUEST_ENDPOINT, Api.MakeHeaders(c))]
    ensures reply.Reply? ==> (r.outcome.Ok? <==> reply.body.status == "success")
    ensures r.outcome.Raised? && r.outcome.exc.RuntimeError? ==>
              reply.Reply? && Contains(r.outcome.exc.msg, reply.body.status)
  {
    Api.Checked(CallApi(c, Api.REQUEST_ENDPOINT, reply), Api.SubmissionStatus)
  }

  /** images: the same cache rule and filter as api.images, fetched without a
      credential check. */
  method Images(cfg: Cfg.Config, term: Option<string>, refresh: bool, reply: Api.Response<seq<Image>>)
    returns (r: Run<seq<Image>>)
    modifies cfg`imageCache
    ensures Api.Cached(r, cfg.imageCache) ==
            Api.ImagesSpec(old(cfg.imageCache), term, refresh,
                           CallApi(Api.Credentials(cfg.username, cfg.password), Api.IMAGES_ENDPOINT, reply))
  {
    r := Api.LoadImages(cfg, term, refresh, CallApi(Api.Credentials(cfg.username, cfg.password), Api.IMAGES_ENDPOINT, reply));
  }

  /** request_list: the server's 'requests' value, unmodified. */
  function RequestList(c: Api.Credentials, reply: Api.Response<seq<Api.RequestInfo>>): (r: Run<seq<Api.RequestInfo>>)
    ensures r.events == [Post(Api.REQUEST_LIST_ENDPOINT, Api.MakeHeaders(c))]
    ensures reply.Reply? ==> r.outcome == Ok(reply.body)
    ensures !reply.Reply? ==> r.outcome.Raised?
  {
    CallApi(c, Api.REQUEST_LIST_ENDPOINT, reply)
  }

  /** validate_credentials: 'success' passes; a non-success status or a fault
      is 'Endpoint did not accept credentials.'; any other failure (the
      transport) is 'Credentials or endpoint invalid.'. */
  function ValidateCredentials(c: Api.Credentials, reply: Api.Response<Api.StatusBody>): (r: Run<()>)
    ensures r.events == [Post(Api.TEST_ENDPOINT, Api.MakeHeaders(c))]
    ensures r.outcome.Ok? <==> reply.Reply? && reply.body.status == "success"
    ensures (reply.Reply? && reply.body.status != "success") || reply.Fault? ==>
              r.outcome == Raised(ValueError(Api.ENDPOINT_REJECTED))
    ensures reply.Unreachable? ==> r.outcome == Raised(ValueError(Api.ENDPOINT_INVALID))
  {
    var call := Api.Checked(CallApi(c, Api.TEST_ENDPOINT, reply), Api.TestStatus);
    Run(call.events, Api.CredentialVerdict(call.outcome))
  }
}
