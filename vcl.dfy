/** vcl_client/vcl.py: the older entry point built on request.py. Its request
    command resolves the image, builds the submission tuple and boots it; its
    list command projects the server's requests into a table. The credential
    check it starts with (utils.auth_check) is not part of this model and is
    an input given by its run. */
module Vcl {
  import opened Base
  import Api
  import Request
  import Utils

  const DEFAULT_START := "now"
  const DEFAULT_LENGTH := 480
  const DEFAULT_TIMEOUT := true
  const REQUEST_HEADERS := ["Image ID", "Name", "State", "OS Type", "OS"]
  const SUCCESS := "Success: Request is starting now."

  /** The tuple handed to request.boot: image, start, length and the
      inactivity flag. */
  datatype Submission = Submission(image: Utils.ImageRef, start: string, length: int, inactivity: int)

  /** `(image, start, length, 0 if timeout else 1)`: the flag is inverted, a
      timeout is requested with 0. */
  function Params(image: Utils.ImageRef, start: string, length: int, timeout: bool): (p: Submission)
    ensures p.image == image && p.start == start && p.length == length
    ensures p.inactivity == 0 <==> timeout
    ensures p.inactivity == 1 <==> !timeout
  {
    Submission(image, start, length, if timeout then 0 else 1)
  }

  /** With the option defaults the reservation starts now, lasts 480 minutes
      and times out on inactivity. */
  lemma DefaultSubmission(image: Utils.ImageRef)
    ensures Params(image, DEFAULT_START, DEFAULT_LENGTH, DEFAULT_TIMEOUT) == Submission(image, "now", 480, 0)
  {
  }

  /** request: check credentials, resolve the image (`found` is
      request.images' filtered catalogue), submit the tuple with boot. A boot
      RuntimeError is printed as 'ERROR: <msg>' and the command still ends
      normally. `sent` is the tuple submitted, if any. */
  method RequestInstance(authorized: Run<()>, c: Api.Credentials, image: string, isNumber: bool,
                         found: Run<seq<Image>>, answer: int, start: string, length: int, timeout: bool,
                         bootReply: Api.Response<Api.StatusBody>)
    returns (sent: Option<Submission>, r: Run<()>)
    ensures !authorized.outcome.Ok? ==> sent == None && r == Run(authorized.events, Fail(authorized.outcome))
    ensures authorized.outcome.Ok? ==>
              var res := Utils.GetImageId(image, isNumber, found, answer);
              var pre := authorized.events + res.events;
              (!res.outcome.Ok? ==> sent == None && r == Run(pre, Fail(res.outcome))) &&
              (res.outcome == Ok(None) ==> sent == None && r == Run(pre, Ok(()))) &&
              (res.outcome.Ok? && res.outcome.value.Some? ==>
                 var boot := Request.Boot(c, bootReply);
                 sent == Some(Params(res.outcome.value.value, start, length, timeout)) &&
                 (boot.outcome.Ok? ==> r == Run(pre + boot.events + [Echo(SUCCESS)], Ok(()))) &&
                 (boot.outcome.Raised? && boot.outcome.exc.RuntimeError? ==>
                    r == Run(pre + boot.events + [Echo("ERROR: " + boot.outcome.exc.msg)], Ok(()))) &&
                 (boot.outcome.Raised? && !boot.outcome.exc.RuntimeError? ==> r == Run(pre + boot.events, boot.outcome)))
    ensures authorized.outcome.Ok? && isNumber ==> sent == Some(Params(Utils.Arg(image), start, length, timeout))
    ensures authorized.outcome.Ok? && !isNumber && found.outcome.Ok? && |found.outcome.value| == 1 ==>
              sent == Some(Params(Utils.Listed(found.outcome.value[0].id), start, length, timeout))
    ensures authorized.outcome.Ok? && !isNumber && found.outcome.Raised? && found.outcome.exc.ValueError? ==>
              sent == None && r == Run(authorized.events + found.events + [Echo("Error: " + found.outcome.exc.msg)], Ok(()))
  {
    sent := None;
    if !authorized.outcome.Ok? {
      return None, Run(authorized.events, Fail(authorized.outcome));
    }
    var res := Utils.GetImageId(image, isNumber, found, answer);
    var events := authorized.events + res.events;
    if !res.outcome.Ok? {
      return None, Run(events, Fail(res.outcome));
    }
    if res.outcome.value.None? {
      return None, Run(events, Ok(()));
    }
    var params := Params(res.outcome.value.value, start, length, timeout);
    sent := Some(params);
    var boot := Request.Boot(c, bootReply);
    events := events + boot.events;
    if boot.outcome.Ok? {
      r := Run(events + [Echo(SUCCESS)], Ok(()));
    } else if boot.outcome.Raised? && boot.outcome.exc.RuntimeError? {
      r := Run(events + [Echo("ERROR: " + boot.outcome.exc.msg)], Ok(()));
    } else {
      r := Run(events, boot.outcome);
    }
  }

  /** list: check credentials, fetch the requests with request.request_list and
      print them as [imageid, imagename, state, ostype, OS] rows, or 'No
      requests found.' when there are none. */
  function ListRequests(authorized: Run<()>, c: Api.Credentials, reply: Api.Response<seq<Api.RequestInfo>>)
    : (r: Run<()>)
    ensures !authorized.outcome.Ok? ==> r == Run(authorized.events, Fail(authorized.outcome))
    ensures authorized.outcome.Ok? && reply == Api.Reply([]) ==>
              r == Run(authorized.events + [Post(Api.REQUEST_LIST_ENDPOINT, Api.MakeHeaders(c)), Echo(Api.NO_REQUESTS)], Ok(()))
    ensures authorized.outcome.Ok? && reply.Reply? && reply.body != [] ==>
              var rs := reply.body;
              exists rows :: r == Run(authorized.events + [Post(Api.REQUEST_LIST_ENDPOINT, Api.MakeHeaders(c)), Table(REQUEST_HEADERS, rows)], Ok(())) &&
                |rows| == |rs| &&
                forall i :: 0 <= i < |rs| ==> rows[i] == [rs[i].imageid, rs[i].imagename, rs[i].state, rs[i].ostype, rs[i].os]
    ensures authorized.outcome.Ok? && !reply.Reply? ==> r.outcome.Raised?
  {
    if !authorized.outcome.Ok? then Run(authorized.events, Fail(authorized.outcome))
    else
      var listed := Request.RequestList(c, reply);
      var events := authorized.events + listed.events;
      match listed.outcome
      case Ok(rs) =>
        if rs == [] then Run(events + [Echo(Api.NO_REQUESTS)], Ok(()))
        else Run(events + [Table(REQUEST_HEADERS, Api.ProjectRequests(rs))], Ok(()))
      case Raised(e) => Run(events, Raised(e))
      case Polling => Run(events, Polling)
  }
}
