/** vcl_client/cli.py: the control flow of the request, connect, delete,
    extend and config commands. Each command runs its steps in order and stops
    early on a flag, a declined confirmation or an error. Steps whose code is
    not part of this model (api.request, api.delete, api.extend, cfg.vcl_conf)
    are inputs given by their outcome; the others are computed by the model's
    own functions and methods. */
module Cli {
  import opened Base
  import Api
  import Cfg
  import Utils
  import AutoConnect

  const STARTING := "Request is starting now.\n"
  const CONFIG_DONE := "Credentials and endpoint validated and recorded."

  /** The steps a command takes, in the order it takes them. */
  datatype Step =
    | ResolveImage                              // utils.get_image_id
    | Submit(image: Option<Utils.ImageRef>)     // api.request
    | PollStatus(requestId: string)             // utils.check_request_status
    | PrintDetails(requestId: string)           // print_connection_details
    | AutoConnectCall(requestId: string)        // auto_connect.auto_connect
    | ChooseActive                              // utils.choose_active_request
    | ConfirmDelete(requestId: string)          // click.confirm
    | DeleteCall(requestId: string)             // api.delete
    | ExtendCall(requestId: string, time: string) // api.extend
    | StoreSettings                             // cfg.vcl_conf
    | Validate                                  // utils.validate_credentials

  /** `except RuntimeError as error: utils.handle_error(error.message)`. */
  function CatchRuntime(events: seq<Event>, o: Outcome<()>): (r: Run<()>)
    ensures o.Raised? && o.exc.RuntimeError? ==>
              r == Run(events + [ErrLine("ERROR: " + o.exc.msg)], Raised(SystemExit(1)))
    ensures !(o.Raised? && o.exc.RuntimeError?) ==> r == Run(events, o)
  {
    if o.Raised? && o.exc.RuntimeError? then After(events, HandleError(o.exc.msg)) else Run(events, o)
  }

  /** request: resolve the image, submit, poll, then connect or print the
      details. `found` is api.images' filtered catalogue, `submitted` the
      outcome of api.request, `script` the status replies and `handler` the
      run of the connection handler auto_connect calls. */
  method RequestInstance(image: string, isNumber: bool, found: Run<seq<Image>>, imageAnswer: int,
                         submitted: Run<string>, noStatus: bool, noConnect: bool,
                         script: seq<Utils.StatusReply>, d: Utils.Details, methodAnswer: int, handler: Run<()>)
    returns (steps: seq<Step>, r: Run<()>)
    ensures var res := Utils.GetImageId(image, isNumber, found, imageAnswer);
            !res.outcome.Ok? ==> steps == [ResolveImage] && r == Run(res.events, Fail(res.outcome))
    ensures var res := Utils.GetImageId(image, isNumber, found, imageAnswer);
            res.outcome.Ok? && submitted.outcome.Raised? && submitted.outcome.exc.RuntimeError? ==>
              steps == [ResolveImage, Submit(res.outcome.value)] &&
              r == Run(res.events + submitted.events + [ErrLine("ERROR: " + submitted.outcome.exc.msg)], Raised(SystemExit(1)))
    ensures var res := Utils.GetImageId(image, isNumber, found, imageAnswer);
            res.outcome.Ok? && submitted.outcome.Ok? && noStatus ==>
              steps == [ResolveImage, Submit(res.outcome.value)] &&
              r == Run(res.events + submitted.events + [Echo(STARTING)], Ok(()))
    ensures var res := Utils.GetImageId(image, isNumber, found, imageAnswer);
            res.outcome.Ok? && submitted.outcome.Ok? && !noStatus ==>
              var id := submitted.outcome.value;
              var poll := Utils.Poll(id, script, 0).run;
              var head := res.events + submitted.events + [Echo(STARTING)] + poll.events;
              |steps| >= 3 && steps[..3] == [ResolveImage, Submit(res.outcome.value), PollStatus(id)] &&
              (!poll.outcome.Ok? ==> |steps| == 3 && r == Run(head, Fail(poll.outcome))) &&
              (poll.outcome.Ok? && noConnect ==>
                 steps == [ResolveImage, Submit(res.outcome.value), PollStatus(id), PrintDetails(id)] &&
                 r == Run(head + Utils.PrintConnectionDetails(d), Ok(()))) &&
              (poll.outcome.Ok? && !noConnect ==>
                 var c := AutoConnect.AutoConnect(id, d, methodAnswer, handler).run;
                 steps == [ResolveImage, Submit(res.outcome.value), PollStatus(id), AutoConnectCall(id)] &&
                 r == CatchRuntime(head + c.events, c.outcome))
    ensures !isNumber && found.outcome.Raised? && found.outcome.exc.ValueError? ==> |steps| >= 2 && steps[1] == Submit(None)
    ensures forall id :: AutoConnectCall(id) in steps ==> !noStatus && !noConnect
  {
    var res := Utils.GetImageId(image, isNumber, found, imageAnswer);
    steps := [ResolveImage];
    if !res.outcome.Ok? {
      return steps, Run(res.events, Fail(res.outcome));
    }
    steps := steps + [Submit(res.outcome.value)];
    var events := res.events + submitted.events;
    if !submitted.outcome.Ok? {
      if submitted.outcome.Raised? && submitted.outcome.exc.RuntimeError? {
        return steps, After(events, HandleError(submitted.outcome.exc.msg));
      }
      return steps, Run(events, Fail(submitted.outcome));
    }
    var id := submitted.outcome.value;
    events := events + [Echo(STARTING)];
    if noStatus {
      return steps, Run(events, Ok(()));
    }
    steps := steps + [PollStatus(id)];
    var polled, _, _ := Utils.CheckRequestStatus(id, script);
    events := events + polled.events;
    if !polled.outcome.Ok? {
      return steps, Run(events, Fail(polled.outcome));
    }
    if noConnect {
      steps := steps + [PrintDetails(id)];
      return steps, Run(events + Utils.PrintConnectionDetails(d), Ok(()));
    }
    steps := steps + [AutoConnectCall(id)];
    var c := AutoConnect.AutoConnect(id, d, methodAnswer, handler).run;
    r := CatchRuntime(events + c.events, c.outcome);
  }

  /** The request id given by --request-id, or chosen among the active
      requests when it is missing or empty. */
  method RequestIdOrChoose(requestId: Option<string>, chosen: Run<string>)
    returns (steps: seq<Step>, r: Run<string>)
    ensures !Falsy(requestId) ==> steps == [] && r == Run([], Ok(requestId.value))
    ensures Falsy(requestId) ==> steps == [ChooseActive] && r == chosen
  {
    if !Falsy(requestId) {
      return [], Run([], Ok(requestId.value));
    }
    return [ChooseActive], chosen;
  }

  /** connect: choose a request if none is given; --details only prints the
      connection details. `chosen` is choose_active_request's run. */
  method Connect(requestId: Option<string>, details: bool, chosen: Run<string>,
                 d: Utils.Details, methodAnswer: int, handler: Run<()>)
    returns (steps: seq<Step>, r: Run<()>)
    ensures Falsy(requestId) ==> |steps| >= 1 && steps[0] == ChooseActive
    ensures Falsy(requestId) && !chosen.outcome.Ok? ==> steps == [ChooseActive] && r == Run(chosen.events, Fail(chosen.outcome))
    ensures var id := if Falsy(requestId) then chosen.outcome else Ok(requestId.value);
            var pre := if Falsy(requestId) then chosen.events else [];
            var first := if Falsy(requestId) then [ChooseActive] else [];
            id.Ok? ==>
              (details ==> steps == first + [PrintDetails(id.value)] && r == Run(pre + Utils.PrintConnectionDetails(d), Ok(()))) &&
              (!details ==>
                 var c := AutoConnect.AutoConnect(id.value, d, methodAnswer, handler).run;
                 steps == first + [AutoConnectCall(id.value)] && r == CatchRuntime(pre + c.events, c.outcome))
  {
    var got;
    steps, got := RequestIdOrChoose(requestId, chosen);
    if !got.outcome.Ok? {
      return steps, Run(got.events, Fail(got.outcome));
    }
    var id := got.outcome.value;
    if details {
      return steps + [PrintDetails(id)], Run(got.events + Utils.PrintConnectionDetails(d), Ok(()));
    }
    var c := AutoConnect.AutoConnect(id, d, methodAnswer, handler).run;
    steps := steps + [AutoConnectCall(id)];
    r := CatchRuntime(got.events + c.events, c.outcome);
  }

  /** images: the catalogue (cached or fetched) printed under the 'image'
      headings. */
  method Images(cfg: Cfg.Config, term: Option<string>, refresh: bool, reply: Api.Response<seq<Image>>)
    returns (r: Run<()>)
    modifies cfg`imageCache
    ensures var spec := Api.ImagesSpec(old(cfg.imageCache), term, refresh,
                                       Api.CallApi(Api.Credentials(old(cfg.username), old(cfg.password)), Api.IMAGES_ENDPOINT, reply));
            cfg.imageCache == spec.cache &&
            (spec.run.outcome.Ok? ==>
               r == Run(spec.run.events + [Table(["ID", "Name"], Utils.ImageRows(spec.run.outcome.value))], Ok(()))) &&
            (!spec.run.outcome.Ok? ==> r == Run(spec.run.events, Fail(spec.run.outcome)))
  {
    var shown := Api.Images(cfg, term, refresh, reply);
    if !shown.outcome.Ok? {
      return Run(shown.events, Fail(shown.outcome));
    }
    var table := Utils.CliPrintTable(Utils.ImageRows(shown.outcome.value), "image");
    r := Run(shown.events + table.events, table.outcome);
  }

  /** list: api.request_list's rows under the six 'request' headings, or 'No
      requests found.' when the server lists nothing. */
  function ListRequests(c: Api.Credentials, reply: Api.Response<seq<Api.RequestInfo>>): (r: Run<()>)
    ensures var call := Api.CallApi(c, Api.REQUEST_LIST_ENDPOINT, reply);
            r.outcome.Ok? <==> call.outcome.Ok?
    ensures var call := Api.CallApi(c, Api.REQUEST_LIST_ENDPOINT, reply);
            call.outcome == Ok([]) ==> r == Run(call.events + [Echo(Api.NO_REQUESTS)], Ok(()))
    ensures var call := Api.CallApi(c, Api.REQUEST_LIST_ENDPOINT, reply);
            call.outcome.Ok? && call.outcome.value != [] ==>
              r == Run(call.events + [Table(Utils.HEADERS["request"], Api.ProjectRequests(call.outcome.value))], Ok(()))
  {
    var listed := Api.RequestList(c, reply);
    match listed.outcome
    case Ok(rows) =>
      if rows.None? then Run(listed.events + [Echo(Api.NO_REQUESTS)], Ok(()))
      else
        var table := Utils.CliPrintTable(rows.value, "request");
        Run(listed.events + table.events, table.outcome)
    case Raised(e) => Run(listed.events, Raised(e))
    case Polling => Run(listed.events, Polling)
  }

  function DeleteQuestion(requestId: string): string {
    "Are you sure you want to delete request " + requestId + "?"
  }

  /** delete: api.delete runs only after the confirmation; declining ends the
      command quietly. `deleted` is api.delete's outcome. */
  method Delete(requestId: Option<string>, chosen: Run<string>, confirmed: bool, deleted: Outcome<()>)
    returns (steps: seq<Step>, r: Run<()>)
    ensures Falsy(requestId) && !chosen.outcome.Ok? ==> steps == [ChooseActive] && r == Run(chosen.events, Fail(chosen.outcome))
    ensures var id := if Falsy(requestId) then chosen.outcome else Ok(requestId.value);
            id.Ok? ==>
              var pre := (if Falsy(requestId) then chosen.events else []) + [Confirm(DeleteQuestion(id.value))];
              var first := (if Falsy(requestId) then [ChooseActive] else []) + [ConfirmDelete(id.value)];
              (!confirmed ==> steps == first && r == Run(pre, Ok(()))) &&
              (confirmed ==>
                 steps == first + [DeleteCall(id.value)] &&
                 (deleted.Ok? ==> r == Run(pre + [Echo("Request " + id.value + " deleted successfully.")], Ok(()))) &&
                 (!deleted.Ok? ==> r == CatchRuntime(pre, deleted)))
    ensures forall id :: DeleteCall(id) in steps ==> confirmed
  {
    var got;
    steps, got := RequestIdOrChoose(requestId, chosen);
    if !got.outcome.Ok? {
      return steps, Run(got.events, Fail(got.outcome));
    }
    var id := got.outcome.value;
    steps := steps + [ConfirmDelete(id)];
    var events := got.events + [Confirm(DeleteQuestion(id))];
    if !confirmed {
      return steps, Run(events, Ok(()));
    }
    steps := steps + [DeleteCall(id)];
    if deleted.Ok? {
      r := Run(events + [Echo("Request " + id + " deleted successfully.")], Ok(()));
    } else {
      r := CatchRuntime(events, deleted);
    }
  }

  /** extend: api.extend with the given time; `extended` is its outcome. */
  method Extend(extendTime: string, requestId: Option<string>, chosen: Run<string>, extended: Outcome<()>)
    returns (steps: seq<Step>, r: Run<()>)
    ensures Falsy(requestId) && !chosen.outcome.Ok? ==> steps == [ChooseActive] && r == Run(chosen.events, Fail(chosen.outcome))
    ensures var id := if Falsy(requestId) then chosen.outcome else Ok(requestId.value);
            var pre := if Falsy(requestId) then chosen.events else [];
            var first := if Falsy(requestId) then [ChooseActive] else [];
            id.Ok? ==>
              steps == first + [ExtendCall(id.value, extendTime)] &&
              (extended.Ok? ==> r == Run(pre + [Echo("Request " + id.value + " extended successfully.")], Ok(()))) &&
              (!extended.Ok? ==> r == CatchRuntime(pre, extended))
  {
    var got;
    steps, got := RequestIdOrChoose(requestId, chosen);
    if !got.outcome.Ok? {
      return steps, Run(got.events, Fail(got.outcome));
    }
    var id := got.outcome.value;
    steps := steps + [ExtendCall(id, extendTime)];
    if extended.Ok? {
      r := Run(got.events + [Echo("Request " + id + " extended successfully.")], Ok(()));
    } else {
      r := CatchRuntime(got.events, extended);
    }
  }

  /** config: store the settings, then validate the stored credentials; a
      ValueError from either exits 1. `stored` is cfg.vcl_conf's outcome and
      `reply` the server's answer to the test call. */
  method Config(username: string, password: string, stored: Outcome<()>, reply: Api.Response<Api.StatusBody>)
    returns (steps: seq<Step>, r: Run<()>)
    ensures stored.Raised? && stored.exc.ValueError? ==>
              steps == [StoreSettings] && r == Run([ErrLine("ERROR: " + stored.exc.msg)], Raised(SystemExit(1)))
    ensures stored.Ok? ==>
              var v := Utils.ValidateCredentials(Api.Credentials(Some(username), Some(password)), reply);
              steps == [StoreSettings, Validate] &&
              (v.outcome.Ok? ==> r == Run(v.events + [Echo(CONFIG_DONE)], Ok(()))) &&
              (v.outcome.Raised? ==> r == Run(v.events + [ErrLine("ERROR: " + v.outcome.exc.msg)], Raised(SystemExit(1))))
    ensures r.outcome.Ok? ==> |r.events| > 0 && r.events[|r.events| - 1] == Echo(CONFIG_DONE)
  {
    steps := [StoreSettings];
    if !stored.Ok? {
      if stored.Raised? && stored.exc.ValueError? {
        return steps, HandleError(stored.exc.msg);
      }
      return steps, Run([], stored);
    }
    steps := steps + [Validate];
    var v := Utils.ValidateCredentials(Api.Credentials(Some(username), Some(password)), reply);
    if v.outcome.Raised? {
      return steps, After(v.events, HandleError(v.outcome.exc.msg));
    }
    r := Run(v.events + [Echo(CONFIG_DONE)], v.outcome);
  }

  /** config with an empty password: the call is stopped by the credential
      check, and the bare `except:` turns that exit into a ValueError. */
  lemma ConfigEmptyPassword(username: string, reply: Api.Response<Api.StatusBody>)
    ensures Utils.ValidateCredentials(Api.Credentials(Some(username), Some("")), reply).outcome ==
            Raised(ValueError(Api.ENDPOINT_INVALID))
  {
  }
}
