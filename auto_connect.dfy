/** vcl_client/auto_connect.py: choose a connection method for a request and
    hand it to the SSH or the RDP handler. The handler's own run (its output
    and how it ended) is an input; Ssh.HandleSsh and Rdp.ProfileStore.HandleRdp
    compute it. */
module AutoConnect {
  import opened Base
  import Utils
  import Ssh
  import Rdp

  const RDP_METHOD := "Remote Desktop"

  /** The handler call auto_connect makes. The SSH handler gets the address and
      the user only: the request's password is not passed to it. */
  datatype HandlerCall =
    | SshHandler(ip: string, user: string)
    | RdpHandler(requestId: string, ip: string, user: string, password: Option<string>)

  /** Dispatch by the exact description string. */
  function Dispatch(requestId: string, d: Utils.Details, description: string): (call: Option<HandlerCall>)
    ensures description == Utils.SSH_METHOD ==> call == Some(SshHandler(d.ip, d.user))
    ensures description == RDP_METHOD ==> call == Some(RdpHandler(requestId, d.ip, d.user, d.password))
    ensures call.None? <==> description != Utils.SSH_METHOD && description != RDP_METHOD
  {
    if description == Utils.SSH_METHOD then Some(SshHandler(d.ip, d.user))
    else if description == RDP_METHOD then Some(RdpHandler(requestId, d.ip, d.user, d.password))
    else None
  }

  /** What auto_connect did: its run and the handler it called, if any. */
  datatype Connection = Connection(run: Run<()>, call: Option<HandlerCall>)

  /** A RuntimeError from a handler: the connection details, then
      'ERROR: <msg>' and exit 1. Anything else the handler ended with stands. */
  function AfterHandler(d: Utils.Details, events: seq<Event>, handler: Run<()>): (r: Run<()>)
    ensures handler.outcome.Raised? && handler.outcome.exc.RuntimeError? ==>
              r == Run(events + handler.events + Utils.PrintConnectionDetails(d) + [ErrLine("ERROR: " + handler.outcome.exc.msg)],
                       Raised(SystemExit(1)))
    ensures !(handler.outcome.Raised? && handler.outcome.exc.RuntimeError?) ==> r == Run(events + handler.events, handler.outcome)
  {
    var ran := events + handler.events;
    if handler.outcome.Raised? && handler.outcome.exc.RuntimeError? then
      After(ran + Utils.PrintConnectionDetails(d), HandleError(handler.outcome.exc.msg))
    else Run(ran, handler.outcome)
  }

  /** auto_connect: choose the method, announce it, dispatch it. `handler` is
      the run of whichever handler is called. */
  function AutoConnect(requestId: string, d: Utils.Details, answer: int, handler: Run<()>): (c: Connection)
    ensures var chosen := Utils.ChooseConnectMethod(d.methods, answer);
            !chosen.outcome.Ok? ==> c == Connection(Run(chosen.events, Raised(chosen.outcome.exc)), None)
    ensures var chosen := Utils.ChooseConnectMethod(d.methods, answer);
            chosen.outcome.Ok? ==>
              var head := chosen.events + [Echo(Utils.Connecting(d.ip, chosen.outcome.value))];
              c.call == Dispatch(requestId, d, chosen.outcome.value) &&
              (c.call.None? ==> c.run == Run(head, Raised(RuntimeError(Utils.Unsupported(chosen.outcome.value))))) &&
              (c.call.Some? ==> c.run == AfterHandler(d, head, handler))
  {
    var chosen := Utils.ChooseConnectMethod(d.methods, answer);
    if !chosen.outcome.Ok? then Connection(Run(chosen.events, Raised(chosen.outcome.exc)), None)
    else
      var description := chosen.outcome.value;
      var head := chosen.events + [Echo(Utils.Connecting(d.ip, description))];
      var call := Dispatch(requestId, d, description);
      if call.None? then Connection(Run(head, Raised(RuntimeError(Utils.Unsupported(description)))), None)
      else Connection(AfterHandler(d, head, handler), call)
  }

  /** A handler's RuntimeError is never swallowed: auto_connect ends with exit
      status 1, and the last lines before the error are the connection details. */
  lemma HandlerFailureExits(requestId: string, d: Utils.Details, answer: int, handler: Run<()>)
    requires handler.outcome.Raised? && handler.outcome.exc.RuntimeError?
    requires AutoConnect(requestId, d, answer, handler).call.Some?
    ensures var r := AutoConnect(requestId, d, answer, handler).run;
            ExitCode(r.outcome) == 1 && |r.events| >= 5 &&
            r.events[|r.events| - 5..|r.events| - 1] == Utils.PrintConnectionDetails(d) &&
            r.events[|r.events| - 1] == ErrLine("ERROR: " + handler.outcome.exc.msg)
  {
    var chosen := Utils.ChooseConnectMethod(d.methods, answer);
    var head := chosen.events + [Echo(Utils.Connecting(d.ip, chosen.outcome.value))];
    var details := Utils.PrintConnectionDetails(d);
    var err := [ErrLine("ERROR: " + handler.outcome.exc.msg)];
    var pre := head + handler.events;
    assert AutoConnect(requestId, d, answer, handler).run.events == pre + details + err;
    assert (pre + details + err)[|pre|..|pre| + 4] == details;
  }

  /** An unsupported method calls no handler. */
  lemma UnsupportedCallsNothing(requestId: string, d: Utils.Details, answer: int, handler: Run<()>)
    requires Utils.ChooseConnectMethod(d.methods, answer).outcome.Ok?
    requires var m := Utils.ChooseConnectMethod(d.methods, answer).outcome.value;
             m != Utils.SSH_METHOD && m != RDP_METHOD
    ensures AutoConnect(requestId, d, answer, handler).call.None?
    ensures AutoConnect(requestId, d, answer, handler).run.outcome ==
            Raised(RuntimeError(Utils.Unsupported(Utils.ChooseConnectMethod(d.methods, answer).outcome.value)))
  {
  }

  /** SSH chosen on Windows: handle_ssh refuses, so the details are printed and
      the command exits 1 with the refusal. */
  lemma SshOnWindows(requestId: string, d: Utils.Details, answer: int)
    requires Utils.ChooseConnectMethod(d.methods, answer).outcome == Ok(Utils.SSH_METHOD)
    ensures var c := AutoConnect(requestId, d, answer, Run([], Raised(RuntimeError(Ssh.WINDOWS_REFUSED))));
            c.call == Some(SshHandler(d.ip, d.user)) && c.run.outcome == Raised(SystemExit(1)) &&
            c.run.events[|c.run.events| - 1] == ErrLine("ERROR: " + Ssh.WINDOWS_REFUSED)
  {
  }

  /** Remote Desktop chosen off Linux: write_rdp_file's refusal is reported the
      same way, after the details. */
  lemma RdpOffLinux(requestId: string, d: Utils.Details, answer: int, hostOs: string)
    requires Utils.ChooseConnectMethod(d.methods, answer).outcome == Ok(RDP_METHOD) && hostOs != "Linux"
    ensures var c := AutoConnect(requestId, d, answer, Run([], Raised(RuntimeError(Rdp.Unsupported(hostOs)))));
            c.call == Some(RdpHandler(requestId, d.ip, d.user, d.password)) && c.run.outcome == Raised(SystemExit(1))
  {
  }
}
