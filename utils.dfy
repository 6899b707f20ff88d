/** vcl_client/utils.py: the status poll, the selection prompts, the active
    request filter, image resolution, credential validation and the older
    auto-connect with its own SSH retry loop. */
module Utils {
  import opened Base
  import Api
  import Ssh

  const ACTIVE_STATES := ["reserved", "inuse"]
  const CHECK_TIMEOUT: nat := 15
  const REQUEST_STATE_IDX := 2
  const REQUEST_NAME_IDX := 1
  const REQUEST_ID_IDX := 5

  /** The column headings of cli_print_table, by data type. */
  const HEADERS: map<string, seq<string>> := map[
    "image" := ["ID", "Name"],
    "request" := ["Image ID", "Name", "State", "OS Type", "OS", "Request ID"],
    "activerequest" := ["Request ID", "Name"]]

  const SSH_METHOD := "SSH (Secure Shell) on Port 22"
  const CHECKING_STATUS := "Checking status...   "
  const READY := "Request is ready!\n"
  const NO_ACTIVE := "No active requests to connect to."
  const ENTER_NUMBER := "Enter a number"
  const MULTIPLE_MATCHES := "\nMultiple matches found. Please enter image ID"
  const CAMPUS_PASSWORD := "(your campus password)"
  const NT_REFUSED := "Auto SSH connections aren't supported on Windows."

  // ---------------------------------------------------------------- poll

  /** minute_spelling */
  function MinuteSpelling(timeLeft: int): (s: string)
    ensures s == "minute" <==> timeLeft == 1
    ensures s == "minute" || s == "minutes"
  {
    if timeLeft == 1 then "minute" else "minutes"
  }

  function LoadingLine(timeLeft: int): string {
    Show(timeLeft) + " " + MinuteSpelling(timeLeft) + " left."
  }

  function StatusError(status: string): string {
    "Received status '" + status + "'."
  }

  /** One reply of api.request_status: the status and the minutes left. */
  datatype StatusReply = StatusReply(status: string, timeLeft: int)

  /** A run of the status poll, with how many polls and sleeps it made. */
  datatype Polled = Polled(run: Run<()>, polls: nat, sleeps: nat)

  /** k polls and k sleeps already made before the rest of the poll. */
  function Continue(pre: seq<Event>, k: nat, rest: Polled): Polled {
    Polled(After(pre, rest.run), k + rest.polls, k + rest.sleeps)
  }

  lemma ContinueContinue(pre: seq<Event>, k: nat, mid: seq<Event>, rest: Polled)
    ensures Continue(pre, k, Continue(mid, 1, rest)) == Continue(pre + mid, k + 1, rest)
  {
    assert pre + (mid + rest.run.events) == (pre + mid) + rest.run.events;
  }

  /** What one tick prints and queries before the status is looked at. */
  function Query(requestId: string): seq<Event> {
    [EchoPart(CHECKING_STATUS), StatusQuery(requestId)]
  }

  /** What one 'loading' tick prints and does. */
  function LoadingTick(requestId: string, timeLeft: int): seq<Event> {
    Query(requestId) + [Echo(LoadingLine(timeLeft)), Sleep(CHECK_TIMEOUT)]
  }

  /** check_request_status from the i-th reply of a finite script on: 'ready'
      ends the poll, 'loading' reports the minutes left and sleeps, any other
      status is fatal. When the script runs out the poll is still going. */
  function Poll(requestId: string, script: seq<StatusReply>, i: nat): (p: Polled)
    ensures i <= |script| ==> p.sleeps <= p.polls <= |script| - i
    ensures p.run.outcome == Ok(()) || p.run.outcome == Polling || p.run.outcome == Raised(SystemExit(1))
    ensures i <= |script| ==> (p.run.outcome == Polling <==> p.sleeps == |script| - i)
    decreases |script| - i
  {
    if i >= |script| then Polled(Run([], Polling), 0, 0)
    else
      var s := script[i];
      if s.status == "ready" then Polled(Run(Query(requestId) + [Echo(READY)], Ok(())), 1, 0)
      else if s.status == "loading" then Continue(LoadingTick(requestId, s.timeLeft), 1, Poll(requestId, script, i + 1))
      else Polled(After(Query(requestId), HandleError(StatusError(s.status))), 1, 0)
  }

  /** One tick of the poll. */
  lemma PollUnfold(requestId: string, script: seq<StatusReply>, i: nat)
    requires i < |script|
    ensures script[i].status == "ready" ==>
              Poll(requestId, script, i) == Polled(Run(Query(requestId) + [Echo(READY)], Ok(())), 1, 0)
    ensures script[i].status == "loading" ==>
              Poll(requestId, script, i) == Continue(LoadingTick(requestId, script[i].timeLeft), 1, Poll(requestId, script, i + 1))
    ensures script[i].status != "ready" && script[i].status != "loading" ==>
              Poll(requestId, script, i) ==
              Polled(Run(Query(requestId) + [ErrLine("ERROR: " + StatusError(script[i].status))], Raised(SystemExit(1))), 1, 0)
  {
  }

  /** The effects of the first k replies when they are all 'loading'. */
  function LoadingTicks(requestId: string, script: seq<StatusReply>, k: nat): seq<Event>
    requires k <= |script|
  {
    if k == 0 then [] else LoadingTicks(requestId, script, k - 1) + LoadingTick(requestId, script[k - 1].timeLeft)
  }

  predicate AllLoading(script: seq<StatusReply>, k: nat)
    requires k <= |script|
  {
    forall j :: 0 <= j < k ==> script[j].status == "loading"
  }

  /** After k 'loading' replies the poll has made k polls and k sleeps, one
      report and one sleep per reply. */
  lemma {:induction false} PollAfterLoading(requestId: string, script: seq<StatusReply>, k: nat)
    requires k <= |script| && AllLoading(script, k)
    ensures Poll(requestId, script, 0) == Continue(LoadingTicks(requestId, script, k), k, Poll(requestId, script, k))
  {
    if k == 0 {
      assert [] + Poll(requestId, script, 0).run.events == Poll(requestId, script, 0).run.events;
    } else {
      PollAfterLoading(requestId, script, k - 1);
      PollUnfold(requestId, script, k - 1);
      ContinueContinue(LoadingTicks(requestId, script, k - 1), k - 1, LoadingTick(requestId, script[k - 1].timeLeft),
                       Poll(requestId, script, k));
    }
  }

  /** The poll stops at the first 'ready', with no sleep after it. */
  lemma StopsAtFirstReady(requestId: string, script: seq<StatusReply>, k: nat)
    requires k < |script| && AllLoading(script, k) && script[k].status == "ready"
    ensures Poll(requestId, script, 0) ==
            Polled(Run(LoadingTicks(requestId, script, k) + [EchoPart(CHECKING_STATUS), StatusQuery(requestId), Echo(READY)],
                       Ok(())), k + 1, k)
  {
    PollAfterLoading(requestId, script, k);
    PollUnfold(requestId, script, k);
  }

  /** Any other status ends the poll on that tick with exit status 1 and the
      message naming the status; nothing is polled after it. */
  lemma UnknownStatusIsFatal(requestId: string, script: seq<StatusReply>, k: nat)
    requires k < |script| && AllLoading(script, k)
    requires script[k].status != "ready" && script[k].status != "loading"
    ensures Poll(requestId, script, 0) ==
            Polled(Run(LoadingTicks(requestId, script, k) +
                       [EchoPart(CHECKING_STATUS), StatusQuery(requestId), ErrLine("ERROR: " + StatusError(script[k].status))],
                       Raised(SystemExit(1))), k + 1, k)
    ensures ExitCode(Poll(requestId, script, 0).run.outcome) == 1
  {
    PollAfterLoading(requestId, script, k);
    PollUnfold(requestId, script, k);
    var ticks := LoadingTicks(requestId, script, k);
    var last := [ErrLine("ERROR: " + StatusError(script[k].status))];
    assert ticks + (Query(requestId) + last) == ticks + [EchoPart(CHECKING_STATUS), StatusQuery(requestId)] + last;
  }

  /** While the server keeps answering 'loading' the poll never ends: one
      sleep per reply. */
  lemma AllLoadingKeepsPolling(requestId: string, script: seq<StatusReply>)
    requires AllLoading(script, |script|)
    ensures Poll(requestId, script, 0).run.outcome == Polling
    ensures Poll(requestId, script, 0).polls == |script| == Poll(requestId, script, 0).sleeps
  {
    PollAfterLoading(requestId, script, |script|);
  }

  /** check_request_status: the `while True` loop, over the script of replies. */
  method CheckRequestStatus(requestId: string, script: seq<StatusReply>)
    returns (r: Run<()>, polls: nat, sleeps: nat)
    ensures Polled(r, polls, sleeps) == Poll(requestId, script, 0)
  {
    var events: seq<Event> := [];
    var i := 0;
    polls, sleeps := 0, 0;
    while i < |script|
      invariant 0 <= i <= |script|
      invariant polls == i && sleeps == i
      invariant Poll(requestId, script, 0) == Continue(events, i, Poll(requestId, script, i))
    {
      var reply := script[i];
      ghost var before := events;
      PollUnfold(requestId, script, i);
      events := events + [EchoPart(CHECKING_STATUS), StatusQuery(requestId)];
      polls := polls + 1;
      if reply.status == "ready" {
        events := events + [Echo(READY)];
        r := Run(events, Ok(()));
        assert before + (Query(requestId) + [Echo(READY)]) == events;
        return;
      } else if reply.status == "loading" {
        events := events + [Echo(LoadingLine(reply.timeLeft))];
      } else {
        var stop := HandleError<()>(StatusError(reply.status));
        r := Run(events + stop.events, stop.outcome);
        assert before + (Query(requestId) + stop.events) == events + stop.events;
        return;
      }
      events := events + [Sleep(CHECK_TIMEOUT)];
      sleeps := sleeps + 1;
      ContinueContinue(before, i, LoadingTick(requestId, reply.timeLeft), Poll(requestId, script, i + 1));
      assert before + LoadingTick(requestId, reply.timeLeft) == events;
      i := i + 1;
    }
    assert events + [] == events;
    r := Run(events, Polling);
  }

  // ------------------------------------------------------ active requests

  /** One entry of get_active_requests: `[r[REQUEST_ID_IDX], r[REQUEST_NAME_IDX]]`. */
  datatype Active = Active(id: string, name: string)

  predicate IsActive(row: seq<string>) {
    |row| > REQUEST_STATE_IDX && row[REQUEST_STATE_IDX] in ACTIVE_STATES
  }

  /** Can the comprehension read what it needs of this row? The state always,
      the id and name only of an active row. */
  predicate Readable(row: seq<string>) {
    |row| > REQUEST_STATE_IDX && (IsActive(row) ==> |row| > REQUEST_ID_IDX)
  }

  /** The list comprehension of get_active_requests: the id and name of every
      active row, in order; a row too short for an index raises IndexError. */
  function Actives(rows: seq<seq<string>>): (r: Outcome<seq<Active>>)
    ensures r.Ok? <==> forall i :: 0 <= i < |rows| ==> Readable(rows[i])
    ensures !r.Ok? ==> r == Raised(IndexError)
    ensures r.Ok? ==> |r.value| <= |rows|
    ensures r.Ok? ==> forall a :: a in r.value ==>
              exists row :: row in rows && IsActive(row) && |row| > REQUEST_ID_IDX &&
                            a == Active(row[REQUEST_ID_IDX], row[REQUEST_NAME_IDX])
  {
    if rows == [] then Ok([])
    else
      var row := rows[0];
      if |row| <= REQUEST_STATE_IDX then Raised(IndexError)
      else if row[REQUEST_STATE_IDX] in ACTIVE_STATES then
        if |row| <= REQUEST_ID_IDX then Raised(IndexError)
        else
          match Actives(rows[1..])
          case Ok(rest) => Ok([Active(row[REQUEST_ID_IDX], row[REQUEST_NAME_IDX])] + rest)
          case Raised(e) => Raised(e)
          case Polling => Polling
      else Actives(rows[1..])
  }

  /** The filter works row by row: the order of the rows is kept. */
  lemma {:induction false} ActivesAppend(a: seq<seq<string>>, b: seq<seq<string>>)
    requires Actives(a).Ok? && Actives(b).Ok?
    ensures Actives(a + b) == Ok(Actives(a).value + Actives(b).value)
  {
    if a == [] {
      assert a + b == b && [] + Actives(b).value == Actives(b).value;
    } else {
      assert (a + b)[0] == a[0] && (a + b)[1..] == a[1..] + b;
      assert Actives(a[1..]).Ok?;
      ActivesAppend(a[1..], b);
      assert Readable(a[0]);
      if IsActive(a[0]) {
        var first := [Active(a[0][REQUEST_ID_IDX], a[0][REQUEST_NAME_IDX])];
        var ra, rb := Actives(a[1..]).value, Actives(b).value;
        assert Actives(a) == Ok(first + ra);
        assert Actives((a + b)[1..]) == Ok(ra + rb);
        assert Actives(a + b) == Ok(first + (ra + rb));
        assert first + (ra + rb) == (first + ra) + rb;
      }
    }
  }

  /** Every active row is listed. */
  lemma {:induction false} ActivesComplete(rows: seq<seq<string>>, row: seq<string>)
    requires Actives(rows).Ok? && row in rows && IsActive(row)
    ensures |row| > REQUEST_ID_IDX
    ensures Active(row[REQUEST_ID_IDX], row[REQUEST_NAME_IDX]) in Actives(rows).value
  {
    if rows[0] != row {
      ActivesComplete(rows[1..], row);
    }
  }

  /** get_active_requests over what api.request_list gave: nothing listed, or
      nothing active, is 'No active requests to connect to.'. */
  function GetActiveRequests(listed: Run<Option<seq<seq<string>>>>): (r: Run<seq<Active>>)
    ensures r.events == listed.events
    ensures listed.outcome == Ok(None) || listed.outcome == Ok(Some([])) ==>
              r.outcome == Raised(RuntimeError(NO_ACTIVE))
    ensures listed.outcome.Ok? && listed.outcome.value.Some? && Actives(listed.outcome.value.value).Ok? ==>
              var found := Actives(listed.outcome.value.value).value;
              r.outcome == if found == [] then Raised(RuntimeError(NO_ACTIVE)) else Ok(found)
    ensures listed.outcome.Raised? ==> r.outcome == Raised(listed.outcome.exc)
    ensures r.outcome.Ok? ==> r.outcome.value != []
  {
    match listed.outcome
    case Ok(all) =>
      if all.None? || all.value == [] then Run(listed.events, Raised(RuntimeError(NO_ACTIVE)))
      else
        (match Actives(all.value)
         case Ok(found) => Run(listed.events, if found == [] then Raised(RuntimeError(NO_ACTIVE)) else Ok(found))
         case Raised(e) => Run(listed.events, Raised(e))
         case Polling => Run(listed.events, Polling))
    case Raised(e) => Run(listed.events, Raised(e))
    case Polling => Run(listed.events, Polling)
  }

  /** On rows of five columns no active row can be read: the filter either
      finds nothing or raises IndexError. */
  lemma {:induction false} FiveColumnsNeverActive(rows: seq<seq<string>>)
    requires forall i :: 0 <= i < |rows| ==> |rows[i]| == 5
    ensures Actives(rows) == Ok([]) || Actives(rows) == Raised(IndexError)
  {
    if rows != [] {
      FiveColumnsNeverActive(rows[1..]);
    }
  }

  /** As written, get_active_requests over api.request_list never yields a
      request: the listing has five columns and the filter reads column 5. */
  lemma ListingHasNoRequestId(c: Api.Credentials, reply: Api.Response<seq<Api.RequestInfo>>)
    ensures !GetActiveRequests(Api.RequestList(c, reply)).outcome.Ok?
  {
    var listed := Api.RequestList(c, reply);
    if listed.outcome.Ok? && listed.outcome.value.Some? {
      FiveColumnsNeverActive(listed.outcome.value.value);
    }
  }

  /** A reserved request makes the as-written filter raise IndexError. */
  lemma ReservedRequestRaises(c: Api.Credentials, info: Api.RequestInfo)
    requires !Falsy(c.username) && !Falsy(c.password) && info.state == "reserved"
    ensures GetActiveRequests(Api.RequestList(c, Api.Reply([info]))).outcome == Raised(IndexError)
  {
  }

  /** The listing get_active_requests evidently expects: request_list's rows
      with the request id as a sixth column, as the 'request' headings say. */
  function RowWithId(r: Api.RequestInfo): (row: seq<string>)
    ensures |row| == |HEADERS["request"]| && row[..5] == Api.RequestRow(r)
    ensures row[REQUEST_ID_IDX] == r.requestid && row[REQUEST_NAME_IDX] == r.imagename
    ensures row[REQUEST_STATE_IDX] == r.state
  {
    Api.RequestRow(r) + [r.requestid]
  }

  function RowsWithId(rs: seq<Api.RequestInfo>): (rows: seq<seq<string>>)
    ensures |rows| == |rs|
    ensures forall i :: 0 <= i < |rs| ==> rows[i] == RowWithId(rs[i])
  {
    if rs == [] then [] else [RowWithId(rs[0])] + RowsWithId(rs[1..])
  }

  /** The corrected request_list: None for an empty server list. */
  function RequestListWithId(c: Api.Credentials, reply: Api.Response<seq<Api.RequestInfo>>)
    : (r: Run<Option<seq<seq<string>>>>)
    ensures r.events == Api.RequestList(c, reply).events
    ensures r.outcome.Ok? <==> Api.RequestList(c, reply).outcome.Ok?
    ensures r.outcome == Ok(None) <==> Api.RequestList(c, reply).outcome == Ok(None)
    ensures r.outcome.Ok? && r.outcome.value.Some? ==> r.outcome.value.value == RowsWithId(reply.body)
  {
    var call := Api.CallApi(c, Api.REQUEST_LIST_ENDPOINT, reply);
    match call.outcome
    case Ok(rs) => Run(call.events, Ok(if rs != [] then Some(RowsWithId(rs)) else None))
    case Raised(e) => Run(call.events, Raised(e))
    case Polling => Run(call.events, Polling)
  }

  /** The active requests of a server list, as [id, name], in order. */
  function ActiveRequestsOf(rs: seq<Api.RequestInfo>): (r: seq<Active>)
    ensures forall a :: a in r ==> exists i :: 0 <= i < |rs| && rs[i].state in ACTIVE_STATES &&
                                     a == Active(rs[i].requestid, rs[i].imagename)
  {
    if rs == [] then []
    else
      var rest := ActiveRequestsOf(rs[1..]);
      assert forall a :: a in rest ==> exists i :: 1 <= i < |rs| && rs[i].state in ACTIVE_STATES &&
                                        a == Active(rs[i].requestid, rs[i].imagename);
      if rs[0].state in ACTIVE_STATES then [Active(rs[0].requestid, rs[0].imagename)] + rest else rest
  }

  /** On the corrected listing the filter keeps exactly the reserved and
      in-use requests, with their ids, in order. */
  lemma {:induction false} CorrectedActives(rs: seq<Api.RequestInfo>)
    ensures Actives(RowsWithId(rs)) == Ok(ActiveRequestsOf(rs))
  {
    if rs != [] {
      CorrectedActives(rs[1..]);
      assert RowsWithId(rs)[1..] == RowsWithId(rs[1..]);
    }
  }

  /** With the corrected listing a single reserved request is connectable. */
  lemma ConnectableWhenReserved(c: Api.Credentials, info: Api.RequestInfo)
    requires !Falsy(c.username) && !Falsy(c.password) && info.state == "reserved"
    ensures GetActiveRequests(RequestListWithId(c, Api.Reply([info]))).outcome ==
            Ok([Active(info.requestid, info.imagename)])
  {
    CorrectedActives([info]);
    assert RowsWithId([info]) == [RowWithId(info)];
    assert ActiveRequestsOf([info]) == [Active(info.requestid, info.imagename)];
  }

  // ---------------------------------------------------- choose a request

  /** `"  %s. %s (id: %s)" % (n, name, id)` */
  function ActiveLine(n: int, a: Active): Event {
    Echo("  " + Show(n) + ". " + a.name + " (id: " + a.id + ")")
  }

  /** The listing of choose_active_request: entry i is shown with the number
      idx + i, its name and its id. */
  function ActiveLines(reqs: seq<Active>, idx: int): (lines: seq<Event>)
    ensures |lines| == |reqs|
    ensures forall i :: 0 <= i < |reqs| ==> lines[i] == ActiveLine(idx + i, reqs[i])
    decreases |reqs|
  {
    if reqs == [] then []
    else
      var rest := ActiveLines(reqs[1..], idx + 1);
      assert forall i :: 1 <= i < |reqs| ==> rest[i - 1] == ActiveLine(idx + i, reqs[i]) by {
        forall i | 1 <= i < |reqs| ensures rest[i - 1] == ActiveLine(idx + i, reqs[i]) {
          assert reqs[1..][i - 1] == reqs[i] && idx + 1 + (i - 1) == idx + i;
        }
      }
      [ActiveLine(idx, reqs[0])] + rest
  }

  /** choose_active_request over get_active_requests' result: one request is
      taken without a prompt; otherwise the entered number k picks entry k-1
      (Python indexing, so 0 picks the last); a RuntimeError exits 1. */
  function ChooseActiveRequest(active: Run<seq<Active>>, answer: int): (r: Run<string>)
    ensures active.outcome.Ok? && |active.outcome.value| == 1 ==>
              r == Run(active.events, Ok(active.outcome.value[0].id))
    ensures active.outcome.Ok? && |active.outcome.value| != 1 ==>
              var reqs := active.outcome.value;
              r.events == active.events + [Echo("Active requests:")] + ActiveLines(reqs, 1) + [Prompt(ENTER_NUMBER)] &&
              (1 <= answer <= |reqs| ==> r.outcome == Ok(reqs[answer - 1].id)) &&
              (answer > |reqs| || answer <= -|reqs| ==> r.outcome == Raised(IndexError))
    ensures active.outcome.Raised? && active.outcome.exc.RuntimeError? ==>
              r == Run(active.events + [ErrLine("ERROR: " + active.outcome.exc.msg)], Raised(SystemExit(1)))
    ensures active.outcome.Raised? && !active.outcome.exc.RuntimeError? ==> r == Run(active.events, Raised(active.outcome.exc))
  {
    match active.outcome
    case Raised(e) => if e.RuntimeError? then After(active.events, HandleError(e.msg)) else Run(active.events, Raised(e))
    case Polling => Run(active.events, Polling)
    case Ok(reqs) =>
      if |reqs| == 1 then Run(active.events, Ok(reqs[0].id))
      else
        var shown := active.events + [Echo("Active requests:")] + ActiveLines(reqs, 1) + [Prompt(ENTER_NUMBER)];
        match PyIndex(reqs, answer - 1)
        case Ok(req) => Run(shown, Ok(req.id))
        case Raised(e) => Run(shown, Raised(e))
        case Polling => Run(shown, Polling)
  }

  /** Entering 0 wraps around to the last request listed. */
  lemma ZeroPicksLast(events: seq<Event>, reqs: seq<Active>)
    requires |reqs| >= 2
    ensures ChooseActiveRequest(Run(events, Ok(reqs)), 0).outcome == Ok(reqs[|reqs| - 1].id)
  {
  }

  // ---------------------------------------------------- connect method

  /** A key of the connection-method dictionary. */
  datatype Key = IntKey(n: int) | StrKey(s: string)

  function ShowKey(k: Key): string {
    if k.IntKey? then Show(k.n) else k.s
  }

  /** `connect_methods[key]['description']`: a missing key raises KeyError. */
  function Lookup(methods: seq<(Key, string)>, key: Key): (r: Outcome<string>)
    ensures r.Ok? <==> exists i :: 0 <= i < |methods| && methods[i].0 == key
    ensures r.Ok? ==> (key, r.value) in methods
    ensures !r.Ok? ==> r == Raised(KeyError)
  {
    if methods == [] then Raised(KeyError)
    else if methods[0].0 == key then Ok(methods[0].1)
    else
      var rest := Lookup(methods[1..], key);
      assert (exists i :: 1 <= i < |methods| && methods[i].0 == key) ==>
             (exists i :: 0 <= i < |methods[1..]| && methods[1..][i].0 == key);
      rest
  }

  function MethodLines(methods: seq<(Key, string)>): (lines: seq<Event>)
    ensures |lines| == |methods|
    ensures forall i :: 0 <= i < |methods| ==> lines[i] == Echo("  " + ShowKey(methods[i].0) + ". " + methods[i].1)
  {
    if methods == [] then [] else [Echo("  " + ShowKey(methods[0].0) + ". " + methods[0].1)] + MethodLines(methods[1..])
  }

  /** choose_connect_method (also auto_connect.choose_connect_method): a single
      entry is key 0's description, with no prompt; otherwise the methods are
      listed and the entered number k selects key str(k). */
  function ChooseConnectMethod(methods: seq<(Key, string)>, answer: int): (r: Run<string>)
    ensures |methods| == 1 ==> r == Run([], Lookup(methods, IntKey(0)))
    ensures |methods| == 1 && methods[0].0 == IntKey(0) ==> r == Run([], Ok(methods[0].1))
    ensures |methods| != 1 ==>
              r.events == [Echo("\nAvailable connection methods:")] + MethodLines(methods) + [Prompt(ENTER_NUMBER)]
    ensures |methods| != 1 ==> r.outcome == Lookup(methods, StrKey(Show(answer)))
    ensures r.outcome.Ok? || r.outcome == Raised(KeyError)
  {
    if |methods| == 1 then Run([], Lookup(methods, IntKey(0)))
    else Run([Echo("\nAvailable connection methods:")] + MethodLines(methods) + [Prompt(ENTER_NUMBER)],
             Lookup(methods, StrKey(Show(answer))))
  }

  /** With no method at all the prompt still comes, and then a KeyError. */
  lemma NoMethodsIsKeyError(answer: int)
    ensures ChooseConnectMethod([], answer) ==
            Run([Echo("\nAvailable connection methods:"), Prompt(ENTER_NUMBER)], Raised(KeyError))
  {
  }

  // ------------------------------------------------- connection details

  /** What api.request_details gives: address, user, the request's password
      and its connection methods. */
  datatype Details = Details(ip: string, user: string, password: Option<string>, methods: seq<(Key, string)>)

  function ShownPassword(password: Option<string>): (s: string)
    ensures Falsy(password) ==> s == CAMPUS_PASSWORD
    ensures !Falsy(password) ==> s == password.value
  {
    if Falsy(password) then CAMPUS_PASSWORD else password.value
  }

  /** print_connection_details (also in auto_connect.py): a heading, then IP
      address, username and password, in that order. */
  function PrintConnectionDetails(d: Details): (lines: seq<Event>)
    ensures |lines| == 4 && lines[0] == Echo("\nConnection details:")
    ensures lines[1] == Echo(" - IP address: " + d.ip) && lines[2] == Echo(" - Username: " + d.user)
    ensures lines[3] == Echo(" - Password: " + ShownPassword(d.password))
  {
    [Echo("\nConnection details:"), Echo(" - IP address: " + d.ip), Echo(" - Username: " + d.user),
     Echo(" - Password: " + ShownPassword(d.password))]
  }

  // ------------------------------------------------------------ tables

  function HeaderError(dataType: string): string {
    "Header '" + dataType + "' not recognized."
  }

  /** cli_print_table: only the known data types have headings. */
  function CliPrintTable(rows: seq<seq<string>>, dataType: string): (r: Run<()>)
    ensures r.outcome.Ok? <==> dataType in {"image", "request", "activerequest"}
    ensures r.outcome.Ok? ==> r.events == [Table(HEADERS[dataType], rows)]
    ensures !r.outcome.Ok? ==> r == Run([], Raised(ValueError(HeaderError(dataType))))
  {
    if dataType !in HEADERS then Run([], Raised(ValueError(HeaderError(dataType))))
    else Run([Table(HEADERS[dataType], rows)], Ok(()))
  }

  function ImageRows(images: seq<Image>): (rows: seq<seq<string>>)
    ensures |rows| == |images|
    ensures forall i :: 0 <= i < |images| ==> rows[i] == [images[i].id, images[i].name]
  {
    if images == [] then [] else [[images[0].id, images[0].name]] + ImageRows(images[1..])
  }

  // ----------------------------------------------------------- image id

  /** What get_image_id hands to the submission: the argument itself, the id
      of the single match, or the number typed at the prompt. */
  datatype ImageRef = Arg(text: string) | Listed(id: string) | Typed(n: int)

  /** get_image_id (and the same steps inline in vcl.request_instance): a
      numeric argument is used as it is and no catalogue is read; otherwise
      `found` is the filtered catalogue. A filter ValueError prints
      'Error: <msg>' and gives None. */
  function GetImageId(image: string, isNumber: bool, found: Run<seq<Image>>, answer: int)
    : (r: Run<Option<ImageRef>>)
    ensures isNumber ==> r == Run([], Ok(Some(Arg(image))))
    ensures !isNumber && found.outcome.Ok? && |found.outcome.value| == 1 ==>
              r == Run(found.events, Ok(Some(Listed(found.outcome.value[0].id))))
    ensures !isNumber && found.outcome.Ok? && |found.outcome.value| != 1 ==>
              r == Run(found.events + [Table(["ID", "Name"], ImageRows(found.outcome.value)), Prompt(MULTIPLE_MATCHES)],
                       Ok(Some(Typed(answer))))
    ensures !isNumber && found.outcome.Raised? && found.outcome.exc.ValueError? ==>
              r == Run(found.events + [Echo("Error: " + found.outcome.exc.msg)], Ok(None))
    ensures !isNumber && found.outcome.Raised? && !found.outcome.exc.ValueError? ==> r == Run(found.events, Raised(found.outcome.exc))
    ensures r.outcome == Ok(None) ==> !isNumber && found.outcome.Raised? && found.outcome.exc.ValueError?
  {
    if isNumber then Run([], Ok(Some(Arg(image))))
    else
      match found.outcome
      case Raised(e) =>
        if e.ValueError? then Run(found.events + [Echo("Error: " + e.msg)], Ok(None)) else Run(found.events, Raised(e))
      case Polling => Run(found.events, Polling)
      case Ok(images) =>
        if |images| == 1 then Run(found.events, Ok(Some(Listed(images[0].id))))
        else
          var table := CliPrintTable(ImageRows(images), "image");
          Run(found.events + table.events + [Prompt(MULTIPLE_MATCHES)], Ok(Some(Typed(answer))))
  }

  // -------------------------------------------------------- credentials

  /** validate_credentials: api.test_call with its errors mapped. The bare
      `except:` also catches auth_check's sys.exit, so missing credentials
      become 'Credentials or endpoint invalid.'. */
  function ValidateCredentials(c: Api.Credentials, reply: Api.Response<Api.StatusBody>): (r: Run<()>)
    ensures r.outcome.Ok? <==> !Falsy(c.username) && !Falsy(c.password) && reply.Reply? && reply.body.status == "success"
    ensures Falsy(c.username) || Falsy(c.password) ==>
              r == Run([Echo(Api.CREDENTIALS_MISSING)], Raised(ValueError(Api.ENDPOINT_INVALID)))
    ensures !Falsy(c.username) && !Falsy(c.password) ==>
              r.events == [Post(Api.TEST_ENDPOINT, Api.MakeHeaders(c))] &&
              ((reply.Reply? && reply.body.status != "success") || reply.Fault? ==>
                 r.outcome == Raised(ValueError(Api.ENDPOINT_REJECTED))) &&
              (reply.Unreachable? ==> r.outcome == Raised(ValueError(Api.ENDPOINT_INVALID)))
  {
    var call := Api.TestCall(c, reply);
    Run(call.events, Api.CredentialVerdict(call.outcome))
  }

  // -------------------------------------------------------- auto connect

  function Unsupported(description: string): string {
    "Connection method '" + description + "' is unsupported."
  }

  function Connecting(ip: string, description: string): string {
    "Connecting to " + ip + " via " + description + "..."
  }

  /** initialize_ssh: clear the screen and log in with the stored password. */
  function InitializeSsh(ip: string, user: string, storedPassword: Option<string>, a: Ssh.Attempt): (s: Ssh.Step)
    ensures s.result == a && OpenShell(ip, user, storedPassword) in s.events
    ensures forall e :: e in s.events ==> !e.Confirm? && (e.OpenShell? ==> e == OpenShell(ip, user, storedPassword))
  {
    Ssh.Step([ClearScreen, OpenShell(ip, user, storedPassword)], a)
  }

  function InitSteps(ip: string, user: string, storedPassword: Option<string>, tries: nat -> Ssh.Attempt): nat -> Ssh.Step {
    (k: nat) => InitializeSsh(ip, user, storedPassword, tries(k))
  }

  /** The retry loop of auto_connect ends as ssh.py's does, except that another
      socket error goes to handle_error: 'ERROR: <strerror>' and exit 1. */
  function Handled(run: Run<()>): (r: Run<()>)
    ensures !(run.outcome.Raised? && run.outcome.exc.SocketError?) ==> r == run
    ensures run.outcome.Raised? && run.outcome.exc.SocketError? ==>
              r == Run(run.events + [ErrLine("ERROR: " + run.outcome.exc.strerror)], Raised(SystemExit(1)))
  {
    if run.outcome.Raised? && run.outcome.exc.SocketError? then After(run.events, HandleError(run.outcome.exc.strerror))
    else run
  }

  /** A socket error other than 'No route to host' ends auto_connect's loop with
      exit status 1, after no further attempt. */
  lemma OtherSocketErrorExits(ip: string, user: string, pw: Option<string>, tries: nat -> Ssh.Attempt, k: nat, e: string)
    requires k < Ssh.MAX_ATTEMPTS
    requires forall j :: 0 <= j < k ==> Ssh.NoRoute(tries(j))
    requires tries(k) == Ssh.SocketFailure(e) && !Contains(e, Ssh.NO_ROUTE)
    ensures var loop := Ssh.Retry(InitSteps(ip, user, pw, tries), 0);
            Handled(loop.run).outcome == Raised(SystemExit(1)) && loop.attempts == k + 1 && loop.sleeps == k
  {
    var steps := InitSteps(ip, user, pw, tries);
    forall j | 0 <= j < k ensures Ssh.NoRoute(steps(j).result) {
      assert steps(j) == InitializeSsh(ip, user, pw, tries(j));
    }
    assert steps(k) == InitializeSsh(ip, user, pw, tries(k));
    Ssh.OtherSocketErrorRaised(steps, k, e);
  }

  /** Five no-route failures in a row end auto_connect without any error. */
  lemma ExhaustedAutoConnectIsSilent(ip: string, user: string, pw: Option<string>, tries: nat -> Ssh.Attempt)
    requires forall j :: 0 <= j < Ssh.MAX_ATTEMPTS ==> Ssh.NoRoute(tries(j))
    ensures var loop := Ssh.Retry(InitSteps(ip, user, pw, tries), 0);
            Handled(loop.run).outcome == Ok(()) && loop.attempts == 5 && loop.sleeps == 5
  {
    var steps := InitSteps(ip, user, pw, tries);
    forall j | 0 <= j < Ssh.MAX_ATTEMPTS ensures Ssh.NoRoute(steps(j).result) {
      assert steps(j) == InitializeSsh(ip, user, pw, tries(j));
    }
    Ssh.ExhaustedIsSilent(steps);
  }

  /** The `for _ in range(5)` loop of auto_connect. */
  method RetryInitializeSsh(ip: string, user: string, storedPassword: Option<string>, tries: nat -> Ssh.Attempt)
    returns (r: Run<()>, attempts: nat, sleeps: nat)
    ensures var loop := Ssh.Retry(InitSteps(ip, user, storedPassword, tries), 0);
            r == Handled(loop.run) && attempts == loop.attempts && sleeps == loop.sleeps
  {
    ghost var steps := InitSteps(ip, user, storedPassword, tries);
    var events: seq<Event> := [];
    var outcome: Outcome<()> := Ok(());
    attempts, sleeps := 0, 0;
    for i := 0 to Ssh.MAX_ATTEMPTS
      invariant attempts == i && sleeps == i && outcome == Ok(())
      invariant Ssh.Retry(steps, 0) == Ssh.Glue(events, i, Ssh.Retry(steps, i))
    {
      var s := InitializeSsh(ip, user, storedPassword, tries(i));
      assert s == steps(i);
      Ssh.RetryUnfold(steps, i);
      ghost var before := events;
      events := events + s.events;
      attempts := attempts + 1;
      if s.result.Returned? {
        assert Ssh.Retry(steps, 0) == Ssh.Retried(Run(events, outcome), attempts, sleeps);
        return Run(events, outcome), attempts, sleeps;
      } else if s.result.SocketFailure? {
        if Contains(s.result.strerror, Ssh.NO_ROUTE) {
          events := events + [Sleep(Ssh.SSH_TIMEOUT)];
          sleeps := sleeps + 1;
          Ssh.GlueGlue(before, i, s.events + [Sleep(Ssh.SSH_TIMEOUT)], Ssh.Retry(steps, i + 1));
          assert before + (s.events + [Sleep(Ssh.SSH_TIMEOUT)]) == events;
        } else {
          assert Ssh.Retry(steps, 0) == Ssh.Retried(Run(events, Raised(SocketError(s.result.strerror))), attempts, sleeps);
          var stop := HandleError<()>(s.result.strerror);
          return Run(events + stop.events, stop.outcome), attempts, sleeps;
        }
      } else {
        outcome := Raised(Unexpected(s.result.name));
        assert Ssh.Retry(steps, 0) == Ssh.Retried(Run(events, outcome), attempts, sleeps);
        return Run(events, outcome), attempts, sleeps;
      }
    }
    assert events + [] == events;
    r := Run(events, outcome);
  }

  /** utils.auto_connect: choose a method; SSH is refused on Windows (the
      details are printed and the call returns), otherwise retried up to five
      times; any other method is unsupported. */
  method AutoConnect(d: Details, answer: int, storedPassword: Option<string>, osName: string,
                     tries: nat -> Ssh.Attempt)
    returns (r: Run<()>, attempts: nat, sleeps: nat)
    ensures var chosen := ChooseConnectMethod(d.methods, answer);
            !chosen.outcome.Ok? ==> r == Run(chosen.events, Raised(chosen.outcome.exc)) && attempts == 0
    ensures var chosen := ChooseConnectMethod(d.methods, answer);
            chosen.outcome == Ok(SSH_METHOD) && osName == "nt" ==>
              r == Run(chosen.events + [Echo(Connecting(d.ip, SSH_METHOD)), Echo(NT_REFUSED)] + PrintConnectionDetails(d), Ok(())) &&
              attempts == 0
    ensures var chosen := ChooseConnectMethod(d.methods, answer);
            chosen.outcome == Ok(SSH_METHOD) && osName != "nt" ==>
              var loop := Ssh.Retry(InitSteps(d.ip, d.user, storedPassword, tries), 0);
              r == After(chosen.events + [Echo(Connecting(d.ip, SSH_METHOD)), Echo(Ssh.CHECKING)], Handled(loop.run)) &&
              attempts == loop.attempts && sleeps == loop.sleeps
    ensures var chosen := ChooseConnectMethod(d.methods, answer);
            chosen.outcome.Ok? && chosen.outcome.value != SSH_METHOD ==>
              r == Run(chosen.events + [Echo(Connecting(d.ip, chosen.outcome.value))],
                       Raised(RuntimeError(Unsupported(chosen.outcome.value)))) &&
              attempts == 0
  {
    var chosen := ChooseConnectMethod(d.methods, answer);
    attempts, sleeps := 0, 0;
    if !chosen.outcome.Ok? {
      r := Run(chosen.events, Raised(chosen.outcome.exc));
      return;
    }
    var description := chosen.outcome.value;
    var head := chosen.events + [Echo(Connecting(d.ip, description))];
    if description != SSH_METHOD {
      r := Run(head, Raised(RuntimeError(Unsupported(description))));
      return;
    }
    if osName == "nt" {
      r := Run(head + [Echo(NT_REFUSED)] + PrintConnectionDetails(d), Ok(()));
      return;
    }
    var loop;
    loop, attempts, sleeps := RetryInitializeSsh(d.ip, d.user, storedPassword, tries);
    r := After(head + [Echo(Ssh.CHECKING)], loop);
  }
}
