/** Shared vocabulary of the model: Python's optional values and exceptions,
    the effects a command leaves behind (its output trace), and the few
    string operations the client relies on. */
module Base {

  /** Python's `None` or a value. */
  datatype Option<+T> = None | Some(value: T)

  /** Python truthiness of an optional string: `None` and `''` are falsy. */
  predicate Falsy(s: Option<string>) {
    s.None? || s.value == ""
  }

  /** The exceptions the client raises, catches or lets escape. */
  datatype Exc =
    | RuntimeError(msg: string)
    | ValueError(msg: string)
    | SocketError(strerror: string)   // socket.error, with its strerror text
    | IndexError                      // list index out of range
    | KeyError                        // missing dictionary key
    | RpcFault                        // xmlrpclib.Fault from the server
    | NetworkError                    // any transport failure below the RPC layer
    | Unexpected(name: string)        // any other exception class (paramiko, ...)
    | SystemExit(code: int)           // raised by sys.exit(code)

  /** How a step ends: with a value, with an exception, or still blocked in
      the status poll when the scripted status replies ran out. */
  datatype Outcome<+T> = Ok(value: T) | Raised(exc: Exc) | Polling

  /** HTTP headers sent with every RPC call. */
  datatype Headers = Headers(contentType: string, user: Option<string>, pass: Option<string>, apiVersion: string)

  /** Observable effects, in the order they happen. */
  datatype Event =
    | Echo(text: string)              // a line on standard output
    | EchoPart(text: string)          // standard output without a newline
    | ErrLine(text: string)           // a line on standard error
    | Prompt(text: string)            // click.prompt, the answer is an input of the model
    | Confirm(text: string)           // click.confirm, the answer is an input of the model
    | Sleep(seconds: nat)
    | ClearScreen
    | StatusQuery(requestId: string)  // one api.request_status call
    | OpenShell(ip: string, user: string, password: Option<string>)  // one SSH login attempt
    | Post(endpoint: string, headers: Headers)                       // one RPC request sent
    | Table(columns: seq<string>, rows: seq<seq<string>>)            // a tabulated listing

  /** One entry of the server's image catalogue, as `[id, name]`. */
  datatype Image = Image(id: string, name: string)

  /** What a step printed or did, and how it ended. */
  datatype Run<+T> = Run(events: seq<Event>, outcome: Outcome<T>)

  /** A step that gave no value ends its caller the same way: the exception
      propagates, or the caller is still waiting. */
  function Fail<T, U>(o: Outcome<T>): (f: Outcome<U>)
    requires !o.Ok?
    ensures o.Raised? ==> f == Raised(o.exc)
    ensures o.Polling? ==> f.Polling?
  {
    if o.Raised? then Raised(o.exc) else Polling
  }

  /** Prefix a run with the effects that came before it. */
  function After<T>(pre: seq<Event>, r: Run<T>): Run<T> {
    Run(pre + r.events, r.outcome)
  }

  /** utils.handle_error: print 'ERROR: <message>' on standard error, then sys.exit(1). */
  function HandleError<T>(message: string): (r: Run<T>)
    ensures r.events == [ErrLine("ERROR: " + message)]
    ensures r.outcome == Raised(SystemExit(1)) && ExitCode(r.outcome) == 1
  {
    Run([ErrLine("ERROR: " + message)], Raised(SystemExit(1)))
  }

  /** Exit status of the process once a command has ended: a normal return is 0,
      sys.exit(c) is c and an uncaught exception is Python's traceback status 1. */
  function ExitCode<T>(o: Outcome<T>): (code: int)
    requires !o.Polling?
    ensures code == 0 <==> o.Ok? || o == Raised(SystemExit(0))
    ensures o.Raised? && o.exc.SystemExit? ==> code == o.exc.code
  {
    match o
    case Ok(_) => 0
    case Raised(SystemExit(c)) => c
    case Raised(_) => 1
  }

  /** Decimal rendering of an integer, as Python's `%s` prints it. */
  function Show(n: int): (s: string)
    ensures |s| > 0
  {
    if n < 0 then "-" + ShowNat(-n) else ShowNat(n)
  }

  function ShowNat(n: nat): (s: string)
    ensures |s| > 0
    ensures forall i :: 0 <= i < |s| ==> '0' <= s[i] <= '9'
  {
    var d := [(('0' as int) + n % 10) as char];
    if n < 10 then d else ShowNat(n / 10) + d
  }

  /** str.lower() on ASCII letters. */
  function LowerChar(c: char): char {
    if 'A' <= c <= 'Z' then (c as int + 32) as char else c
  }

  function Lower(s: string): (r: string)
    ensures |r| == |s|
    ensures forall i :: 0 <= i < |s| ==> r[i] == LowerChar(s[i])
  {
    if s == [] then [] else [LowerChar(s[0])] + Lower(s[1..])
  }

  lemma {:induction false} LowerIdempotent(s: string)
    ensures Lower(Lower(s)) == Lower(s)
  {
    var l := Lower(s);
    assert forall i :: 0 <= i < |s| ==> Lower(l)[i] == LowerChar(LowerChar(s[i])) == l[i];
  }

  predicate StartsWith(s: string, prefix: string) {
    |prefix| <= |s| && s[..|prefix|] == prefix
  }

  predicate EndsWith(s: string, suffix: string) {
    |suffix| <= |s| && s[|s| - |suffix|..] == suffix
  }

  /** Python's substring test `needle in hay`. */
  predicate Contains(hay: string, needle: string)
    decreases |hay|
  {
    StartsWith(hay, needle) || (|hay| > 0 && Contains(hay[1..], needle))
  }

  /** Whatever surrounds it, a string is found inside the text built around it. */
  lemma {:induction false} ContainsMiddle(pre: string, needle: string, post: string)
    ensures Contains(pre + needle + post, needle)
  {
    var hay := pre + needle + post;
    if pre == [] {
      assert hay[..|needle|] == needle;
    } else {
      assert hay[1..] == pre[1..] + needle + post;
      ContainsMiddle(pre[1..], needle, post);
    }
  }

  /** Python list indexing `xs[i]`: a negative index counts from the end. */
  function PyIndex<T>(xs: seq<T>, i: int): (r: Outcome<T>)
    ensures 0 <= i < |xs| ==> r == Ok(xs[i])
    ensures -|xs| <= i < 0 ==> r == Ok(xs[|xs| + i])
    ensures r.Raised? <==> i >= |xs| || i < -|xs|
  {
    if 0 <= i < |xs| then Ok(xs[i])
    else if -|xs| <= i < 0 then Ok(xs[|xs| + i])
    else Raised(IndexError)
  }
}
