/** vcl_client/connect_methods/ssh.py: the SSH connection method. Opening the
    interactive shell (paramiko) is an abstract attempt whose result is an input:
    it returns, fails with a socket error, or fails with another exception. */
module Ssh {
  import opened Base

  const SSH_TIMEOUT: nat := 2
  const MAX_ATTEMPTS: nat := 5
  const NO_ROUTE := "No route to host"
  const WINDOWS_REFUSED := "SSH connections aren't supported on Windows."
  const READY_QUESTION := "Ready to start SSH connection?"
  const CHECKING := "Checking if request is available..."

  /** How one attempt to open the remote shell ended. */
  datatype Attempt = Returned | SocketFailure(strerror: string) | OtherFailure(name: string)

  /** One attempt: what it printed or did, and how it ended. */
  datatype Step = Step(events: seq<Event>, result: Attempt)

  /** The only failure that is retried: a socket error whose text says
      'No route to host'. */
  predicate NoRoute(a: Attempt) {
    a.SocketFailure? && Contains(a.strerror, NO_ROUTE)
  }

  /** A run of the retry loop, with how many attempts and sleeps it made. */
  datatype Retried = Retried(run: Run<()>, attempts: nat, sleeps: nat)

  /** The retry loop from attempt k on (`for _ in range(5)`): a returning attempt
      ends it, a no-route failure sleeps and goes on, any other socket error
      ends it with that error, and after the last attempt it ends normally. */
  function Retry(steps: nat -> Step, k: nat): (r: Retried)
    ensures r.run.outcome.Ok? || r.run.outcome.Raised?
    ensures r.run.outcome.Raised? ==>
              (r.run.outcome.exc.SocketError? && !Contains(r.run.outcome.exc.strerror, NO_ROUTE)) ||
              r.run.outcome.exc.Unexpected?
    decreases MAX_ATTEMPTS - k
  {
    if k >= MAX_ATTEMPTS then Retried(Run([], Ok(())), 0, 0)
    else
      var s := steps(k);
      match s.result
      case Returned => Retried(Run(s.events, Ok(())), 1, 0)
      case SocketFailure(e) =>
        if Contains(e, NO_ROUTE) then Glue(s.events + [Sleep(SSH_TIMEOUT)], 1, Retry(steps, k + 1))
        else Retried(Run(s.events, Raised(SocketError(e))), 1, 0)
      case OtherFailure(n) => Retried(Run(s.events, Raised(Unexpected(n))), 1, 0)
  }

  /** k attempts and k sleeps already made before the rest of the loop. */
  function Glue(pre: seq<Event>, k: nat, rest: Retried): Retried {
    Retried(After(pre, rest.run), k + rest.attempts, k + rest.sleeps)
  }

  lemma GlueGlue(pre: seq<Event>, k: nat, mid: seq<Event>, rest: Retried)
    ensures Glue(pre, k, Glue(mid, 1, rest)) == Glue(pre + mid, k + 1, rest)
  {
    assert pre + (mid + rest.run.events) == (pre + mid) + rest.run.events;
  }

  /** One turn of the loop. */
  lemma RetryUnfold(steps: nat -> Step, k: nat)
    requires k < MAX_ATTEMPTS
    ensures steps(k).result.Returned? ==> Retry(steps, k) == Retried(Run(steps(k).events, Ok(())), 1, 0)
    ensures NoRoute(steps(k).result) ==>
              Retry(steps, k) == Glue(steps(k).events + [Sleep(SSH_TIMEOUT)], 1, Retry(steps, k + 1))
    ensures steps(k).result.SocketFailure? && !NoRoute(steps(k).result) ==>
              Retry(steps, k) == Retried(Run(steps(k).events, Raised(SocketError(steps(k).result.strerror))), 1, 0)
    ensures steps(k).result.OtherFailure? ==>
              Retry(steps, k) == Retried(Run(steps(k).events, Raised(Unexpected(steps(k).result.name))), 1, 0)
  {
  }

  /** The effects of the first k attempts, each followed by its sleep. */
  function Failures(steps: nat -> Step, k: nat): seq<Event> {
    if k == 0 then [] else Failures(steps, k - 1) + steps(k - 1).events + [Sleep(SSH_TIMEOUT)]
  }

  /** The loop never makes more than five attempts, and makes at least one. */
  lemma {:induction false} RetryBounded(steps: nat -> Step, k: nat)
    requires k <= MAX_ATTEMPTS
    ensures Retry(steps, k).attempts <= MAX_ATTEMPTS - k
    ensures k < MAX_ATTEMPTS ==> Retry(steps, k).attempts >= 1
    ensures Retry(steps, k).sleeps <= Retry(steps, k).attempts
    decreases MAX_ATTEMPTS - k
  {
    if k < MAX_ATTEMPTS && NoRoute(steps(k).result) {
      RetryBounded(steps, k + 1);
    }
  }

  /** After k no-route failures the loop has made k attempts and k sleeps. */
  lemma {:induction false} RetryAfterNoRoutes(steps: nat -> Step, k: nat)
    requires k <= MAX_ATTEMPTS
    requires forall j :: 0 <= j < k ==> NoRoute(steps(j).result)
    ensures Retry(steps, 0) == Glue(Failures(steps, k), k, Retry(steps, k))
  {
    if k > 0 {
      RetryAfterNoRoutes(steps, k - 1);
      var s := steps(k - 1);
      var x := s.events + [Sleep(SSH_TIMEOUT)];
      var rest := Retry(steps, k);
      assert Retry(steps, k - 1) == Glue(x, 1, rest);
      GlueGlue(Failures(steps, k - 1), k - 1, x, rest);
      assert Failures(steps, k) == Failures(steps, k - 1) + x;
    }
  }

  /** The first attempt that returns ends the loop: no more attempts or sleeps. */
  lemma StopsAtFirstReturn(steps: nat -> Step, k: nat)
    requires k < MAX_ATTEMPTS
    requires forall j :: 0 <= j < k ==> NoRoute(steps(j).result)
    requires steps(k).result == Returned
    ensures Retry(steps, 0) == Retried(Run(Failures(steps, k) + steps(k).events, Ok(())), k + 1, k)
  {
    RetryAfterNoRoutes(steps, k);
  }

  /** Any other socket error is raised at once: no further attempt or sleep. */
  lemma OtherSocketErrorRaised(steps: nat -> Step, k: nat, e: string)
    requires k < MAX_ATTEMPTS
    requires forall j :: 0 <= j < k ==> NoRoute(steps(j).result)
    requires steps(k).result == SocketFailure(e) && !Contains(e, NO_ROUTE)
    ensures Retry(steps, 0) == Retried(Run(Failures(steps, k) + steps(k).events, Raised(SocketError(e))), k + 1, k)
  {
    RetryAfterNoRoutes(steps, k);
  }

  /** Five no-route failures in a row end the loop normally, with no error. */
  lemma ExhaustedIsSilent(steps: nat -> Step)
    requires forall j :: 0 <= j < MAX_ATTEMPTS ==> NoRoute(steps(j).result)
    ensures Retry(steps, 0) == Retried(Run(Failures(steps, MAX_ATTEMPTS), Ok(())), 5, 5)
  {
    RetryAfterNoRoutes(steps, MAX_ATTEMPTS);
  }

  /** Three no-route failures and then a returning attempt: four attempts, three sleeps. */
  lemma ThreeFailuresThenSuccess(steps: nat -> Step)
    requires NoRoute(steps(0).result) && NoRoute(steps(1).result) && NoRoute(steps(2).result)
    requires steps(3).result == Returned
    ensures Retry(steps, 0).run.outcome == Ok(())
    ensures Retry(steps, 0).attempts == 4 && Retry(steps, 0).sleeps == 3
  {
    StopsAtFirstReturn(steps, 3);
  }

  /** The answer to 'Ready to start SSH connection?' and, if it was yes, how
      the shell session ended. */
  datatype ShellTry = ShellTry(confirmed: bool, session: Attempt)

  /** start_ssh_shell: declining returns without connecting (a normal return);
      otherwise the screen is cleared and the shell opened with the stored password. */
  function StartSshShell(ip: string, user: string, storedPassword: Option<string>, t: ShellTry): (s: Step)
    ensures !t.confirmed ==> s == Step([Confirm(READY_QUESTION)], Returned)
    ensures t.confirmed ==> s.result == t.session && OpenShell(ip, user, storedPassword) in s.events
    ensures forall e :: e in s.events && e.OpenShell? ==> e == OpenShell(ip, user, storedPassword)
  {
    if !t.confirmed then Step([Confirm(READY_QUESTION)], Returned)
    else Step([Confirm(READY_QUESTION), ClearScreen, OpenShell(ip, user, storedPassword)], t.session)
  }

  function ShellSteps(ip: string, user: string, storedPassword: Option<string>, tries: nat -> ShellTry): nat -> Step {
    (k: nat) => StartSshShell(ip, user, storedPassword, tries(k))
  }

  /** Every login attempt of the loop uses the address, the user and the
      locally stored password it was given. */
  lemma {:induction false} ShellUsesStoredPassword(ip: string, user: string, pw: Option<string>,
                                                   tries: nat -> ShellTry, k: nat)
    ensures forall e :: e in Retry(ShellSteps(ip, user, pw, tries), k).run.events && e.OpenShell? ==>
              e == OpenShell(ip, user, pw)
    decreases MAX_ATTEMPTS - k
  {
    var steps := ShellSteps(ip, user, pw, tries);
    if k < MAX_ATTEMPTS {
      assert steps(k) == StartSshShell(ip, user, pw, tries(k));
      RetryUnfold(steps, k);
    }
    if k < MAX_ATTEMPTS && NoRoute(steps(k).result) {
      ShellUsesStoredPassword(ip, user, pw, tries, k + 1);
    }
  }

  /** handle_ssh: refused on Windows before any attempt; otherwise the retry loop
      over start_ssh_shell. Running out of attempts returns normally. */
  method HandleSsh(ip: string, user: string, storedPassword: Option<string>, system: string,
                   tries: nat -> ShellTry)
    returns (r: Run<()>, attempts: nat, sleeps: nat)
    ensures system == "Windows" ==> r == Run([], Raised(RuntimeError(WINDOWS_REFUSED))) && attempts == 0 && sleeps == 0
    ensures system != "Windows" ==>
              var loop := Retry(ShellSteps(ip, user, storedPassword, tries), 0);
              r == After([Echo(CHECKING)], loop.run) && attempts == loop.attempts && sleeps == loop.sleeps
  {
    if system == "Windows" {
      return Run([], Raised(RuntimeError(WINDOWS_REFUSED))), 0, 0;
    }
    ghost var steps := ShellSteps(ip, user, storedPassword, tries);
    var events: seq<Event> := [];
    var outcome: Outcome<()> := Ok(());
    attempts, sleeps := 0, 0;
    for i := 0 to MAX_ATTEMPTS
      invariant attempts == i && sleeps == i && outcome == Ok(())
      invariant Retry(steps, 0) == Glue(events, i, Retry(steps, i))
    {
      var s := StartSshShell(ip, user, storedPassword, tries(i));
      assert s == steps(i);
      RetryUnfold(steps, i);
      ghost var before := events;
      events := events + s.events;
      attempts := attempts + 1;
      if s.result.Returned? {
        assert Retry(steps, 0) == Retried(Run(events, outcome), attempts, sleeps);
        break;
      } else if s.result.SocketFailure? {
        if Contains(s.result.strerror, NO_ROUTE) {
          events := events + [Sleep(SSH_TIMEOUT)];
          sleeps := sleeps + 1;
          GlueGlue(before, i, s.events + [Sleep(SSH_TIMEOUT)], Retry(steps, i + 1));
          assert before + (s.events + [Sleep(SSH_TIMEOUT)]) == events;
        } else {
          outcome := Raised(SocketError(s.result.strerror));
          assert Retry(steps, 0) == Retried(Run(events, outcome), attempts, sleeps);
          break;
        }
      } else {
        outcome := Raised(Unexpected(s.result.name));
        assert Retry(steps, 0) == Retried(Run(events, outcome), attempts, sleeps);
        break;
      }
    }
    assert Retry(steps, 0) == Retried(Run(events, outcome), attempts, sleeps) by {
      if attempts == MAX_ATTEMPTS {
        assert events + [] == events;
      }
    }
    r := Run([Echo(CHECKING)] + events, outcome);
  }
}
