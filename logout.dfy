/** The `logout` probe (cfde_client/main.py, lines 193-225): with standard
    input replaced by a single blank line and standard output by a discarding
    sink, a client is built and asked to revoke its tokens; an "invalid grant"
    failure means there was nothing to revoke, and the process streams are put
    back on every path. */
module LogoutCommand {
  import opened PyValues

  /** What `sys.stdin` or `sys.stdout` refers to. */
  datatype Stream =
    /** A stream the process had before the probe, told apart by a token. */
    | Inherited(token: nat)
    /** `StringIO("\n")`. */
    | BlankLineInput
    /** The file opened on `os.devnull`; `open` is false once the `with` block closed it. */
    | DevNullSink(open: bool)

  datatype Message = LoggingOut | LoggedOut

  datatype LogoutEvent =
    | Wrote(stream: Stream, message: Message)
    /** `CfdeClient(no_browser=True)` runs with these streams in place. */
    | ClientBuilt(stdin: Stream, stdout: Stream)
    /** `client.logout()` runs with these streams in place. */
    | TokensRevoked(stdin: Stream, stdout: Stream)

  /** The failure the handler at lines 214-218 lets pass: an `Exception`
      whose third argument is the string "invalid_grant". */
  predicate Swallowed(e: PyExc) {
    IsException(e) && |e.args| >= 3 && e.args[2] == JStr("invalid_grant")
  }

  datatype LogoutTrace = LogoutTrace(termination: Termination, events: seq<LogoutEvent>)

  /** The probe as a function of the streams in place when it starts and of
      what building the client and revoking its tokens do (`Some(e)`: raise `e`). */
  function LogoutSpec(stdin: Stream, stdout: Stream, build: Option<PyExc>, revoke: Option<PyExc>): LogoutTrace {
    var start := [Wrote(stdout, LoggingOut), ClientBuilt(BlankLineInput, DevNullSink(true))];
    var calls := if build.None? then start + [TokensRevoked(BlankLineInput, DevNullSink(false))] else start;
    var failure := if build.Some? then build else revoke;
    if failure.Some? && !Swallowed(failure.value) then LogoutTrace(Crashed(failure.value), calls)
    else LogoutTrace(Finished, calls + [Wrote(stdout, LoggedOut)])
  }

  /** The process's standard streams and what has happened to them. */
  class Probe {
    var stdin: Stream
    var stdout: Stream
    var events: seq<LogoutEvent>

    constructor (stdin0: Stream, stdout0: Stream)
      ensures stdin == stdin0 && stdout == stdout0 && events == []
    {
      stdin := stdin0;
      stdout := stdout0;
      events := [];
    }

    /** Lines 195-225. On every path the streams end as they began. */
    method Logout(build: Option<PyExc>, revoke: Option<PyExc>) returns (t: Termination)
      modifies this
      ensures stdin == old(stdin) && stdout == old(stdout)
      ensures t == LogoutSpec(old(stdin), old(stdout), build, revoke).termination
      ensures events == old(events) + LogoutSpec(old(stdin), old(stdout), build, revoke).events
    {
      events := events + [Wrote(stdout, LoggingOut)];
      var oldStdin := stdin;
      stdin := BlankLineInput;
      var oldStdout := stdout;
      stdout := DevNullSink(true);
      events := events + [ClientBuilt(stdin, stdout)];
      var failure := build;
      // Leaving the `with` block closes the sink `sys.stdout` still refers to.
      stdout := DevNullSink(false);
      if failure.None? {
        events := events + [TokensRevoked(stdin, stdout)];
        failure := revoke;
      }
      var escaping: Option<PyExc> := None;
      if failure.Some? && !Swallowed(failure.value) {
        escaping := failure;
      }
      stdout := oldStdout;
      stdin := oldStdin;
      if escaping.Some? {
        t := Crashed(escaping.value);
      } else {
        events := events + [Wrote(stdout, LoggedOut)];
        t := Finished;
      }
    }
  }

  /** The probe ends normally exactly when nothing was raised, or what was
      raised is the "invalid grant" failure; anything else escapes unchanged. */
  lemma SwallowedIff(stdin: Stream, stdout: Stream, build: Option<PyExc>, revoke: Option<PyExc>)
    ensures var t := LogoutSpec(stdin, stdout, build, revoke).termination;
      (t == Finished <==>
        (build.Some? ==> Swallowed(build.value))
        && (build.None? ==> revoke.None? || Swallowed(revoke.value)))
      && (t.Crashed? ==> !Swallowed(t.exc) && (Some(t.exc) == build || (build.None? && Some(t.exc) == revoke)))
  {
  }

  /** "You are logged out." is written exactly on the normal path, as the
      last event, and to the standard output the probe started with. */
  lemma LoggedOutIffFinished(stdin: Stream, stdout: Stream, build: Option<PyExc>, revoke: Option<PyExc>)
    ensures var r := LogoutSpec(stdin, stdout, build, revoke);
      (r.termination == Finished <==> exists k :: 0 <= k < |r.events| && r.events[k].Wrote? && r.events[k].message == LoggedOut)
      && (r.termination == Finished ==> r.events[|r.events| - 1] == Wrote(stdout, LoggedOut))
  {
    var r := LogoutSpec(stdin, stdout, build, revoke);
    if r.termination == Finished {
      assert r.events[|r.events| - 1].Wrote?;
    }
  }

  /** The client only ever runs with the blank-line input and the discarding
      sink in place, and tokens are revoked only by a client that was built. */
  lemma ClientSeesOnlyProbeStreams(stdin: Stream, stdout: Stream, build: Option<PyExc>, revoke: Option<PyExc>, k: nat)
    requires k < |LogoutSpec(stdin, stdout, build, revoke).events|
    ensures var e := LogoutSpec(stdin, stdout, build, revoke).events[k];
      (e.ClientBuilt? ==> e.stdin == BlankLineInput && e.stdout.DevNullSink?)
      && (e.TokensRevoked? ==> e.stdin == BlankLineInput && e.stdout.DevNullSink? && build.None?)
      && (e.Wrote? ==> e.stream == stdout)
  {
  }

  /** With no credentials cached, building the client fails with "invalid
      grant": the probe ends normally, and since it puts the streams back, a
      second run from the same streams does exactly the same. */
  lemma IdempotentWhenLoggedOut(stdin: Stream, stdout: Stream, e1: PyExc, e2: PyExc,
                                r1: Option<PyExc>, r2: Option<PyExc>)
    requires Swallowed(e1) && Swallowed(e2)
    ensures LogoutSpec(stdin, stdout, Some(e1), r1).termination == Finished
    ensures LogoutSpec(stdin, stdout, Some(e1), r1) == LogoutSpec(stdin, stdout, Some(e2), r2)
  {
  }
}
