/** The `run` command (cfde_client/main.py, lines 39-139): load the client
    state, settle on the author email, start the Flow through the remote
    client, and, after a successful start that is not a dry run, record the
    Flow's identifiers and links in the state and write it back. */
module RunCommand {
  import opened PyValues
  import opened PyText
  import opened EmailResolution
  import opened FlowLinks
  import opened RunEvents

  /** The options of `run` that the modelled logic reads. */
  datatype RunArgs = RunArgs(authorEmail: Option<string>, dryRun: bool, serviceInstance: Option<string>)

  /** The state as `run` has it at line 73: a missing file is an empty state,
      an unparsable one raises out of `json.load`, and a document that is not
      an object fails at `state.get`. */
  function LoadState(file: StoredFile): Result<map<string, Json>> {
    match file
    case Missing => Ok(map[])
    case Unparsable => Err(PyExc(JSONDecodeError, []))
    case Parsed(doc) => if doc.JObj? then Ok(doc.fields) else Err(PyExc(AttributeError, []))
  }

  /** Line 95: the email is put into the in-memory state only when the user
      asked for it to be saved. */
  function Stage(loaded: map<string, Json>, d: Decision): map<string, Json> {
    if d.save then loaded["author_email" := d.email] else loaded
  }

  /** How the part of `run` after the email step ends: its termination, its
      events, the in-memory state and what it wrote to the state file. */
  datatype Tail = Tail(termination: Termination, events: seq<Event>,
                       memory: map<string, Json>, written: Option<map<string, Json>>)

  /** Lines 121-139: derive the links, overwrite the five Flow keys one after
      the other, write the state and show the links. A missing key raises
      `KeyError` and a destination that is not a string raises `TypeError`, in
      the middle of the updates and before anything is written. */
  function Commit(config: Config, staged: map<string, Json>, serviceInstance: Option<string>,
                  res: Json): Tail
  {
    match Subscript(res, "fair_re_dest_path")
    case Err(e) => Tail(Crashed(e), [], staged, None)
    case Ok(dest) =>
      if !dest.JStr? then Tail(Crashed(PyExc(TypeError, [])), [], staged, None)
      else
        var links := DeriveLinks(config, dest.s);
        var m1 := staged["service_instance" := FromOption(serviceInstance)];
        match Subscript(res, "flow_id")
        case Err(e) => Tail(Crashed(e), [], m1, None)
        case Ok(flowId) =>
          var m2 := m1["flow_id" := flowId];
          match Subscript(res, "flow_instance_id")
          case Err(e) => Tail(Crashed(e), [], m2, None)
          case Ok(instanceId) =>
            var m := m2["flow_instance_id" := instanceId]["http_link" := JStr(links.httpLink)]
                       ["globus_web_link" := JStr(links.globusWebLink)];
            Tail(Finished, [BagAvailable(links.filename, links.globusWebLink),
                            HttpAvailable(links.httpLink)], m, Some(m))
  }

  /** Lines 112-139: what happens once the client call has raised or returned. */
  function AfterStart(args: RunArgs, config: Config, staged: map<string, Json>,
                      start: ClientCall): Tail
  {
    match start
    case Raised(e) =>
      if IsException(e) then Tail(Finished, [StartFailed(e)], staged, None)
      else Tail(Crashed(e), [], staged, None)
    case Returned(res) =>
      match Subscript(res, "success")
      case Err(e) => Tail(Crashed(e), [], staged, None)
      case Ok(success) =>
        if !Truthy(success) then
          match Subscript(res, "error")
          case Err(e) => Tail(Crashed(e), [], staged, None)
          case Ok(error) => Tail(Finished, [StartupError(error)], staged, None)
        else
          match Subscript(res, "message")
          case Err(e) => Tail(Crashed(e), [], staged, None)
          case Ok(message) =>
            if args.dryRun then Tail(Finished, [FlowMessage(message)], staged, None)
            else
              var c := Commit(config, staged, args.serviceInstance, res);
              Tail(c.termination, [FlowMessage(message)] + c.events, c.memory, c.written)
  }

  /** How a whole `run` goes: its termination, its events, the number of input
      lines it read, the in-memory state if it got as far as binding one, and
      what it wrote to the state file. */
  datatype RunTrace = RunTrace(termination: Termination, events: seq<Event>, consumed: nat,
                               memory: Option<map<string, Json>>,
                               written: Option<map<string, Json>>)

  /** `run` from line 76 on, given the state it loaded and the outcome of the
      email step. */
  function RunFrom(args: RunArgs, config: Config, loaded: map<string, Json>, step: EmailStep,
                   start: ClientCall): RunTrace
  {
    match step.outcome
    case Err(e) => RunTrace(Crashed(e), step.notices, step.consumed, Some(loaded), None)
    case Ok(d) =>
      var tail := AfterStart(args, config, Stage(loaded, d), start);
      RunTrace(tail.termination,
               step.notices + [StartFlow(d.email, args.serviceInstance, args.dryRun)] + tail.events,
               step.consumed, Some(tail.memory), tail.written)
  }

  /** The email step of `run`, on the state it loaded. */
  function EmailStepOf(args: RunArgs, loaded: map<string, Json>, lines: seq<string>): EmailStep {
    ResolveEmail(args.authorEmail, Get(loaded, "author_email"), lines)
  }

  /** The specification of `run`, step by step as the source takes them. */
  function RunSpec(args: RunArgs, config: Config, file: StoredFile, lines: seq<string>,
                   start: ClientCall): RunTrace
  {
    match LoadState(file)
    case Err(e) => RunTrace(Crashed(e), [], 0, None, None)
    case Ok(loaded) => RunFrom(args, config, loaded, EmailStepOf(args, loaded, lines), start)
  }

  lemma AppendAssoc<T>(a: seq<T>, b: seq<T>, c: seq<T>, d: seq<T>)
    ensures a + b + c + d == a + (b + c + d)
  {
  }

  /** One invocation of `run`: the state file on disk, the `state` dict, what
      standard input has left, and everything shown so far. */
  class Invocation {
    var stateFile: StoredFile
    var state: map<string, Json>
    var stdinLines: seq<string>
    var events: seq<Event>

    constructor (file: StoredFile, lines: seq<string>)
      ensures stateFile == file && stdinLines == lines
      ensures state == map[] && events == []
    {
      stateFile := file;
      state := map[];
      stdinLines := lines;
      events := [];
    }

    /** Lines 121-139, on the in-memory state. */
    method Record(config: Config, serviceInstance: Option<string>, res: Json) returns (t: Termination)
      modifies this
      ensures var c := Commit(config, old(state), serviceInstance, res);
        t == c.termination && state == c.memory && events == old(events) + c.events
        && stateFile == (if c.written.Some? then Parsed(JObj(c.written.value)) else old(stateFile))
      ensures stdinLines == old(stdinLines)
    {
      var dest := Subscript(res, "fair_re_dest_path");
      if dest.Err? {
        return Crashed(dest.error);
      }
      if !dest.value.JStr? {
        return Crashed(PyExc(TypeError, []));
      }
      var links := DeriveLinks(config, dest.value.s);
      state := state["service_instance" := FromOption(serviceInstance)];
      var flowId := Subscript(res, "flow_id");
      if flowId.Err? {
        return Crashed(flowId.error);
      }
      state := state["flow_id" := flowId.value];
      var instanceId := Subscript(res, "flow_instance_id");
      if instanceId.Err? {
        return Crashed(instanceId.error);
      }
      state := state["flow_instance_id" := instanceId.value];
      state := state["http_link" := JStr(links.httpLink)];
      state := state["globus_web_link" := JStr(links.globusWebLink)];
      stateFile := Parsed(JObj(state));
      events := events + [BagAvailable(links.filename, links.globusWebLink),
                          HttpAvailable(links.httpLink)];
      t := Finished;
    }

    /** Lines 112-139: react to the client call's outcome. */
    method Conclude(args: RunArgs, config: Config, start: ClientCall) returns (t: Termination)
      modifies this
      ensures var a := AfterStart(args, config, old(state), start);
        t == a.termination && state == a.memory && events == old(events) + a.events
        && stateFile == (if a.written.Some? then Parsed(JObj(a.written.value)) else old(stateFile))
      ensures stdinLines == old(stdinLines)
    {
      if start.Raised? {
        if !IsException(start.exc) {
          return Crashed(start.exc);
        }
        events := events + [StartFailed(start.exc)];
        return Finished;
      }
      var res := start.value;
      var success := Subscript(res, "success");
      if success.Err? {
        return Crashed(success.error);
      }
      if !Truthy(success.value) {
        var error := Subscript(res, "error");
        if error.Err? {
          return Crashed(error.error);
        }
        events := events + [StartupError(error.value)];
        return Finished;
      }
      var message := Subscript(res, "message");
      if message.Err? {
        return Crashed(message.error);
      }
      events := events + [FlowMessage(message.value)];
      if args.dryRun {
        return Finished;
      }
      t := Record(config, args.serviceInstance, res);
    }

    /** Lines 76-139: apply the email step, call the client and react. */
    method Proceed(args: RunArgs, config: Config, step: EmailStep, start: ClientCall)
      returns (t: Termination)
      requires step.consumed <= |stdinLines|
      modifies this
      ensures var s := RunFrom(args, config, old(state), step, start);
        t == s.termination && events == old(events) + s.events
        && stdinLines == old(stdinLines)[step.consumed..]
        && state == s.memory.value
        && stateFile == (if s.written.Some? then Parsed(JObj(s.written.value)) else old(stateFile))
    {
      events := events + step.notices;
      stdinLines := stdinLines[step.consumed..];
      if step.outcome.Err? {
        return Crashed(step.outcome.error);
      }
      var authorEmail := step.outcome.value.email;
      if step.outcome.value.save {
        state := state["author_email" := authorEmail];
      }
      var startFlow := StartFlow(authorEmail, args.serviceInstance, args.dryRun);
      events := events + [startFlow];
      ghost var tail := AfterStart(args, config, state, start);
      t := Conclude(args, config, start);
      AppendAssoc(old(events), step.notices, [startFlow], tail.events);
    }

    /** The whole command. */
    method Run(args: RunArgs, config: Config, start: ClientCall) returns (t: Termination)
      modifies this
      ensures var spec := RunSpec(args, config, old(stateFile), old(stdinLines), start);
        t == spec.termination
        && events == old(events) + spec.events
        && spec.consumed <= |old(stdinLines)|
        && stdinLines == old(stdinLines)[spec.consumed..]
        && state == (if spec.memory.Some? then spec.memory.value else old(state))
        && stateFile == (if spec.written.Some? then Parsed(JObj(spec.written.value)) else old(stateFile))
    {
      var loaded := LoadState(stateFile);
      if loaded.Err? {
        return Crashed(loaded.error);
      }
      state := loaded.value;
      var step := EmailStepOf(args, state, stdinLines);
      t := Proceed(args, config, step, start);
    }
  }

  // ---------------------------------------------------------------------------
  // Properties of a run

  /** A client result that lets a non-dry run get all the way to the write. */
  predicate Complete(res: Json) {
    res.JObj?
    && (forall key :: key in ["success", "message", "fair_re_dest_path", "flow_id", "flow_instance_id"]
          ==> key in res.fields)
    && Truthy(res.fields["success"])
    && res.fields["fair_re_dest_path"].JStr?
  }

  /** After loading, the file is written exactly when the email step settled,
      the client returned a successful and complete result, and this is not a
      dry run; a written file always comes with a normal finish. */
  lemma WrittenIffFrom(args: RunArgs, config: Config, loaded: map<string, Json>, step: EmailStep,
                       start: ClientCall)
    ensures var s := RunFrom(args, config, loaded, step, start);
      (s.written.Some? <==> step.outcome.Ok? && !args.dryRun && start.Returned? && Complete(start.value))
      && (s.written.Some? ==> s.termination == Finished)
  {
    if start.Returned? && start.value.JObj? {
      var f := start.value.fields;
      if Complete(start.value) {
        assert "flow_id" in f && "flow_instance_id" in f && "message" in f;
      } else if "success" in f && "message" in f && "fair_re_dest_path" in f
                && "flow_id" in f && "flow_instance_id" in f {
        assert !Truthy(f["success"]) || !f["fair_re_dest_path"].JStr?;
      }
    }
  }

  /** The state file is written exactly when the state loaded, the email step
      settled, the client returned a successful and complete result, and this
      is not a dry run; a written file always comes with a normal finish. */
  lemma WrittenIff(args: RunArgs, config: Config, file: StoredFile, lines: seq<string>,
                   start: ClientCall)
    ensures var s := RunSpec(args, config, file, lines, start);
      (s.written.Some? <==>
        LoadState(file).Ok? && EmailStepOf(args, LoadState(file).value, lines).outcome.Ok?
        && !args.dryRun && start.Returned? && Complete(start.value))
      && (s.written.Some? ==> s.termination == Finished)
  {
    if LoadState(file).Ok? {
      var loaded := LoadState(file).value;
      WrittenIffFrom(args, config, loaded, EmailStepOf(args, loaded, lines), start);
    }
  }

  /** A dry run never writes the state file. */
  lemma DryRunNeverWrites(args: RunArgs, config: Config, file: StoredFile, lines: seq<string>,
                          start: ClientCall)
    requires args.dryRun
    ensures RunSpec(args, config, file, lines, start).written.None?
  {
    WrittenIff(args, config, file, lines, start);
  }

  /** An exception from the client is reported and ends the command normally,
      with nothing written. */
  lemma ClientExceptionReported(args: RunArgs, config: Config, file: StoredFile,
                                lines: seq<string>, e: PyExc)
    requires IsException(e)
    requires LoadState(file).Ok? && EmailStepOf(args, LoadState(file).value, lines).outcome.Ok?
    ensures var s := RunSpec(args, config, file, lines, Raised(e));
      s.termination == Finished && s.written.None?
      && |s.events| > 0 && s.events[|s.events| - 1] == StartFailed(e)
  {
  }

  /** A result with a falsy "success" is reported through its "error" and
      ends the command normally, with nothing written. */
  lemma FailedStartReported(args: RunArgs, config: Config, file: StoredFile,
                            lines: seq<string>, res: map<string, Json>)
    requires "success" in res && !Truthy(res["success"]) && "error" in res
    requires LoadState(file).Ok? && EmailStepOf(args, LoadState(file).value, lines).outcome.Ok?
    ensures var s := RunSpec(args, config, file, lines, Returned(JObj(res)));
      s.termination == Finished && s.written.None?
      && |s.events| > 0 && s.events[|s.events| - 1] == StartupError(res["error"])
  {
  }

  /** The keys a run may overwrite. */
  const RunKeys: set<string> :=
    {"author_email", "service_instance", "flow_id", "flow_instance_id", "http_link",
     "globus_web_link"}

  /** The map a run writes, given the loaded state, the email decision and
      the client's result. */
  predicate MergedState(m: map<string, Json>, loaded: map<string, Json>, d: Decision,
                        config: Config, si: Option<string>, res: map<string, Json>)
    requires "fair_re_dest_path" in res && res["fair_re_dest_path"].JStr?
  {
    var links := DeriveLinks(config, res["fair_re_dest_path"].s);
    m.Keys == loaded.Keys + {"service_instance", "flow_id", "flow_instance_id", "http_link",
                             "globus_web_link"} + (if d.save then {"author_email"} else {})
    && (forall k :: k in loaded && k !in RunKeys ==> m[k] == loaded[k])
    && "flow_id" in res && "flow_instance_id" in res
    && m["service_instance"] == FromOption(si)
    && m["flow_id"] == res["flow_id"]
    && m["flow_instance_id"] == res["flow_instance_id"]
    && m["http_link"] == JStr(links.httpLink)
    && m["globus_web_link"] == JStr(links.globusWebLink)
    && (d.save ==> m["author_email"] == d.email)
    && (!d.save && "author_email" in loaded ==> m["author_email"] == loaded["author_email"])
  }

  lemma WrittenStateMergesFrom(args: RunArgs, config: Config, loaded: map<string, Json>,
                               step: EmailStep, start: ClientCall)
    requires RunFrom(args, config, loaded, step, start).written.Some?
    ensures step.outcome.Ok? && start.Returned? && Complete(start.value)
    ensures MergedState(RunFrom(args, config, loaded, step, start).written.value, loaded,
                        step.outcome.value, config, args.serviceInstance, start.value.fields)
  {
    WrittenIffFrom(args, config, loaded, step, start);
    var d := step.outcome.value;
    var staged := Stage(loaded, d);
    var res := start.value;
    assert RunFrom(args, config, loaded, step, start).written
        == Commit(config, staged, args.serviceInstance, res).written;
    CommitWrites(config, staged, args.serviceInstance, res);
    MergeChain(loaded, d, config, args.serviceInstance, res.fields,
               RunFrom(args, config, loaded, step, start).written.value);
  }

  /** Setting the five Flow keys on the staged state gives a merged state. */
  lemma MergeChain(loaded: map<string, Json>, d: Decision, config: Config, si: Option<string>,
                   res: map<string, Json>, m: map<string, Json>)
    requires "fair_re_dest_path" in res && res["fair_re_dest_path"].JStr?
    requires "flow_id" in res && "flow_instance_id" in res
    requires var links := DeriveLinks(config, res["fair_re_dest_path"].s);
      m == Stage(loaded, d)["service_instance" := FromOption(si)]["flow_id" := res["flow_id"]]
             ["flow_instance_id" := res["flow_instance_id"]]["http_link" := JStr(links.httpLink)]
             ["globus_web_link" := JStr(links.globusWebLink)]
    ensures MergedState(m, loaded, d, config, si, res)
  {
  }

  /** The map `Commit` writes: the staged state with the five Flow keys set in order. */
  lemma CommitWrites(config: Config, staged: map<string, Json>, serviceInstance: Option<string>, res: Json)
    requires Commit(config, staged, serviceInstance, res).written.Some?
    ensures res.JObj? && "fair_re_dest_path" in res.fields && res.fields["fair_re_dest_path"].JStr?
    ensures "flow_id" in res.fields && "flow_instance_id" in res.fields
    ensures var links := DeriveLinks(config, res.fields["fair_re_dest_path"].s);
      Commit(config, staged, serviceInstance, res).written.value
      == staged["service_instance" := FromOption(serviceInstance)]["flow_id" := res.fields["flow_id"]]
               ["flow_instance_id" := res.fields["flow_instance_id"]]["http_link" := JStr(links.httpLink)]
               ["globus_web_link" := JStr(links.globusWebLink)]
  {
  }

  /** What a successful run writes: the loaded state with the five Flow keys
      overwritten, plus the email when it was staged; every other key keeps
      its loaded value, and no key is dropped. */
  lemma WrittenStateMerges(args: RunArgs, config: Config, file: StoredFile, lines: seq<string>,
                           start: ClientCall)
    requires RunSpec(args, config, file, lines, start).written.Some?
    ensures LoadState(file).Ok? && EmailStepOf(args, LoadState(file).value, lines).outcome.Ok?
    ensures start.Returned? && Complete(start.value)
    ensures MergedState(RunSpec(args, config, file, lines, start).written.value,
                        LoadState(file).value, EmailStepOf(args, LoadState(file).value, lines).outcome.value,
                        config, args.serviceInstance, start.value.fields)
  {
    var loaded := LoadState(file).value;
    WrittenStateMergesFrom(args, config, loaded, EmailStepOf(args, loaded, lines), start);
  }

  /** An email given on the command line with no saved email, or the same
      email saved, makes `run` fail at line 94: before any prompt, before the
      client is called, and with nothing written. */
  lemma UnboundSaveEmailStopsRun(args: RunArgs, config: Config, file: StoredFile,
                                 lines: seq<string>, start: ClientCall)
    requires args.authorEmail.Some? && LoadState(file).Ok?
    requires var saved := Get(LoadState(file).value, "author_email");
      saved == JNull || saved == JStr(args.authorEmail.value)
    ensures RunSpec(args, config, file, lines, start)
      == RunTrace(Crashed(SaveEmailUnbound), [], 0, Some(LoadState(file).value), None)
  {
  }

  /** The client is called at most once, and only with the email the email
      step settled on, right after the step's own prompts. */
  lemma ClientSeesResolvedEmailFrom(args: RunArgs, config: Config, loaded: map<string, Json>,
                                    step: EmailStep, start: ClientCall, k: nat)
    requires forall j :: 0 <= j < |step.notices| ==> !step.notices[j].StartFlow?
    requires var s := RunFrom(args, config, loaded, step, start);
      k < |s.events| && s.events[k].StartFlow?
    ensures step.outcome.Ok?
    ensures RunFrom(args, config, loaded, step, start).events[k]
         == StartFlow(step.outcome.value.email, args.serviceInstance, args.dryRun)
    ensures k == |step.notices|
  {
    if step.outcome.Ok? {
      var tail := AfterStart(args, config, Stage(loaded, step.outcome.value), start);
      assert forall j :: 0 <= j < |tail.events| ==> !tail.events[j].StartFlow?;
    }
  }

  /** The client is called at most once, and only with the email the email
      step settled on, right after the step's own prompts. */
  lemma ClientSeesResolvedEmail(args: RunArgs, config: Config, file: StoredFile,
                                lines: seq<string>, start: ClientCall, k: nat)
    requires var s := RunSpec(args, config, file, lines, start);
      k < |s.events| && s.events[k].StartFlow?
    ensures LoadState(file).Ok?
    ensures var step := EmailStepOf(args, LoadState(file).value, lines);
      step.outcome.Ok?
      && RunSpec(args, config, file, lines, start).events[k]
         == StartFlow(step.outcome.value.email, args.serviceInstance, args.dryRun)
      && k == |step.notices|
  {
    var loaded := LoadState(file).value;
    var step := EmailStepOf(args, loaded, lines);
    EmailEventsAreNotices(args.authorEmail, Get(loaded, "author_email"), lines);
    ClientSeesResolvedEmailFrom(args, config, loaded, step, start, k);
  }

  /** The typed email of the first-submission example, and the agreement to save it. */
  lemma FirstSubmissionEmail(lines: seq<string>)
    requires lines == ["  me@example.org ", "y"]
    ensures EmailStepOf(RunArgs(None, false, None), map[], lines).outcome
         == Ok(Decision(JStr("me@example.org"), true))
  {
    assert IsYes("y") by {
      StripPadded([], "y", []);
      assert [] + "y" + [] == "y";
    }
    assert Strip("  me@example.org ") == "me@example.org" by {
      StripPadded("  ", "me@example.org", " ");
      assert "  " + "me@example.org" + " " == "  me@example.org ";
    }
    assert Get(map[], "author_email") == JNull;
    NoEmailPrompts(lines);
    assert lines[0] == "  me@example.org " && lines[1] == "y";
  }

  /** A first submission, with no state file and no email option: the user
      types an email and agrees to save it, and the Flow starts with a
      destination "/public/bag.zip" and ids F9 and I9. The written
      state holds the Flow's ids, an HTTP link ending with the bag's path,
      and the email the user typed. */
  lemma FirstSubmissionExample(config: Config, lines: seq<string>, res: map<string, Json>)
    requires lines == ["  me@example.org ", "y"]
    requires Complete(JObj(res))
    requires res["fair_re_dest_path"] == JStr("/public/bag.zip")
    requires res["flow_id"] == JStr("F9") && res["flow_instance_id"] == JStr("I9")
    ensures var s := RunSpec(RunArgs(None, false, None), config, Missing, lines, Returned(JObj(res)));
      s.termination == Finished && s.written.Some?
      && "flow_id" in s.written.value && s.written.value["flow_id"] == JStr("F9")
      && "flow_instance_id" in s.written.value && s.written.value["flow_instance_id"] == JStr("I9")
      && "author_email" in s.written.value && s.written.value["author_email"] == JStr("me@example.org")
      && "http_link" in s.written.value
      && s.written.value["http_link"] == JStr(config.epUrl + "/public/bag.zip")
  {
    var args := RunArgs(None, false, None);
    FirstSubmissionEmail(lines);
    var step := EmailStepOf(args, map[], lines);
    var start := Returned(JObj(res));
    RunOnFirstUse(args, config, lines, start);
    SavedRun(args, config, map[], step, JStr("me@example.org"), res);
  }

  /** With no state file, a run starts from the empty state. */
  lemma RunOnFirstUse(args: RunArgs, config: Config, lines: seq<string>, start: ClientCall)
    ensures RunSpec(args, config, Missing, lines, start)
         == RunFrom(args, config, map[], EmailStepOf(args, map[], lines), start)
  {
  }

  /** A run that stages `email` and gets back a complete result writes the
      Flow's ids, the HTTP link to the destination, and the email. */
  lemma SavedRun(args: RunArgs, config: Config, loaded: map<string, Json>, step: EmailStep,
                 email: Json, res: map<string, Json>)
    requires step.outcome == Ok(Decision(email, true)) && !args.dryRun && Complete(JObj(res))
    ensures var s := RunFrom(args, config, loaded, step, Returned(JObj(res)));
      s.termination == Finished && s.written.Some?
      && "flow_id" in s.written.value && s.written.value["flow_id"] == res["flow_id"]
      && "flow_instance_id" in s.written.value
      && s.written.value["flow_instance_id"] == res["flow_instance_id"]
      && "author_email" in s.written.value && s.written.value["author_email"] == email
      && "http_link" in s.written.value
      && s.written.value["http_link"] == JStr(config.epUrl + res["fair_re_dest_path"].s)
  {
    WrittenIffFrom(args, config, loaded, step, Returned(JObj(res)));
    WrittenStateMergesFrom(args, config, loaded, step, Returned(JObj(res)));
  }

  /** With the intended email decision, an email given on the command line
      with no conflicting saved one reaches the client as given, is not
      staged, and no question is asked. */
  lemma IntendedRunUsesProvided(args: RunArgs, config: Config, loaded: map<string, Json>,
                                lines: seq<string>, start: ClientCall)
    requires args.authorEmail.Some?
    requires var saved := Get(loaded, "author_email");
      saved == JNull || saved == JStr(args.authorEmail.value)
    ensures var s := RunFrom(args, config, loaded,
                             ResolveEmailIntended(args.authorEmail, Get(loaded, "author_email"), lines), start);
      s.consumed == 0 && |s.events| > 0
      && s.events[0] == StartFlow(JStr(args.authorEmail.value), args.serviceInstance, args.dryRun)
      && (s.written.Some? ==> Get(s.written.value, "author_email") == Get(loaded, "author_email"))
  {
    IntendedUsesProvided(args.authorEmail.value, Get(loaded, "author_email"), lines);
    UnstagedRun(args, config, loaded, ResolveEmailIntended(args.authorEmail, Get(loaded, "author_email"), lines),
                JStr(args.authorEmail.value), start);
  }

  /** A run whose email step settles on `email` without staging it or asking
      anything calls the client first, and keeps the saved email as loaded. */
  lemma UnstagedRun(args: RunArgs, config: Config, loaded: map<string, Json>, step: EmailStep,
                    email: Json, start: ClientCall)
    requires step == EmailStep(Ok(Decision(email, false)), [], 0)
    ensures var s := RunFrom(args, config, loaded, step, start);
      s.consumed == 0 && |s.events| > 0
      && s.events[0] == StartFlow(email, args.serviceInstance, args.dryRun)
      && (s.written.Some? ==> Get(s.written.value, "author_email") == Get(loaded, "author_email"))
  {
    var s := RunFrom(args, config, loaded, step, start);
    var tail := AfterStart(args, config, Stage(loaded, step.outcome.value), start);
    assert s.events == [StartFlow(email, args.serviceInstance, args.dryRun)] + tail.events;
    if s.written.Some? {
      UnstagedKeepsEmail(args, config, loaded, step, email, start);
    }
  }

  lemma UnstagedKeepsEmail(args: RunArgs, config: Config, loaded: map<string, Json>, step: EmailStep,
                           email: Json, start: ClientCall)
    requires step.outcome == Ok(Decision(email, false))
    requires RunFrom(args, config, loaded, step, start).written.Some?
    ensures Get(RunFrom(args, config, loaded, step, start).written.value, "author_email")
         == Get(loaded, "author_email")
  {
    WrittenStateMergesFrom(args, config, loaded, step, start);
    var m := RunFrom(args, config, loaded, step, start).written.value;
    if "author_email" in loaded {
      assert m["author_email"] == loaded["author_email"];
    } else {
      assert "author_email" !in m;
    }
  }
}
