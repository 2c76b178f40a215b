/** What one command leaves in the client state file for the next: the state
    `run` writes is loaded back unchanged, and the next `run` and `status`
    pick up the saved email and the Flow's ids from it. */
module SessionState {
  import opened PyValues
  import opened FlowLinks
  import opened RunEvents
  import opened EmailResolution
  import opened RunCommand
  import opened StatusCommand

  /** Loading the file a successful `run` wrote gives back the map it wrote,
      which is the state it loaded merged with the Flow keys and the staged
      email. */
  lemma SaveThenLoad(args: RunArgs, config: Config, file: StoredFile, lines: seq<string>,
                     start: ClientCall)
    requires RunSpec(args, config, file, lines, start).written.Some?
    ensures LoadState(file).Ok? && EmailStepOf(args, LoadState(file).value, lines).outcome.Ok?
    ensures start.Returned? && Complete(start.value)
    ensures var m := RunSpec(args, config, file, lines, start).written.value;
      LoadState(Parsed(JObj(m))) == Ok(m)
      && MergedState(m, LoadState(file).value, EmailStepOf(args, LoadState(file).value, lines).outcome.value,
                     config, args.serviceInstance, start.value.fields)
  {
    WrittenStateMerges(args, config, file, lines, start);
  }

  /** An email saved by a successful `run` is used by the next `run` that is
      given no email, without asking. */
  lemma SavedEmailUsedNextRun(args: RunArgs, config: Config, file: StoredFile, lines: seq<string>,
                              start: ClientCall, next: RunArgs, nextLines: seq<string>)
    requires RunSpec(args, config, file, lines, start).written.Some?
    requires LoadState(file).Ok? && EmailStepOf(args, LoadState(file).value, lines).outcome.Ok?
    requires EmailStepOf(args, LoadState(file).value, lines).outcome.value.save
    requires next.authorEmail.None?
    ensures var m := RunSpec(args, config, file, lines, start).written.value;
      var d := EmailStepOf(args, LoadState(file).value, lines).outcome.value;
      EmailStepOf(next, m, nextLines) == EmailStep(Ok(Decision(d.email, false)), [UsingSaved(d.email)], 0)
  {
    var loaded := LoadState(file).value;
    var d := EmailStepOf(args, loaded, lines).outcome.value;
    var m := RunSpec(args, config, file, lines, start).written.value;
    WrittenStateMerges(args, config, file, lines, start);
    assert Get(m, "author_email") == d.email;
  }

  /** A `status` given no ids, after a successful `run`, asks about the Flow
      run that was started, through the service instance it was started on. */
  lemma StatusFindsStartedFlow(args: RunArgs, config: Config, file: StoredFile, lines: seq<string>,
                               start: ClientCall, raw: bool)
    requires RunSpec(args, config, file, lines, start).written.Some?
    ensures start.Returned? && Complete(start.value)
    ensures var m := RunSpec(args, config, file, lines, start).written.value;
      var f, i := start.value.fields["flow_id"], start.value.fields["flow_instance_id"];
      var r := ResolveFlowIds(StatusArgs(None, None, raw), Parsed(JObj(m)));
      (Truthy(f) && Truthy(i) ==> r == Resolved(f, i, Some(FromOption(args.serviceInstance))))
      && (!(Truthy(f) && Truthy(i)) ==> r == NotStarted)
  {
    WrittenStateMerges(args, config, file, lines, start);
  }
}
