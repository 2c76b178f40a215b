/** How `run` settles on the author email (cfde_client/main.py, lines 73-92):
    from the email given on the command line, the email saved in the state
    file, and the lines the user types at the prompts. */
module EmailResolution {
  import opened PyValues
  import opened PyText
  import opened RunEvents

  /** The email to submit with, and whether to stage it for saving. */
  datatype Decision = Decision(email: Json, save: bool)

  /** The outcome of the step, what it showed, and how many input lines it read. */
  datatype EmailStep = EmailStep(outcome: Result<Decision>, notices: seq<Event>, consumed: nat)

  /** The error the source raises at line 94 when no branch bound `save_email`. */
  const SaveEmailUnbound: PyExc := PyExc(UnboundLocalError("save_email"), [])

  /** What `input()` raises once standard input is exhausted. */
  const EndOfInput: PyExc := PyExc(EOFError, [])

  /** The email decision as the source writes it. `saved` is
      `state.get("author_email")`, so `JNull` stands for "no saved email";
      `lines` are the lines standard input has left. */
  function ResolveEmail(provided: Option<string>, saved: Json, lines: seq<string>): (r: EmailStep)
    ensures r.consumed <= |lines| && r.consumed <= 2
    ensures r.outcome.Err? ==> r.outcome.error == EndOfInput || r.outcome.error == SaveEmailUnbound
    ensures r.outcome == Err(EndOfInput) ==> r.consumed == |lines|
    ensures provided.Some? && r.outcome.Ok? ==> r.outcome.value.email == JStr(provided.value)
    ensures r.outcome.Ok? && r.outcome.value.save ==> r.outcome.value.email.JStr?
    ensures r.outcome.Ok? ==> r.outcome.value.email != JNull
  {
    match provided
    case Some(p) =>
      if saved != JNull && saved != JStr(p) then
        var ask := [AskReplaceSaved(p, saved)];
        if |lines| == 0 then EmailStep(Err(EndOfInput), ask, 0)
        else EmailStep(Ok(Decision(JStr(p), IsYes(lines[0]))), ask, 1)
      else
        EmailStep(Err(SaveEmailUnbound), [], 0)
    case None =>
      if saved != JNull then
        EmailStep(Ok(Decision(saved, false)), [UsingSaved(saved)], 0)
      else if |lines| == 0 then
        EmailStep(Err(EndOfInput), [AskEmail], 0)
      else
        var email := Strip(lines[0]);
        var asks := [AskEmail, AskSaveNew(email)];
        if |lines| == 1 then EmailStep(Err(EndOfInput), asks, 1)
        else EmailStep(Ok(Decision(JStr(email), IsYes(lines[1]))), asks, 2)
  }

  /** Every line read answers a prompt shown before it: the step reads no more
      lines than it showed prompts, and when it reads any it shows nothing but
      prompts. */
  lemma ReadsOnlyAfterPrompts(provided: Option<string>, saved: Json, lines: seq<string>)
    ensures var r := ResolveEmail(provided, saved, lines);
      r.consumed <= |r.notices|
      && (r.consumed > 0 ==> forall n :: n in r.notices ==> IsPrompt(n))
  {
  }

  /** The email step shows only its own prompts and notice; it never calls
      the client. */
  lemma EmailEventsAreNotices(provided: Option<string>, saved: Json, lines: seq<string>)
    ensures var r := ResolveEmail(provided, saved, lines);
      forall j :: 0 <= j < |r.notices| ==>
        r.notices[j].AskReplaceSaved? || r.notices[j].UsingSaved? || r.notices[j].AskEmail?
        || r.notices[j].AskSaveNew?
  {
  }

  /** Both emails present and different: the provided one is used, one
      question is asked, and the answer alone decides whether it is saved. */
  lemma MismatchUsesProvided(p: string, saved: Json, lines: seq<string>)
    requires saved != JNull && saved != JStr(p) && |lines| >= 1
    ensures var r := ResolveEmail(Some(p), saved, lines);
      r.outcome == Ok(Decision(JStr(p), IsYes(lines[0])))
      && r.notices == [AskReplaceSaved(p, saved)] && r.consumed == 1
      && (r.outcome.value.save <==> Strip(lines[0]) in YesSpellings)
  {
    IsYesSpellings(lines[0]);
  }

  /** No email given but one saved: the saved one is used, not saved again,
      and nothing is asked. */
  lemma SavedEmailUsed(saved: Json, lines: seq<string>)
    requires saved != JNull
    ensures var r := ResolveEmail(None, saved, lines);
      r.outcome == Ok(Decision(saved, false))
      && r.notices == [UsingSaved(saved)] && r.consumed == 0
  {
  }

  /** Neither email exists: the stripped first line is the email and the
      second line decides whether it is saved. */
  lemma NoEmailPrompts(lines: seq<string>)
    requires |lines| >= 2
    ensures var r := ResolveEmail(None, JNull, lines);
      r.outcome == Ok(Decision(JStr(Strip(lines[0])), IsYes(lines[1])))
      && r.notices == [AskEmail, AskSaveNew(Strip(lines[0]))] && r.consumed == 2
      && Trimmed(Strip(lines[0]))
  {
    StripTrimmed(lines[0]);
  }

  /** An email given on the command line with no saved email, or the same one
      saved: no branch binds `save_email` and the step fails without asking. */
  lemma ProvidedWithoutConflictFails(p: string, saved: Json, lines: seq<string>)
    requires saved == JNull || saved == JStr(p)
    ensures ResolveEmail(Some(p), saved, lines) == EmailStep(Err(SaveEmailUnbound), [], 0)
  {
  }

  /** An email given with no saved one: `--email a@x` on a first run. */
  lemma FirstRunWithEmailFails()
    ensures ResolveEmail(Some("a@x"), JNull, []).outcome == Err(SaveEmailUnbound)
  {
  }

  /** The decision as intended: an email given on the command line that does
      not conflict with the saved one is used and not saved again. */
  function ResolveEmailIntended(provided: Option<string>, saved: Json, lines: seq<string>): (r: EmailStep)
    ensures r.outcome.Err? ==> r.outcome.error == EndOfInput && r.consumed == |lines|
    ensures provided.Some? && r.outcome.Ok? ==> r.outcome.value.email == JStr(provided.value)
  {
    match provided
    case Some(p) =>
      if saved != JNull && saved != JStr(p) then ResolveEmail(provided, saved, lines)
      else EmailStep(Ok(Decision(JStr(p), false)), [], 0)
    case None => ResolveEmail(provided, saved, lines)
  }

  /** With the intended decision, an email given with none or the same one
      saved is used as given, not staged, and nothing is asked. */
  lemma IntendedUsesProvided(p: string, saved: Json, lines: seq<string>)
    requires saved == JNull || saved == JStr(p)
    ensures ResolveEmailIntended(Some(p), saved, lines) == EmailStep(Ok(Decision(JStr(p), false)), [], 0)
  {
  }

  /** The intended decision differs from the written one only where the
      written one fails on the unbound `save_email`; there it uses the given
      email, saves nothing and asks nothing. */
  lemma IntendedAgreesWhereDefined(provided: Option<string>, saved: Json, lines: seq<string>)
    ensures var w, i := ResolveEmail(provided, saved, lines), ResolveEmailIntended(provided, saved, lines);
      (w.outcome != Err(SaveEmailUnbound) ==> i == w)
      && (w.outcome == Err(SaveEmailUnbound) ==>
            i == EmailStep(Ok(Decision(JStr(provided.value), false)), [], 0))
  {
  }
}
