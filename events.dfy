/** What the `run` command shows the user, and its one call into the remote
    client, in the order they happen. Formatting is not modelled: each event
    carries the values its message is built from. */
module RunEvents {
  import opened PyValues

  datatype Event =
    /** Asks whether the provided email should replace the saved one as the default. */
    | AskReplaceSaved(provided: string, saved: Json)
    /** Tells the user that the saved email is used. */
    | UsingSaved(savedEmail: Json)
    /** Asks for an email address. */
    | AskEmail
    /** Asks whether the email just entered should be saved. */
    | AskSaveNew(entered: string)
    /** `CfdeClient(...)` followed by `start_deriva_flow(data_path, author_email, ...)`. */
    | StartFlow(email: Json, serviceInstance: Option<string>, dryRun: bool)
    /** Reports the exception the client raised, by its `repr`. */
    | StartFailed(exc: PyExc)
    /** Reports the result's "error" after an unsuccessful start. */
    | StartupError(error: Json)
    /** The result's "message". */
    | FlowMessage(message: Json)
    /** Names the bag and gives its Globus web-app link. */
    | BagAvailable(filename: string, globusWebLink: string)
    /** Gives the bag's direct HTTP link. */
    | HttpAvailable(httpLink: string)

  /** The events that are `input()` prompts, each of which reads one line. */
  predicate IsPrompt(e: Event) {
    e.AskReplaceSaved? || e.AskEmail? || e.AskSaveNew?
  }
}
