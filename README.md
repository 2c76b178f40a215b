# cfde_client command logic in Dafny

A model of the decision and state-update logic inside the four commands of the
CFDE command-line client (`cfde_client/main.py`). The remote workflow client
(`CfdeClient`), the file system and the terminal are inputs to the model.

- **`run`**:
  - Loads the client state file.
  - Settles on the author email. It uses the email given on the command line or the one saved in the state. Otherwise it asks the user, and parses yes/no answers with Python's `str.strip().lower()`.
  - Starts the Flow.
  - After a successful start that is not a dry run, it overwrites the Flow keys in the state, derives the download and Globus web-app links with POSIX `dirname`/`basename`, and writes the state back.
  - The command is an `Invocation` object whose `state` map, state file, remaining standard input and output log are updated in place. Each method is proved equal to a specification function (`RunSpec` and its parts), and the lemmas are stated about that function.
- **`status`**:
  - Picks which Flow run to query. Explicit ids win when they are truthy. The state file fills in only the ids that are falsy.
  - Shows the answer raw or as its `clean_status`, or reports the client's error. This part is pure and modelled with functions.
- **`logout`**:
  - Swaps standard input for a one-blank-line source and standard output for a discarding sink, then builds a client and revokes its tokens.
  - An "invalid grant" failure is swallowed and anything else escapes.
  - The streams are put back on every path. The command is a `Probe` object with `stdin`/`stdout` fields.

Python semantics are written out:
- truthiness and `or`;
- `dict.get` versus `dict[key]`, which raises `KeyError`, or `TypeError` when the value is not a dict;
- `except Exception` versus a `BaseException` that is not an `Exception`;
- `json.JSONDecodeError` being a `ValueError`;
- the whitespace set of `str.strip`;
- the rstrip rule in `posixpath.dirname`;
- `UnboundLocalError` when a local variable was never assigned.

The file layout follows the program:
- `values.dfy`: JSON values, exceptions, the state file.
- `text.dfy`: strip, lower, and yes/no parsing.
- `posixpath.dfy`
- `links.dfy`
- `events.dfy`: what `run` shows.
- `email.dfy`
- `run.dfy`
- `status.dfy`
- `logout.dfy`
- `session.dfy`: what one command leaves in the state file for the next.

Where the documented behaviour and the code differ, the model follows the code:
- The state is written back as a plain overwrite of the in-memory map that was loaded from the file. Unrelated keys survive because they were loaded, not because the write merges, and the write is not atomic.
- A malformed state file is fatal in `run`, where the `json.load` error is not caught. In `status` it is caught and reported as "Flow not started".
- A provided email with no saved email, or the same email saved, crashes `run`. The documented behaviour is to use it. See Findings.
- With both ids given, `status` never queries. See Findings.

## Model

| member | source | states |
|---|---|---|
| `PyValues.Or` | cfde_client/main.py:155-156 | `a or b` is truthy iff either operand is, and yields `a` when `a` is truthy, else `b` |
| `PyText.StripTrimmed` | cfde_client/main.py:90 | `strip()` never lengthens a string and leaves no whitespace at either end |
| `PyText.StripParts` | cfde_client/main.py:90 | the input is the stripped string with a whitespace-only prefix and suffix around it |
| `PyText.StripIgnoresPadding` | cfde_client/main.py:90 | whitespace added around an answer or email does not change what `strip()` returns |
| `PyText.StripIdempotent` | cfde_client/main.py:90 | stripping twice is stripping once |
| `PyText.LowerSpec` | cfde_client/main.py:82 | `lower()` keeps the length and maps each character on its own, upper-case ASCII letters to lower case and everything else to itself |
| `PyText.IsYesSpellings` | cfde_client/main.py:80-82 | an answer counts as yes iff, once stripped, it is one of the ten case spellings of "y" and "yes" |
| `PyText.IsYesIgnoresPadding` | cfde_client/main.py:91-92 | the yes/no verdict does not depend on surrounding whitespace |
| `PosixPath.Basename` | cfde_client/main.py:123 | the file name has no '/', is a suffix of the path, and is preceded by '/' unless it is the whole path |
| `PosixPath.Dirname` | cfde_client/main.py:122 | the directory is a prefix of the path, empty iff the path has no '/', and ends in '/' only if it is all slashes |
| `PosixPath.DirnameBasenameSplit` | cfde_client/main.py:122-123 | directory, a run of slashes, and file name concatenate back to the path, with at least one slash between a directory that is not all slashes and the file name |
| `PosixPath.BagPathExample` | cfde_client/main.py:122-123 | "/public/bag.zip" splits into "/public" and "bag.zip" |
| `FlowLinks.DeriveLinks` | cfde_client/main.py:121-126 | the bag's file name has no '/' and ends the destination path |
| `FlowLinks.HttpLinkEndsWithPath` | cfde_client/main.py:124 | the HTTP link ends with the destination path and with the file name |
| `FlowLinks.LinksDetermineLocation` | cfde_client/main.py:124-126 | under one configuration the HTTP link determines the path, and two web links are equal iff the paths' directories are |
| `FlowLinks.BagLinksExample` | cfde_client/main.py:122-126 | for "/public/bag.zip" the file name is "bag.zip" and the web link opens "/public" on the endpoint |
| `EmailResolution.ResolveEmail` | cfde_client/main.py:73-92 | reads at most two lines; fails only at end of input or on the unbound `save_email`; an email from the command line is the one used; an email marked for saving is a string; a settled email is never `None` |
| `EmailResolution.ReadsOnlyAfterPrompts` | cfde_client/main.py:76-92 | every line read answers a prompt shown before it |
| `EmailResolution.EmailEventsAreNotices` | cfde_client/main.py:76-92 | the email step shows only prompts and the saved-email notice, and never calls the client |
| `EmailResolution.MismatchUsesProvided` | cfde_client/main.py:76-82 | provided and saved emails that differ: the provided one is used after one question, and it is saved iff the stripped answer is a spelling of yes |
| `EmailResolution.SavedEmailUsed` | cfde_client/main.py:83-86 | no email given but one saved: the saved one is used, not saved again, and nothing is asked |
| `EmailResolution.NoEmailPrompts` | cfde_client/main.py:87-92 | neither email exists: the email is the stripped first line, and the second line decides with the same yes rule whether it is saved |
| `EmailResolution.ProvidedWithoutConflictFails` | cfde_client/main.py:76-94 | an email given with no saved email, or with the same one saved, fails on the unbound `save_email` without asking anything |
| `EmailResolution.FirstRunWithEmailFails` | cfde_client/main.py:76-94 | `--author-email a@x` on a first run fails on the unbound `save_email` |
| `EmailResolution.ResolveEmailIntended` | cfde_client/main.py:76-94 | corrected decision: fails only at end of input; an email given on the command line is always the one used |
| `EmailResolution.IntendedAgreesWhereDefined` | cfde_client/main.py:76-94 | the corrected decision equals the written one except where the written one fails, and there it uses the given email, saves nothing and asks nothing |
| `RunCommand.Invocation.Record` | cfde_client/main.py:121-139 | the state is updated key by key and written, and the links are shown, as in `Commit`; a missing key or non-string destination stops it before the write |
| `RunCommand.Invocation.Conclude` | cfde_client/main.py:112-139 | reacts to the client's outcome as in `AfterStart`: report an exception, report a failed start, show the message, stop on a dry run, else record |
| `RunCommand.Invocation.Proceed` | cfde_client/main.py:76-139 | applies the email step, removes the lines it read from standard input, stages the email when saving, calls the client, and reacts, as in `RunFrom` |
| `RunCommand.Invocation.Run` | cfde_client/main.py:42-139 | one whole `run`: termination, output, lines read, in-memory state and state file are those of `RunSpec` |
| `RunCommand.WrittenIff` | cfde_client/main.py:112-133 | the file is written exactly when the state loaded, the email step settled, the client returned a successful complete result and this is not a dry run; a write always ends normally |
| `RunCommand.DryRunNeverWrites` | cfde_client/main.py:120 | a dry run never writes the state file |
| `RunCommand.ClientExceptionReported` | cfde_client/main.py:112-114 | an exception from the client is reported last, the command ends normally, and nothing is written |
| `RunCommand.FailedStartReported` | cfde_client/main.py:116-117 | a falsy "success" is reported through "error", the command ends normally, and nothing is written |
| `RunCommand.WrittenStateMerges` | cfde_client/main.py:127-133 | the written state is the loaded one with the five Flow keys overwritten from the result and derived links, and the email added when staged; every other key keeps its value and none is dropped |
| `RunCommand.UnboundSaveEmailStopsRun` | cfde_client/main.py:76-94 | a provided email with none or the same saved stops `run` before any prompt or client call, with nothing written |
| `RunCommand.ClientSeesResolvedEmail` | cfde_client/main.py:104-111 | the client is called at most once, right after the email prompts, with the settled email, the service instance and the dry-run flag |
| `RunCommand.FirstSubmissionExample` | cfde_client/main.py:87-133 | first submission with no state file, a typed email and "y", and a complete result for "/public/bag.zip" with ids F9 and I9: the written state holds F9, I9, the typed email and the HTTP link to "/public/bag.zip" |
| `RunCommand.SavedRun` | cfde_client/main.py:94-133 | a run that stages an email and gets a complete result finishes and writes the result's ids, the HTTP link to its destination, and the email |
| `RunCommand.IntendedRunUsesProvided` | cfde_client/main.py:76-106 | with the corrected decision, a provided email with no conflict reaches the client unprompted and leaves the saved email as loaded |
| `SessionState.SaveThenLoad` | cfde_client/main.py:127-133 | loading the file a successful `run` wrote gives back the written map, which is the loaded state merged with the Flow keys and the staged email |
| `SessionState.SavedEmailUsedNextRun` | cfde_client/main.py:83-95 | an email saved by a successful `run` is used, without asking and without saving it again, by the next `run` given no email |
| `SessionState.StatusFindsStartedFlow` | cfde_client/main.py:153-162 | a `status` given no ids after a successful `run` resolves to the started Flow's ids and the service instance it was started on, or to "not started" when those ids are falsy |
| `StatusCommand.ResolveFlowIds` | cfde_client/main.py:149-162 | resolved ids are truthy; `service_instance` is unbound exactly when both ids were given; a non-object state file crashes with `AttributeError` only when the file is read |
| `StatusCommand.Status` | cfde_client/main.py:147-177 | the command crashes exactly when the state file it reads is not an object, or a query is made and the client raises a `BaseException` that is not an `Exception`, or a non-raw result has no "clean_status" |
| `StatusCommand.ExplicitIdsWin` | cfde_client/main.py:155-159 | from a state object, each id is the given one when truthy and the stored one otherwise, the stored service instance is used, and if either id is falsy the command has not started |
| `StatusCommand.GivenIdKept` | cfde_client/main.py:155-156 | a non-empty id given on the command line is never replaced by the stored one |
| `StatusCommand.NotStartedNeverQueries` | cfde_client/main.py:149-162 | a missing or unparsable file without both ids gives "not started"; "not started" is exactly the one-message normal outcome; the client is queried iff the ids resolved with `service_instance` bound |
| `StatusCommand.QueryUsesResolvedIds` | cfde_client/main.py:163-165 | the only query is the first event and carries the resolved ids and stored service instance |
| `StatusCommand.BothExplicitIgnoresFile` | cfde_client/main.py:149-150 | with both ids given the state file does not affect the outcome |
| `StatusCommand.ClientErrorReported` | cfde_client/main.py:166-172 | a client exception is reported with the flow id, by `repr` under `--raw` and by `str` otherwise, and the command ends normally |
| `StatusCommand.ResultShown` | cfde_client/main.py:173-177 | `--raw` shows the whole result; otherwise its "clean_status" is shown, and a result without one crashes |
| `StatusCommand.ExplicitOverStoredExample` | cfde_client/main.py:155-157 | given F1 with F2 and I2 stored, the run queried is (F1, I2) |
| `StatusCommand.StoredIdsExample` | cfde_client/main.py:155-157 | with no ids given, the stored (F2, I2) and service instance are used |
| `StatusCommand.NothingToQueryExample` | cfde_client/main.py:158-162 | with no ids given or stored the command prints "not started" and queries nothing |
| `StatusCommand.BothExplicitNeverQueries` | cfde_client/main.py:149-172 | as written, giving both ids always reports the unbound `service_instance` and never queries |
| `StatusCommand.StatusIntended` | cfde_client/main.py:149-177 | corrected command: with both ids given, the first event queries exactly those ids with no service instance |
| `StatusCommand.IntendedAgreesElsewhere` | cfde_client/main.py:149-177 | the corrected command equals the written one unless both ids are given, and then it does query |
| `LogoutCommand.Probe.Logout` | cfde_client/main.py:195-225 | on every path stdin and stdout end as they began, and the outcome and output are those of `LogoutSpec` |
| `LogoutCommand.SwallowedIff` | cfde_client/main.py:214-221 | the probe ends normally iff nothing was raised or what was raised has "invalid_grant" as its third argument; anything else escapes unchanged |
| `LogoutCommand.LoggedOutIffFinished` | cfde_client/main.py:225 | "You are logged out." is written iff the probe ends normally, last, and to the original standard output |
| `LogoutCommand.ClientSeesOnlyProbeStreams` | cfde_client/main.py:202-213 | the client only runs with the blank-line input and the discarding sink in place, and tokens are revoked only by a client that was built |
| `LogoutCommand.IdempotentWhenLoggedOut` | cfde_client/main.py:199-225 | with no credentials cached, the probe ends normally, and a second run from the restored streams behaves the same |

## Left out

- The `click` command and option surface, `os.path.expanduser` and the default state-file path (lines 11-41): command-line glue. The options the logic reads are plain parameters.
- Reading the bag-kwargs and ACL files (lines 56-67): plain JSON loads passed straight to the client.
- `CfdeClient` (construction, `start_deriva_flow`, `check_status`, `logout`): an external network and OAuth client. Each call is an input outcome, either raising a given exception or returning a given JSON value. In `status` building the client and calling `check_status` are one outcome. In `logout` they are two.
- `login` (lines 180-189): a single client construction with no logic of its own.
- The `--verbose` messages, and the formatting of printed messages including `json.dumps(indent=4, sort_keys=True)`. Events carry the values a message is built from.
- Real file I/O and the `json` codec: the state file is `Missing`, `Unparsable` or a parsed document. The write is a plain replacement, as in the source, with no atomicity.
- File-system errors other than a missing file (permissions, a directory given as the state file): they are not handled by the source either.
- JSON numbers are integers only: floats are not modelled.
- `PyText.LowerSpec`: `lower()` maps ASCII letters only. Unicode case mapping is not modelled; it cannot change whether an answer spells "y" or "yes".
- `str(e)` and `repr(e)` are kept abstract as renderings of the exception; their text is not computed.
- Stream objects, `StringIO` and `os.devnull` are abstract values. What the client does with the streams it is handed is part of the client.

## Findings

| source | as written | input that shows it | evidently intended | confidence | as-written member | corrected member |
|---|---|---|---|---|---|---|
| cfde_client/main.py:76-94 | no branch assigns `save_email` when an email is given and none or the same one is saved, so line 94 raises `UnboundLocalError` | `run --author-email a@x` with no state file | use the given email and save nothing | not executed | `EmailResolution.ProvidedWithoutConflictFails` | `EmailResolution.ResolveEmailIntended` |
| cfde_client/main.py:149-165 | `service_instance` is assigned only when the state file is read, so with both ids given line 164 raises `UnboundLocalError`, which is reported instead of the status | `status --flow-id F --flow-instance-id I` | query the given run with no service instance | not executed | `StatusCommand.BothExplicitNeverQueries` | `StatusCommand.StatusIntended` |

The `Invocation` and `Status` models follow the code as written. The corrected
definitions are proved to agree with them everywhere else
(`EmailResolution.IntendedAgreesWhereDefined`, `StatusCommand.IntendedAgreesElsewhere`).
`RunCommand.IntendedRunUsesProvided` carries the corrected email decision through the rest of `run`.
