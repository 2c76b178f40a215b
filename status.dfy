/** The `status` command (cfde_client/main.py, lines 147-177): which Flow run
    to ask about, and how the answer, or the failure to get one, is shown. */
module StatusCommand {
  import opened PyValues

  /** The command-line options: `--flow-id`, `--flow-instance-id`, `--raw`. */
  datatype StatusArgs = StatusArgs(flowId: Option<string>, flowInstanceId: Option<string>, raw: bool)

  /** Where id resolution (lines 149-162) leaves the command. `serviceInstance`
      is `None` while the local variable `service_instance` is still unbound. */
  datatype Resolution =
    | NotStarted
    | LoadCrash(exc: PyExc)
    | Resolved(flowId: Json, flowInstanceId: Json, serviceInstance: Option<Json>)

  /** Both ids are given on the command line and both are truthy. */
  predicate BothExplicit(args: StatusArgs) {
    Truthy(FromOption(args.flowId)) && Truthy(FromOption(args.flowInstanceId))
  }

  /** Lines 149-162 as written. */
  function ResolveFlowIds(args: StatusArgs, file: StoredFile): (r: Resolution)
    ensures r.Resolved? ==> Truthy(r.flowId) && Truthy(r.flowInstanceId)
    ensures r.Resolved? ==> (r.serviceInstance.None? <==> BothExplicit(args))
    ensures r.LoadCrash? <==> !BothExplicit(args) && file.Parsed? && !file.doc.JObj?
    ensures r.LoadCrash? ==> r.exc.cls == AttributeError
  {
    var fid, iid := FromOption(args.flowId), FromOption(args.flowInstanceId);
    if Truthy(fid) && Truthy(iid) then Resolved(fid, iid, None)
    else
      match file
      case Missing => NotStarted
      case Unparsable => NotStarted
      case Parsed(doc) =>
        if !doc.JObj? then LoadCrash(PyExc(AttributeError, []))
        else
          var m := doc.fields;
          var f := Or(fid, Get(m, "flow_id"));
          var i := Or(iid, Get(m, "flow_instance_id"));
          if !Truthy(f) || !Truthy(i) then NotStarted
          else Resolved(f, i, Some(Get(m, "service_instance")))
  }

  /** How an exception is shown at line 171: `repr(e)` with `--raw`, else `str(e)`. */
  datatype Rendering = ReprOf(exc: PyExc) | StrOf(exc: PyExc)

  function Render(raw: bool, e: PyExc): Rendering {
    if raw then ReprOf(e) else StrOf(e)
  }

  /** What the command shows, and the one call it makes into the client. */
  datatype StatusEvent =
    | FlowNotStarted
    /** A client is built for `serviceInstance` and asked about the run. */
    | Query(serviceInstance: Json, flowId: Json, flowInstanceId: Json)
    | StatusError(flowId: Json, error: Rendering)
    | RawStatus(status: Json)
    | CleanStatus(cleanStatus: Json)

  datatype StatusTrace = StatusTrace(termination: Termination, events: seq<StatusEvent>)

  /** The error line 164 raises when `service_instance` was never assigned. */
  const ServiceInstanceUnbound: PyExc := PyExc(UnboundLocalError("service_instance"), [])

  /** Lines 163-177, once the ids are known. `query` is what building the
      client and calling `check_status` does. */
  function Report(args: StatusArgs, f: Json, i: Json, si: Option<Json>, query: ClientCall): StatusTrace {
    match si
    case None => StatusTrace(Finished, [StatusError(f, Render(args.raw, ServiceInstanceUnbound))])
    case Some(s) =>
      var ask := [Query(s, f, i)];
      match query
      case Raised(e) =>
        if IsException(e) then StatusTrace(Finished, ask + [StatusError(f, Render(args.raw, e))])
        else StatusTrace(Crashed(e), ask)
      case Returned(v) =>
        if args.raw then StatusTrace(Finished, ask + [RawStatus(v)])
        else
          match Subscript(v, "clean_status")
          case Ok(c) => StatusTrace(Finished, ask + [CleanStatus(c)])
          case Err(e) => StatusTrace(Crashed(e), ask)
  }

  /** The whole command as written. */
  function Status(args: StatusArgs, file: StoredFile, query: ClientCall): (r: StatusTrace)
    ensures r.termination.Crashed? <==>
      ResolveFlowIds(args, file).LoadCrash?
      || (ResolveFlowIds(args, file).Resolved? && ResolveFlowIds(args, file).serviceInstance.Some?
          && ((query.Raised? && !IsException(query.exc))
              || (query.Returned? && !args.raw
                  && !(query.value.JObj? && "clean_status" in query.value.fields))))
    ensures |r.events| <= 2
  {
    match ResolveFlowIds(args, file)
    case NotStarted => StatusTrace(Finished, [FlowNotStarted])
    case LoadCrash(e) => StatusTrace(Crashed(e), [])
    case Resolved(f, i, si) => Report(args, f, i, si, query)
  }

  /** The trace contains a call into the client. */
  predicate Queries(t: StatusTrace) {
    exists k :: 0 <= k < |t.events| && t.events[k].Query?
  }

  /** Each id given truthy on the command line is the one used; a falsy one
      is filled from the state file, as is `service_instance`; the command
      then asks about the resolved run and nothing else. */
  lemma ExplicitIdsWin(args: StatusArgs, m: map<string, Json>)
    requires !BothExplicit(args)
    ensures var r := ResolveFlowIds(args, Parsed(JObj(m)));
      var f := if Truthy(FromOption(args.flowId)) then FromOption(args.flowId) else Get(m, "flow_id");
      var i := if Truthy(FromOption(args.flowInstanceId)) then FromOption(args.flowInstanceId)
               else Get(m, "flow_instance_id");
      (r.Resolved? <==> Truthy(f) && Truthy(i))
      && (r.Resolved? ==> r == Resolved(f, i, Some(Get(m, "service_instance"))))
      && (!r.Resolved? ==> r == NotStarted)
  {
  }

  /** An id given truthy on the command line is never replaced by the stored one. */
  lemma GivenIdKept(args: StatusArgs, file: StoredFile)
    ensures var r := ResolveFlowIds(args, file);
      r.Resolved? ==>
        (args.flowId.Some? && args.flowId.value != "" ==> r.flowId == JStr(args.flowId.value))
        && (args.flowInstanceId.Some? && args.flowInstanceId.value != "" ==>
              r.flowInstanceId == JStr(args.flowInstanceId.value))
  {
  }

  /** A missing or unparsable state file, or ids still falsy after the
      fallback: "Flow not started" is printed, the command ends normally, and
      no client is built. */
  lemma NotStartedNeverQueries(args: StatusArgs, file: StoredFile, query: ClientCall)
    ensures !BothExplicit(args) && (file.Missing? || file.Unparsable?) ==>
      ResolveFlowIds(args, file) == NotStarted
    ensures ResolveFlowIds(args, file) == NotStarted <==>
      Status(args, file, query) == StatusTrace(Finished, [FlowNotStarted])
    ensures Queries(Status(args, file, query)) <==>
      ResolveFlowIds(args, file).Resolved? && ResolveFlowIds(args, file).serviceInstance.Some?
  {
    var t := Status(args, file, query);
    var r := ResolveFlowIds(args, file);
    if r.Resolved? && r.serviceInstance.Some? {
      assert t.events[0].Query?;
    }
  }

  /** A query is made only for the resolved ids and the stored service instance. */
  lemma QueryUsesResolvedIds(args: StatusArgs, file: StoredFile, query: ClientCall, k: nat)
    requires k < |Status(args, file, query).events| && Status(args, file, query).events[k].Query?
    ensures var r := ResolveFlowIds(args, file);
      r.Resolved? && r.serviceInstance.Some?
      && Status(args, file, query).events[k] == Query(r.serviceInstance.value, r.flowId, r.flowInstanceId)
      && k == 0
  {
  }

  /** With both ids given, the state file plays no part. */
  lemma BothExplicitIgnoresFile(args: StatusArgs, f1: StoredFile, f2: StoredFile, query: ClientCall)
    requires BothExplicit(args)
    ensures ResolveFlowIds(args, f1) == ResolveFlowIds(args, f2)
    ensures Status(args, f1, query) == Status(args, f2, query)
  {
  }

  /** A client exception is reported with the flow id, rendered with `repr`
      under `--raw` and with `str` otherwise, and the command ends normally. */
  lemma ClientErrorReported(args: StatusArgs, file: StoredFile, e: PyExc)
    requires IsException(e)
    requires ResolveFlowIds(args, file).Resolved? && ResolveFlowIds(args, file).serviceInstance.Some?
    ensures var t, f := Status(args, file, Raised(e)), ResolveFlowIds(args, file).flowId;
      t.termination == Finished && |t.events| == 2
      && t.events[1] == StatusError(f, if args.raw then ReprOf(e) else StrOf(e))
  {
  }

  /** A result is shown whole under `--raw`; otherwise its "clean_status" is
      shown, and a result without one makes the command fail. */
  lemma ResultShown(args: StatusArgs, file: StoredFile, v: Json)
    requires ResolveFlowIds(args, file).Resolved? && ResolveFlowIds(args, file).serviceInstance.Some?
    ensures var t := Status(args, file, Returned(v));
      (args.raw ==> t.termination == Finished && t.events[1] == RawStatus(v))
      && (!args.raw && v.JObj? && "clean_status" in v.fields ==>
            t.termination == Finished && t.events[1] == CleanStatus(v.fields["clean_status"]))
      && (!args.raw && !(v.JObj? && "clean_status" in v.fields) ==> t.termination.Crashed?)
  {
  }

  /** An explicit flow id wins over the stored one, and the stored instance
      id fills the missing one. */
  lemma ExplicitOverStoredExample()
    ensures ResolveFlowIds(StatusArgs(Some("F1"), None, false),
                           Parsed(JObj(map["flow_id" := JStr("F2"), "flow_instance_id" := JStr("I2")])))
         == Resolved(JStr("F1"), JStr("I2"), Some(JNull))
  {
  }

  /** With no ids given, the stored ones are used. */
  lemma StoredIdsExample()
    ensures ResolveFlowIds(StatusArgs(None, None, false),
                           Parsed(JObj(map["flow_id" := JStr("F2"), "flow_instance_id" := JStr("I2"),
                                           "service_instance" := JStr("dev")])))
         == Resolved(JStr("F2"), JStr("I2"), Some(JStr("dev")))
  {
  }

  /** With no ids given or stored, nothing is queried. */
  lemma NothingToQueryExample(query: ClientCall)
    ensures Status(StatusArgs(None, None, false), Parsed(JObj(map[])), query)
         == StatusTrace(Finished, [FlowNotStarted])
  {
  }

  /** As written, giving both ids never queries: the unbound
      `service_instance` is always what gets reported. */
  lemma BothExplicitNeverQueries(args: StatusArgs, file: StoredFile, query: ClientCall)
    requires BothExplicit(args)
    ensures Status(args, file, query)
         == StatusTrace(Finished, [StatusError(FromOption(args.flowId),
                                               Render(args.raw, ServiceInstanceUnbound))])
    ensures !Queries(Status(args, file, query))
  {
  }

  /** The command as intended: with both ids given, the client is built with
      no service instance (`None`) and asked about the given run. */
  function StatusIntended(args: StatusArgs, file: StoredFile, query: ClientCall): (r: StatusTrace)
    ensures BothExplicit(args) ==>
      |r.events| >= 1 && r.events[0] == Query(JNull, FromOption(args.flowId), FromOption(args.flowInstanceId))
  {
    if BothExplicit(args) then
      Report(args, FromOption(args.flowId), FromOption(args.flowInstanceId), Some(JNull), query)
    else Status(args, file, query)
  }

  /** The intended command differs from the written one only when both ids
      are given, and there it queries exactly the given run. */
  lemma IntendedAgreesElsewhere(args: StatusArgs, file: StoredFile, query: ClientCall)
    ensures !BothExplicit(args) ==> StatusIntended(args, file, query) == Status(args, file, query)
    ensures BothExplicit(args) ==> Queries(StatusIntended(args, file, query))
  {
    if BothExplicit(args) {
      assert StatusIntended(args, file, query).events[0].Query?;
    }
  }
}
