/** The `execute` function of the create-document tool
    (lib/ai/tools/create-document.ts:34-87). It announces the new document
    on the UI stream, finds the handler for the requested kind, lets it
    write the document, and marks the end. The handler registry comes from
    a module that is not part of this model, so it is a parameter: a list
    of handlers, each with its kind and its `onCreateDocument`. The id that
    `generateUUID()` would produce is a parameter too. */
module CreateDocumentTool {
  import opened Values
  import opened DocumentStream
  import opened Auth
  import Brief

  /** What `execute` hands to `onCreateDocument`. The `dataStream` is the
      same stream `execute` writes to. */
  datatype CreateArgs = CreateArgs(id: string, title: string, session: Session, timeMin: string, timeMax: string)

  /** A registered document handler: its kind and what its
      `onCreateDocument` writes and returns for given arguments. */
  datatype DocumentHandler = DocumentHandler(kind: string, onCreateDocument: CreateArgs -> Brief.Run)

  /** The record `execute` resolves to. */
  datatype ToolResult = ToolResult(id: string, title: string, kind: string, content: string)

  /** Which handler was called (its index in the registry) and with what. */
  datatype Invocation = Invocation(handler: nat, args: CreateArgs)

  /** One run of `execute`: the writes it and the handler make, the handler
      call if one happened, and what it resolves to or throws. */
  datatype Execution = Execution(writes: seq<StreamPart>, invoked: Option<Invocation>, outcome: Outcome<ToolResult>)

  const CreatedContent: string := "A document was created and is now visible to the user."

  function NoHandlerText(kind: string): string {
    "No document handler found for kind: " + kind
  }

  /** `handlers.find(h => h.kind === kind)`, as an index: the first handler
      of that kind, or none when no handler has it. */
  function FindHandler(handlers: seq<DocumentHandler>, kind: string): (r: Option<nat>)
    ensures r.Some? ==> r.value < |handlers| && handlers[r.value].kind == kind
    ensures r.Some? ==> forall j :: 0 <= j < r.value ==> handlers[j].kind != kind
    ensures r.None? ==> forall j :: 0 <= j < |handlers| ==> handlers[j].kind != kind
    decreases |handlers|
  {
    if handlers == [] then None
    else if handlers[0].kind == kind then Some(0)
    else
      match FindHandler(handlers[1..], kind)
      case None => None
      case Some(i) => Some(i + 1)
  }

  /** The four announcements written before the handler is looked up. */
  function Opening(kind: string, id: string, title: string): seq<StreamPart> {
    [DataKind(kind), DataId(id), DataTitle(title), DataClear]
  }

  /** What `execute` does for the given registry, input and id. */
  function ExecuteSpec(handlers: seq<DocumentHandler>, session: Session, title: string, kind: string,
                       timeMin: string, timeMax: string, id: string): Execution
  {
    match FindHandler(handlers, kind)
    case None => Execution(Opening(kind, id, title), None, Threw(NoHandlerText(kind)))
    case Some(i) =>
      var args := CreateArgs(id, title, session, timeMin, timeMax);
      var run := handlers[i].onCreateDocument(args);
      match run.result
      case Threw(m) => Execution(Opening(kind, id, title) + run.writes, Some(Invocation(i, args)), Threw(m))
      case Returned(_) =>
        Execution(Opening(kind, id, title) + run.writes + [DataFinish], Some(Invocation(i, args)),
                  Returned(ToolResult(id, title, kind, CreatedContent)))
  }

  /** `execute`, step by step. */
  method Execute(stream: DataStream, handlers: seq<DocumentHandler>, session: Session, title: string,
                 kind: string, timeMin: string, timeMax: string, id: string)
    returns (r: Outcome<ToolResult>, ghost invoked: Option<Invocation>)
    modifies stream
    ensures stream.parts == old(stream.parts) + ExecuteSpec(handlers, session, title, kind, timeMin, timeMax, id).writes
    ensures r == ExecuteSpec(handlers, session, title, kind, timeMin, timeMax, id).outcome
    ensures invoked == ExecuteSpec(handlers, session, title, kind, timeMin, timeMax, id).invoked
  {
    stream.Write(DataKind(kind));
    stream.Write(DataId(id));
    stream.Write(DataTitle(title));
    stream.Write(DataClear);
    var documentHandler := FindHandler(handlers, kind);
    if documentHandler.None? {
      r, invoked := Threw(NoHandlerText(kind)), None;
      return;
    }
    var args := CreateArgs(id, title, session, timeMin, timeMax);
    invoked := Some(Invocation(documentHandler.value, args));
    var run := handlers[documentHandler.value].onCreateDocument(args);
    stream.WriteAll(run.writes);
    if run.result.Threw? {
      r := Threw(run.result.message);
      return;
    }
    stream.Write(DataFinish);
    r := Returned(ToolResult(id, title, kind, CreatedContent));
  }

  /** Whatever happens next, the first four writes announce the kind, the
      id, the title and a clear, in that order. */
  lemma OpeningFirst(handlers: seq<DocumentHandler>, session: Session, title: string, kind: string,
                     timeMin: string, timeMax: string, id: string)
    ensures var e := ExecuteSpec(handlers, session, title, kind, timeMin, timeMax, id);
      |e.writes| >= 4 && e.writes[..4] == [DataKind(kind), DataId(id), DataTitle(title), DataClear]
  {
    var e := ExecuteSpec(handlers, session, title, kind, timeMin, timeMax, id);
    var opening := Opening(kind, id, title);
    match FindHandler(handlers, kind) {
      case None =>
        assert e.writes == opening;
      case Some(i) =>
        var run := handlers[i].onCreateDocument(CreateArgs(id, title, session, timeMin, timeMax));
        var after := if run.result.Threw? then run.writes else run.writes + [DataFinish];
        assert e.writes == opening + after;
        assert (opening + after)[..4] == opening;
    }
  }

  /** With no handler of the requested kind, `execute` throws after the
      four announcements; no handler runs and `data-finish` is not written. */
  lemma MissingHandler(handlers: seq<DocumentHandler>, session: Session, title: string, kind: string,
                       timeMin: string, timeMax: string, id: string)
    requires forall j :: 0 <= j < |handlers| ==> handlers[j].kind != kind
    ensures var e := ExecuteSpec(handlers, session, title, kind, timeMin, timeMax, id);
      e.outcome == Threw("No document handler found for kind: " + kind) &&
      e.invoked.None? &&
      e.writes == [DataKind(kind), DataId(id), DataTitle(title), DataClear] &&
      DataFinish !in e.writes
  {
  }

  /** The handler that runs is the first of the requested kind, and it
      receives the id announced in `data-id` and the caller's title, time
      range and session unchanged. */
  lemma HandlerCalledWithInput(handlers: seq<DocumentHandler>, session: Session, title: string, kind: string,
                               timeMin: string, timeMax: string, id: string)
    requires exists j :: 0 <= j < |handlers| && handlers[j].kind == kind
    ensures var e := ExecuteSpec(handlers, session, title, kind, timeMin, timeMax, id);
      e.invoked.Some? &&
      e.invoked.value.handler < |handlers| &&
      handlers[e.invoked.value.handler].kind == kind &&
      (forall j :: 0 <= j < e.invoked.value.handler ==> handlers[j].kind != kind) &&
      e.invoked.value.args == CreateArgs(id, title, session, timeMin, timeMax) &&
      e.writes[1] == DataId(e.invoked.value.args.id)
  {
    OpeningFirst(handlers, session, title, kind, timeMin, timeMax, id);
    var e := ExecuteSpec(handlers, session, title, kind, timeMin, timeMax, id);
    assert e.writes[..4][1] == e.writes[1];
  }

  /** When the handler completes, `execute` writes `data-finish` last, right
      after the handler's own writes, and resolves to the fixed record that
      echoes id, title and kind. When the handler throws, the throw
      propagates and `data-finish` is never written by `execute`. */
  lemma FinishAfterHandler(handlers: seq<DocumentHandler>, session: Session, title: string, kind: string,
                           timeMin: string, timeMax: string, id: string)
    requires exists j :: 0 <= j < |handlers| && handlers[j].kind == kind
    ensures var e := ExecuteSpec(handlers, session, title, kind, timeMin, timeMax, id);
      var run := handlers[e.invoked.value.handler].onCreateDocument(e.invoked.value.args);
      (run.result.Returned? ==>
         e.writes == [DataKind(kind), DataId(id), DataTitle(title), DataClear] + run.writes + [DataFinish] &&
         e.writes[|e.writes| - 1] == DataFinish &&
         e.outcome == Returned(ToolResult(id, title, kind, "A document was created and is now visible to the user."))) &&
      (run.result.Threw? ==>
         e.writes == [DataKind(kind), DataId(id), DataTitle(title), DataClear] + run.writes &&
         e.outcome == Threw(run.result.message) &&
         (DataFinish !in run.writes ==> DataFinish !in e.writes))
  {
    HandlerCalledWithInput(handlers, session, title, kind, timeMin, timeMax, id);
  }

  /** What the registry entry does with the draft once `onCreateDocument`
      has returned it: the parts it writes, and the throw that ends it, if
      any. The entry is built by `createDocumentHandler`
      (lib/artifacts/server), which is not part of this model. */
  datatype SaveStep = SaveStep(writes: seq<StreamPart>, failure: Option<string>)

  /** The brief handler as a registry entry: `createDocumentHandler` wrapped
      around the brief callbacks. The entry runs `onCreateDocument` (which
      uses the title, the session and the time range, but not the id) and
      then `save`, the wrapper's own step on the returned draft. */
  function BriefDocumentHandler(svc: Brief.Services, save: (CreateArgs, string) -> SaveStep): DocumentHandler {
    DocumentHandler("brief", (args: CreateArgs) =>
      var run := Brief.CreateBrief(svc, args.session, args.title, args.timeMin, args.timeMax);
      var saved := save(args, run.result.value);
      Brief.Run(run.writes + saved.writes, run.calls,
                if saved.failure.Some? then Threw(saved.failure.value) else run.result))
  }

  /** Creating a brief through the tool, wherever the brief entry stands in
      the registry after handlers of other kinds: the four announcements,
      exactly what the brief handler writes, then what the wrapper writes
      when saving the draft. If the save completes, `data-finish` follows and
      the tool resolves to its fixed record; if it throws, the throw
      propagates and `data-finish` is not written. The brief callback itself
      never throws. */
  lemma BriefThroughTool(svc: Brief.Services, save: (CreateArgs, string) -> SaveStep,
                         before: seq<DocumentHandler>, after: seq<DocumentHandler>, session: Session,
                         title: string, timeMin: string, timeMax: string, id: string)
    requires forall j :: 0 <= j < |before| ==> before[j].kind != "brief"
    ensures var e := ExecuteSpec(before + [BriefDocumentHandler(svc, save)] + after,
                                 session, title, "brief", timeMin, timeMax, id);
      var brief := Brief.CreateBrief(svc, session, title, timeMin, timeMax);
      var saved := save(CreateArgs(id, title, session, timeMin, timeMax), brief.result.value);
      e.invoked == Some(Invocation(|before|, CreateArgs(id, title, session, timeMin, timeMax))) &&
      (saved.failure.None? ==>
         e.writes == [DataKind("brief"), DataId(id), DataTitle(title), DataClear]
                     + brief.writes + saved.writes + [DataFinish] &&
         e.outcome == Returned(ToolResult(id, title, "brief", CreatedContent))) &&
      (saved.failure.Some? ==>
         e.writes == [DataKind("brief"), DataId(id), DataTitle(title), DataClear]
                     + brief.writes + saved.writes &&
         e.outcome == Threw(saved.failure.value))
  {
    var handlers := before + [BriefDocumentHandler(svc, save)] + after;
    var f := FindHandler(handlers, "brief");
    assert handlers[|before|].kind == "brief";
    assert forall j :: 0 <= j < |before| ==> handlers[j] == before[j];
    assert f.Some? && f.value == |before|;
    var opening := [DataKind("brief"), DataId(id), DataTitle(title), DataClear];
    var brief := Brief.CreateBrief(svc, session, title, timeMin, timeMax);
    var saved := save(CreateArgs(id, title, session, timeMin, timeMax), brief.result.value);
    assert opening + (brief.writes + saved.writes) == opening + brief.writes + saved.writes;
  }
}
