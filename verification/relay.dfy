/** The `/chat-process` route handler: prompt validation, the streamed
    relay of upstream chunks, and the best-effort bookkeeping (database
    insert and update, completion notification) around it. The handler is
    modelled as a pure function of abstract collaborator outcomes that
    returns the ordered trace of its effects and the response body. */
module Relay {
  import opened Optional
  import opened Text
  import opened Framing

  /** The fixed notice written for an empty prompt ("please enter your
      message"). */
  const Notice: string := "请输入您的会话内容"

  const StreamContentType: string := "application/octet-stream"

  /** The prior-turn context handed to the upstream call. */
  datatype Context = Context(conversationId: Option<string>, parentMessageId: Option<string>)

  /** The decoded request body. `options` is `None` when the client sent
      none, in which case the handler uses the empty object. */
  datatype ChatRequest = ChatRequest(
    prompt: string,
    options: Option<Context>,
    systemMessage: Option<string>,
    temperature: Option<real>,
    device: string,
    username: string)

  datatype Choice = Choice(finishReason: Option<string>)
  datatype Detail = Detail(choices: seq<Choice>)

  /** One chunk delivered by the upstream call. Intermediate chunks may lack
      the completion detail. */
  datatype Chunk = Chunk(text: string, id: string, detail: Option<Detail>)

  /** The fields copied from the last chunk into the record. */
  datatype Final = Final(conversation: string, conversationId: string, finishReason: Option<string>)

  /** The exchange record: built from the request before the prompt is
      trimmed, given the insert id when the insert returns, and given the
      final fields only in the finally block. */
  datatype Record = Record(prompt: string, device: string, username: string, id: Option<nat>, final: Option<Final>)

  datatype InsertOutcome = Inserted(insertId: nat) | InsertThrew

  /** Whether a database client is configured, and if so what its insert
      does. */
  datatype Db = NoDatabase | Database(insert: InsertOutcome)

  /** What the upstream call does: the chunks it delivers in order, then
      optionally the serialised error it throws. */
  datatype Upstream = Upstream(chunks: seq<Chunk>, failure: Option<string>)

  datatype NotifyOutcome = Status(code: int) | PostThrew

  /** The `console.error` calls of the handler. */
  datatype LogEntry = EmptyPromptNotice | InsertFailed | NotifyNotOk | NotifyFailed | FinalizeFailed

  /** The observable effects of the handler, in the order it performs them. */
  datatype Effect =
    | SetContentType(value: string)
    | Insert(record: Record)
    | CallUpstream(message: string, lastContext: Context, systemMessage: Option<string>, temperature: Option<real>)
    | Write(data: string)
    | Update(record: Record)
    | Notify(record: Record)
    | Log(entry: LogEntry)
    | End

  datatype Response = Response(trace: seq<Effect>, body: string)

  /** The handler's state at the end of the `try`/`catch` part: effects so
      far, the record, and the last chunk delivered (`myChat`). */
  datatype Stage = Stage(trace: seq<Effect>, record: Record, myChat: Option<Chunk>)

  // ---------------------------------------------------------------------
  // What an observer sees of a trace

  /** The payloads written to the client, in order. */
  function WritesOf(t: seq<Effect>): seq<string>
  {
    if |t| == 0 then [] else (if t[0].Write? then [t[0].data] else []) + WritesOf(t[1..])
  }

  /** Calls to the database and to the notification service. */
  predicate IsSidecar(e: Effect)
  {
    e.Insert? || e.Update? || e.Notify?
  }

  /** The database and notification calls, in order. */
  function SidecarsOf(t: seq<Effect>): seq<Effect>
  {
    if |t| == 0 then [] else (if IsSidecar(t[0]) then [t[0]] else []) + SidecarsOf(t[1..])
  }

  /** The notifications alone, in order. */
  function NotifiesOf(t: seq<Effect>): seq<Effect>
  {
    if |t| == 0 then [] else (if t[0].Notify? then [t[0]] else []) + NotifiesOf(t[1..])
  }

  /** The upstream calls, in order. */
  function UpstreamCallsOf(t: seq<Effect>): seq<Effect>
  {
    if |t| == 0 then [] else (if t[0].CallUpstream? then [t[0]] else []) + UpstreamCallsOf(t[1..])
  }

  /** The response body: everything written, in order. */
  function BodyOf(t: seq<Effect>): string { Concat(WritesOf(t)) }

  // ---------------------------------------------------------------------
  // The handler

  /** `options = {}`: a missing context becomes the empty one. */
  function ContextOf(options: Option<Context>): Context
  {
    options.OrElse(Context(None, None))
  }

  function InitialRecord(req: ChatRequest): Record
  {
    Record(req.prompt, req.device, req.username, None, None)
  }

  /** `dbRecord.id` is truthy: present and not 0. */
  predicate HasTruthyId(rec: Record)
  {
    rec.id.Some? && rec.id.value != 0
  }

  function Serialised(ser: Chunk -> string, chunks: seq<Chunk>): (texts: seq<string>)
    ensures |texts| == |chunks|
  {
    seq(|chunks|, i requires 0 <= i < |chunks| => ser(chunks[i]))
  }

  function WriteAll(pieces: seq<string>): (t: seq<Effect>)
    ensures |t| == |pieces|
  {
    seq(|pieces|, i requires 0 <= i < |pieces| => Write(pieces[i]))
  }

  function Last(chunks: seq<Chunk>): Option<Chunk>
  {
    if |chunks| == 0 then None else Some(chunks[|chunks| - 1])
  }

  /** Reading `text`, `id` and `detail.choices[0].finish_reason` from the
      last chunk; `None` when one of the accesses throws (no chunk at all,
      no detail, or an empty `choices`). */
  function ReadFinal(myChat: Option<Chunk>): Option<Final>
  {
    match myChat
    case None => None
    case Some(c) =>
      match c.detail
      case None => None
      case Some(d) =>
        if |d.choices| == 0 then None
        else Some(Final(c.text, c.id, d.choices[0].finishReason))
  }

  /** The inner `try`: insert when a database is configured, swallowing a
      failure after logging it. */
  function InsertStep(db: Db, rec: Record): Stage
  {
    match db
    case NoDatabase => Stage([], rec, None)
    case Database(Inserted(k)) => Stage([Insert(rec)], rec.(id := Some(k)), None)
    case Database(InsertThrew) => Stage([Insert(rec), Log(InsertFailed)], rec, None)
  }

  /** The error write of the outer `catch`, if the upstream call threw. */
  function FailureWrites(failure: Option<string>): seq<Effect>
  {
    match failure
    case None => []
    case Some(e) => [Write(e)]
  }

  /** The outer `try` and its `catch`. */
  function TryBlock(req: ChatRequest, db: Db, up: Upstream, ser: Chunk -> string): Stage
  {
    var rec := InitialRecord(req);
    var prompt := Trim(req.prompt);
    if prompt == [] then
      Stage([Log(EmptyPromptNotice), Write(Notice)], rec, None)
    else
      var ins := InsertStep(db, rec);
      var call := CallUpstream(prompt, ContextOf(req.options), req.systemMessage, req.temperature);
      var writes := WriteAll(Framed(Serialised(ser, up.chunks)));
      Stage(ins.trace + [call] + writes + FailureWrites(up.failure), ins.record, Last(up.chunks))
  }

  /** The logging after the notification POST. */
  function NotifyLog(notify: NotifyOutcome): seq<Effect>
  {
    match notify
    case Status(code) => if code == 200 then [] else [Log(NotifyNotOk)]
    case PostThrew => [Log(NotifyFailed)]
  }

  /** The `finally` block: the update (not awaited) and the notification,
      both inside one `try` whose `catch` skips them when reading the last
      chunk throws; the response is ended on every path. */
  function FinallyBlock(db: Db, st: Stage, notify: NotifyOutcome): seq<Effect>
  {
    if db.Database? && HasTruthyId(st.record) then
      match ReadFinal(st.myChat)
      case None => [Log(FinalizeFailed), End]
      case Some(f) =>
        var rec := st.record.(final := Some(f));
        [Update(rec), Notify(rec)] + NotifyLog(notify) + [End]
    else
      [Notify(st.record)] + NotifyLog(notify) + [End]
  }

  /** The whole handler: the content type is set, then the `try`/`catch`
      part runs, then the `finally` block; the body is everything written. */
  function Handle(req: ChatRequest, db: Db, up: Upstream, notify: NotifyOutcome, ser: Chunk -> string): Response
  {
    var st := TryBlock(req, db, up, ser);
    var t := [SetContentType(StreamContentType)] + st.trace + FinallyBlock(db, st, notify);
    Response(t, BodyOf(t))
  }

  /** The `process` callback run over the delivered chunks: a `firstChunk`
      flag chooses the bare write for the first chunk only, and `myChat`
      keeps the latest chunk. What it writes is the framing `Handle` uses,
      and its concatenation is the newline-joined serialisation. */
  method DeliverChunks(ser: Chunk -> string, chunks: seq<Chunk>) returns (written: seq<string>, myChat: Option<Chunk>)
    ensures written == Framed(Serialised(ser, chunks))
    ensures Concat(written) == Join(Serialised(ser, chunks))
    ensures myChat == Last(chunks)
  {
    var firstChunk := true;
    written := [];
    myChat := None;
    var i := 0;
    while i < |chunks|
      invariant 0 <= i <= |chunks|
      invariant firstChunk <==> i == 0
      invariant |written| == i
      invariant forall j :: 0 <= j < i ==> written[j] == if j == 0 then ser(chunks[j]) else "\n" + ser(chunks[j])
      invariant myChat == Last(chunks[..i])
    {
      var chat := chunks[i];
      written := written + [if firstChunk then ser(chat) else "\n" + ser(chat)];
      firstChunk := false;
      myChat := Some(chat);
      i := i + 1;
    }
    assert chunks[..i] == chunks;
    FramedIsJoin(Serialised(ser, chunks));
  }
}
