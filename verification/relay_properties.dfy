/** Properties of the `/chat-process` handler model: what the client
    receives, which bookkeeping calls are made, and that bookkeeping never
    changes the response. */
module RelayProperties {
  import opened Optional
  import opened Text
  import opened Framing
  import opened Relay

  // ---------------------------------------------------------------------
  // What is seen of a trace

  /** `t` writes `w`, makes the database and notification calls `s`, the
      notifications `n` and the upstream calls `u`. */
  predicate Shows(t: seq<Effect>, w: seq<string>, s: seq<Effect>, n: seq<Effect>, u: seq<Effect>)
  {
    WritesOf(t) == w && SidecarsOf(t) == s && NotifiesOf(t) == n && UpstreamCallsOf(t) == u
  }

  lemma {:induction false} WritesAppend(a: seq<Effect>, b: seq<Effect>)
    ensures WritesOf(a + b) == WritesOf(a) + WritesOf(b)
    decreases |a|
  {
    if |a| == 0 {
      assert a + b == b;
    } else {
      var h := if a[0].Write? then [a[0].data] else [];
      assert (a + b)[0] == a[0] && (a + b)[1..] == a[1..] + b;
      assert WritesOf(a + b) == h + WritesOf(a[1..] + b);
      WritesAppend(a[1..], b);
      assert h + (WritesOf(a[1..]) + WritesOf(b)) == (h + WritesOf(a[1..])) + WritesOf(b);
    }
  }

  lemma {:induction false} SidecarsAppend(a: seq<Effect>, b: seq<Effect>)
    ensures SidecarsOf(a + b) == SidecarsOf(a) + SidecarsOf(b)
    decreases |a|
  {
    if |a| == 0 {
      assert a + b == b;
    } else {
      var h := if IsSidecar(a[0]) then [a[0]] else [];
      assert (a + b)[0] == a[0] && (a + b)[1..] == a[1..] + b;
      assert SidecarsOf(a + b) == h + SidecarsOf(a[1..] + b);
      SidecarsAppend(a[1..], b);
      assert h + (SidecarsOf(a[1..]) + SidecarsOf(b)) == (h + SidecarsOf(a[1..])) + SidecarsOf(b);
    }
  }

  lemma {:induction false} NotifiesAppend(a: seq<Effect>, b: seq<Effect>)
    ensures NotifiesOf(a + b) == NotifiesOf(a) + NotifiesOf(b)
    decreases |a|
  {
    if |a| == 0 {
      assert a + b == b;
    } else {
      var h := if a[0].Notify? then [a[0]] else [];
      assert (a + b)[0] == a[0] && (a + b)[1..] == a[1..] + b;
      assert NotifiesOf(a + b) == h + NotifiesOf(a[1..] + b);
      NotifiesAppend(a[1..], b);
      assert h + (NotifiesOf(a[1..]) + NotifiesOf(b)) == (h + NotifiesOf(a[1..])) + NotifiesOf(b);
    }
  }

  lemma {:induction false} UpstreamCallsAppend(a: seq<Effect>, b: seq<Effect>)
    ensures UpstreamCallsOf(a + b) == UpstreamCallsOf(a) + UpstreamCallsOf(b)
    decreases |a|
  {
    if |a| == 0 {
      assert a + b == b;
    } else {
      var h := if a[0].CallUpstream? then [a[0]] else [];
      assert (a + b)[0] == a[0] && (a + b)[1..] == a[1..] + b;
      assert UpstreamCallsOf(a + b) == h + UpstreamCallsOf(a[1..] + b);
      UpstreamCallsAppend(a[1..], b);
      assert h + (UpstreamCallsOf(a[1..]) + UpstreamCallsOf(b)) == (h + UpstreamCallsOf(a[1..])) + UpstreamCallsOf(b);
    }
  }

  /** Each view of a concatenation is the concatenation of the views. */
  lemma ViewsAppend(a: seq<Effect>, b: seq<Effect>)
    ensures WritesOf(a + b) == WritesOf(a) + WritesOf(b)
    ensures SidecarsOf(a + b) == SidecarsOf(a) + SidecarsOf(b)
    ensures NotifiesOf(a + b) == NotifiesOf(a) + NotifiesOf(b)
    ensures UpstreamCallsOf(a + b) == UpstreamCallsOf(a) + UpstreamCallsOf(b)
  {
    WritesAppend(a, b);
    SidecarsAppend(a, b);
    NotifiesAppend(a, b);
    UpstreamCallsAppend(a, b);
  }

  lemma ShowsOne(e: Effect)
    ensures Shows([e], if e.Write? then [e.data] else [], if IsSidecar(e) then [e] else [],
                  if e.Notify? then [e] else [], if e.CallUpstream? then [e] else [])
  {
    assert [e][1..] == [];
  }

  /** An effect nobody outside the handler sees does not change what is
      seen of the rest. */
  lemma {:induction false} UnseenHead(e: Effect, a: seq<Effect>, b: seq<Effect>)
    requires !e.Write? && !IsSidecar(e) && !e.CallUpstream?
    ensures WritesOf([e] + a + b) == WritesOf(a) + WritesOf(b)
    ensures SidecarsOf([e] + a + b) == SidecarsOf(a) + SidecarsOf(b)
    ensures NotifiesOf([e] + a + b) == NotifiesOf(a) + NotifiesOf(b)
    ensures UpstreamCallsOf([e] + a + b) == UpstreamCallsOf(a) + UpstreamCallsOf(b)
  {
    ShowsOne(e);
    assert Shows([e], [], [], [], []);
    ViewsAppend([e], a);
    assert Shows([e] + a, WritesOf(a), SidecarsOf(a), NotifiesOf(a), UpstreamCallsOf(a));
    ViewsAppend([e] + a, b);
  }

  lemma {:induction false} ShowsPair(e1: Effect, e2: Effect, w: seq<string>, s: seq<Effect>, n: seq<Effect>, u: seq<Effect>)
    requires !e1.Write? && !IsSidecar(e1) && !e1.CallUpstream?
    requires Shows([e2], w, s, n, u)
    ensures Shows([e1, e2], w, s, n, u)
  {
    assert [e1, e2] == [e1] + [e2] + [];
    UnseenHead(e1, [e2], []);
  }

  lemma {:induction false} ShowsWriteAll(pieces: seq<string>)
    ensures Shows(WriteAll(pieces), pieces, [], [], [])
    decreases |pieces|
  {
    if |pieces| > 0 {
      assert WriteAll(pieces) == [Write(pieces[0])] + WriteAll(pieces[1..]);
      ShowsWriteAll(pieces[1..]);
      ShowsOne(Write(pieces[0]));
      ViewsAppend([Write(pieces[0])], WriteAll(pieces[1..]));
    }
  }

  lemma ShowsNotifyLog(notify: NotifyOutcome)
    ensures Shows(NotifyLog(notify), [], [], [], [])
  {
    if NotifyLog(notify) != [] {
      ShowsOne(NotifyLog(notify)[0]);
    }
  }

  // ---------------------------------------------------------------------
  // The phases of the handler

  /** Every view of the handler splits along its two phases; setting the
      content type is not seen. */
  lemma {:induction false} HandleParts(req: ChatRequest, db: Db, up: Upstream, notify: NotifyOutcome, ser: Chunk -> string)
    ensures var st := TryBlock(req, db, up, ser);
            var fin := FinallyBlock(db, st, notify);
            var t := Handle(req, db, up, notify, ser).trace;
            && WritesOf(t) == WritesOf(st.trace) + WritesOf(fin)
            && SidecarsOf(t) == SidecarsOf(st.trace) + SidecarsOf(fin)
            && NotifiesOf(t) == NotifiesOf(st.trace) + NotifiesOf(fin)
            && UpstreamCallsOf(t) == UpstreamCallsOf(st.trace) + UpstreamCallsOf(fin)
  {
    var st := TryBlock(req, db, up, ser);
    var fin := FinallyBlock(db, st, notify);
    assert Handle(req, db, up, notify, ser).trace == [SetContentType(StreamContentType)] + st.trace + fin;
    UnseenHead(SetContentType(StreamContentType), st.trace, fin);
  }

  /** The calls of the finally block, its log line and the end of the
      response: only the calls are seen. */
  lemma {:induction false} ShowsFinallyTail(calls: seq<Effect>, notify: NotifyOutcome, s: seq<Effect>, n: seq<Effect>)
    requires Shows(calls, [], s, n, [])
    ensures Shows(calls + NotifyLog(notify) + [End], [], s, n, [])
  {
    ShowsNotifyLog(notify);
    ShowsOne(End);
    ViewsAppend(calls, NotifyLog(notify));
    ViewsAppend(calls + NotifyLog(notify), [End]);
  }

  lemma {:induction false} ShowsUpdateThenNotify(rec: Record)
    ensures Shows([Update(rec), Notify(rec)], [], [Update(rec), Notify(rec)], [Notify(rec)], [])
  {
    assert [Update(rec), Notify(rec)] == [Update(rec)] + [Notify(rec)];
    ShowsOne(Update(rec));
    ShowsOne(Notify(rec));
    ViewsAppend([Update(rec)], [Notify(rec)]);
  }

  /** When reading the last chunk throws, nothing of the finally block is
      seen: no update and no notification. */
  lemma {:induction false} ShowsFinallyThrown(db: Db, st: Stage, notify: NotifyOutcome)
    requires db.Database? && HasTruthyId(st.record) && ReadFinal(st.myChat).None?
    ensures Shows(FinallyBlock(db, st, notify), [], [], [], [])
  {
    ShowsOne(End);
    ShowsPair(Log(FinalizeFailed), End, [], [], [], []);
  }

  /** With a truthy id and a readable last chunk: update, then notify, both
      with the completed record. */
  lemma {:induction false} ShowsFinallyUpdated(db: Db, st: Stage, notify: NotifyOutcome, f: Final)
    requires db.Database? && HasTruthyId(st.record) && ReadFinal(st.myChat) == Some(f)
    ensures var rec := st.record.(final := Some(f));
            Shows(FinallyBlock(db, st, notify), [], [Update(rec), Notify(rec)], [Notify(rec)], [])
  {
    var rec := st.record.(final := Some(f));
    ShowsUpdateThenNotify(rec);
    ShowsFinallyTail([Update(rec), Notify(rec)], notify, [Update(rec), Notify(rec)], [Notify(rec)]);
  }

  /** An unfolding step: the sidecar view of `ShowsFinallyUpdated`, stated
      apart from the handler so the solver meets it in a small context. */
  lemma {:induction false} FinallyCompletes(db: Db, st: Stage, notify: NotifyOutcome, f: Final)
    requires db.Database? && HasTruthyId(st.record) && ReadFinal(st.myChat) == Some(f)
    ensures var rec := st.record.(final := Some(f));
            SidecarsOf(FinallyBlock(db, st, notify)) == [Update(rec), Notify(rec)]
  {
    ShowsFinallyUpdated(db, st, notify, f);
  }

  /** Without a truthy id (or without a database): only the notification,
      with the record as it stands. */
  lemma {:induction false} ShowsFinallyUntracked(db: Db, st: Stage, notify: NotifyOutcome)
    requires !(db.Database? && HasTruthyId(st.record))
    ensures Shows(FinallyBlock(db, st, notify), [], [Notify(st.record)], [Notify(st.record)], [])
  {
    ShowsOne(Notify(st.record));
    ShowsFinallyTail([Notify(st.record)], notify, [Notify(st.record)], [Notify(st.record)]);
  }

  lemma {:induction false} FinallyWritesNothing(db: Db, st: Stage, notify: NotifyOutcome)
    ensures WritesOf(FinallyBlock(db, st, notify)) == []
    ensures UpstreamCallsOf(FinallyBlock(db, st, notify)) == []
  {
    if db.Database? && HasTruthyId(st.record) {
      match ReadFinal(st.myChat)
      case None => ShowsFinallyThrown(db, st, notify);
      case Some(f) => ShowsFinallyUpdated(db, st, notify, f);
    } else {
      ShowsFinallyUntracked(db, st, notify);
    }
  }

  /** The texts written by the `catch` for an upstream failure. */
  function FailureTexts(failure: Option<string>): seq<string>
  {
    match failure
    case None => []
    case Some(e) => [e]
  }

  lemma {:induction false} FailureBody(failure: Option<string>)
    ensures Concat(FailureTexts(failure)) == failure.OrElse("")
  {
    if failure.Some? {
      assert Concat([failure.value]) == failure.value + Concat([]);
    }
  }

  lemma {:induction false} ShowsInsert(db: Db, rec: Record)
    ensures Shows(InsertStep(db, rec).trace, [], if db.Database? then [Insert(rec)] else [], [], [])
  {
    match db
    case NoDatabase =>
    case Database(Inserted(_)) =>
      ShowsOne(Insert(rec));
    case Database(InsertThrew) =>
      ShowsOne(Insert(rec));
      ShowsOne(Log(InsertFailed));
      assert InsertStep(db, rec).trace == [Insert(rec)] + [Log(InsertFailed)];
      ViewsAppend([Insert(rec)], [Log(InsertFailed)]);
  }

  lemma {:induction false} ShowsFailure(failure: Option<string>)
    ensures Shows(FailureWrites(failure), FailureTexts(failure), [], [], [])
  {
    if failure.Some? {
      ShowsOne(Write(failure.value));
    }
  }

  /** An empty prompt: the notice is the only write, nothing is called. */
  lemma {:induction false} ShowsTryEmpty(req: ChatRequest, db: Db, up: Upstream, ser: Chunk -> string)
    requires Trim(req.prompt) == ""
    ensures var st := TryBlock(req, db, up, ser);
            && Shows(st.trace, [Notice], [], [], [])
            && st.record == InitialRecord(req) && st.myChat == None
  {
    assert TryBlock(req, db, up, ser).trace == [Log(EmptyPromptNotice), Write(Notice)];
    ShowsOne(Write(Notice));
    ShowsPair(Log(EmptyPromptNotice), Write(Notice), [Notice], [], [], []);
  }

  /** An unfolding step: for a real prompt the `try` block is the insert
      (if any), one upstream call with the trimmed prompt, the framed
      chunks, then the error if any, stated apart so the solver unfolds
      `TryBlock` once. */
  lemma {:induction false} TryStreamingParts(req: ChatRequest, db: Db, up: Upstream, ser: Chunk -> string)
    requires Trim(req.prompt) != ""
    ensures var st := TryBlock(req, db, up, ser);
            var call := CallUpstream(Trim(req.prompt), ContextOf(req.options), req.systemMessage, req.temperature);
            && st.trace == InsertStep(db, InitialRecord(req)).trace + [call]
                           + WriteAll(Framed(Serialised(ser, up.chunks))) + FailureWrites(up.failure)
            && st.record == InsertStep(db, InitialRecord(req)).record
            && st.myChat == Last(up.chunks)
  {
  }

  /** The shape of the streaming part of the `try`, seen part by part. */
  lemma {:induction false} ShowsStreaming(ins: seq<Effect>, call: Effect, writes: seq<Effect>, fail: seq<Effect>,
                                          inserts: seq<Effect>, framed: seq<string>, failed: seq<string>)
    requires Shows(ins, [], inserts, [], [])
    requires call.CallUpstream?
    requires Shows(writes, framed, [], [], [])
    requires Shows(fail, failed, [], [], [])
    ensures Shows(ins + [call] + writes + fail, framed + failed, inserts, [], [call])
  {
    ShowsOne(call);
    ViewsAppend(ins, [call]);
    assert Shows(ins + [call], [], inserts, [], [call]);
    ViewsAppend(ins + [call], writes);
    assert Shows(ins + [call] + writes, framed, inserts, [], [call]);
    ViewsAppend(ins + [call] + writes, fail);
  }

  /** What is seen of the streaming part of the `try`. */
  lemma {:induction false} ShowsTryStreaming(req: ChatRequest, db: Db, up: Upstream, ser: Chunk -> string)
    requires Trim(req.prompt) != ""
    ensures Shows(TryBlock(req, db, up, ser).trace,
                  Framed(Serialised(ser, up.chunks)) + FailureTexts(up.failure),
                  if db.Database? then [Insert(InitialRecord(req))] else [],
                  [],
                  [CallUpstream(Trim(req.prompt), ContextOf(req.options), req.systemMessage, req.temperature)])
  {
    var ins := InsertStep(db, InitialRecord(req)).trace;
    var call := CallUpstream(Trim(req.prompt), ContextOf(req.options), req.systemMessage, req.temperature);
    var framed := Framed(Serialised(ser, up.chunks));
    var writes := WriteAll(framed);
    var fail := FailureWrites(up.failure);
    TryStreamingParts(req, db, up, ser);
    assert TryBlock(req, db, up, ser).trace == ins + [call] + writes + fail;
    ShowsInsert(db, InitialRecord(req));
    ShowsWriteAll(framed);
    ShowsFailure(up.failure);
    ShowsStreaming(ins, call, writes, fail, if db.Database? then [Insert(InitialRecord(req))] else [],
                   framed, FailureTexts(up.failure));
  }

  // ---------------------------------------------------------------------
  // What the client receives

  /** An all-whitespace prompt is answered with exactly the fixed notice;
      there is no insert, no update and no upstream call, but the
      notification is still posted with the bare record. */
  lemma {:induction false} EmptyPromptAnswersNotice(req: ChatRequest, db: Db, up: Upstream, notify: NotifyOutcome, ser: Chunk -> string)
    requires Trim(req.prompt) == ""
    ensures var r := Handle(req, db, up, notify, ser);
            && r.body == "请输入您的会话内容"
            && UpstreamCallsOf(r.trace) == []
            && SidecarsOf(r.trace) == [Notify(Record(req.prompt, req.device, req.username, None, None))]
  {
    var st := TryBlock(req, db, up, ser);
    HandleParts(req, db, up, notify, ser);
    ShowsTryEmpty(req, db, up, ser);
    ShowsFinallyUntracked(db, st, notify);
    assert Concat([Notice]) == Notice;
  }

  /** For a real prompt the body is the serialised chunks joined by `\n`
      in delivery order, followed directly (no separator) by the serialised
      upstream error if there was one; the upstream is called once, with
      the trimmed prompt and the prior context. */
  lemma {:induction false} StreamedBody(req: ChatRequest, db: Db, up: Upstream, notify: NotifyOutcome, ser: Chunk -> string)
    requires Trim(req.prompt) != ""
    ensures var r := Handle(req, db, up, notify, ser);
            && WritesOf(r.trace) == Framed(Serialised(ser, up.chunks)) + FailureTexts(up.failure)
            && r.body == Join(Serialised(ser, up.chunks)) + up.failure.OrElse("")
            && UpstreamCallsOf(r.trace) == [CallUpstream(Trim(req.prompt), ContextOf(req.options), req.systemMessage, req.temperature)]
  {
    var st := TryBlock(req, db, up, ser);
    var texts := Serialised(ser, up.chunks);
    HandleParts(req, db, up, notify, ser);
    ShowsTryStreaming(req, db, up, ser);
    FinallyWritesNothing(db, st, notify);
    ConcatAppend(Framed(texts), FailureTexts(up.failure));
    FramedIsJoin(texts);
    FailureBody(up.failure);
  }

  /** The chunk framing round-trips: with at least one chunk, no upstream
      error and no raw `\n` inside any serialised chunk, splitting the body
      on `\n` yields exactly the serialised chunks in order. At least one
      chunk is needed: with none the body is empty, and splitting the empty
      string yields one empty part rather than none. */
  lemma {:induction false} BodySplitsIntoChunks(req: ChatRequest, db: Db, up: Upstream, notify: NotifyOutcome, ser: Chunk -> string)
    requires Trim(req.prompt) != "" && up.failure == None && |up.chunks| >= 1
    requires forall i :: 0 <= i < |up.chunks| ==> '\n' !in ser(up.chunks[i])
    ensures var parts := Split(Handle(req, db, up, notify, ser).body);
            && |parts| == |up.chunks|
            && forall i :: 0 <= i < |parts| ==> parts[i] == ser(up.chunks[i])
  {
    StreamedBody(req, db, up, notify, ser);
    var texts := Serialised(ser, up.chunks);
    assert Join(texts) + "" == Join(texts);
    SplitJoin(texts);
  }

  /** An upstream error after k chunks leaves the k framed writes intact and
      adds exactly one more write, the serialised error, with no `\n`. */
  lemma {:induction false} UpstreamErrorAppended(req: ChatRequest, db: Db, up: Upstream, notify: NotifyOutcome, ser: Chunk -> string, err: string)
    requires Trim(req.prompt) != "" && up.failure == Some(err)
    ensures var w := WritesOf(Handle(req, db, up, notify, ser).trace);
            && |w| == |up.chunks| + 1
            && w[..|up.chunks|] == Framed(Serialised(ser, up.chunks))
            && w[|up.chunks|] == err
  {
    StreamedBody(req, db, up, notify, ser);
  }

  // ---------------------------------------------------------------------
  // Bookkeeping

  /** The database and notification calls of one request, case by case:
      nothing but the notification for an empty prompt or without a
      database; insert then notification when the insert threw or returned
      the falsy id 0; insert, update and notification with the completed
      record when a real id was assigned and the last chunk carries its
      completion detail; and only the insert when a real id was assigned
      but reading the last chunk throws (no chunk, no detail, or no
      choice). */
  function ExpectedSidecars(req: ChatRequest, db: Db, up: Upstream): seq<Effect>
  {
    var rec := Record(req.prompt, req.device, req.username, None, None);
    if Trim(req.prompt) == "" then [Notify(rec)]
    else
      match db
      case NoDatabase => [Notify(rec)]
      case Database(InsertThrew) => [Insert(rec), Notify(rec)]
      case Database(Inserted(k)) =>
        if k == 0 then [Insert(rec), Notify(rec.(id := Some(0)))]
        else if |up.chunks| == 0 then [Insert(rec)]
        else
          var last := up.chunks[|up.chunks| - 1];
          if last.detail.None? || |last.detail.value.choices| == 0 then [Insert(rec)]
          else
            var done := rec.(id := Some(k), final := Some(Final(last.text, last.id, last.detail.value.choices[0].finishReason)));
            [Insert(rec), Update(done), Notify(done)]
  }

  /** A real prompt: the insert (if any) followed by the finally block's
      calls. */
  lemma {:induction false} SidecarsOfStreaming(req: ChatRequest, db: Db, up: Upstream, notify: NotifyOutcome, ser: Chunk -> string)
    requires Trim(req.prompt) != ""
    ensures var st := TryBlock(req, db, up, ser);
            && st.record == InsertStep(db, InitialRecord(req)).record
            && st.myChat == Last(up.chunks)
            && SidecarsOf(Handle(req, db, up, notify, ser).trace)
                 == (if db.Database? then [Insert(InitialRecord(req))] else []) + SidecarsOf(FinallyBlock(db, st, notify))
  {
    HandleParts(req, db, up, notify, ser);
    ShowsTryStreaming(req, db, up, ser);
    TryStreamingParts(req, db, up, ser);
  }

  /** Without a database, or when the insert throws, the record is notified
      without an id and never updated. */
  lemma {:induction false} SidecarsUntracked(req: ChatRequest, db: Db, up: Upstream, notify: NotifyOutcome, ser: Chunk -> string)
    requires Trim(req.prompt) != ""
    requires db == NoDatabase || db == Database(InsertThrew)
    ensures var rec := Record(req.prompt, req.device, req.username, None, None);
            SidecarsOf(Handle(req, db, up, notify, ser).trace) == (if db.Database? then [Insert(rec)] else []) + [Notify(rec)]
  {
    var st := TryBlock(req, db, up, ser);
    SidecarsOfStreaming(req, db, up, notify, ser);
    assert st.record == InitialRecord(req);
    ShowsFinallyUntracked(db, st, notify);
  }

  /** An insert id of 0 is falsy: the record is notified with that id but
      never updated. */
  lemma {:induction false} SidecarsFalsyId(req: ChatRequest, up: Upstream, notify: NotifyOutcome, ser: Chunk -> string)
    requires Trim(req.prompt) != ""
    ensures var rec := Record(req.prompt, req.device, req.username, None, None);
            SidecarsOf(Handle(req, Database(Inserted(0)), up, notify, ser).trace) == [Insert(rec), Notify(rec.(id := Some(0)))]
  {
    var db := Database(Inserted(0));
    var st := TryBlock(req, db, up, ser);
    SidecarsOfStreaming(req, db, up, notify, ser);
    assert st.record == InitialRecord(req).(id := Some(0));
    ShowsFinallyUntracked(db, st, notify);
  }

  /** With a real id but no readable completion detail on the last chunk,
      only the insert is made. */
  lemma {:induction false} SidecarsFinalizeThrown(req: ChatRequest, k: nat, up: Upstream, notify: NotifyOutcome, ser: Chunk -> string)
    requires Trim(req.prompt) != "" && k != 0
    requires |up.chunks| == 0 || up.chunks[|up.chunks| - 1].detail.None?
             || |up.chunks[|up.chunks| - 1].detail.value.choices| == 0
    ensures SidecarsOf(Handle(req, Database(Inserted(k)), up, notify, ser).trace)
              == [Insert(Record(req.prompt, req.device, req.username, None, None))]
  {
    var db := Database(Inserted(k));
    var st := TryBlock(req, db, up, ser);
    SidecarsOfStreaming(req, db, up, notify, ser);
    assert st.record == InitialRecord(req).(id := Some(k));
    assert ReadFinal(st.myChat) == None;
    ShowsFinallyThrown(db, st, notify);
  }

  /** With a database and a real insert id, the record is updated and then
      notified with conversation, conversation id and finish reason taken
      from the last delivered chunk. */
  lemma {:induction false} RecordCompletedFromLastChunk(req: ChatRequest, k: nat, up: Upstream, notify: NotifyOutcome, ser: Chunk -> string)
    requires Trim(req.prompt) != "" && k != 0 && |up.chunks| >= 1
    requires var last := up.chunks[|up.chunks| - 1]; last.detail.Some? && |last.detail.value.choices| >= 1
    ensures var last := up.chunks[|up.chunks| - 1];
            var done := Record(req.prompt, req.device, req.username, Some(k),
                               Some(Final(last.text, last.id, last.detail.value.choices[0].finishReason)));
            SidecarsOf(Handle(req, Database(Inserted(k)), up, notify, ser).trace)
              == [Insert(Record(req.prompt, req.device, req.username, None, None)), Update(done), Notify(done)]
  {
    var db := Database(Inserted(k));
    var st := TryBlock(req, db, up, ser);
    var last := up.chunks[|up.chunks| - 1];
    var f := Final(last.text, last.id, last.detail.value.choices[0].finishReason);
    var done := Record(req.prompt, req.device, req.username, Some(k), Some(f));
    SidecarsOfStreaming(req, db, up, notify, ser);
    assert st.record == InitialRecord(req).(id := Some(k));
    assert st.myChat == Some(last);
    assert ReadFinal(st.myChat) == Some(f);
    assert st.record.(final := Some(f)) == done;
    FinallyCompletes(db, st, notify, f);
    var rec := Record(req.prompt, req.device, req.username, None, None);
    assert [Insert(rec)] + [Update(done), Notify(done)] == [Insert(rec), Update(done), Notify(done)];
  }

  /** The calls made follow the table, on every input. */
  lemma {:induction false} SidecarsFollowTable(req: ChatRequest, db: Db, up: Upstream, notify: NotifyOutcome, ser: Chunk -> string)
    ensures SidecarsOf(Handle(req, db, up, notify, ser).trace) == ExpectedSidecars(req, db, up)
  {
    if Trim(req.prompt) == "" {
      EmptyPromptAnswersNotice(req, db, up, notify, ser);
    } else if db == NoDatabase || db == Database(InsertThrew) {
      SidecarsUntracked(req, db, up, notify, ser);
    } else if db.insert.insertId == 0 {
      SidecarsFalsyId(req, up, notify, ser);
    } else if |up.chunks| == 0 || up.chunks[|up.chunks| - 1].detail.None?
              || |up.chunks[|up.chunks| - 1].detail.value.choices| == 0 {
      SidecarsFinalizeThrown(req, db.insert.insertId, up, notify, ser);
    } else {
      RecordCompletedFromLastChunk(req, db.insert.insertId, up, notify, ser);
    }
  }

  /** Without a database, or when the insert throws, streaming proceeds as
      usual, the record never gets an id, and no update is issued. */
  lemma {:induction false} UntrackedExchange(req: ChatRequest, db: Db, up: Upstream, notify: NotifyOutcome, ser: Chunk -> string)
    requires Trim(req.prompt) != ""
    requires db == NoDatabase || db == Database(InsertThrew)
    ensures var r := Handle(req, db, up, notify, ser);
            var rec := Record(req.prompt, req.device, req.username, None, None);
            && |UpstreamCallsOf(r.trace)| == 1
            && r.body == Join(Serialised(ser, up.chunks)) + up.failure.OrElse("")
            && SidecarsOf(r.trace) == (if db.Database? then [Insert(rec)] else []) + [Notify(rec)]
  {
    StreamedBody(req, db, up, notify, ser);
    SidecarsUntracked(req, db, up, notify, ser);
  }

  /** Reading the last chunk in the finally block throws exactly when a
      real id was assigned and there is no chunk, no detail, or no choice;
      the notification is then skipped. */
  predicate FinalizeThrows(req: ChatRequest, db: Db, up: Upstream)
  {
    && Trim(req.prompt) != ""
    && db.Database? && db.insert.Inserted? && db.insert.insertId != 0
    && (|up.chunks| == 0
        || up.chunks[|up.chunks| - 1].detail.None?
        || |up.chunks[|up.chunks| - 1].detail.value.choices| == 0)
  }

  /** The notifications of a trace are those among its sidecar calls. */
  lemma {:induction false} NotifiesAmongSidecars(t: seq<Effect>)
    ensures NotifiesOf(t) == NotifiesOf(SidecarsOf(t))
    decreases |t|
  {
    if |t| > 0 {
      NotifiesAmongSidecars(t[1..]);
      var head := if IsSidecar(t[0]) then [t[0]] else [];
      assert SidecarsOf(t) == head + SidecarsOf(t[1..]);
      ViewsAppend(head, SidecarsOf(t[1..]));
      ShowsOne(t[0]);
    }
  }

  lemma {:induction false} NotifiesOfTriple(e1: Effect, e2: Effect, e3: Effect)
    ensures NotifiesOf([e1, e2, e3]) == NotifiesOf([e1]) + NotifiesOf([e2]) + NotifiesOf([e3])
  {
    assert [e1, e2, e3] == [e1] + [e2] + [e3];
    ViewsAppend([e1], [e2]);
    ViewsAppend([e1] + [e2], [e3]);
  }

  lemma {:induction false} NotifiesOfPair(e1: Effect, e2: Effect)
    ensures NotifiesOf([e1, e2]) == NotifiesOf([e1]) + NotifiesOf([e2])
  {
    assert [e1, e2] == [e1] + [e2];
    NotifiesAppend([e1], [e2]);
  }

  /** The table's rows without a real id: one notification. */
  lemma {:induction false} TableNotifiesUntracked(req: ChatRequest, db: Db, up: Upstream)
    requires Trim(req.prompt) == "" || !(db.Database? && db.insert.Inserted? && db.insert.insertId != 0)
    ensures |NotifiesOf(ExpectedSidecars(req, db, up))| == 1
  {
    var rec := Record(req.prompt, req.device, req.username, None, None);
    var e := ExpectedSidecars(req, db, up);
    if Trim(req.prompt) == "" || db == NoDatabase {
      assert e == [Notify(rec)];
      ShowsOne(Notify(rec));
    } else {
      var r := if db == Database(InsertThrew) then rec else rec.(id := Some(0));
      assert e == [Insert(rec), Notify(r)];
      NotifiesOfPair(Insert(rec), Notify(r));
      ShowsOne(Insert(rec));
      ShowsOne(Notify(r));
    }
  }

  /** The table's rows with a real id: one notification unless reading the
      last chunk throws. */
  lemma {:induction false} TableNotifiesTracked(req: ChatRequest, k: nat, up: Upstream)
    requires Trim(req.prompt) != "" && k != 0
    ensures |NotifiesOf(ExpectedSidecars(req, Database(Inserted(k)), up))|
              == (if FinalizeThrows(req, Database(Inserted(k)), up) then 0 else 1)
  {
    var rec := Record(req.prompt, req.device, req.username, None, None);
    var e := ExpectedSidecars(req, Database(Inserted(k)), up);
    if FinalizeThrows(req, Database(Inserted(k)), up) {
      assert e == [Insert(rec)];
      ShowsOne(Insert(rec));
    } else {
      var last := up.chunks[|up.chunks| - 1];
      var done := rec.(id := Some(k), final := Some(Final(last.text, last.id, last.detail.value.choices[0].finishReason)));
      assert e == [Insert(rec), Update(done), Notify(done)];
      OneNotifyAfterUpdate(rec, done);
    }
  }

  lemma {:induction false} OneNotifyAfterUpdate(rec: Record, done: Record)
    ensures NotifiesOf([Insert(rec), Update(done), Notify(done)]) == [Notify(done)]
  {
    NotifiesOfTriple(Insert(rec), Update(done), Notify(done));
    ShowsOne(Insert(rec));
    ShowsOne(Update(done));
    ShowsOne(Notify(done));
  }

  lemma {:induction false} TableNotifies(req: ChatRequest, db: Db, up: Upstream)
    ensures |NotifiesOf(ExpectedSidecars(req, db, up))| == (if FinalizeThrows(req, db, up) then 0 else 1)
  {
    if Trim(req.prompt) != "" && db.Database? && db.insert.Inserted? && db.insert.insertId != 0 {
      TableNotifiesTracked(req, db.insert.insertId, up);
    } else {
      TableNotifiesUntracked(req, db, up);
    }
  }

  /** The notification is posted exactly once on every path, the empty
      prompt included, except when reading the last chunk throws, where it
      is not posted at all. */
  lemma {:induction false} NotifyUnlessFinalizeThrows(req: ChatRequest, db: Db, up: Upstream, notify: NotifyOutcome, ser: Chunk -> string)
    ensures |NotifiesOf(Handle(req, db, up, notify, ser).trace)| == (if FinalizeThrows(req, db, up) then 0 else 1)
  {
    SidecarsFollowTable(req, db, up, notify, ser);
    NotifiesAmongSidecars(Handle(req, db, up, notify, ser).trace);
    TableNotifies(req, db, up);
  }

  /** The notification's outcome (any status, or a network failure) never
      changes what the client receives, nor which calls are made. */
  lemma {:induction false} NotifyOutcomeIrrelevant(req: ChatRequest, db: Db, up: Upstream, n1: NotifyOutcome, n2: NotifyOutcome, ser: Chunk -> string)
    ensures Handle(req, db, up, n1, ser).body == Handle(req, db, up, n2, ser).body
    ensures SidecarsOf(Handle(req, db, up, n1, ser).trace) == SidecarsOf(Handle(req, db, up, n2, ser).trace)
  {
    var st := TryBlock(req, db, up, ser);
    HandleParts(req, db, up, n1, ser);
    HandleParts(req, db, up, n2, ser);
    FinallyWritesNothing(db, st, n1);
    FinallyWritesNothing(db, st, n2);
    SidecarsFollowTable(req, db, up, n1, ser);
    SidecarsFollowTable(req, db, up, n2, ser);
  }

  /** Persistence never changes what the client receives: the body is the
      same whether there is no database, the insert throws, or it returns
      any id. */
  lemma {:induction false} PersistenceIrrelevant(req: ChatRequest, db1: Db, db2: Db, up: Upstream, notify: NotifyOutcome, ser: Chunk -> string)
    ensures Handle(req, db1, up, notify, ser).body == Handle(req, db2, up, notify, ser).body
  {
    if Trim(req.prompt) == "" {
      EmptyPromptAnswersNotice(req, db1, up, notify, ser);
      EmptyPromptAnswersNotice(req, db2, up, notify, ser);
    } else {
      StreamedBody(req, db1, up, notify, ser);
      StreamedBody(req, db2, up, notify, ser);
    }
  }

  // ---------------------------------------------------------------------
  // Ending the response

  /** No effect of `t` ends the response, updates the record or posts the
      notification. */
  predicate NoFinalization(t: seq<Effect>)
  {
    forall i :: 0 <= i < |t| ==> !t[i].End? && !t[i].Update? && !t[i].Notify?
  }

  lemma NoFinalizationAppend(a: seq<Effect>, b: seq<Effect>)
    requires NoFinalization(a) && NoFinalization(b)
    ensures NoFinalization(a + b)
  {
    forall i | 0 <= i < |a + b|
      ensures !(a + b)[i].End? && !(a + b)[i].Update? && !(a + b)[i].Notify?
    {
      if i >= |a| {
        assert (a + b)[i] == b[i - |a|];
      }
    }
  }

  lemma StreamingNoFinalization(ins: seq<Effect>, call: Effect, writes: seq<Effect>, fail: seq<Effect>)
    requires NoFinalization(ins) && call.CallUpstream? && NoFinalization(writes) && NoFinalization(fail)
    ensures NoFinalization(ins + [call] + writes + fail)
  {
    NoFinalizationAppend(ins, [call]);
    NoFinalizationAppend(ins + [call], writes);
    NoFinalizationAppend(ins + [call] + writes, fail);
  }

  lemma {:induction false} TryEmptyNoFinalization(req: ChatRequest, db: Db, up: Upstream, ser: Chunk -> string)
    requires Trim(req.prompt) == ""
    ensures NoFinalization(TryBlock(req, db, up, ser).trace)
  {
  }

  lemma {:induction false} TryStreamingNoFinalization(req: ChatRequest, db: Db, up: Upstream, ser: Chunk -> string)
    requires Trim(req.prompt) != ""
    ensures NoFinalization(TryBlock(req, db, up, ser).trace)
  {
    var ins := InsertStep(db, InitialRecord(req));
    var call := CallUpstream(Trim(req.prompt), ContextOf(req.options), req.systemMessage, req.temperature);
    var writes := WriteAll(Framed(Serialised(ser, up.chunks)));
    var fail := FailureWrites(up.failure);
    StreamingNoFinalization(ins.trace, call, writes, fail);
  }

  /** The `try`/`catch` part never ends the response, updates the record or
      posts the notification. */
  lemma {:induction false} TryNeverFinalizes(req: ChatRequest, db: Db, up: Upstream, ser: Chunk -> string)
    ensures NoFinalization(TryBlock(req, db, up, ser).trace)
  {
    if Trim(req.prompt) != "" {
      TryStreamingNoFinalization(req, db, up, ser);
    } else {
      TryEmptyNoFinalization(req, db, up, ser);
    }
  }

  /** The `finally` block ends the response once, as its last effect. */
  lemma {:induction false} FinallyEndsOnce(db: Db, st: Stage, notify: NotifyOutcome)
    ensures var t := FinallyBlock(db, st, notify);
            |t| >= 1 && t[|t| - 1] == End && forall i :: 0 <= i < |t| - 1 ==> !t[i].End?
  {
  }

  /** The handler sets the content type first, and ends the response exactly
      once, as its final effect, on every path. */
  lemma {:induction false} EndsExactlyOnce(req: ChatRequest, db: Db, up: Upstream, notify: NotifyOutcome, ser: Chunk -> string)
    ensures var t := Handle(req, db, up, notify, ser).trace;
            && |t| >= 2 && t[0] == SetContentType("application/octet-stream")
            && t[|t| - 1] == End
            && forall i :: 0 <= i < |t| - 1 ==> !t[i].End?
  {
    var st := TryBlock(req, db, up, ser);
    var fin := FinallyBlock(db, st, notify);
    var t := Handle(req, db, up, notify, ser).trace;
    TryNeverFinalizes(req, db, up, ser);
    FinallyEndsOnce(db, st, notify);
    assert t == [SetContentType(StreamContentType)] + st.trace + fin;
    assert NoFinalization(st.trace);
    forall i | 0 <= i < |t| - 1
      ensures !t[i].End?
    {
      if i >= 1 + |st.trace| {
        assert t[i] == fin[i - 1 - |st.trace|];
      } else if i >= 1 {
        assert t[i] == st.trace[i - 1];
      }
    }
  }
}
