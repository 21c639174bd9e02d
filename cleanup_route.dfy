/**
 * The batch cleanup handler: list up to 50 unread inbox messages, cut the list into chunks of at
 * most five, and run every message through fetch → classify → move → log, counting the messages
 * that went through and collecting one `{ id, error }` per message that failed, without ever
 * stopping the batch. The mailbox, the store and the classifier are the outside world; what they
 * answer is fixed in a `World`.
 */
module CleanupRoute {
  import opened Wrappers
  import opened Js
  import opened Text
  import opened Seqs
  import opened Http
  import opened DbService
  import opened GmailService
  import opened EmailClassifier
  import opened Categories

  const MaxResults: nat := 50
  const ConcurrencyLimit: nat := 5
  const MetadataHeaders: seq<string> := ["Subject", "From"]

  /** What the outside world answers during one run, per message id where it varies. */
  datatype World = World(
    listReply: Result<seq<MessageRef>, string>,
    details: string -> Result<MessageDetails, string>,
    classify: Classifier,
    moveFaults: string -> MoveFaults,
    storeAvailability: string -> Availability,
    today: Day,
    now: Time)

  // ---------------------------------------------------------------------------------------------
  // Chunking

  /** The list cut into consecutive slices of `size`, the last one possibly shorter. */
  function Chunks<T>(s: seq<T>, size: nat): seq<seq<T>>
    requires size > 0
    decreases |s|
  {
    if s == [] then [] else [s[..Min(size, |s|)]] + Chunks(s[Min(size, |s|)..], size)
  }

  /** The chunks, concatenated in order, give back the list. */
  lemma {:induction false} ChunksFlatten<T>(s: seq<T>, size: nat)
    requires size > 0
    ensures Flatten(Chunks(s, size)) == s
  {
    if s != [] {
      var k := Min(size, |s|);
      ChunksFlatten(s[k..], size);
      assert s[..k] + s[k..] == s;
    }
  }

  /** Every chunk is non-empty and at most `size` long, and every chunk but the last is full. */
  lemma {:induction false} ChunksSizes<T>(s: seq<T>, size: nat)
    requires size > 0
    ensures forall k | 0 <= k < |Chunks(s, size)| :: 0 < |Chunks(s, size)[k]| <= size
    ensures forall k | 0 <= k < |Chunks(s, size)| - 1 :: |Chunks(s, size)[k]| == size
  {
    if s != [] {
      var k := Min(size, |s|);
      ChunksSizes(s[k..], size);
      var cs := Chunks(s, size);
      assert cs == [s[..k]] + Chunks(s[k..], size);
      forall i | 1 <= i < |cs| ensures 0 < |cs[i]| <= size && (i < |cs| - 1 ==> |cs[i]| == size) {
        assert cs[i] == Chunks(s[k..], size)[i - 1];
      }
      if |cs| > 1 {
        assert s[k..] != [];
      }
    }
  }

  /** The chunking loop: `for (i = 0; i < n; i += size) chunks.push(messages.slice(i, i + size))`. */
  method MakeChunks<T>(messages: seq<T>, size: nat) returns (chunks: seq<seq<T>>)
    requires size > 0
    ensures chunks == Chunks(messages, size)
  {
    chunks := [];
    var i := 0;
    while i < |messages|
      invariant 0 <= i
      invariant chunks + Chunks(messages[Min(i, |messages|)..], size) == Chunks(messages, size)
      decreases |messages| - i
    {
      var rest := messages[i..];
      var k := Min(size, |rest|);
      assert rest[..k] == messages[i..Min(i + size, |messages|)];
      assert rest[k..] == messages[Min(i + size, |messages|)..];
      chunks := chunks + [messages[i..Min(i + size, |messages|)]];
      i := i + size;
    }
  }

  // ---------------------------------------------------------------------------------------------
  // One message

  /** `!msg.id` is false. */
  predicate HasId(m: MessageRef) {
    HasText(m.id)
  }

  /** How many messages of the list have an id. */
  function CountWithId(ms: seq<MessageRef>): nat {
    if ms == [] then 0 else CountWithId(ms[..|ms| - 1]) + (if HasId(ms[|ms| - 1]) then 1 else 0)
  }

  /** The fields the pipeline reads off a fetched message, and the classifier's answer. */
  datatype Prepared = Prepared(subject: string, sender: string, snippet: string, classification: Classification)

  /**
   * The fetch and classify steps of one message: the metadata is fetched, the missing headers
   * take their defaults, and the classifier sees subject, sender and snippet.
   */
  function Prepare(id: string, w: World): (r: Result<Prepared, string>)
    ensures w.details(id).Err? ==> r == Err(w.details(id).error)
    ensures r.Ok? ==>
      && w.details(id).Ok?
      && r.value.subject == HeaderOr(w.details(id).value, "Subject", "No Subject")
      && r.value.sender == HeaderOr(w.details(id).value, "From", "Unknown Sender")
      && r.value.snippet == SnippetOf(w.details(id).value)
      && w.classify(EmailInput(r.value.subject, r.value.sender, r.value.snippet, None)) == Ok(r.value.classification)
    ensures w.details(id).Ok? ==>
      var d := w.details(id).value;
      var verdict := w.classify(EmailInput(HeaderOr(d, "Subject", "No Subject"), HeaderOr(d, "From", "Unknown Sender"),
                                           SnippetOf(d), None));
      && (r.Ok? <==> verdict.Ok?)
      && (verdict.Err? ==> r == Err(verdict.error))
  {
    match w.details(id)
    case Err(e) => Err(e)
    case Ok(d) =>
      var subject := HeaderOr(d, "Subject", "No Subject");
      var sender := HeaderOr(d, "From", "Unknown Sender");
      var snippet := SnippetOf(d);
      match w.classify(EmailInput(subject, sender, snippet, None))
      case Err(e) => Err(e)
      case Ok(c) => Ok(Prepared(subject, sender, snippet, c))
  }

  /** The log record of a processed message. */
  function LogOf(id: string, p: Prepared, now: Time): EmailLog {
    EmailLog(id, p.sender, p.subject, p.classification.category, now, Bool(p.classification.isUrgent),
             Some(p.snippet), Some(p.classification.reasoning))
  }

  /** What became of one listed message. */
  datatype Outcome = Skipped | Processed(category: Category) | Failed(entry: ErrorEntry)

  /** The parts of the mailbox and the store that a batch changes. */
  datatype State = State(labels: seq<Label>, messageLabels: map<string, set<string>>, sent: seq<Request>,
                         stats: map<Day, DailyStats>)

  datatype Effect = Effect(state: State, outcome: Outcome)

  /**
   * `processMessage(msg)`: a message without id is skipped; otherwise fetch, classify, move and
   * log run in that order, and the first step that throws ends the message with its error.
   */
  function Process(st: State, msg: MessageRef, w: World): Effect {
    if !HasId(msg) then Effect(st, Skipped)
    else
      var id := msg.id.value;
      var fetched := st.(sent := st.sent + [GetMessageRequest(id, Metadata(MetadataHeaders))]);
      match Prepare(id, w)
      case Err(e) => Effect(fetched, Failed(ErrorEntry(id, e)))
      case Ok(p) =>
        var category := p.classification.category;
        var faults := w.moveFaults(id);
        var moved := MoveResult(st.labels, st.messageLabels, id, category, faults);
        var after := fetched.(
          labels := LabelsAfterMove(st.labels, category, faults),
          messageLabels := MessageLabelsAfterMove(st.labels, st.messageLabels, id, category, faults),
          sent := fetched.sent + MoveSent(st.labels, id, category, faults));
        if moved.Err? then Effect(after, Failed(ErrorEntry(id, moved.error)))
        else
          var logged := StatsAfterLog(st.stats, LogOf(id, p, w.now), w.today, w.now, w.storeAvailability(id));
          Effect(after.(stats := logged), Processed(category))
  }

  /**
   * The steps of one message run in order and a failure stops the later ones: a failed fetch or
   * classification sends only the fetch and moves and logs nothing; only a processed message can
   * change the statistics; and a message whose move succeeded is processed whatever the store
   * does, since logging swallows its failures.
   */
  lemma ProcessOrder(st: State, msg: MessageRef, w: World)
    ensures var e := Process(st, msg, w);
            && (!HasId(msg) ==> e == Effect(st, Skipped))
            && (HasId(msg) ==> |e.state.sent| > |st.sent|
                               && e.state.sent[|st.sent|] == GetMessageRequest(msg.id.value, Metadata(MetadataHeaders)))
            && (HasId(msg) && Prepare(msg.id.value, w).Err? ==>
                  e.state == st.(sent := st.sent + [GetMessageRequest(msg.id.value, Metadata(MetadataHeaders))])
                  && e.outcome == Failed(ErrorEntry(msg.id.value, Prepare(msg.id.value, w).error)))
            && (!e.outcome.Processed? ==> e.state.stats == st.stats)
            && (HasId(msg) && Prepare(msg.id.value, w).Ok? ==>
                  (e.outcome.Processed? <==>
                     MoveResult(st.labels, st.messageLabels, msg.id.value,
                                Prepare(msg.id.value, w).value.classification.category,
                                w.moveFaults(msg.id.value)).Ok?))
  {
  }

  // ---------------------------------------------------------------------------------------------
  // The batch

  datatype RunResult = RunResult(state: State, outcomes: seq<Outcome>)

  /** The messages processed one after another, each seeing the state the previous ones left. */
  function Run(st: State, msgs: seq<MessageRef>, w: World): RunResult {
    if msgs == [] then RunResult(st, [])
    else
      var r := Run(st, msgs[..|msgs| - 1], w);
      var e := Process(r.state, msgs[|msgs| - 1], w);
      RunResult(e.state, r.outcomes + [e.outcome])
  }

  /** `processedCount` */
  function ProcessedCount(os: seq<Outcome>): nat {
    if os == [] then 0 else ProcessedCount(os[..|os| - 1]) + (if os[|os| - 1].Processed? then 1 else 0)
  }

  /** `errors`, in the order the failures happened */
  function ErrorsOf(os: seq<Outcome>): seq<ErrorEntry> {
    if os == [] then []
    else ErrorsOf(os[..|os| - 1]) + (if os[|os| - 1].Failed? then [os[|os| - 1].entry] else [])
  }

  /** The response of a batch that had messages; `errors` is left out when there are none. */
  function Report(os: seq<Outcome>): Body {
    var count := ProcessedCount(os);
    var errors := ErrorsOf(os);
    BatchReport("Successfully processed " + NatToDecimal(count) + " emails.", count,
                if |errors| > 0 then Some(errors) else None)
  }

  lemma OutcomesSnoc(os: seq<Outcome>, o: Outcome)
    ensures ProcessedCount(os + [o]) == ProcessedCount(os) + (if o.Processed? then 1 else 0)
    ensures ErrorsOf(os + [o]) == ErrorsOf(os) + (if o.Failed? then [o.entry] else [])
  {
    assert (os + [o])[..|os|] == os;
  }

  lemma RunSnoc(st: State, msgs: seq<MessageRef>, m: MessageRef, w: World)
    ensures Run(st, msgs + [m], w)
            == var r := Run(st, msgs, w);
               var e := Process(r.state, m, w);
               RunResult(e.state, r.outcomes + [e.outcome])
  {
    assert (msgs + [m])[..|msgs|] == msgs;
  }

  /** What one outcome says about its message: skipped exactly when it has no id, failures name it. */
  predicate OutcomeFits(o: Outcome, m: MessageRef) {
    && (o.Skipped? <==> !HasId(m))
    && (o.Failed? ==> m.id == Some(o.entry.id))
  }

  lemma ProcessFits(st: State, m: MessageRef, w: World)
    ensures OutcomeFits(Process(st, m, w).outcome, m)
  {
  }

  /** The outcomes account for the messages, one by one. */
  predicate Accounts(os: seq<Outcome>, msgs: seq<MessageRef>) {
    && |os| == |msgs|
    && (forall k | 0 <= k < |msgs| :: os[k].Skipped? <==> !HasId(msgs[k]))
    && ProcessedCount(os) + |ErrorsOf(os)| == CountWithId(msgs)
    && forall e | e in ErrorsOf(os) :: exists k | 0 <= k < |msgs| :: msgs[k].id == Some(e.id)
  }

  lemma AccountsSnoc(os: seq<Outcome>, msgs: seq<MessageRef>, o: Outcome, m: MessageRef)
    requires Accounts(os, msgs) && OutcomeFits(o, m)
    ensures Accounts(os + [o], msgs + [m])
  {
    OutcomesSnoc(os, o);
    assert (msgs + [m])[..|msgs|] == msgs;
    SnocSkipped(os, o, msgs, m);
    SnocErrorsNamed(os, o, msgs, m);
  }

  /**
   * Every message with an id ends in exactly one outcome, so the processed count and the errors
   * together account for exactly the messages that have an id; a message without id is skipped,
   * and every error names a listed message.
   */
  lemma {:induction false} BatchAccounting(st: State, msgs: seq<MessageRef>, w: World)
    ensures var os := Run(st, msgs, w).outcomes;
            && |os| == |msgs|
            && (forall k | 0 <= k < |msgs| :: os[k].Skipped? <==> !HasId(msgs[k]))
            && ProcessedCount(os) + |ErrorsOf(os)| == CountWithId(msgs)
            && forall e | e in ErrorsOf(os) :: exists k | 0 <= k < |msgs| :: msgs[k].id == Some(e.id)
  {
    RunAccounts(st, msgs, w);
  }

  lemma {:induction false} RunAccounts(st: State, msgs: seq<MessageRef>, w: World)
    ensures Accounts(Run(st, msgs, w).outcomes, msgs)
  {
    if msgs != [] {
      var n := |msgs|;
      var p, m := msgs[..n - 1], msgs[n - 1];
      assert msgs == p + [m];
      RunAccounts(st, p, w);
      var r := Run(st, p, w);
      var e := Process(r.state, m, w);
      ProcessFits(r.state, m, w);
      assert Run(st, msgs, w).outcomes == r.outcomes + [e.outcome];
      AccountsSnoc(r.outcomes, p, e.outcome, m);
    }
  }

  lemma SnocSkipped(os: seq<Outcome>, o: Outcome, msgs: seq<MessageRef>, m: MessageRef)
    requires |os| == |msgs| && forall k | 0 <= k < |msgs| :: os[k].Skipped? <==> !HasId(msgs[k])
    requires o.Skipped? <==> !HasId(m)
    ensures var os', msgs' := os + [o], msgs + [m];
            forall k | 0 <= k < |msgs'| :: os'[k].Skipped? <==> !HasId(msgs'[k])
  {
  }

  lemma SnocErrorsNamed(os: seq<Outcome>, o: Outcome, msgs: seq<MessageRef>, m: MessageRef)
    requires forall e | e in ErrorsOf(os) :: exists k | 0 <= k < |msgs| :: msgs[k].id == Some(e.id)
    requires o.Failed? ==> m.id == Some(o.entry.id)
    ensures forall e | e in ErrorsOf(os + [o]) :: exists k | 0 <= k < |msgs| + 1 :: (msgs + [m])[k].id == Some(e.id)
  {
    OutcomesSnoc(os, o);
    forall err | err in ErrorsOf(os + [o]) ensures exists k | 0 <= k < |msgs| + 1 :: (msgs + [m])[k].id == Some(err.id) {
      if err in ErrorsOf(os) {
        var k :| 0 <= k < |msgs| && msgs[k].id == Some(err.id);
        assert (msgs + [m])[k] == msgs[k];
      } else {
        assert (msgs + [m])[|msgs|].id == Some(err.id);
      }
    }
  }

  /**
   * `POST /api/cleanup` against a mailbox and a store. A failed listing answers 500 with its
   * message; an empty inbox answers at once; otherwise every listed message runs through the
   * pipeline in chunk order, and the response reports the count and the errors of the run.
   */
  method Post(mailbox: Mailbox, store: Firestore, w: World) returns (resp: Response)
    modifies mailbox`sent, mailbox`labels, mailbox`messageLabels, store
    ensures OnlyStatsChanged(store)
    ensures w.listReply.Err? ==>
      && resp == Response(500, ErrorBody(w.listReply.error))
      && mailbox.sent == old(mailbox.sent) + [ListMessagesRequest(InboxUnreadQuery, MaxResults)]
      && mailbox.labels == old(mailbox.labels) && mailbox.messageLabels == old(mailbox.messageLabels)
      && store.stats == old(store.stats)
    ensures w.listReply.Ok? && Take(w.listReply.value, MaxResults) == [] ==>
      && resp == Json(BatchReport("Inbox is already empty!", 0, None))
      && mailbox.sent == old(mailbox.sent) + [ListMessagesRequest(InboxUnreadQuery, MaxResults)]
      && mailbox.labels == old(mailbox.labels) && mailbox.messageLabels == old(mailbox.messageLabels)
      && store.stats == old(store.stats)
    ensures w.listReply.Ok? && Take(w.listReply.value, MaxResults) != [] ==>
      var start := State(old(mailbox.labels), old(mailbox.messageLabels),
                         old(mailbox.sent) + [ListMessagesRequest(InboxUnreadQuery, MaxResults)], old(store.stats));
      var run := Run(start, Take(w.listReply.value, MaxResults), w);
      && resp == Json(Report(run.outcomes))
      && State(mailbox.labels, mailbox.messageLabels, mailbox.sent, store.stats) == run.state
  {
    var listed := mailbox.ListMessages(InboxUnreadQuery, MaxResults, w.listReply);
    if listed.Err? {
      return Response(500, ErrorBody(listed.error));
    }
    var messages := listed.value;
    if |messages| == 0 {
      return Json(BatchReport("Inbox is already empty!", 0, None));
    }
    ghost var start := State(mailbox.labels, mailbox.messageLabels, mailbox.sent, store.stats);
    var chunks := MakeChunks(messages, ConcurrencyLimit);
    var processedCount, errors := ProcessChunks(mailbox, store, w, start, chunks);
    ChunksFlatten(messages, ConcurrencyLimit);
    resp := Json(BatchReport("Successfully processed " + NatToDecimal(processedCount) + " emails.", processedCount,
                             if |errors| > 0 then Some(errors) else None));
  }

  /** The chunks in order, continuing the run from `start`. */
  method ProcessChunks(mailbox: Mailbox, store: Firestore, w: World, ghost start: State, chunks: seq<seq<MessageRef>>)
    returns (processedCount: nat, errors: seq<ErrorEntry>)
    requires start == State(mailbox.labels, mailbox.messageLabels, mailbox.sent, store.stats)
    modifies mailbox`sent, mailbox`labels, mailbox`messageLabels, store
    ensures OnlyStatsChanged(store)
    ensures Run(start, Flatten(chunks), w).state == State(mailbox.labels, mailbox.messageLabels, mailbox.sent, store.stats)
    ensures processedCount == ProcessedCount(Run(start, Flatten(chunks), w).outcomes)
    ensures errors == ErrorsOf(Run(start, Flatten(chunks), w).outcomes)
  {
    processedCount, errors := 0, [];
    ghost var done: seq<MessageRef> := [];
    for c := 0 to |chunks|
      invariant done == Flatten(chunks[..c])
      invariant Run(start, done, w).state == State(mailbox.labels, mailbox.messageLabels, mailbox.sent, store.stats)
      invariant processedCount == ProcessedCount(Run(start, done, w).outcomes)
      invariant errors == ErrorsOf(Run(start, done, w).outcomes)
      invariant OnlyStatsChanged(store)
    {
      processedCount, errors := ProcessChunk(mailbox, store, w, start, done, chunks[c], processedCount, errors);
      assert chunks[..c + 1] == chunks[..c] + [chunks[c]];
      FlattenSnoc(chunks[..c], chunks[c]);
      done := done + chunks[c];
    }
    assert chunks[..|chunks|] == chunks;
  }

  /**
   * One chunk, its messages one after another in list order (the source starts them together and
   * waits for all, so their label lookups and creations may interleave), continuing the run of the
   * messages `done` before it.
   */
  method ProcessChunk(mailbox: Mailbox, store: Firestore, w: World, ghost start: State, ghost done: seq<MessageRef>,
                      chunk: seq<MessageRef>, processedCount: nat, errors: seq<ErrorEntry>)
    returns (processedCount': nat, errors': seq<ErrorEntry>)
    requires Run(start, done, w).state == State(mailbox.labels, mailbox.messageLabels, mailbox.sent, store.stats)
    requires processedCount == ProcessedCount(Run(start, done, w).outcomes)
    requires errors == ErrorsOf(Run(start, done, w).outcomes)
    modifies mailbox`sent, mailbox`labels, mailbox`messageLabels, store
    ensures OnlyStatsChanged(store)
    ensures Run(start, done + chunk, w).state == State(mailbox.labels, mailbox.messageLabels, mailbox.sent, store.stats)
    ensures processedCount' == ProcessedCount(Run(start, done + chunk, w).outcomes)
    ensures errors' == ErrorsOf(Run(start, done + chunk, w).outcomes)
  {
    processedCount', errors' := processedCount, errors;
    ghost var before := done;
    for j := 0 to |chunk|
      invariant before == done + chunk[..j]
      invariant Run(start, before, w).state == State(mailbox.labels, mailbox.messageLabels, mailbox.sent, store.stats)
      invariant processedCount' == ProcessedCount(Run(start, before, w).outcomes)
      invariant errors' == ErrorsOf(Run(start, before, w).outcomes)
      invariant OnlyStatsChanged(store)
    {
      processedCount', errors' := ProcessNext(mailbox, store, w, start, before, chunk[j], processedCount', errors');
      SnocPrefix(done, chunk, j);
      before := before + [chunk[j]];
    }
    assert chunk[..|chunk|] == chunk;
  }

  lemma SnocPrefix<T>(done: seq<T>, chunk: seq<T>, j: nat)
    requires j < |chunk|
    ensures (done + chunk[..j]) + [chunk[j]] == done + chunk[..j + 1]
  {
    assert chunk[..j + 1] == chunk[..j] + [chunk[j]];
  }

  /** The message after the run of `before`, with the counters of the run carried along. */
  method ProcessNext(mailbox: Mailbox, store: Firestore, w: World, ghost start: State, ghost before: seq<MessageRef>,
                     msg: MessageRef, processedCount: nat, errors: seq<ErrorEntry>)
    returns (processedCount': nat, errors': seq<ErrorEntry>)
    requires Run(start, before, w).state == State(mailbox.labels, mailbox.messageLabels, mailbox.sent, store.stats)
    requires processedCount == ProcessedCount(Run(start, before, w).outcomes)
    requires errors == ErrorsOf(Run(start, before, w).outcomes)
    modifies mailbox`sent, mailbox`labels, mailbox`messageLabels, store
    ensures OnlyStatsChanged(store)
    ensures Run(start, before + [msg], w).state == State(mailbox.labels, mailbox.messageLabels, mailbox.sent, store.stats)
    ensures processedCount' == ProcessedCount(Run(start, before + [msg], w).outcomes)
    ensures errors' == ErrorsOf(Run(start, before + [msg], w).outcomes)
  {
    ghost var r := Run(start, before, w);
    var outcome := ProcessMessage(mailbox, store, w, msg);
    ghost var e := Process(r.state, msg, w);
    assert e == Effect(State(mailbox.labels, mailbox.messageLabels, mailbox.sent, store.stats), outcome);
    RunSnoc(start, before, msg, w);
    OutcomesSnoc(r.outcomes, outcome);
    processedCount', errors' := processedCount, errors;
    match outcome {
      case Processed(_) => processedCount' := processedCount' + 1;
      case Failed(entry) => errors' := errors' + [entry];
      case Skipped =>
    }
  }

  /** One message through the pipeline, against the mailbox and the store. */
  method ProcessMessage(mailbox: Mailbox, store: Firestore, w: World, msg: MessageRef) returns (outcome: Outcome)
    modifies mailbox`sent, mailbox`labels, mailbox`messageLabels, store
    ensures OnlyStatsChanged(store)
    ensures Process(State(old(mailbox.labels), old(mailbox.messageLabels), old(mailbox.sent), old(store.stats)), msg, w)
            == Effect(State(mailbox.labels, mailbox.messageLabels, mailbox.sent, store.stats), outcome)
  {
    if !HasId(msg) {
      return Skipped;
    }
    var id := msg.id.value;
    var fetched := mailbox.GetMessage(id, Metadata(MetadataHeaders), w.details(id));
    if fetched.Err? {
      return Failed(ErrorEntry(id, fetched.error));
    }
    var details := fetched.value;
    var subject := HeaderOr(details, "Subject", "No Subject");
    var sender := HeaderOr(details, "From", "Unknown Sender");
    var snippet := SnippetOf(details);
    var classification := w.classify(EmailInput(subject, sender, snippet, None));
    if classification.Err? {
      return Failed(ErrorEntry(id, classification.error));
    }
    var category := classification.value.category;
    var moved := mailbox.MoveEmailToCategory(id, category, w.moveFaults(id));
    if moved.Err? {
      return Failed(ErrorEntry(id, moved.error));
    }
    var log := LogOf(id, Prepared(subject, sender, snippet, classification.value), w.now);
    store.LogEmailProcessing(log, w.today, w.now, w.storeAvailability(id));
    outcome := Processed(category);
  }
}
