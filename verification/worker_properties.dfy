/**
 * What one call of `work` promises (KafkaWorker.php:108-175), stated over the
 * Cycle function that KafkaWorker.Work is proved to follow, and what a run of
 * several calls promises about the consumer cache.
 */
module WorkerProperties {
  import opened Wrappers
  import opened RdKafka
  import opened Exceptions
  import opened Messages
  import opened Workers

  // ---------------------------------------------------------------------------
  // Views of a trace
  // ---------------------------------------------------------------------------

  /** Which actions a view keeps: the event-handler hooks, the commits, or the
      subscriptions of one consumer id. */
  datatype Kind = Hook | Committing | SubscribingFor(id: string)

  predicate Matches(a: Action, k: Kind) {
    match k
    case Hook => a.Received? || a.Processed? || a.Exception? || a.Finally?
    case Committing => a.Commit?
    case SubscribingFor(id) => a.Subscribe? && a.consumerId == id
  }

  /** The actions of a trace that are of one kind, in order. */
  function Select(actions: seq<Action>, k: Kind): seq<Action> {
    if actions == [] then []
    else (if Matches(actions[0], k) then [actions[0]] else []) + Select(actions[1..], k)
  }

  function Events(actions: seq<Action>): seq<Action> {
    Select(actions, Hook)
  }

  function Commits(actions: seq<Action>): seq<Action> {
    Select(actions, Committing)
  }

  lemma {:induction false} SelectAppend(a: seq<Action>, b: seq<Action>, k: Kind)
    ensures Select(a + b, k) == Select(a, k) + Select(b, k)
  {
    if a == [] {
      assert a + b == b;
    } else {
      var head := if Matches(a[0], k) then [a[0]] else [];
      assert (a + b)[0] == a[0];
      assert (a + b)[1..] == a[1..] + b;
      SelectAppend(a[1..], b, k);
      calc {
        Select(a + b, k);
        head + Select(a[1..] + b, k);
        head + (Select(a[1..], k) + Select(b, k));
        (head + Select(a[1..], k)) + Select(b, k);
        Select(a, k) + Select(b, k);
      }
    }
  }

  lemma {:induction false} SelectNone(a: seq<Action>, k: Kind)
    requires forall x :: x in a ==> !Matches(x, k)
    ensures Select(a, k) == []
  {
    if a != [] {
      assert a[0] in a;
      assert forall x :: x in a[1..] ==> x in a;
      SelectNone(a[1..], k);
    }
  }

  lemma {:induction false} SelectAll(a: seq<Action>, k: Kind)
    requires forall x :: x in a ==> Matches(x, k)
    ensures Select(a, k) == a
  {
    if a != [] {
      assert a[0] in a;
      assert forall x :: x in a[1..] ==> x in a;
      SelectAll(a[1..], k);
    }
  }


  lemma SelectOne(a: Action, k: Kind)
    ensures Select([a], k) == if Matches(a, k) then [a] else []
  {
    assert [a][1..] == [];
  }

  lemma SelectNotify(handler: Option<WorkerEventHandler>, a: Action, k: Kind)
    ensures Select(Notify(handler, a), k) == if Matches(a, k) then Notify(handler, a) else []
  {
    if handler.Some? {
      SelectOne(a, k);
    }
  }

  lemma SelectSnoc(a: seq<Action>, x: Action, k: Kind)
    ensures Select(a + [x], k) == Select(a, k) + (if Matches(x, k) then [x] else [])
  {
    SelectAppend(a, [x], k);
    SelectOne(x, k);
  }

  lemma SelectAppendNotify(a: seq<Action>, handler: Option<WorkerEventHandler>, x: Action, k: Kind)
    ensures Select(a + Notify(handler, x), k) == Select(a, k) + (if Matches(x, k) then Notify(handler, x) else [])
  {
    SelectAppend(a, Notify(handler, x), k);
    SelectNotify(handler, x, k);
  }

  // ---------------------------------------------------------------------------
  // Reference definitions of the stages a cycle can stop in
  // ---------------------------------------------------------------------------

  /** The error, if any, that the factory, subscribe or consume raise for `id`. */
  function AcquireError(cache: map<string, KafkaConsumer>, id: string, calls: Collaborators): Option<Error> {
    if id !in cache && calls.created.Failure? then Some(calls.created.error)
    else if id !in cache && calls.subscribed.Throws? then Some(calls.subscribed.error)
    else if calls.consumed.Failure? then Some(calls.consumed.error)
    else None
  }

  /** The cycle gets past consume, the interruption check and the switch. */
  predicate ReachesProcessing(cache: map<string, KafkaConsumer>, id: string, interrupted: bool, calls: Collaborators) {
    AcquireError(cache, id, calls).None? && !interrupted && calls.consumed.value.err == ErrNoError
  }

  // ---------------------------------------------------------------------------
  // One cycle
  // ---------------------------------------------------------------------------

  /** Without a consumer id the cycle throws InvalidArgument before calling anything. */
  lemma MissingConsumerIdFailsFast(
    cache: map<string, KafkaConsumer>, handler: Option<WorkerEventHandler>, topics: seq<string>, timeout: int,
    interrupted: bool, calls: Collaborators, decode: Decoder)
    ensures Cycle(cache, handler, topics, timeout, None, interrupted, calls, decode)
      == CycleResult(cache, [], Throws(InvalidArgument(NoConsumerIdMessage)))
  {
  }

  /** The factory call and the subscription: the actions of the acquire step. */
  predicate Acquiring(a: Action) {
    a.GetConsumer? || a.Subscribe?
  }

  lemma FailureNeverAcquires(e: Error, record: Record, handler: Option<WorkerEventHandler>, committed: Outcome)
    ensures forall x :: x in OnFailure(e, record, handler, committed).actions ==> !Acquiring(x)
  {
  }

  lemma StageNeverAcquires(record: Record, handler: Option<WorkerEventHandler>, calls: Collaborators, decode: Decoder)
    ensures forall x :: x in ProcessRecord(record, handler, calls, decode).actions ==> !Acquiring(x)
  {
    var decoded := DecodePayload(record, decode);
    if decoded.Failure? {
      FailureNeverAcquires(decoded.error, record, handler, calls.committed);
    } else {
      var view := FreshView(record, decoded.value);
      var started := Notify(handler, Received(view)) + [Process(view)];
      var done := started + Notify(handler, Processed(view)) + [Commit(record)];
      assert forall x :: x in done ==> !Acquiring(x);
      if calls.processed.Throws? {
        FailureNeverAcquires(calls.processed.error, record, handler, calls.committed);
      } else if calls.committed.Throws? {
        FailureNeverAcquires(calls.committed.error, record, handler, calls.recommitted);
      }
    }
  }

  /** Only the acquire step asks the factory or subscribes: everything after it
      is a poll, a hook, a processor call or a commit. */
  lemma ServeNeverAcquires(
    consumer: Result<KafkaConsumer, Error>, handler: Option<WorkerEventHandler>, timeout: int,
    interrupted: bool, calls: Collaborators, decode: Decoder)
    ensures forall x :: x in Serve(consumer, handler, timeout, interrupted, calls, decode).actions ==> !Acquiring(x)
  {
    if consumer.Success? && calls.consumed.Success? && !interrupted && Classify(calls.consumed.value.err).Proceed? {
      StageNeverAcquires(calls.consumed.value, handler, calls, decode);
    }
  }

  /**
   * The cache is insert-if-absent: a cached handle is polled as it is, the
   * handle is cached as soon as the factory returns it (even when subscribe
   * then throws), and no other id is touched.
   */
  lemma ConsumerCacheInsertIfAbsent(
    cache: map<string, KafkaConsumer>, handler: Option<WorkerEventHandler>, topics: seq<string>, timeout: int,
    id: string, interrupted: bool, calls: Collaborators, decode: Decoder)
    ensures var r := Cycle(cache, handler, topics, timeout, Some(id), interrupted, calls, decode);
      && (id in cache ==> r.consumers == cache && r.actions[0] == Consume(cache[id], timeout))
      && (forall k :: k in cache ==> k in r.consumers && r.consumers[k] == cache[k])
      && (forall k :: k != id ==> (k in r.consumers <==> k in cache))
      && (id in r.consumers <==> id in cache || calls.created.Success?)
      && (id !in cache && calls.created.Success? && calls.subscribed.Throws? ==>
            r.consumers[id] == calls.created.value && r.outcome == calls.subscribed)
      && (id !in cache && calls.created.Success? && calls.created.value.subscription.None? && calls.subscribed.Throws? ==>
            r.consumers[id].subscription.None?)
      && (id !in cache && calls.created.Success? && calls.subscribed.Normal? ==>
            r.consumers[id] == calls.created.value.(subscription := Some(topics)))
  {
  }

  /** The factory is asked for a consumer, and the consumer subscribed, only
      for an id that is not cached yet, and then once. */
  lemma SubscribeOnlyWhenUncached(
    cache: map<string, KafkaConsumer>, handler: Option<WorkerEventHandler>, topics: seq<string>, timeout: int,
    id: string, interrupted: bool, calls: Collaborators, decode: Decoder)
    ensures var r := Cycle(cache, handler, topics, timeout, Some(id), interrupted, calls, decode);
      && (GetConsumer(id) in r.actions <==> id !in cache)
      && |Select(r.actions, SubscribingFor(id))| == (if id !in cache && calls.created.Success? then 1 else 0)
  {
    var r := Cycle(cache, handler, topics, timeout, Some(id), interrupted, calls, decode);
    var acquired := Acquire(cache, topics, id, calls);
    var tail := Serve(acquired.consumer, handler, timeout, interrupted, calls, decode).actions;
    ServeNeverAcquires(acquired.consumer, handler, timeout, interrupted, calls, decode);
    assert r.actions == acquired.actions + tail;
    SelectAppend(acquired.actions, tail, SubscribingFor(id));
    SelectNone(tail, SubscribingFor(id));
    assert GetConsumer(id) !in tail;
    if id !in cache && calls.created.Success? {
      assert acquired.actions == [GetConsumer(id)] + [Subscribe(id, topics)];
      SelectAppend([GetConsumer(id)], [Subscribe(id, topics)], SubscribingFor(id));
    } else if id !in cache {
      assert acquired.actions == [GetConsumer(id)];
    } else {
      assert acquired.actions == [];
    }
  }

  /** The acquire step fires no hook and commits nothing, so the events and
      commits of a cycle are those of the rest of it. */
  lemma CycleEventsAreServeEvents(
    cache: map<string, KafkaConsumer>, handler: Option<WorkerEventHandler>, topics: seq<string>, timeout: int,
    id: string, interrupted: bool, calls: Collaborators, decode: Decoder)
    ensures var r := Cycle(cache, handler, topics, timeout, Some(id), interrupted, calls, decode);
      var served := Serve(Acquire(cache, topics, id, calls).consumer, handler, timeout, interrupted, calls, decode);
      Events(r.actions) == Events(served.actions) && Commits(r.actions) == Commits(served.actions)
  {
    var acquired := Acquire(cache, topics, id, calls);
    var served := Serve(acquired.consumer, handler, timeout, interrupted, calls, decode);
    assert forall x :: x in acquired.actions ==> Acquiring(x);
    SelectNone(acquired.actions, Hook);
    SelectNone(acquired.actions, Committing);
    SelectAppend(acquired.actions, served.actions, Hook);
    SelectAppend(acquired.actions, served.actions, Committing);
  }

  /** A cycle that gets past acquisition and consume polls once and goes on
      as `Dispatch` says. */
  lemma PolledShape(
    cache: map<string, KafkaConsumer>, handler: Option<WorkerEventHandler>, topics: seq<string>, timeout: int,
    id: string, interrupted: bool, calls: Collaborators, decode: Decoder)
    requires AcquireError(cache, id, calls).None?
    ensures var r := Cycle(cache, handler, topics, timeout, Some(id), interrupted, calls, decode);
      var acquired := Acquire(cache, topics, id, calls);
      var d := Dispatch(calls.consumed.value, handler, interrupted, calls, decode);
      && acquired.consumer.Success?
      && r.actions == acquired.actions + ([Consume(acquired.consumer.value, timeout)] + d.actions)
      && r.outcome == d.outcome
  {
    AcquireActions(cache, topics, id, calls);
  }

  /** ... so the events, commits and outcome of the cycle are the record's. */
  lemma PolledCycle(
    cache: map<string, KafkaConsumer>, handler: Option<WorkerEventHandler>, topics: seq<string>, timeout: int,
    id: string, interrupted: bool, calls: Collaborators, decode: Decoder)
    requires AcquireError(cache, id, calls).None?
    ensures var r := Cycle(cache, handler, topics, timeout, Some(id), interrupted, calls, decode);
      var d := Dispatch(calls.consumed.value, handler, interrupted, calls, decode);
      && r.outcome == d.outcome
      && Events(r.actions) == Events(d.actions) && Commits(r.actions) == Commits(d.actions)
  {
    var acquired := Acquire(cache, topics, id, calls);
    PolledShape(cache, handler, topics, timeout, id, interrupted, calls, decode);
    AcquireActions(cache, topics, id, calls);
    var d := Dispatch(calls.consumed.value, handler, interrupted, calls, decode);
    var polled := [Consume(acquired.consumer.value, timeout)];
    SelectOne(polled[0], Hook);
    SelectOne(polled[0], Committing);
    SelectAppend(polled, d.actions, Hook);
    SelectAppend(polled, d.actions, Committing);
    SelectNone(acquired.actions, Hook);
    SelectNone(acquired.actions, Committing);
    SelectAppend(acquired.actions, polled + d.actions, Hook);
    SelectAppend(acquired.actions, polled + d.actions, Committing);
  }

  /** The acquire step only asks the factory and subscribes, and it obtains a
      consumer exactly when neither fails. */
  lemma AcquireActions(cache: map<string, KafkaConsumer>, topics: seq<string>, id: string, calls: Collaborators)
    ensures var acquired := Acquire(cache, topics, id, calls);
      && (forall x :: x in acquired.actions ==> Acquiring(x))
      && (acquired.consumer.Success? <==>
           id in cache || (calls.created.Success? && calls.subscribed.Normal?))
      && (acquired.consumer.Failure? ==> AcquireError(cache, id, calls) == Some(acquired.consumer.error))
      && (acquired.consumer.Success? ==>
           AcquireError(cache, id, calls) == (if calls.consumed.Failure? then Some(calls.consumed.error) else None))
  {
  }

  /** `t` is what `s` ends with. */
  predicate EndsWith(s: seq<Action>, t: seq<Action>) {
    |t| <= |s| && s[|s| - |t|..] == t
  }

  lemma EndsWithExtend(a: seq<Action>, s: seq<Action>, t: seq<Action>)
    requires s == t || EndsWith(s, t)
    ensures EndsWith(a + s, t)
  {
    assert (a + s)[|a + s| - |t|..] == s[|s| - |t|..];
  }

  lemma EndsWithSuffix(s: seq<Action>, a: seq<Action>, t: seq<Action>)
    requires EndsWith(s, a + t)
    ensures EndsWith(s, t)
  {
    assert s[|s| - |t|..] == (a + t)[|a|..];
  }

  /** An error from the factory, subscribe or consume is reported to the event
      handler exactly once and rethrown; nothing is committed. */
  lemma AcquireErrorNotifiedOnce(
    cache: map<string, KafkaConsumer>, handler: Option<WorkerEventHandler>, topics: seq<string>, timeout: int,
    id: string, interrupted: bool, calls: Collaborators, decode: Decoder)
    requires AcquireError(cache, id, calls).Some?
    ensures var r := Cycle(cache, handler, topics, timeout, Some(id), interrupted, calls, decode);
      var e := AcquireError(cache, id, calls).value;
      && r.outcome == Throws(e)
      && Events(r.actions) == Notify(handler, Exception(e))
      && Commits(r.actions) == []
  {
    var e := AcquireError(cache, id, calls).value;
    var acquired := Acquire(cache, topics, id, calls);
    var served := Serve(acquired.consumer, handler, timeout, interrupted, calls, decode);
    AcquireActions(cache, topics, id, calls);
    CycleEventsAreServeEvents(cache, handler, topics, timeout, id, interrupted, calls, decode);
    SelectNotify(handler, Exception(e), Hook);
    SelectNotify(handler, Exception(e), Committing);
    if acquired.consumer.Failure? {
      assert served == Stage(Notify(handler, Exception(e)), Throws(e));
    } else {
      var polled := [Consume(acquired.consumer.value, timeout)];
      assert served == Stage(polled + Notify(handler, Exception(e)), Throws(e));
      SelectAppend(polled, Notify(handler, Exception(e)), Hook);
      SelectAppend(polled, Notify(handler, Exception(e)), Committing);
      SelectOne(polled[0], Hook);
      SelectOne(polled[0], Committing);
    }
  }

  /** An interrupted cycle, and a record that reports end-of-partition or a
      poll timeout, end normally after the poll, with no event and no commit. */
  lemma DiscardedWithoutEvents(
    cache: map<string, KafkaConsumer>, handler: Option<WorkerEventHandler>, topics: seq<string>, timeout: int,
    id: string, interrupted: bool, calls: Collaborators, decode: Decoder)
    requires AcquireError(cache, id, calls).None?
    requires interrupted || calls.consumed.value.err == ErrPartitionEof || calls.consumed.value.err == ErrTimedOut
    ensures var r := Cycle(cache, handler, topics, timeout, Some(id), interrupted, calls, decode);
      && r.outcome == Normal
      && Events(r.actions) == [] && Commits(r.actions) == []
      && |r.actions| > 0 && r.actions[|r.actions| - 1].Consume?
  {
    PolledShape(cache, handler, topics, timeout, id, interrupted, calls, decode);
    PolledCycle(cache, handler, topics, timeout, id, interrupted, calls, decode);
    assert !interrupted ==> Classify(calls.consumed.value.err) == NoMessage;
    assert Dispatch(calls.consumed.value, handler, interrupted, calls, decode) == Stage([], Normal);
  }

  /** Any other non-zero code throws a KafkaMessageException carrying the
      record and its code, reported once; nothing is committed. */
  lemma FaultyRecordReported(
    cache: map<string, KafkaConsumer>, handler: Option<WorkerEventHandler>, topics: seq<string>, timeout: int,
    id: string, calls: Collaborators, decode: Decoder)
    requires AcquireError(cache, id, calls).None?
    requires var err := calls.consumed.value.err; err != ErrNoError && err != ErrPartitionEof && err != ErrTimedOut
    ensures var r := Cycle(cache, handler, topics, timeout, Some(id), false, calls, decode);
      && r.outcome.Throws? && r.outcome.error.KafkaMessageError?
      && r.outcome.error.kafkaError.kafkaMessage == calls.consumed.value
      && r.outcome.error.kafkaError.code == calls.consumed.value.err
      && Events(r.actions) == Notify(handler, Exception(r.outcome.error))
      && Commits(r.actions) == []
  {
    var record := calls.consumed.value;
    var e := KafkaMessageError(NewKafkaMessageException(record, None));
    PolledCycle(cache, handler, topics, timeout, id, false, calls, decode);
    assert Classify(record.err) == Fault;
    assert Dispatch(record, handler, false, calls, decode) == Stage(Notify(handler, Exception(e)), Throws(e));
    SelectNotify(handler, Exception(e), Hook);
    SelectNotify(handler, Exception(e), Committing);
  }

  // ---------------------------------------------------------------------------
  // The processing stage
  // ---------------------------------------------------------------------------

  /** A cycle that reaches processing ends with the stage and the finally
      hook; its events and commits are those of the stage, then finally. */
  lemma ProcessedCycle(
    cache: map<string, KafkaConsumer>, handler: Option<WorkerEventHandler>, topics: seq<string>, timeout: int,
    id: string, calls: Collaborators, decode: Decoder)
    requires ReachesProcessing(cache, id, false, calls)
    ensures var r := Cycle(cache, handler, topics, timeout, Some(id), false, calls, decode);
      var stage := ProcessRecord(calls.consumed.value, handler, calls, decode);
      && r.outcome == stage.outcome
      && EndsWith(r.actions, stage.actions + Notify(handler, Finally))
      && Events(r.actions) == Events(stage.actions) + Notify(handler, Finally)
      && Commits(r.actions) == Commits(stage.actions)
  {
    var record := calls.consumed.value;
    var stage := ProcessRecord(record, handler, calls, decode);
    var acquired := Acquire(cache, topics, id, calls);
    PolledShape(cache, handler, topics, timeout, id, false, calls, decode);
    PolledCycle(cache, handler, topics, timeout, id, false, calls, decode);
    assert Classify(record.err) == Proceed;
    var finished := stage.actions + Notify(handler, Finally);
    assert Dispatch(record, handler, false, calls, decode) == Stage(finished, stage.outcome);
    var r := Cycle(cache, handler, topics, timeout, Some(id), false, calls, decode);
    var polled := [Consume(acquired.consumer.value, timeout)];
    EndsWithExtend(polled, finished, finished);
    EndsWithExtend(acquired.actions, polled + finished, finished);
    SelectAppend(stage.actions, Notify(handler, Finally), Hook);
    SelectAppend(stage.actions, Notify(handler, Finally), Committing);
    SelectNotify(handler, Finally, Hook);
    SelectNotify(handler, Finally, Committing);
  }

  /** The hooks and the commit of the happy path, in order. */
  lemma HappyPathEvents(handler: Option<WorkerEventHandler>, view: MessageView, record: Record)
    ensures var started := Notify(handler, Received(view)) + [Process(view)];
      var done := started + Notify(handler, Processed(view)) + [Commit(record)];
      && Events(started) == Notify(handler, Received(view)) && Commits(started) == []
      && Events(done) == Notify(handler, Received(view)) + Notify(handler, Processed(view))
      && Commits(done) == [Commit(record)]
  {
    var received := Notify(handler, Received(view));
    var started := received + [Process(view)];
    var middle := started + Notify(handler, Processed(view));
    SelectNotify(handler, Received(view), Hook);
    SelectNotify(handler, Received(view), Committing);
    SelectSnoc(received, Process(view), Hook);
    SelectSnoc(received, Process(view), Committing);
    SelectAppendNotify(started, handler, Processed(view), Hook);
    SelectAppendNotify(started, handler, Processed(view), Committing);
    SelectSnoc(middle, Commit(record), Hook);
    SelectSnoc(middle, Commit(record), Committing);
  }

  /** The hooks and commits of the catch blocks. */
  lemma FailureEvents(e: Error, record: Record, handler: Option<WorkerEventHandler>, committed: Outcome)
    ensures var failed := OnFailure(e, record, handler, committed);
      && Events(failed.actions) == (if IsCommittable(e) && handler.None? then [] else Notify(handler, Exception(e)))
      && Commits(failed.actions) == (if IsCommittable(e) && handler.Some? then [Commit(record)] else [])
  {
    if IsCommittable(e) && handler.Some? {
      assert OnFailure(e, record, handler, committed).actions == [Exception(e)] + [Commit(record)];
      SelectAppend([Exception(e)], [Commit(record)], Hook);
      SelectAppend([Exception(e)], [Commit(record)], Committing);
      SelectOne(Exception(e), Hook);
      SelectOne(Exception(e), Committing);
      SelectOne(Commit(record), Hook);
      SelectOne(Commit(record), Committing);
    } else if !IsCommittable(e) {
      SelectNotify(handler, Exception(e), Hook);
      SelectNotify(handler, Exception(e), Committing);
    }
  }

  /** The calls of the happy path and the finally hook, written out. */
  lemma HappyPathTrace(handler: Option<WorkerEventHandler>, view: MessageView, record: Record)
    ensures Notify(handler, Received(view)) + [Process(view)] + Notify(handler, Processed(view)) + [Commit(record)]
        + Notify(handler, Finally)
      == if handler.Some? then [Received(view), Process(view), Processed(view), Commit(record), Finally]
         else [Process(view), Commit(record)]
  {
  }

  /** The processing stage of a record that decodes, is processed and is
      committed, written out. */
  lemma HappyStage(record: Record, handler: Option<WorkerEventHandler>, calls: Collaborators, decode: Decoder)
    requires DecodePayload(record, decode).Success?
    requires calls.processed.Normal? && calls.committed.Normal?
    ensures var view := FreshView(record, DecodePayload(record, decode).value);
      ProcessRecord(record, handler, calls, decode)
        == Stage(Notify(handler, Received(view)) + [Process(view)] + Notify(handler, Processed(view)) + [Commit(record)], Normal)
  {
  }

  /** A record that decodes, is processed and is committed: the event handler
      sees it received, processed and finished, and it is committed once, after
      processing. */
  lemma SuccessfulCycle(
    cache: map<string, KafkaConsumer>, handler: Option<WorkerEventHandler>, topics: seq<string>, timeout: int,
    id: string, calls: Collaborators, decode: Decoder)
    requires ReachesProcessing(cache, id, false, calls)
    requires DecodePayload(calls.consumed.value, decode).Success?
    requires calls.processed.Normal? && calls.committed.Normal?
    ensures var r := Cycle(cache, handler, topics, timeout, Some(id), false, calls, decode);
      var record := calls.consumed.value;
      var view := FreshView(record, DecodePayload(record, decode).value);
      && r.outcome == Normal
      && Events(r.actions) == (if handler.Some? then [Received(view), Processed(view), Finally] else [])
      && Commits(r.actions) == [Commit(record)]
  {
    var record := calls.consumed.value;
    var view := FreshView(record, DecodePayload(record, decode).value);
    ProcessedCycle(cache, handler, topics, timeout, id, calls, decode);
    HappyStage(record, handler, calls, decode);
    HappyPathEvents(handler, view, record);
  }

  /** ... and its calls end with process, processed, commit and finally, in
      that order. */
  lemma SuccessfulCycleOrder(
    cache: map<string, KafkaConsumer>, handler: Option<WorkerEventHandler>, topics: seq<string>, timeout: int,
    id: string, calls: Collaborators, decode: Decoder)
    requires ReachesProcessing(cache, id, false, calls)
    requires DecodePayload(calls.consumed.value, decode).Success?
    requires calls.processed.Normal? && calls.committed.Normal?
    ensures var r := Cycle(cache, handler, topics, timeout, Some(id), false, calls, decode);
      var record := calls.consumed.value;
      var view := FreshView(record, DecodePayload(record, decode).value);
      EndsWith(r.actions,
        if handler.Some? then [Received(view), Process(view), Processed(view), Commit(record), Finally]
        else [Process(view), Commit(record)])
  {
    var record := calls.consumed.value;
    var view := FreshView(record, DecodePayload(record, decode).value);
    ProcessedCycle(cache, handler, topics, timeout, id, calls, decode);
    HappyStage(record, handler, calls, decode);
    HappyPathTrace(handler, view, record);
  }

  /** The processing stage of a record that decodes and whose processor
      throws: the received hook, then the catch block's calls. */
  lemma ProcessorFailedStage(record: Record, handler: Option<WorkerEventHandler>, calls: Collaborators, decode: Decoder)
    requires DecodePayload(record, decode).Success?
    requires calls.processed.Throws?
    ensures var view := FreshView(record, DecodePayload(record, decode).value);
      var failed := OnFailure(calls.processed.error, record, handler, calls.committed);
      var stage := ProcessRecord(record, handler, calls, decode);
      && stage == Stage(Notify(handler, Received(view)) + [Process(view)] + failed.actions, failed.outcome)
      && Events(stage.actions) == Notify(handler, Received(view)) + Events(failed.actions)
      && Commits(stage.actions) == Commits(failed.actions)
  {
    var view := FreshView(record, DecodePayload(record, decode).value);
    var failed := OnFailure(calls.processed.error, record, handler, calls.committed);
    var started := Notify(handler, Received(view)) + [Process(view)];
    assert ProcessRecord(record, handler, calls, decode) == Stage(started + failed.actions, failed.outcome);
    HappyPathEvents(handler, view, record);
    SelectAppend(started, failed.actions, Hook);
    SelectAppend(started, failed.actions, Committing);
  }

  /** The processing stage of a record that is processed but whose commit
      throws: the happy path's calls, then the catch block's. */
  lemma CommitFailedStage(record: Record, handler: Option<WorkerEventHandler>, calls: Collaborators, decode: Decoder)
    requires DecodePayload(record, decode).Success?
    requires calls.processed.Normal? && calls.committed.Throws?
    ensures var view := FreshView(record, DecodePayload(record, decode).value);
      var failed := OnFailure(calls.committed.error, record, handler, calls.recommitted);
      var stage := ProcessRecord(record, handler, calls, decode);
      && stage.outcome == failed.outcome
      && Events(stage.actions) == Notify(handler, Received(view)) + Notify(handler, Processed(view)) + Events(failed.actions)
      && Commits(stage.actions) == [Commit(record)] + Commits(failed.actions)
  {
    var view := FreshView(record, DecodePayload(record, decode).value);
    var failed := OnFailure(calls.committed.error, record, handler, calls.recommitted);
    var done := Notify(handler, Received(view)) + [Process(view)] + Notify(handler, Processed(view)) + [Commit(record)];
    assert ProcessRecord(record, handler, calls, decode) == Stage(done + failed.actions, failed.outcome);
    HappyPathEvents(handler, view, record);
    SelectAppend(done, failed.actions, Hook);
    SelectAppend(done, failed.actions, Committing);
  }

  /** A processor that throws a non-committable exception: the exception is
      reported and rethrown, finally still fires, and nothing is committed. */
  lemma ProcessorFailureNotCommitted(
    cache: map<string, KafkaConsumer>, handler: Option<WorkerEventHandler>, topics: seq<string>, timeout: int,
    id: string, calls: Collaborators, decode: Decoder)
    requires ReachesProcessing(cache, id, false, calls)
    requires DecodePayload(calls.consumed.value, decode).Success?
    requires calls.processed.Throws? && !IsCommittable(calls.processed.error)
    ensures var r := Cycle(cache, handler, topics, timeout, Some(id), false, calls, decode);
      var record := calls.consumed.value;
      var view := FreshView(record, DecodePayload(record, decode).value);
      && r.outcome == calls.processed
      && Events(r.actions) == (if handler.Some? then [Received(view), Exception(calls.processed.error), Finally] else [])
      && Commits(r.actions) == []
  {
    var record := calls.consumed.value;
    var view := FreshView(record, DecodePayload(record, decode).value);
    var e := calls.processed.error;
    ProcessedCycle(cache, handler, topics, timeout, id, calls, decode);
    ProcessorFailedStage(record, handler, calls, decode);
    FailureEvents(e, record, handler, calls.committed);
  }

  /** A processor that throws a committable exception, with an event handler:
      the exception is reported, the record committed anyway, finally fires, and
      the cycle rethrows the exception (or the commit's own). */
  lemma CommittableFailureCommitted(
    cache: map<string, KafkaConsumer>, handler: Option<WorkerEventHandler>, topics: seq<string>, timeout: int,
    id: string, calls: Collaborators, decode: Decoder)
    requires ReachesProcessing(cache, id, false, calls)
    requires DecodePayload(calls.consumed.value, decode).Success?
    requires calls.processed.Throws? && IsCommittable(calls.processed.error) && handler.Some?
    ensures var r := Cycle(cache, handler, topics, timeout, Some(id), false, calls, decode);
      var record := calls.consumed.value;
      var view := FreshView(record, DecodePayload(record, decode).value);
      && r.outcome == (if calls.committed.Throws? then calls.committed else calls.processed)
      && Events(r.actions) == [Received(view), Exception(calls.processed.error), Finally]
      && Commits(r.actions) == [Commit(record)]
      && EndsWith(r.actions, [Exception(calls.processed.error), Commit(record), Finally])
  {
    var record := calls.consumed.value;
    var view := FreshView(record, DecodePayload(record, decode).value);
    var e := calls.processed.error;
    ProcessedCycle(cache, handler, topics, timeout, id, calls, decode);
    ProcessorFailedStage(record, handler, calls, decode);
    FailureEvents(e, record, handler, calls.committed);
    var started := Notify(handler, Received(view)) + [Process(view)];
    var tail := [Exception(e), Commit(record)] + [Finally];
    assert started + [Exception(e), Commit(record)] + Notify(handler, Finally) == started + tail;
    EndsWithSuffix(Cycle(cache, handler, topics, timeout, Some(id), false, calls, decode).actions, started, tail);
  }

  /** A committable exception with no event handler: the catch block calls a
      method on null, which throws instead, and nothing is committed. */
  lemma CommittableFailureWithoutHandler(
    cache: map<string, KafkaConsumer>, topics: seq<string>, timeout: int,
    id: string, calls: Collaborators, decode: Decoder)
    requires ReachesProcessing(cache, id, false, calls)
    requires DecodePayload(calls.consumed.value, decode).Success?
    requires calls.processed.Throws? && IsCommittable(calls.processed.error)
    ensures var r := Cycle(cache, None, topics, timeout, Some(id), false, calls, decode);
      && r.outcome == Throws(NullMethodCall("handleWorkerException"))
      && Events(r.actions) == [] && Commits(r.actions) == []
  {
    var record := calls.consumed.value;
    var view := FreshView(record, DecodePayload(record, decode).value);
    var e := calls.processed.error;
    ProcessedCycle(cache, None, topics, timeout, id, calls, decode);
    ProcessorFailedStage(record, None, calls, decode);
    FailureEvents(e, record, None, calls.committed);
  }

  /** A payload that does not decode to a JSON array: the decoding error is
      reported and rethrown, finally fires, the record is never announced as
      received and never committed. */
  lemma DecodeFailureReported(
    cache: map<string, KafkaConsumer>, handler: Option<WorkerEventHandler>, topics: seq<string>, timeout: int,
    id: string, calls: Collaborators, decode: Decoder)
    requires ReachesProcessing(cache, id, false, calls)
    requires DecodePayload(calls.consumed.value, decode).Failure?
    ensures var r := Cycle(cache, handler, topics, timeout, Some(id), false, calls, decode);
      var e := DecodePayload(calls.consumed.value, decode).error;
      && r.outcome == Throws(e)
      && Events(r.actions) == (if handler.Some? then [Exception(e), Finally] else [])
      && Commits(r.actions) == []
  {
    var e := DecodePayload(calls.consumed.value, decode).error;
    ProcessedCycle(cache, handler, topics, timeout, id, calls, decode);
    DecodeFailedStage(calls.consumed.value, handler, calls, decode);
    assert Notify(handler, Exception(e)) + Notify(handler, Finally)
      == if handler.Some? then [Exception(e), Finally] else [];
  }

  /** The processing stage of a record whose payload does not decode: only the
      non-committable catch block runs. */
  lemma DecodeFailedStage(record: Record, handler: Option<WorkerEventHandler>, calls: Collaborators, decode: Decoder)
    requires DecodePayload(record, decode).Failure?
    ensures var e := DecodePayload(record, decode).error;
      var stage := ProcessRecord(record, handler, calls, decode);
      && stage.outcome == Throws(e)
      && Events(stage.actions) == Notify(handler, Exception(e))
      && Commits(stage.actions) == []
  {
    var e := DecodePayload(record, decode).error;
    assert !IsCommittable(e);
    assert ProcessRecord(record, handler, calls, decode) == OnFailure(e, record, handler, calls.committed);
    FailureEvents(e, record, handler, calls.committed);
  }

  /** A commit that throws: the processed record was committed once, and the
      commit's exception goes through the same catch blocks as a processor's. */
  lemma CommitFailure(
    cache: map<string, KafkaConsumer>, handler: Option<WorkerEventHandler>, topics: seq<string>, timeout: int,
    id: string, calls: Collaborators, decode: Decoder)
    requires ReachesProcessing(cache, id, false, calls)
    requires DecodePayload(calls.consumed.value, decode).Success?
    requires calls.processed.Normal? && calls.committed.Throws?
    ensures var r := Cycle(cache, handler, topics, timeout, Some(id), false, calls, decode);
      var record := calls.consumed.value;
      var e := calls.committed.error;
      && r.outcome ==
        (if !IsCommittable(e) then Throws(e)
         else if handler.None? then Throws(NullMethodCall("handleWorkerException"))
         else if calls.recommitted.Throws? then calls.recommitted
         else Throws(e))
      && Commits(r.actions) == [Commit(record)] + (if IsCommittable(e) && handler.Some? then [Commit(record)] else [])
  {
    var record := calls.consumed.value;
    var view := FreshView(record, DecodePayload(record, decode).value);
    var e := calls.committed.error;
    ProcessedCycle(cache, handler, topics, timeout, id, calls, decode);
    CommitFailedStage(record, handler, calls, decode);
    FailureEvents(e, record, handler, calls.recommitted);
  }

  // ---------------------------------------------------------------------------
  // Several calls of `work` on one worker
  // ---------------------------------------------------------------------------

  /** The inputs of one call of `work`. */
  datatype Invocation = Invocation(consumerId: Option<string>, interrupted: bool, calls: Collaborators)

  datatype RunResult = RunResult(consumers: map<string, KafkaConsumer>, actions: seq<Action>, outcomes: seq<Outcome>)

  /** Calls of `work` one after the other on the same worker, each starting
      from the cache the previous one left. */
  function Run(
    cache: map<string, KafkaConsumer>, handler: Option<WorkerEventHandler>, topics: seq<string>, timeout: int,
    invocations: seq<Invocation>, decode: Decoder): RunResult
    decreases |invocations|
  {
    if invocations == [] then RunResult(cache, [], [])
    else
      var i := invocations[0];
      var first := Cycle(cache, handler, topics, timeout, i.consumerId, i.interrupted, i.calls, decode);
      var rest := Run(first.consumers, handler, topics, timeout, invocations[1..], decode);
      RunResult(rest.consumers, first.actions + rest.actions, [first.outcome] + rest.outcomes)
  }

  /** A handle, once cached, stays cached and unchanged for the worker's life. */
  lemma {:induction false} RunCacheNeverShrinks(
    cache: map<string, KafkaConsumer>, handler: Option<WorkerEventHandler>, topics: seq<string>, timeout: int,
    invocations: seq<Invocation>, decode: Decoder)
    ensures var run := Run(cache, handler, topics, timeout, invocations, decode);
      forall k :: k in cache ==> k in run.consumers && run.consumers[k] == cache[k]
    decreases |invocations|
  {
    if invocations != [] {
      var i := invocations[0];
      var first := Cycle(cache, handler, topics, timeout, i.consumerId, i.interrupted, i.calls, decode);
      if i.consumerId.Some? {
        ConsumerCacheInsertIfAbsent(cache, handler, topics, timeout, i.consumerId.value, i.interrupted, i.calls, decode);
      }
      RunCacheNeverShrinks(first.consumers, handler, topics, timeout, invocations[1..], decode);
    }
  }

  /** Over any number of calls, a consumer id is subscribed at most once, and
      never if its handle was cached before the first call. */
  lemma {:induction false} RunSubscribesAtMostOnce(
    cache: map<string, KafkaConsumer>, handler: Option<WorkerEventHandler>, topics: seq<string>, timeout: int,
    invocations: seq<Invocation>, decode: Decoder, id: string)
    ensures var run := Run(cache, handler, topics, timeout, invocations, decode);
      |Select(run.actions, SubscribingFor(id))| <= (if id in cache then 0 else 1)
    decreases |invocations|
  {
    if invocations != [] {
      var i := invocations[0];
      var first := Cycle(cache, handler, topics, timeout, i.consumerId, i.interrupted, i.calls, decode);
      var rest := Run(first.consumers, handler, topics, timeout, invocations[1..], decode);
      SelectAppend(first.actions, rest.actions, SubscribingFor(id));
      RunSubscribesAtMostOnce(first.consumers, handler, topics, timeout, invocations[1..], decode, id);
      match i.consumerId
      case None =>
        assert first.actions == [] && first.consumers == cache;
      case Some(other) =>
        ConsumerCacheInsertIfAbsent(cache, handler, topics, timeout, other, i.interrupted, i.calls, decode);
        if other == id {
          SubscribeOnlyWhenUncached(cache, handler, topics, timeout, id, i.interrupted, i.calls, decode);
        } else {
          OtherIdNotSubscribed(cache, handler, topics, timeout, other, i.interrupted, i.calls, decode, id);
        }
    }
  }

  /** A cycle for one consumer id subscribes no other id. */
  lemma OtherIdNotSubscribed(
    cache: map<string, KafkaConsumer>, handler: Option<WorkerEventHandler>, topics: seq<string>, timeout: int,
    id: string, interrupted: bool, calls: Collaborators, decode: Decoder, other: string)
    requires other != id
    ensures var r := Cycle(cache, handler, topics, timeout, Some(id), interrupted, calls, decode);
      Select(r.actions, SubscribingFor(other)) == []
  {
    var r := Cycle(cache, handler, topics, timeout, Some(id), interrupted, calls, decode);
    var acquired := Acquire(cache, topics, id, calls);
    var tail := Serve(acquired.consumer, handler, timeout, interrupted, calls, decode).actions;
    ServeNeverAcquires(acquired.consumer, handler, timeout, interrupted, calls, decode);
    assert r.actions == acquired.actions + tail;
    assert forall x :: x in r.actions ==> !Matches(x, SubscribingFor(other));
    SelectNone(r.actions, SubscribingFor(other));
  }
}
