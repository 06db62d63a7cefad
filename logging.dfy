/**
 * The client-side log pipeline (`Logger`): severity filter, enrichment, an in-memory FIFO
 * queue, batched flushes guarded by an in-progress flag, and requeue-at-front on failure.
 *
 * The asynchronous `flush` is split at its single `await` on the sink: `BeginFlush` is the
 * part before it (disarm the timer, the no-op guard, splice the batch, build the rows),
 * `EndFlush` the part after it (requeue on failure, release the flag, re-arm the timer).
 * Any other call may run between the two, as the event loop allows.
 */
module Logging {
  import opened Wrappers

  datatype LogLevel = Debug | Info | Warn | Error | Fatal

  /** `LOG_LEVELS`: the severity rank of each level. */
  function Rank(level: LogLevel): (r: nat)
    ensures r <= 4
    ensures level == Debug <==> r == 0
    ensures level == Fatal <==> r == 4
  {
    match level
    case Debug => 0
    case Info => 1
    case Warn => 2
    case Error => 3
    case Fatal => 4
  }

  /** The severity filter: an entry is kept unless its rank is strictly below the minimum's. */
  predicate Passes(level: LogLevel, minLevel: LogLevel): (b: bool)
    ensures level == minLevel ==> b
    ensures level == Fatal || minLevel == Debug ==> b
    ensures level == Debug && minLevel != Debug ==> !b
    ensures level == Info && (minLevel == Warn || minLevel == Error || minLevel == Fatal) ==> !b
    ensures level == Warn && (minLevel == Error || minLevel == Fatal) ==> !b
    ensures level == Error && minLevel == Fatal ==> !b
    ensures (level == Warn || level == Error) && (minLevel == Info || minLevel == Warn) ==> b
    ensures level == Error && minLevel == Error ==> b
  {
    Rank(level) >= Rank(minLevel)
  }

  /** The severity order of the levels: debug < info < warn < error < fatal. */
  lemma SeverityOrder()
    ensures Rank(Debug) < Rank(Info) < Rank(Warn) < Rank(Error) < Rank(Fatal)
  {
  }

  /** Ranks are distinct, so the order on levels is total and antisymmetric. */
  lemma RankInjective(a: LogLevel, b: LogLevel)
    ensures Rank(a) == Rank(b) ==> a == b
  {
  }

  /** Raising the minimum never lets more entries through; `fatal` always gets through. */
  lemma PassesMonotone(level: LogLevel, lower: LogLevel, higher: LogLevel)
    ensures Passes(level, higher) && Rank(lower) <= Rank(higher) ==> Passes(level, lower)
    ensures Passes(Fatal, higher)
    ensures Passes(level, Debug)
  {
  }

  /** A context value: the kinds the sink accepts, and `undefined` for a missing error name. */
  datatype Value = Null | Bool(b: bool) | Number(x: real) | Text(s: string) | Undefined

  type Context = map<string, Value>

  /** The parts of a JavaScript `Error` the logger reads. */
  datatype ErrorInfo = ErrorInfo(name: string, stack: Option<string>)

  /** A caller's log call (`LogEntry`). */
  datatype LogEntry = LogEntry(
    level: LogLevel,
    message: string,
    context: Option<Context>,
    source: Option<string>,
    stackTrace: Option<string>)

  /** A queued entry (`QueuedLog`): the entry plus what enrichment adds at enqueue time. */
  datatype QueuedLog = QueuedLog(
    entry: LogEntry,
    url: string,
    userAgent: string,
    sessionId: string,
    createdAt: string)

  /**
   * What the page offers at enqueue time: the location and the user agent (`None` where
   * `window` or `navigator` is undefined) and the clock reading as an ISO string.
   */
  datatype Environment = Environment(location: Option<string>, userAgent: Option<string>, now: string)

  /** A row of the sink's `app_logs` table. */
  datatype LogRow = LogRow(
    level: LogLevel,
    message: string,
    context: Context,
    source: string,
    sessionId: string,
    url: string,
    userAgent: string,
    stackTrace: Option<string>,
    createdAt: string)

  const DefaultSource: string := "frontend"
  const ErrorNameKey: string := "errorName"

  /** The entry built by `debug`, `info` and `warn`. */
  function PlainEntry(level: LogLevel, message: string, context: Option<Context>): (e: LogEntry)
    ensures e.level == level && e.message == message && e.context == context
    ensures e.source == None && e.stackTrace == None
  {
    LogEntry(level, message, context, None, None)
  }

  /**
   * `{ ...context, errorName: error?.name }`: the caller's keys, with `errorName` set last, so
   * it overrides a caller key of that name, and is `undefined` when no error is given.
   */
  function ErrorContext(context: Option<Context>, err: Option<ErrorInfo>): (c: Context)
    ensures ErrorNameKey in c
    ensures c[ErrorNameKey] == if err == None then Undefined else Text(err.value.name)
    ensures forall k :: k != ErrorNameKey ==> (k in c <==> context != None && k in context.value)
    ensures forall k :: k != ErrorNameKey && k in c ==> c[k] == context.value[k]
  {
    context.GetOr(map[])[ErrorNameKey := if err == None then Undefined else Text(err.value.name)]
  }

  /** The entry built by `error` and `fatal`, with the error's stack captured verbatim. */
  function ErrorEntry(level: LogLevel, message: string, context: Option<Context>, err: Option<ErrorInfo>): (e: LogEntry)
    ensures e.level == level && e.message == message && e.source == None
    ensures e.context == Some(ErrorContext(context, err))
    ensures e.stackTrace == if err == None then None else err.value.stack
  {
    LogEntry(level, message, Some(ErrorContext(context, err)), None,
             if err == None then None else err.value.stack)
  }

  /** Enrichment at enqueue time: location, user agent (empty when absent), session and clock. */
  function Enrich(entry: LogEntry, sessionId: string, env: Environment): (q: QueuedLog)
    ensures q.entry == entry && q.sessionId == sessionId && q.createdAt == env.now
    ensures q.url == env.location.GetOr("") && q.userAgent == env.userAgent.GetOr("")
  {
    QueuedLog(entry, env.location.GetOr(""), env.userAgent.GetOr(""), sessionId, env.now)
  }

  /**
   * The row mapping of `flush`. JavaScript's `||` treats the empty string as missing, so an
   * empty source becomes "frontend" and an empty stack trace becomes null.
   */
  function ToRow(q: QueuedLog): (r: LogRow)
    ensures r.level == q.entry.level && r.message == q.entry.message
    ensures r.sessionId == q.sessionId && r.url == q.url && r.userAgent == q.userAgent
    ensures r.createdAt == q.createdAt
    ensures r.context == if q.entry.context == None then map[] else q.entry.context.value
    ensures r.source != ""
    ensures q.entry.source != None && q.entry.source.value != "" ==> r.source == q.entry.source.value
    ensures q.entry.source == None || q.entry.source == Some("") ==> r.source == DefaultSource
    ensures r.stackTrace != Some("")
    ensures q.entry.stackTrace != None && q.entry.stackTrace.value != "" ==> r.stackTrace == q.entry.stackTrace
    ensures q.entry.stackTrace == None || q.entry.stackTrace == Some("") ==> r.stackTrace == None
  {
    var e := q.entry;
    LogRow(
      e.level,
      e.message,
      e.context.GetOr(map[]),
      if e.source == None || e.source.value == "" then DefaultSource else e.source.value,
      q.sessionId,
      q.url,
      q.userAgent,
      if e.stackTrace == None || e.stackTrace.value == "" then None else e.stackTrace,
      q.createdAt)
  }

  /** `batch.map(toRow)`: one row per queued entry, in batch order. */
  function Rows(batch: seq<QueuedLog>): (rows: seq<LogRow>)
    ensures |rows| == |batch|
    ensures forall k :: 0 <= k < |batch| ==> rows[k] == ToRow(batch[k])
  {
    if batch == [] then [] else [ToRow(batch[0])] + Rows(batch[1..])
  }

  /** Mapping rows distributes over concatenation of batches. */
  lemma RowsAppend(a: seq<QueuedLog>, b: seq<QueuedLog>)
    ensures Rows(a + b) == Rows(a) + Rows(b)
  {
    assert forall k :: 0 <= k < |a + b| ==> (a + b)[k] == if k < |a| then a[k] else b[k - |a|];
  }

  /** Entries from the logging API always reach the sink as source "frontend". */
  lemma ApiEntriesUseDefaultSource(level: LogLevel, message: string, context: Option<Context>,
                                   err: Option<ErrorInfo>, sessionId: string, env: Environment)
    ensures ToRow(Enrich(PlainEntry(level, message, context), sessionId, env)).source == DefaultSource
    ensures ToRow(Enrich(ErrorEntry(level, message, context, err), sessionId, env)).source == DefaultSource
    ensures ToRow(Enrich(PlainEntry(level, message, context), sessionId, env)).stackTrace == None
    ensures ErrorNameKey in ToRow(Enrich(ErrorEntry(level, message, context, err), sessionId, env)).context
  {
  }

  function Min(a: nat, b: nat): nat
  {
    if a <= b then a else b
  }

  class Logger {
    /** The in-memory FIFO queue of entries not yet handed to the sink. */
    var queue: seq<QueuedLog>
    /** Whether a delayed flush is scheduled (`flushTimer !== null`). */
    var flushTimerArmed: bool
    /** The session identifier, fixed when the logger is created. */
    const sessionId: string
    var minLevel: LogLevel
    const batchSize: nat
    var isFlushing: bool
    /** The batch held by the flush that is waiting for the sink (the local `batch` of `flush`). */
    var inFlight: seq<QueuedLog>

    /** Every entry that passed the filter, and every entry the sink accepted, in order. */
    ghost var accepted: seq<QueuedLog>
    ghost var delivered: seq<QueuedLog>

    /**
     * The structural invariant. The last line is the delivery guarantee: entries reach the
     * sink in the order they were accepted, and until then each one is in the batch in
     * flight or in the queue, exactly once. Every accepted entry carries this logger's session.
     */
    ghost predicate Sound()
      reads this
    {
      && batchSize > 0
      && (isFlushing <==> inFlight != [])
      && |inFlight| <= batchSize
      && accepted == delivered + inFlight + queue
      && (forall k :: 0 <= k < |accepted| ==> accepted[k].sessionId == sessionId)
    }

    /**
     * The scheduling invariant: the timer is only armed for a non-empty queue, and while
     * no flush is running a non-empty queue always has the timer armed, so no entry is
     * left waiting without a flush to come.
     */
    ghost predicate Valid()
      reads this
    {
      && Sound()
      && (flushTimerArmed ==> queue != [])
      && (!isFlushing && queue != [] ==> flushTimerArmed)
    }

    /** The entries accepted but not yet delivered, in delivery order. */
    ghost function Pending(): seq<QueuedLog>
      reads this
    {
      inFlight + queue
    }

    /**
     * The state `flush()` leaves when it starts from queue `q0` with flag `flushing0` and
     * batch `inFlight0`. `rows` is the bulk insert handed to the sink, if any.
     */
    ghost predicate FlushedFrom(q0: seq<QueuedLog>, flushing0: bool, inFlight0: seq<QueuedLog>,
                                rows: Option<seq<LogRow>>)
      reads this
    {
      && !flushTimerArmed
      && (q0 == [] || flushing0 ==>
            queue == q0 && isFlushing == flushing0 && inFlight == inFlight0 && rows == None)
      && (q0 != [] && !flushing0 ==>
            && isFlushing
            && inFlight == q0[..Min(batchSize, |q0|)]
            && queue == q0[Min(batchSize, |q0|)..]
            && rows == Some(Rows(inFlight)))
    }

    /**
     * The state a log call leaves for `entry`, started from the old state: nothing changes
     * below the minimum level; otherwise the enriched entry is appended and then either a
     * flush is started (queue at batch size) or the timer is armed.
     */
    twostate predicate LoggedFrom(entry: LogEntry, env: Environment, new sent: Option<seq<LogRow>>)
      reads this
    {
      var q1 := old(queue) + [Enrich(entry, sessionId, env)];
      && minLevel == old(minLevel)
      && (!Passes(entry.level, old(minLevel)) ==>
            && queue == old(queue) && flushTimerArmed == old(flushTimerArmed)
            && isFlushing == old(isFlushing) && inFlight == old(inFlight)
            && accepted == old(accepted) && sent == None)
      && (Passes(entry.level, old(minLevel)) ==>
            && accepted == old(accepted) + [Enrich(entry, sessionId, env)]
            && Pending() == old(Pending()) + [Enrich(entry, sessionId, env)]
            && (|q1| >= batchSize ==> FlushedFrom(q1, old(isFlushing), old(inFlight), sent))
            && (|q1| < batchSize ==>
                  && queue == q1 && flushTimerArmed
                  && isFlushing == old(isFlushing) && inFlight == old(inFlight) && sent == None))
      && delivered == old(delivered)
    }

    /** A new logger: empty queue, no timer, no flush, minimum level `info`, batches of 10. */
    constructor (sessionId: string)
      ensures Valid()
      ensures queue == [] && !flushTimerArmed && !isFlushing && inFlight == []
      ensures this.sessionId == sessionId && minLevel == LogLevel.Info && batchSize == 10
      ensures accepted == [] && delivered == []
    {
      this.sessionId := sessionId;
      queue := [];
      flushTimerArmed := false;
      minLevel := LogLevel.Info;
      batchSize := 10;
      isFlushing := false;
      inFlight := [];
      accepted := [];
      delivered := [];
    }

    /** `setMinLevel`: only the minimum level changes. */
    method SetMinLevel(level: LogLevel)
      requires Valid()
      modifies this`minLevel
      ensures Valid() && minLevel == level
    {
      minLevel := level;
    }

    /** The private `log`. */
    method Log(entry: LogEntry, env: Environment) returns (sent: Option<seq<LogRow>>)
      requires Valid()
      modifies this
      ensures Valid() && LoggedFrom(entry, env, sent)
    {
      sent := None;
      if Rank(entry.level) < Rank(minLevel) {
        return;
      }
      var queued := Enrich(entry, sessionId, env);
      queue := queue + [queued];
      accepted := accepted + [queued];
      if |queue| >= batchSize {
        sent := BeginFlush();
      } else if !flushTimerArmed {
        flushTimerArmed := true;
      }
    }

    method Debug(message: string, context: Option<Context>, env: Environment) returns (sent: Option<seq<LogRow>>)
      requires Valid()
      modifies this
      ensures Valid() && LoggedFrom(PlainEntry(LogLevel.Debug, message, context), env, sent)
    {
      sent := Log(PlainEntry(LogLevel.Debug, message, context), env);
    }

    method Info(message: string, context: Option<Context>, env: Environment) returns (sent: Option<seq<LogRow>>)
      requires Valid()
      modifies this
      ensures Valid() && LoggedFrom(PlainEntry(LogLevel.Info, message, context), env, sent)
    {
      sent := Log(PlainEntry(LogLevel.Info, message, context), env);
    }

    method Warn(message: string, context: Option<Context>, env: Environment) returns (sent: Option<seq<LogRow>>)
      requires Valid()
      modifies this
      ensures Valid() && LoggedFrom(PlainEntry(LogLevel.Warn, message, context), env, sent)
    {
      sent := Log(PlainEntry(LogLevel.Warn, message, context), env);
    }

    method Error(message: string, context: Option<Context>, err: Option<ErrorInfo>, env: Environment)
      returns (sent: Option<seq<LogRow>>)
      requires Valid()
      modifies this
      ensures Valid() && LoggedFrom(ErrorEntry(LogLevel.Error, message, context, err), env, sent)
    {
      sent := Log(ErrorEntry(LogLevel.Error, message, context, err), env);
    }

    /**
     * `fatal`: log, then flush at once. A fatal entry always passes the filter, and unless a
     * flush is already waiting for the sink, exactly one bulk insert is issued, holding the
     * front of the queue up to and including the new entry when it fits in one batch.
     */
    method Fatal(message: string, context: Option<Context>, err: Option<ErrorInfo>, env: Environment)
      returns (sent: Option<seq<LogRow>>)
      requires Valid()
      modifies this
      ensures Valid() && !flushTimerArmed && minLevel == old(minLevel)
      ensures accepted == old(accepted) + [Enrich(ErrorEntry(LogLevel.Fatal, message, context, err), sessionId, env)]
      ensures delivered == old(delivered)
      ensures FlushedFrom(old(queue) + [Enrich(ErrorEntry(LogLevel.Fatal, message, context, err), sessionId, env)],
                          old(isFlushing), old(inFlight), sent)
    {
      var entry := ErrorEntry(LogLevel.Fatal, message, context, err);
      ghost var q1 := old(queue) + [Enrich(entry, sessionId, env)];
      sent := Log(entry, env);
      assert Passes(entry.level, old(minLevel));
      var again := BeginFlush();
      if sent == None {
        sent := again;
      }
    }

    /**
     * The part of `flush()` before the sink is awaited, also run by the timer and on page
     * unload. The timer is always disarmed; with an empty queue or a flush in progress
     * nothing else changes; otherwise up to `batchSize` entries leave the front of the queue
     * as the batch, the flag is set, and the batch's rows go to the sink.
     */
    method BeginFlush() returns (rows: Option<seq<LogRow>>)
      requires Sound()
      modifies this
      ensures Valid()
      ensures FlushedFrom(old(queue), old(isFlushing), old(inFlight), rows)
      ensures Pending() == old(Pending()) && minLevel == old(minLevel)
      ensures accepted == old(accepted) && delivered == old(delivered)
    {
      flushTimerArmed := false;
      rows := None;
      if |queue| == 0 || isFlushing {
        return;
      }
      isFlushing := true;
      var n := Min(batchSize, |queue|);
      assert queue[..n] + queue[n..] == queue;
      inFlight, queue := queue[..n], queue[n..];
      rows := Some(Rows(inFlight));
    }

    /**
     * The part of `flush()` after the sink answered: `delivered` is false for an error result
     * or a thrown exception. On failure the batch goes back in front of whatever was queued
     * meanwhile, in its original order; on success it is gone. The flag is released and the
     * timer is armed exactly when entries remain.
     */
    method EndFlush(delivered: bool)
      requires Valid() && isFlushing
      modifies this
      ensures Valid()
      ensures queue == if delivered then old(queue) else old(inFlight) + old(queue)
      ensures !isFlushing && inFlight == []
      ensures flushTimerArmed <==> queue != []
      ensures Pending() == if delivered then old(queue) else old(Pending())
      ensures this.delivered == if delivered then old(this.delivered) + old(inFlight) else old(this.delivered)
      ensures accepted == old(accepted) && minLevel == old(minLevel)
    {
      if delivered {
        this.delivered := this.delivered + inFlight;
      } else {
        queue := inFlight + queue;
      }
      inFlight := [];
      isFlushing := false;
      if |queue| > 0 {
        flushTimerArmed := true;
      }
    }
  }
}
