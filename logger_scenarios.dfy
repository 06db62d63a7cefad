/**
 * Clients of the log pipeline that replay its batch-size, filter, retry, overlap and fatal
 * scenarios against the Logger's contracts alone: a full batch, the severity filter, a
 * failed flush retried, overlapping flushes, and a fatal entry.
 */
module LoggerScenarios {
  import opened Wrappers
  import opened Logging

  /**
   * Nine `info` entries wait in the queue with no sink call; the tenth fills the batch and
   * starts one flush carrying all ten rows, leaving the queue empty.
   */
  method FullBatch(sessionId: string, env: Environment)
    returns (lengthAfterNine: nat, callsAfterNine: nat, tenth: Option<seq<LogRow>>, lengthAfterTen: nat)
    ensures lengthAfterNine == 9 && callsAfterNine == 0
    ensures tenth != None && |tenth.value| == 10 && lengthAfterTen == 0
  {
    var logger := new Logger(sessionId);
    callsAfterNine := 0;
    var i := 0;
    while i < 9
      invariant 0 <= i <= 9
      invariant logger.Valid() && logger.batchSize == 10 && logger.minLevel == LogLevel.Info
      invariant |logger.queue| == i && !logger.isFlushing && callsAfterNine == 0
    {
      var sent := logger.Info("m", None, env);
      callsAfterNine := callsAfterNine + if sent == None then 0 else 1;
      i := i + 1;
    }
    lengthAfterNine := |logger.queue|;
    tenth := logger.Info("m", None, env);
    lengthAfterTen := |logger.queue|;
  }

  /** With the minimum at `warn`, `debug` and `info` calls neither queue nor send anything. */
  method FilteredBelowWarn(sessionId: string, env: Environment)
    returns (length: nat, first: Option<seq<LogRow>>, second: Option<seq<LogRow>>)
    ensures length == 0 && first == None && second == None
  {
    var logger := new Logger(sessionId);
    logger.SetMinLevel(LogLevel.Warn);
    first := logger.Debug("x", None, env);
    second := logger.Info("y", None, env);
    length := |logger.queue|;
  }

  /**
   * Three `error` entries; the sink fails the first flush and accepts the second. Both sink
   * calls carry the same three rows, and the queue ends empty.
   */
  method RetryAfterFailure(sessionId: string, env: Environment)
    returns (first: Option<seq<LogRow>>, second: Option<seq<LogRow>>, finalLength: nat)
    ensures first != None && |first.value| == 3 && second == first && finalLength == 0
  {
    var logger := new Logger(sessionId);
    var s1 := logger.Error("e1", None, None, env);
    var s2 := logger.Error("e2", None, None, env);
    var s3 := logger.Error("e3", None, None, env);
    ghost var three := logger.queue;
    assert |three| == 3;
    first := logger.BeginFlush();
    assert logger.inFlight == three;
    logger.EndFlush(false);
    assert logger.queue == three;
    second := logger.BeginFlush();
    logger.EndFlush(true);
    finalLength := |logger.queue|;
  }

  /** A flush requested while another waits for the sink is a no-op: one sink call, not two. */
  method OverlappingFlushes(sessionId: string, env: Environment)
    returns (first: Option<seq<LogRow>>, second: Option<seq<LogRow>>)
    ensures first != None && second == None
  {
    var logger := new Logger(sessionId);
    var s := logger.Warn("w", None, env);
    first := logger.BeginFlush();
    second := logger.BeginFlush();
  }

  /** A single `fatal` entry is sent at once, without waiting for the timer or a full batch. */
  method FatalSendsAtOnce(sessionId: string, env: Environment, err: Option<ErrorInfo>)
    returns (sent: Option<seq<LogRow>>)
    ensures sent != None && |sent.value| == 1
    ensures sent.value[0].level == LogLevel.Fatal && sent.value[0].source == DefaultSource
  {
    var logger := new Logger(sessionId);
    sent := logger.Fatal("boom", None, err, env);
  }
}
