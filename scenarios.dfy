/** Whole test cases driven through the handle: setup with `set_expect_*`, exercise
    with `get_expect_*`, then `assert_stage`. Each method states what such a test
    observes. */
module Scenarios {
  import opened Types
  import opened Records
  import opened Expectations

  /** The last outcome reported by the staged ledger. */
  function LastReported(h: ExpectHandle): ExpectStatus
    reads h, h.staged
    requires |h.staged.reported| > 0
  {
    h.staged.reported[|h.staged.reported| - 1]
  }

  /** A log expected at level 2 with message "boot" but emitted with message "wrong":
      the level agrees, the message does not, so the call fails; the balance is back
      to zero because the expectation was consumed. */
  method LogMismatch() returns (status: ExpectStatus, balance: int, verdict: StageVerdict)
    ensures status == Failed && balance == 0 && verdict == Balanced
  {
    var h := new ExpectHandle();
    h.UpdateStage(false);
    h.staged.SetExpectLog(Exact(2), Exact("boot"));
    h.staged.GetExpectLog(2, "wrong");
    status, balance, verdict := LastReported(h), h.staged.expectCount, h.AssertStage();
  }

  /** A metric definition expected and never made: finishing reports one expectation
      left unconsumed. */
  method UnconsumedMetric() returns (verdict: StageVerdict)
    ensures verdict == Remaining(1)
  {
    var h := new ExpectHandle();
    h.UpdateStage(false);
    h.staged.SetExpectMetricCreate(1, "req_count");
    verdict := h.AssertStage();
  }

  /** In lenient mode a call nothing expected is reported `Unexpected` but leaves the
      balance at zero, so finishing succeeds; in strict mode the same call leaves the
      balance at -1 and finishing reports one unaccounted call. */
  method UnexpectedTick(lenient: bool) returns (status: ExpectStatus, balance: int, verdict: StageVerdict)
    ensures status == Unexpected
    ensures lenient ==> balance == 0 && verdict == Balanced
    ensures !lenient ==> balance == -1 && verdict == Unaccounted(1)
  {
    var h := new ExpectHandle();
    h.UpdateStage(lenient);
    h.staged.GetExpectSetTickPeriodMillis(500);
    status, balance, verdict := LastReported(h), h.staged.expectCount, h.AssertStage();
  }

  /** Two log expectations that differ only in level are consumed in the order they
      were queued: calls made in that order both pass ... */
  method FifoInOrder(message: string) returns (reported: seq<ExpectStatus>, balance: int)
    ensures reported == [Expected, Expected] && balance == 0
  {
    var h := new ExpectHandle();
    h.UpdateStage(false);
    h.staged.SetExpectLog(Exact(1), Wildcard);
    h.staged.SetExpectLog(Exact(2), Wildcard);
    h.staged.GetExpectLog(1, message);
    h.staged.GetExpectLog(2, message);
    reported, balance := h.staged.reported, h.staged.expectCount;
  }

  /** ... and calls made in the other order both fail: no search ahead in the queue. */
  method FifoSwapped(message: string) returns (reported: seq<ExpectStatus>, balance: int)
    ensures reported == [Failed, Failed] && balance == 0
  {
    var h := new ExpectHandle();
    h.UpdateStage(false);
    h.staged.SetExpectLog(Exact(1), Wildcard);
    h.staged.SetExpectLog(Exact(2), Wildcard);
    h.staged.GetExpectLog(2, message);
    h.staged.GetExpectLog(1, message);
    reported, balance := h.staged.reported, h.staged.expectCount;
  }

  /** An outbound-call expectation with every position a wildcard accepts any call and
      hands back its stored token id. */
  method WildcardHttpCall(upstream: string, headers: Bytes, body: Option<string>, trailers: Bytes, timeout: I32)
    returns (status: ExpectStatus, token: Option<U32>)
    ensures status == Expected && token == Some(7)
  {
    var h := new ExpectHandle();
    h.UpdateStage(false);
    h.staged.SetExpectHttpCall(Wildcard, Wildcard, Wildcard, Wildcard, Wildcard, Some(7));
    token := h.staged.GetExpectHttpCall(upstream, headers, body, trailers, timeout);
    status := LastReported(h);
  }

  /** The stored timeout is cut to 32 bits before the comparison, so an expected
      timeout of 2^32 + 250 ms accepts a call made with 250 ms. */
  method WrappedTimeout(upstream: string) returns (status: ExpectStatus)
    ensures status == Expected
  {
    var h := new ExpectHandle();
    h.UpdateStage(false);
    h.staged.SetExpectHttpCall(Wildcard, Wildcard, Wildcard, Wildcard, Exact(0x1_0000_00FA), None);
    var _ := h.staged.GetExpectHttpCall(upstream, [], None, [], 250);
    status := LastReported(h);
  }

  /** A local response expected with body "default" accepts a response sent without
      a body. */
  method AbsentBodyIsDefault(statusCode: I32, headers: Bytes, grpcStatus: I32) returns (status: ExpectStatus)
    ensures status == Expected
  {
    var h := new ExpectHandle();
    h.UpdateStage(false);
    h.staged.SetExpectSendLocalResponse(Wildcard, Exact("default"), Wildcard, Wildcard);
    h.staged.GetExpectSendLocalResponse(statusCode, None, headers, grpcStatus);
    status := LastReported(h);
  }

  /** A stubbed clock read returns the stored nanoseconds; a second read with nothing
      queued returns nothing and, in strict mode, leaves one call unaccounted for. */
  method StubbedClock(nanos: U64) returns (first: Option<U128>, second: Option<U128>, reported: seq<ExpectStatus>, verdict: StageVerdict)
    ensures first == Some(nanos) && second == None
    ensures reported == [Expected, Unexpected]
    ensures verdict == Unaccounted(1)
  {
    var h := new ExpectHandle();
    h.UpdateStage(false);
    h.staged.SetExpectGetCurrentTimeNanos(Some(nanos));
    first := h.staged.GetExpectGetCurrentTimeNanos();
    second := h.staged.GetExpectGetCurrentTimeNanos();
    reported, verdict := h.staged.reported, h.AssertStage();
  }

  /** `update_stage` discards whatever the staged ledger still holds: after it,
      finishing succeeds whatever the earlier balance was. */
  method ResetDiscards(lenient: bool) returns (before: StageVerdict, after: StageVerdict)
    ensures before == Remaining(2) && after == Balanced
  {
    var h := new ExpectHandle();
    h.UpdateStage(false);
    h.staged.SetExpectMetricIncrement(3, -1);
    h.staged.SetExpectMetricRecord(3, 10);
    before := h.AssertStage();
    h.UpdateStage(lenient);
    after := h.AssertStage();
  }

  /** The balance is a net count: in strict mode one expectation never consumed and one
      call of another kind that nothing expected cancel out, and finishing succeeds
      although an expectation is still queued. */
  method SurplusCancelsDeficit() returns (verdict: StageVerdict, stillQueued: nat)
    ensures verdict == Balanced && stillQueued == 1
  {
    var h := new ExpectHandle();
    h.UpdateStage(false);
    h.staged.SetExpectLog(Wildcard, Wildcard);
    h.staged.GetExpectMetricGet(1, 0);
    verdict, stillQueued := h.AssertStage(), |h.staged.logMessage|;
  }

  /** A header-map write with the wrong map type is reported `Failed` but leaves the
      expectation queued, so the next write with the right type still finds it and
      passes; the balance has dropped twice for one expectation, and finishing reports
      one unaccounted call even in lenient mode. */
  method KeptHeaderPairsRecord(lenient: bool)
    returns (reported: seq<ExpectStatus>, balance: int, verdict: StageVerdict, stillQueued: nat)
    ensures reported == [Failed, Expected]
    ensures balance == -1 && verdict == Unaccounted(1) && stillQueued == 0
  {
    var h := new ExpectHandle();
    h.UpdateStage(lenient);
    h.staged.SetExpectSetHeaderMapPairs(Exact(1), Wildcard);
    h.staged.GetExpectSetHeaderMapPairs(2, []);
    h.staged.GetExpectSetHeaderMapPairs(1, []);
    reported, balance, verdict := h.staged.reported, h.staged.expectCount, h.AssertStage();
    stillQueued := |h.staged.setHeaderMapPairs|;
  }
}
