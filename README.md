# Expectation ledger of the proxy-wasm test framework, in Dafny

The test framework runs a proxy-wasm filter against a simulated host. A test
*sets up* expectations about the host calls the filter will make
(`set_expect_*`), the filter then *exercises* the host (each host call runs the
matching `get_expect_*`), and the test *finishes* with `assert_stage`. This
project models that ledger, `src/expectations.rs`, and proves what it
guarantees.

- **Types** (`types.dfy`): the integer widths of the host ABI as ranges of
  `int`, byte strings, the wildcard field type `Field` (`Wildcard | Exact(v)`,
  the source's `Option` in an expectation tuple), the comparison
  `actual == f.unwrap_or(actual)` (`Agrees`), the tri-state outcome
  `ExpectStatus`, `set_expect_status` (`StatusOf`), and Rust's `as i32` on an
  unsigned value (`AsI32`).
- **Ledger** (`ledger.dfy`): the mechanism all 17 call kinds share. One kind
  sees a FIFO queue and the shared signed balance (`Tally`). `set_expect_*` is
  `Enqueue` (push at the back, balance + 1). `get_expect_*` is `Consume`. On an
  empty queue, `Consume` lowers the balance only in strict mode. Otherwise it
  takes the front record (`remove(0)`) and lowers the balance. Lemmas prove
  the FIFO law over any number of calls, the deficit law, and that setup
  followed by the same number of calls restores the balance.
  `ConsumeUnlessRejected` is the one consumer that differs: it lowers the
  balance like `Consume` but removes the front record only when the front
  record's type agrees (see "## Findings").
- **Records** (`records.dfy`): the expectation tuple of every call kind and the
  comparison its consumer runs, each characterised as "every pinned position
  equals the actual argument". This includes the three quirks of the source:
  - an absent actual body is compared as `"default"`;
  - the expected http-call timeout is cut to 32 bits, so it matches modulo 2^32;
  - the header-pairs write keeps its record queued when the map type
    disagrees (`FrontKindAgrees` is the comparison that decides the removal).
- **Expectations** (`expectations.dfy`): the class `Expect`, which holds the 17
  queues, `expectCount` and the lenient flag, and has one method per
  `set_expect_*` / `get_expect_*`. The outcomes passed to `set_status` are
  recorded in the field `reported`. Every method changes only its own kind's
  queue, the balance and the report log (field-granular `modifies`), and keeps
  the invariant `Valid`. `Valid` says the balance equals the records ever queued, minus
  one per call that found a record to compare against, minus one penalty per
  strict call that found an empty queue. It also says that exactly the calls
  that found an empty queue were reported `Unexpected`, in either mode; in
  strict mode each of them is also a penalty. The
  class `ExpectHandle` covers `new`, `update_stage` and `assert_stage`.
  `AssertStage` returns the verdict the source panics on.
- **Scenarios** (`scenarios.dfy`): whole tests driven through the handle, each
  with the outcome the ledger guarantees.

## Model

| member | source | states |
|---|---|---|
| Types.Agrees | src/expectations.rs:145-147 | the `unwrap_or` comparison of one position holds exactly when the position is a wildcard or pinned to the actual value |
| Types.StatusOf | src/expectations.rs:20-26 | a comparison result becomes `Expected` when it holds and `Failed` otherwise, never `Unexpected` |
| Types.AsI32 | src/expectations.rs:679 | `as i32` yields a value congruent to its input modulo 2^32, and the input itself when it already fits |
| Types.AsI32Congruence | src/expectations.rs:676-680 | a truncated value equals an actual i32 exactly when the two are congruent modulo 2^32 |
| Ledger.Enqueue | src/expectations.rs:121-126 | `set_expect_*` pushes at the back: the queued records keep their places, the new one is last, and the balance rises with the queue length |
| Ledger.Consume | src/expectations.rs:129-151 | an empty queue yields nothing and lowers the balance only in strict mode; otherwise the front record is removed and the balance drops by one in either mode |
| Ledger.EnqueueBehindFront | src/expectations.rs:121-151 | enqueuing never changes what the next call takes from a non-empty queue; the new record waits at the back |
| Ledger.ConsumeUnlessRejected | src/expectations.rs:361-373 | the header-pairs write as written: the same record compared and the same balance as `Consume`, but the queue keeps its front record unless the type comparison held |
| Ledger.SurplusMovesOnlyOnStrictDeficit | src/expectations.rs:122-142 | set and call move the balance in step with the queue length, except a strict call on an empty queue, which lowers it by one more; so for every kind that always removes its front record, the lenient balance equals what is still queued |
| Ledger.RejectedFrontLowersSurplus | src/expectations.rs:361-373 | with the removal, the header-pairs write is exactly `Consume`; without it (a non-empty queue and a disagreeing type) the balance falls one below what is queued, in either mode |
| Ledger.EnqueueAllAppends | src/expectations.rs:121-126 | setting up a list of records appends them in order and raises the balance by their number |
| Ledger.ConsumeTimesIsFifo | src/expectations.rs:129-151 | while records remain, the i-th call takes the i-th queued record, and the queue loses exactly that prefix, one balance unit per call |
| Ledger.ConsumeTimesWhenEmpty | src/expectations.rs:131-140 | calls on an empty queue take nothing; each lowers the balance by one in strict mode and leaves it unchanged in lenient mode |
| Ledger.SetupThenExerciseBalances | src/expectations.rs:121-151 | n sets followed by n calls of one kind take the records in set order and leave queue and balance where they started |
| Records.LogMatches | src/expectations.rs:144-148 | a log call passes exactly when the pinned level and message equal the actual ones |
| Records.TickMatches | src/expectations.rs:177-184 | a tick-period call passes exactly when the pinned milliseconds equal the actual period |
| Records.BytesStubMatches | src/expectations.rs:253-256 | a buffer or header-pairs read passes exactly when the pinned type equals the actual one; the stored bytes are not compared |
| Records.BytesMatches | src/expectations.rs:291-295 | a buffer or header-pairs write passes exactly when the pinned type and bytes equal the actual ones |
| Records.FrontKindAgrees | src/expectations.rs:364-365 | the map-type test that decides whether the header-pairs write removes its front record: true on an empty queue or when the pinned type equals the actual one, and true whenever the front record passes the whole comparison, so only a failing call can leave its record queued |
| Records.HeaderLookupMatches | src/expectations.rs:415-419 | a header-value read passes exactly when the pinned map type and key equal the actual ones; the stored value is not compared |
| Records.HeaderEntryMatches | src/expectations.rs:462-469 | a header replace or add passes exactly when the pinned map type, key and value equal the actual ones |
| Records.HeaderKeyMatches | src/expectations.rs:502-506 | a header remove passes exactly when the pinned map type and key equal the actual ones |
| Records.LocalResponseMatches | src/expectations.rs:600-612 | a local response passes exactly when pinned status code, headers and gRPC status are equal, and a pinned body equals the actual body, where an absent actual body counts as "default" |
| Records.HttpCallMatches | src/expectations.rs:663-681 | an http call passes exactly when pinned upstream, headers and trailers are equal, the body as above, and a pinned timeout truncated to i32 equals the actual timeout |
| Records.TimeoutAgreesModulo2To32 | src/expectations.rs:676-680 | the timeout position agrees exactly when the stored milliseconds are congruent to the actual timeout modulo 2^32 |
| Expectations.Expect.constructor | src/expectations.rs:96-118 | a new ledger has every queue empty, balance zero, the requested mode and the invariant |
| Expectations.Expect.Report | src/expectations.rs:139-148 | `set_status` appends one outcome; `Unexpected` counts a call that found an empty queue, any other outcome a call that found a record to compare against |
| Expectations.Expect.SetExpectLog | src/expectations.rs:121-126 | the queue and balance become `Enqueue` of the old ones with the log record; nothing else changes; invariant kept |
| Expectations.Expect.GetExpectLog | src/expectations.rs:129-151 | the queue and balance become `Consume` of the old ones; the outcome is `Unexpected` on an empty queue and otherwise the comparison of the front record; invariant kept |
| Expectations.Expect.SetExpectSetTickPeriodMillis | src/expectations.rs:154-159 | the queue and balance become `Enqueue` of the old ones with the period; nothing else changes; invariant kept |
| Expectations.Expect.GetExpectSetTickPeriodMillis | src/expectations.rs:162-186 | consumes as above and reports the period comparison |
| Expectations.Expect.SetExpectGetCurrentTimeNanos | src/expectations.rs:189-195 | the queue and balance become `Enqueue` of the old ones with the stubbed time; nothing else changes; invariant kept |
| Expectations.Expect.GetExpectGetCurrentTimeNanos | src/expectations.rs:198-220 | consumes as above; a consumed record always reports `Expected` and returns its stored time, an empty queue returns nothing |
| Expectations.Expect.SetExpectGetBufferBytes | src/expectations.rs:223-234 | the queue and balance become `Enqueue` of the old ones with the type and stub bytes; nothing else changes; invariant kept |
| Expectations.Expect.GetExpectGetBufferBytes | src/expectations.rs:237-259 | consumes as above, reports the type comparison and returns the stored bytes of the consumed record (nothing on an empty queue) |
| Expectations.Expect.SetExpectSetBufferBytes | src/expectations.rs:262-273 | the queue and balance become `Enqueue` of the old ones with the type and bytes; nothing else changes; invariant kept |
| Expectations.Expect.GetExpectSetBufferBytes | src/expectations.rs:276-298 | consumes as above and reports the type and bytes comparison |
| Expectations.Expect.SetExpectGetHeaderMapPairs | src/expectations.rs:301-310 | the queue and balance become `Enqueue` of the old ones with the map type and encoded pairs; nothing else changes; invariant kept |
| Expectations.Expect.GetExpectGetHeaderMapPairs | src/expectations.rs:313-334 | consumes as above, reports the map-type comparison and returns the stored pairs |
| Expectations.Expect.SetExpectSetHeaderMapPairs | src/expectations.rs:337-346 | the queue and balance become `Enqueue` of the old ones with the map type and encoded pairs; nothing else changes; invariant kept |
| Expectations.Expect.GetExpectSetHeaderMapPairs | src/expectations.rs:349-376 | the queue and balance become `ConsumeUnlessRejected` of the old ones, removing the front only when its map type agrees; the outcome is `Unexpected` on an empty queue and otherwise the map-type and pairs comparison of the front record; invariant kept |
| Expectations.Expect.SetExpectGetHeaderMapValue | src/expectations.rs:379-392 | the queue and balance become `Enqueue` of the old ones with the map type, key and stub value; nothing else changes; invariant kept |
| Expectations.Expect.GetExpectGetHeaderMapValue | src/expectations.rs:395-423 | consumes as above, reports the map-type and key comparison and returns the stored value |
| Expectations.Expect.SetExpectReplaceHeaderMapValue | src/expectations.rs:426-439 | the queue and balance become `Enqueue` of the old ones with the map type, key and value; nothing else changes; invariant kept |
| Expectations.Expect.GetExpectReplaceHeaderMapValue | src/expectations.rs:442-472 | consumes as above and reports the three-way comparison |
| Expectations.Expect.SetExpectRemoveHeaderMapValue | src/expectations.rs:475-484 | the queue and balance become `Enqueue` of the old ones with the map type and key; nothing else changes; invariant kept |
| Expectations.Expect.GetExpectRemoveHeaderMapValue | src/expectations.rs:487-509 | consumes as above and reports the map-type and key comparison |
| Expectations.Expect.SetExpectAddHeaderMapValue | src/expectations.rs:512-525 | the queue and balance become `Enqueue` of the old ones with the map type, key and value; nothing else changes; invariant kept |
| Expectations.Expect.GetExpectAddHeaderMapValue | src/expectations.rs:528-558 | consumes as above and reports the three-way comparison |
| Expectations.Expect.SetExpectSendLocalResponse | src/expectations.rs:561-576 | the queue and balance become `Enqueue` of the old ones with the four positions; nothing else changes; invariant kept |
| Expectations.Expect.GetExpectSendLocalResponse | src/expectations.rs:579-615 | consumes as above and reports the local-response comparison |
| Expectations.Expect.SetExpectHttpCall | src/expectations.rs:618-637 | the queue and balance become `Enqueue` of the old ones with the five compared positions and the stub token id; nothing else changes; invariant kept |
| Expectations.Expect.GetExpectHttpCall | src/expectations.rs:640-685 | consumes as above, reports the http-call comparison and returns the stored token id |
| Expectations.Expect.SetExpectMetricCreate | src/expectations.rs:688-692 | the queue and balance become `Enqueue` of the old ones with the concrete (type, name) pair; nothing else changes; invariant kept |
| Expectations.Expect.GetExpectMetricCreate | src/expectations.rs:695-715 | consumes as above and reports whether the stored pair equals the actual one |
| Expectations.Expect.SetExpectMetricIncrement | src/expectations.rs:718-722 | the queue and balance become `Enqueue` of the old ones with the concrete (id, offset) pair; nothing else changes; invariant kept |
| Expectations.Expect.GetExpectMetricIncrement | src/expectations.rs:725-745 | consumes as above and reports whether the stored pair equals the actual one |
| Expectations.Expect.SetExpectMetricRecord | src/expectations.rs:748-752 | the queue and balance become `Enqueue` of the old ones with the concrete (id, value) pair; nothing else changes; invariant kept |
| Expectations.Expect.GetExpectMetricRecord | src/expectations.rs:755-775 | consumes as above and reports whether the stored pair equals the actual one |
| Expectations.Expect.SetExpectMetricGet | src/expectations.rs:778-782 | the queue and balance become `Enqueue` of the old ones with the concrete (id, value) pair; nothing else changes; invariant kept |
| Expectations.Expect.GetExpectMetricGet | src/expectations.rs:785-805 | consumes as above and reports whether the stored pair equals the actual one |
| Expectations.ExpectHandle.constructor | src/expectations.rs:34-38 | the handle starts with a fresh, strict, empty ledger |
| Expectations.ExpectHandle.UpdateStage | src/expectations.rs:40-42 | the staged ledger is replaced by a fresh empty one in the requested mode, whatever the old one held |
| Expectations.ExpectHandle.AssertStage | src/expectations.rs:44-57 | finishing passes exactly on a zero balance; a positive balance is reported as that many unconsumed expectations, a negative one as that many unaccounted calls |
| Scenarios.LogMismatch | src/expectations.rs:144-149 | a log whose message differs from the pinned one is reported `Failed`, yet the record is consumed and finishing passes |
| Scenarios.UnconsumedMetric | src/expectations.rs:44-49 | an expectation never exercised makes finishing report one remaining |
| Scenarios.UnexpectedTick | src/expectations.rs:162-173 | a call nothing expected is `Unexpected`; lenient mode leaves the balance at 0, strict mode at -1 with one unaccounted call |
| Scenarios.FifoInOrder | src/expectations.rs:129-151 | two log expectations are matched in the order they were set: calls made in that order both pass |
| Scenarios.FifoSwapped | src/expectations.rs:129-151 | calls made in the other order both fail; the queue is never searched |
| Scenarios.WildcardHttpCall | src/expectations.rs:640-685 | an all-wildcard http-call expectation accepts any call and returns its stored token id |
| Scenarios.WrappedTimeout | src/expectations.rs:676-680 | an expected timeout of 2^32 + 250 ms accepts a call made with 250 ms |
| Scenarios.AbsentBodyIsDefault | src/expectations.rs:603-607 | a local response expected with body "default" accepts one sent without a body |
| Scenarios.StubbedClock | src/expectations.rs:198-220 | a clock read returns the stubbed time; a second read with nothing queued returns nothing, is `Unexpected` and leaves one unaccounted call in strict mode |
| Scenarios.ResetDiscards | src/expectations.rs:40-57 | after `update_stage`, finishing passes although the discarded ledger had two remaining |
| Scenarios.KeptHeaderPairsRecord | src/expectations.rs:361-373 | a header-pairs write with the wrong map type fails but leaves its record queued; the next write with the right type passes against it, and finishing reports one unaccounted call in either mode |
| Scenarios.SurplusCancelsDeficit | src/expectations.rs:44-57 | in strict mode, one unconsumed expectation and one unexpected call of another kind cancel, and finishing passes although a record is still queued |

## Left out

- Diagnostics: the `println!` lines in every method and `print_staged` (a debug dump of the ledger) are output only and change no state.
- `set_status` itself belongs to the host-call layer (`src/hostcalls.rs`), which is not part of this model; here it is the append to `reported`, one ledger's log rather than a process-wide one.
- `serialize_map` is done by the caller: the setters for header pairs (`SetExpectGetHeaderMapPairs`, `SetExpectSetHeaderMapPairs`) and for local-response headers and http-call headers and trailers take already-encoded `Bytes`. Likewise the `as_bytes` encoding of the buffer data: `SetExpectGetBufferBytes` and `SetExpectSetBufferBytes` take the bytes already encoded.
- `SystemTime` and `Duration`: the clock stub stores nanoseconds since the epoch and the tick period and the http-call timeout are stored in milliseconds, which is what `as_nanos` and `as_millis` read back.
- The panic messages of `assert_stage` are modelled as the verdict `Remaining(n)` or `Unaccounted(n)`, not as aborting the test.
- Expectations.Expect.SetExpectLog: `expect_count` is an `i32` in the source and is modelled as an unbounded `int`; overflow after 2^31 unbalanced calls is not modelled. The same holds for every setter and getter.
- The global `ExpectHandle` behind a lock, and concurrent access to it, are not modelled; the handle here is an ordinary object.
- The "balance equals what is still queued" property of lenient mode is proved per kind (`Ledger.SurplusMovesOnlyOnStrictDeficit`), not as a field invariant of the class over the sum of all 17 queues. It holds for the 16 kinds whose consumer always removes the front record; the header-pairs write breaks it (`Ledger.RejectedFrontLowersSurplus`).

## Findings

| source | as written | input that shows it | evidently intended | confidence | as-written member | corrected member |
|---|---|---|---|---|---|---|
| src/expectations.rs:361-373 | `get_expect_set_header_map_pairs` lowers the balance, then evaluates `type_ok && pairs == remove(0)...`; when the pinned map type disagrees the short-circuit skips `remove(0)`, so the record stays queued | lenient mode: `set_expect_set_header_map_pairs(Some(1), None)`, then `get_expect_set_header_map_pairs(2, b"")` reports `Failed`, then `get_expect_set_header_map_pairs(1, b"")` reports `Expected`; the balance ends at -1 and `assert_stage` panics although every expectation was met or failed once | the front record is removed whatever the comparison, as in the other 16 kinds; then the second call is `Unexpected`, and in lenient mode the balance stays equal to what is queued (0), as `Ledger.SurplusMovesOnlyOnStrictDeficit` proves of `Ledger.Consume` | high; not executed | Scenarios.KeptHeaderPairsRecord | Ledger.Consume |

The class models the code as written for this kind (`Expectations.Expect.GetExpectSetHeaderMapPairs` uses `Ledger.ConsumeUnlessRejected`). The intended always-removing consumer is `Ledger.Consume`, which the other 16 kinds use. `Ledger.RejectedFrontLowersSurplus` proves that the two agree exactly when the record is removed.
