/** The staged expectation ledger and the handle that owns it. */
module Expectations {
  import opened Types
  import opened Ledger
  import opened Records

  /** `Expect`: one FIFO queue of expectation records per host-call kind, the signed
      balance `expectCount` and the lenient flag fixed at creation. `reported` is the
      sequence of outcomes handed to the signalling collaborator (`set_status`), one
      per consuming call. */
  class Expect {
    const allowUnexpected: bool
    var expectCount: int
    var logMessage: seq<LogExpectation>
    var tickPeriodMillis: seq<Field<U64>>
    var currentTimeNanos: seq<Option<U64>>
    var getBufferBytes: seq<BytesStub>
    var setBufferBytes: seq<BytesExpectation>
    var getHeaderMapPairs: seq<BytesStub>
    var setHeaderMapPairs: seq<BytesExpectation>
    var getHeaderMapValue: seq<HeaderLookup>
    var replaceHeaderMapValue: seq<HeaderEntry>
    var removeHeaderMapValue: seq<HeaderKey>
    var addHeaderMapValue: seq<HeaderEntry>
    var sendLocalResponse: seq<LocalResponse>
    var httpCall: seq<HttpCall>
    var metricsCreate: seq<MetricCreate>
    var metricsIncrement: seq<MetricIncrement>
    var metricsRecord: seq<MetricValue>
    var metricsGet: seq<MetricValue>
    var reported: seq<ExpectStatus>

    // Bookkeeping of the balance: records ever queued, calls that found a record to
    // compare against, and calls that found their queue empty.
    ghost var enqueued: nat
    ghost var compared: nat
    ghost var unexpected: nat

    /** The balance is what was queued, minus one per call that found a record to
        compare against, minus one penalty per call that found an empty queue in strict
        mode; every consuming call reported one outcome, and `Unexpected` exactly for the
        calls that found an empty queue, in either mode. */
    ghost predicate Valid()
      reads this
    {
      expectCount == enqueued - compared - (if allowUnexpected then 0 else unexpected) &&
      |reported| == compared + unexpected &&
      Occurrences(reported, Unexpected) == unexpected
    }

    /** Every queue is empty. */
    predicate Drained()
      reads this
    {
      logMessage == [] &&
      tickPeriodMillis == [] &&
      currentTimeNanos == [] &&
      getBufferBytes == [] &&
      setBufferBytes == [] &&
      getHeaderMapPairs == [] &&
      setHeaderMapPairs == [] &&
      getHeaderMapValue == [] &&
      replaceHeaderMapValue == [] &&
      removeHeaderMapValue == [] &&
      addHeaderMapValue == [] &&
      sendLocalResponse == [] &&
      httpCall == [] &&
      metricsCreate == [] &&
      metricsIncrement == [] &&
      metricsRecord == [] &&
      metricsGet == []
    }

    /** `Expect::new`: every queue empty, balance zero. */
    constructor (allowUnexpected: bool)
      ensures Valid() && Drained()
      ensures this.allowUnexpected == allowUnexpected
      ensures expectCount == 0 && reported == []
    {
      this.allowUnexpected := allowUnexpected;
      expectCount := 0;
      logMessage := [];
      tickPeriodMillis := [];
      currentTimeNanos := [];
      getBufferBytes := [];
      setBufferBytes := [];
      getHeaderMapPairs := [];
      setHeaderMapPairs := [];
      getHeaderMapValue := [];
      replaceHeaderMapValue := [];
      removeHeaderMapValue := [];
      addHeaderMapValue := [];
      sendLocalResponse := [];
      httpCall := [];
      metricsCreate := [];
      metricsIncrement := [];
      metricsRecord := [];
      metricsGet := [];
      reported := [];
      enqueued, compared, unexpected := 0, 0, 0;
    }

    /** `set_status`: hand one outcome to the signalling collaborator. An outcome other
        than `Unexpected` means the call found a record to compare against. */
    method Report(status: ExpectStatus)
      modifies this`reported, this`compared, this`unexpected
      ensures reported == old(reported) + [status]
      ensures status == Unexpected ==> unexpected == old(unexpected) + 1 && compared == old(compared)
      ensures status != Unexpected ==> compared == old(compared) + 1 && unexpected == old(unexpected)
    {
      reported := reported + [status];
      if status == Unexpected {
        unexpected := unexpected + 1;
      } else {
        compared := compared + 1;
      }
    }

    /** `set_expect_log`: expect a log line: level and message, each possibly a wildcard. */
    method SetExpectLog(level: Field<I32>, message: Field<string>)
      requires Valid()
      modifies this`logMessage, this`expectCount, this`enqueued
      ensures Valid()
      ensures Tally(logMessage, expectCount) == Enqueue(old(Tally(logMessage, expectCount)), LogExpectation(level, message))
    {
      logMessage, expectCount := logMessage + [LogExpectation(level, message)], expectCount + 1;
      enqueued := enqueued + 1;
    }

    /** `get_expect_log`: a log line was emitted. */
    method GetExpectLog(level: I32, message: string)
      requires Valid()
      modifies this`logMessage, this`expectCount, this`reported, this`compared, this`unexpected
      ensures Valid()
      ensures var s := Consume(old(Tally(logMessage, expectCount)), allowUnexpected);
        Tally(logMessage, expectCount) == s.after &&
        reported == old(reported) + [if s.popped.None? then Unexpected else StatusOf(LogMatches(s.popped.value, level, message))]
    {
      var s := Consume(Tally(logMessage, expectCount), allowUnexpected);
      logMessage, expectCount := s.after.queue, s.after.balance;
      var status := if s.popped.None? then Unexpected else StatusOf(LogMatches(s.popped.value, level, message));
      Report(status);
    }

    /** `set_expect_set_tick_period_millis`: expect a tick-period change, in milliseconds. */
    method SetExpectSetTickPeriodMillis(periodMillis: Field<U64>)
      requires Valid()
      modifies this`tickPeriodMillis, this`expectCount, this`enqueued
      ensures Valid()
      ensures Tally(tickPeriodMillis, expectCount) == Enqueue(old(Tally(tickPeriodMillis, expectCount)), periodMillis)
    {
      tickPeriodMillis, expectCount := tickPeriodMillis + [periodMillis], expectCount + 1;
      enqueued := enqueued + 1;
    }

    /** `get_expect_set_tick_period_millis`: the tick period was set. */
    method GetExpectSetTickPeriodMillis(periodMillis: U128)
      requires Valid()
      modifies this`tickPeriodMillis, this`expectCount, this`reported, this`compared, this`unexpected
      ensures Valid()
      ensures var s := Consume(old(Tally(tickPeriodMillis, expectCount)), allowUnexpected);
        Tally(tickPeriodMillis, expectCount) == s.after &&
        reported == old(reported) + [if s.popped.None? then Unexpected else StatusOf(TickMatches(s.popped.value, periodMillis))]
    {
      var s := Consume(Tally(tickPeriodMillis, expectCount), allowUnexpected);
      tickPeriodMillis, expectCount := s.after.queue, s.after.balance;
      var status := if s.popped.None? then Unexpected else StatusOf(TickMatches(s.popped.value, periodMillis));
      Report(status);
    }

    /** `set_expect_get_current_time_nanos`: expect a clock read; the stored nanoseconds are what the read returns. */
    method SetExpectGetCurrentTimeNanos(timeNanos: Option<U64>)
      requires Valid()
      modifies this`currentTimeNanos, this`expectCount, this`enqueued
      ensures Valid()
      ensures Tally(currentTimeNanos, expectCount) == Enqueue(old(Tally(currentTimeNanos, expectCount)), timeNanos)
    {
      currentTimeNanos, expectCount := currentTimeNanos + [timeNanos], expectCount + 1;
      enqueued := enqueued + 1;
    }

    /** `get_expect_get_current_time_nanos`: the clock was read. Nothing is compared: a consumed record always
        reports `Expected` and hands back its stored time unchanged. */
    method GetExpectGetCurrentTimeNanos() returns (timeNanos: Option<U128>)
      requires Valid()
      modifies this`currentTimeNanos, this`expectCount, this`reported, this`compared, this`unexpected
      ensures Valid()
      ensures var s := Consume(old(Tally(currentTimeNanos, expectCount)), allowUnexpected);
        Tally(currentTimeNanos, expectCount) == s.after &&
        reported == old(reported) + [if s.popped.None? then Unexpected else Expected]
        && timeNanos == (if s.popped.None? then None else s.popped.value)
    {
      var s := Consume(Tally(currentTimeNanos, expectCount), allowUnexpected);
      currentTimeNanos, expectCount := s.after.queue, s.after.balance;
      timeNanos := if s.popped.None? then None else if s.popped.value.None? then None else Some(s.popped.value.value);
      var status := if s.popped.None? then Unexpected else Expected;
      Report(status);
    }

    /** `set_expect_get_buffer_bytes`: expect a buffer read: the buffer type to compare and the bytes to return. */
    method SetExpectGetBufferBytes(bufferType: Field<I32>, bufferData: Option<Bytes>)
      requires Valid()
      modifies this`getBufferBytes, this`expectCount, this`enqueued
      ensures Valid()
      ensures Tally(getBufferBytes, expectCount) == Enqueue(old(Tally(getBufferBytes, expectCount)), BytesStub(bufferType, bufferData))
    {
      getBufferBytes, expectCount := getBufferBytes + [BytesStub(bufferType, bufferData)], expectCount + 1;
      enqueued := enqueued + 1;
    }

    /** `get_expect_get_buffer_bytes`: a buffer was read. Only the buffer type is compared; the stored bytes
        are returned. */
    method GetExpectGetBufferBytes(bufferType: I32) returns (bufferData: Option<Bytes>)
      requires Valid()
      modifies this`getBufferBytes, this`expectCount, this`reported, this`compared, this`unexpected
      ensures Valid()
      ensures var s := Consume(old(Tally(getBufferBytes, expectCount)), allowUnexpected);
        Tally(getBufferBytes, expectCount) == s.after &&
        reported == old(reported) + [if s.popped.None? then Unexpected else StatusOf(BytesStubMatches(s.popped.value, bufferType))]
        && bufferData == (if s.popped.None? then None else s.popped.value.result)
    {
      var s := Consume(Tally(getBufferBytes, expectCount), allowUnexpected);
      getBufferBytes, expectCount := s.after.queue, s.after.balance;
      bufferData := if s.popped.None? then None else s.popped.value.result;
      var status := if s.popped.None? then Unexpected else StatusOf(BytesStubMatches(s.popped.value, bufferType));
      Report(status);
    }

    /** `set_expect_set_buffer_bytes`: expect a buffer write: buffer type and bytes. */
    method SetExpectSetBufferBytes(bufferType: Field<I32>, bufferData: Field<Bytes>)
      requires Valid()
      modifies this`setBufferBytes, this`expectCount, this`enqueued
      ensures Valid()
      ensures Tally(setBufferBytes, expectCount) == Enqueue(old(Tally(setBufferBytes, expectCount)), BytesExpectation(bufferType, bufferData))
    {
      setBufferBytes, expectCount := setBufferBytes + [BytesExpectation(bufferType, bufferData)], expectCount + 1;
      enqueued := enqueued + 1;
    }

    /** `get_expect_set_buffer_bytes`: a buffer was written; the bytes are compared exactly. */
    method GetExpectSetBufferBytes(bufferType: I32, bufferData: Bytes)
      requires Valid()
      modifies this`setBufferBytes, this`expectCount, this`reported, this`compared, this`unexpected
      ensures Valid()
      ensures var s := Consume(old(Tally(setBufferBytes, expectCount)), allowUnexpected);
        Tally(setBufferBytes, expectCount) == s.after &&
        reported == old(reported) + [if s.popped.None? then Unexpected else StatusOf(BytesMatches(s.popped.value, bufferType, bufferData))]
    {
      var s := Consume(Tally(setBufferBytes, expectCount), allowUnexpected);
      setBufferBytes, expectCount := s.after.queue, s.after.balance;
      var status := if s.popped.None? then Unexpected else StatusOf(BytesMatches(s.popped.value, bufferType, bufferData));
      Report(status);
    }

    /** `set_expect_get_header_map_pairs`: expect a header-map read: the map type to compare and the encoded pairs to
        return. */
    method SetExpectGetHeaderMapPairs(mapType: Field<I32>, headerMapPairs: Option<Bytes>)
      requires Valid()
      modifies this`getHeaderMapPairs, this`expectCount, this`enqueued
      ensures Valid()
      ensures Tally(getHeaderMapPairs, expectCount) == Enqueue(old(Tally(getHeaderMapPairs, expectCount)), BytesStub(mapType, headerMapPairs))
    {
      getHeaderMapPairs, expectCount := getHeaderMapPairs + [BytesStub(mapType, headerMapPairs)], expectCount + 1;
      enqueued := enqueued + 1;
    }

    /** `get_expect_get_header_map_pairs`: a header map was read. Only the map type is compared; the stored
        encoded pairs are returned. */
    method GetExpectGetHeaderMapPairs(mapType: I32) returns (headerMapPairs: Option<Bytes>)
      requires Valid()
      modifies this`getHeaderMapPairs, this`expectCount, this`reported, this`compared, this`unexpected
      ensures Valid()
      ensures var s := Consume(old(Tally(getHeaderMapPairs, expectCount)), allowUnexpected);
        Tally(getHeaderMapPairs, expectCount) == s.after &&
        reported == old(reported) + [if s.popped.None? then Unexpected else StatusOf(BytesStubMatches(s.popped.value, mapType))]
        && headerMapPairs == (if s.popped.None? then None else s.popped.value.result)
    {
      var s := Consume(Tally(getHeaderMapPairs, expectCount), allowUnexpected);
      getHeaderMapPairs, expectCount := s.after.queue, s.after.balance;
      headerMapPairs := if s.popped.None? then None else s.popped.value.result;
      var status := if s.popped.None? then Unexpected else StatusOf(BytesStubMatches(s.popped.value, mapType));
      Report(status);
    }

    /** `set_expect_set_header_map_pairs`: expect a header-map write: map type and encoded pairs. */
    method SetExpectSetHeaderMapPairs(mapType: Field<I32>, headerMapPairs: Field<Bytes>)
      requires Valid()
      modifies this`setHeaderMapPairs, this`expectCount, this`enqueued
      ensures Valid()
      ensures Tally(setHeaderMapPairs, expectCount) == Enqueue(old(Tally(setHeaderMapPairs, expectCount)), BytesExpectation(mapType, headerMapPairs))
    {
      setHeaderMapPairs, expectCount := setHeaderMapPairs + [BytesExpectation(mapType, headerMapPairs)], expectCount + 1;
      enqueued := enqueued + 1;
    }

    /** `get_expect_set_header_map_pairs`: a header map was written; the encoded pairs are
        compared byte for byte, so the same pairs in another order do not match. Unlike
        every other kind, the front record is removed only when its map type agrees
        (the removal sits behind a short-circuit `&&`); the balance drops either way. */
    method GetExpectSetHeaderMapPairs(mapType: I32, headerMapPairs: Bytes)
      requires Valid()
      modifies this`setHeaderMapPairs, this`expectCount, this`reported, this`compared, this`unexpected
      ensures Valid()
      ensures var p := ConsumeUnlessRejected(old(Tally(setHeaderMapPairs, expectCount)), allowUnexpected,
                                             FrontKindAgrees(old(setHeaderMapPairs), mapType));
        Tally(setHeaderMapPairs, expectCount) == p.after &&
        reported == old(reported) + [if p.front.None? then Unexpected else StatusOf(BytesMatches(p.front.value, mapType, headerMapPairs))]
    {
      var p := ConsumeUnlessRejected(Tally(setHeaderMapPairs, expectCount), allowUnexpected,
                                     FrontKindAgrees(setHeaderMapPairs, mapType));
      setHeaderMapPairs, expectCount := p.after.queue, p.after.balance;
      var status := if p.front.None? then Unexpected else StatusOf(BytesMatches(p.front.value, mapType, headerMapPairs));
      Report(status);
    }

    /** `set_expect_get_header_map_value`: expect a header lookup: map type and key to compare, value to return. */
    method SetExpectGetHeaderMapValue(mapType: Field<I32>, key: Field<string>, value: Option<string>)
      requires Valid()
      modifies this`getHeaderMapValue, this`expectCount, this`enqueued
      ensures Valid()
      ensures Tally(getHeaderMapValue, expectCount) == Enqueue(old(Tally(getHeaderMapValue, expectCount)), HeaderLookup(mapType, key, value))
    {
      getHeaderMapValue, expectCount := getHeaderMapValue + [HeaderLookup(mapType, key, value)], expectCount + 1;
      enqueued := enqueued + 1;
    }

    /** `get_expect_get_header_map_value`: a header value was looked up. Map type and key are compared; the stored
        value is returned. */
    method GetExpectGetHeaderMapValue(mapType: I32, key: string) returns (value: Option<string>)
      requires Valid()
      modifies this`getHeaderMapValue, this`expectCount, this`reported, this`compared, this`unexpected
      ensures Valid()
      ensures var s := Consume(old(Tally(getHeaderMapValue, expectCount)), allowUnexpected);
        Tally(getHeaderMapValue, expectCount) == s.after &&
        reported == old(reported) + [if s.popped.None? then Unexpected else StatusOf(HeaderLookupMatches(s.popped.value, mapType, key))]
        && value == (if s.popped.None? then None else s.popped.value.result)
    {
      var s := Consume(Tally(getHeaderMapValue, expectCount), allowUnexpected);
      getHeaderMapValue, expectCount := s.after.queue, s.after.balance;
      value := if s.popped.None? then None else s.popped.value.result;
      var status := if s.popped.None? then Unexpected else StatusOf(HeaderLookupMatches(s.popped.value, mapType, key));
      Report(status);
    }

    /** `set_expect_replace_header_map_value`: expect a header replacement: map type, key and value. */
    method SetExpectReplaceHeaderMapValue(mapType: Field<I32>, key: Field<string>, value: Field<string>)
      requires Valid()
      modifies this`replaceHeaderMapValue, this`expectCount, this`enqueued
      ensures Valid()
      ensures Tally(replaceHeaderMapValue, expectCount) == Enqueue(old(Tally(replaceHeaderMapValue, expectCount)), HeaderEntry(mapType, key, value))
    {
      replaceHeaderMapValue, expectCount := replaceHeaderMapValue + [HeaderEntry(mapType, key, value)], expectCount + 1;
      enqueued := enqueued + 1;
    }

    /** `get_expect_replace_header_map_value`: a header value was replaced. */
    method GetExpectReplaceHeaderMapValue(mapType: I32, key: string, value: string)
      requires Valid()
      modifies this`replaceHeaderMapValue, this`expectCount, this`reported, this`compared, this`unexpected
      ensures Valid()
      ensures var s := Consume(old(Tally(replaceHeaderMapValue, expectCount)), allowUnexpected);
        Tally(replaceHeaderMapValue, expectCount) == s.after &&
        reported == old(reported) + [if s.popped.None? then Unexpected else StatusOf(HeaderEntryMatches(s.popped.value, mapType, key, value))]
    {
      var s := Consume(Tally(replaceHeaderMapValue, expectCount), allowUnexpected);
      replaceHeaderMapValue, expectCount := s.after.queue, s.after.balance;
      var status := if s.popped.None? then Unexpected else StatusOf(HeaderEntryMatches(s.popped.value, mapType, key, value));
      Report(status);
    }

    /** `set_expect_remove_header_map_value`: expect a header removal: map type and key. */
    method SetExpectRemoveHeaderMapValue(mapType: Field<I32>, key: Field<string>)
      requires Valid()
      modifies this`removeHeaderMapValue, this`expectCount, this`enqueued
      ensures Valid()
      ensures Tally(removeHeaderMapValue, expectCount) == Enqueue(old(Tally(removeHeaderMapValue, expectCount)), HeaderKey(mapType, key))
    {
      removeHeaderMapValue, expectCount := removeHeaderMapValue + [HeaderKey(mapType, key)], expectCount + 1;
      enqueued := enqueued + 1;
    }

    /** `get_expect_remove_header_map_value`: a header value was removed. */
    method GetExpectRemoveHeaderMapValue(mapType: I32, key: string)
      requires Valid()
      modifies this`removeHeaderMapValue, this`expectCount, this`reported, this`compared, this`unexpected
      ensures Valid()
      ensures var s := Consume(old(Tally(removeHeaderMapValue, expectCount)), allowUnexpected);
        Tally(removeHeaderMapValue, expectCount) == s.after &&
        reported == old(reported) + [if s.popped.None? then Unexpected else StatusOf(HeaderKeyMatches(s.popped.value, mapType, key))]
    {
      var s := Consume(Tally(removeHeaderMapValue, expectCount), allowUnexpected);
      removeHeaderMapValue, expectCount := s.after.queue, s.after.balance;
      var status := if s.popped.None? then Unexpected else StatusOf(HeaderKeyMatches(s.popped.value, mapType, key));
      Report(status);
    }

    /** `set_expect_add_header_map_value`: expect a header addition: map type, key and value. */
    method SetExpectAddHeaderMapValue(mapType: Field<I32>, key: Field<string>, value: Field<string>)
      requires Valid()
      modifies this`addHeaderMapValue, this`expectCount, this`enqueued
      ensures Valid()
      ensures Tally(addHeaderMapValue, expectCount) == Enqueue(old(Tally(addHeaderMapValue, expectCount)), HeaderEntry(mapType, key, value))
    {
      addHeaderMapValue, expectCount := addHeaderMapValue + [HeaderEntry(mapType, key, value)], expectCount + 1;
      enqueued := enqueued + 1;
    }

    /** `get_expect_add_header_map_value`: a header value was added. */
    method GetExpectAddHeaderMapValue(mapType: I32, key: string, value: string)
      requires Valid()
      modifies this`addHeaderMapValue, this`expectCount, this`reported, this`compared, this`unexpected
      ensures Valid()
      ensures var s := Consume(old(Tally(addHeaderMapValue, expectCount)), allowUnexpected);
        Tally(addHeaderMapValue, expectCount) == s.after &&
        reported == old(reported) + [if s.popped.None? then Unexpected else StatusOf(HeaderEntryMatches(s.popped.value, mapType, key, value))]
    {
      var s := Consume(Tally(addHeaderMapValue, expectCount), allowUnexpected);
      addHeaderMapValue, expectCount := s.after.queue, s.after.balance;
      var status := if s.popped.None? then Unexpected else StatusOf(HeaderEntryMatches(s.popped.value, mapType, key, value));
      Report(status);
    }

    /** `set_expect_send_local_response`: expect a local response: status code, body, encoded headers, gRPC status. */
    method SetExpectSendLocalResponse(statusCode: Field<I32>, body: Field<string>, headers: Field<Bytes>, grpcStatus: Field<I32>)
      requires Valid()
      modifies this`sendLocalResponse, this`expectCount, this`enqueued
      ensures Valid()
      ensures Tally(sendLocalResponse, expectCount) == Enqueue(old(Tally(sendLocalResponse, expectCount)), LocalResponse(statusCode, body, headers, grpcStatus))
    {
      sendLocalResponse, expectCount := sendLocalResponse + [LocalResponse(statusCode, body, headers, grpcStatus)], expectCount + 1;
      enqueued := enqueued + 1;
    }

    /** `get_expect_send_local_response`: a local response was sent. An absent body is compared as "default". */
    method GetExpectSendLocalResponse(statusCode: I32, body: Option<string>, headers: Bytes, grpcStatus: I32)
      requires Valid()
      modifies this`sendLocalResponse, this`expectCount, this`reported, this`compared, this`unexpected
      ensures Valid()
      ensures var s := Consume(old(Tally(sendLocalResponse, expectCount)), allowUnexpected);
        Tally(sendLocalResponse, expectCount) == s.after &&
        reported == old(reported) + [if s.popped.None? then Unexpected else StatusOf(LocalResponseMatches(s.popped.value, statusCode, body, headers, grpcStatus))]
    {
      var s := Consume(Tally(sendLocalResponse, expectCount), allowUnexpected);
      sendLocalResponse, expectCount := s.after.queue, s.after.balance;
      var status := if s.popped.None? then Unexpected else StatusOf(LocalResponseMatches(s.popped.value, statusCode, body, headers, grpcStatus));
      Report(status);
    }

    /** `set_expect_http_call`: expect an outbound call: upstream, encoded headers, body, encoded trailers,
        timeout in milliseconds, and the token id to return. */
    method SetExpectHttpCall(upstream: Field<string>, headers: Field<Bytes>, body: Field<string>, trailers: Field<Bytes>, timeoutMillis: Field<U64>, tokenId: Option<U32>)
      requires Valid()
      modifies this`httpCall, this`expectCount, this`enqueued
      ensures Valid()
      ensures Tally(httpCall, expectCount) == Enqueue(old(Tally(httpCall, expectCount)), HttpCall(upstream, headers, body, trailers, timeoutMillis, tokenId))
    {
      httpCall, expectCount := httpCall + [HttpCall(upstream, headers, body, trailers, timeoutMillis, tokenId)], expectCount + 1;
      enqueued := enqueued + 1;
    }

    /** `get_expect_http_call`: an outbound call was made. An absent body is compared as "default"; the
        stored timeout is compared after `as i32`; the stored token id is returned. */
    method GetExpectHttpCall(upstream: string, headers: Bytes, body: Option<string>, trailers: Bytes, timeout: I32) returns (tokenId: Option<U32>)
      requires Valid()
      modifies this`httpCall, this`expectCount, this`reported, this`compared, this`unexpected
      ensures Valid()
      ensures var s := Consume(old(Tally(httpCall, expectCount)), allowUnexpected);
        Tally(httpCall, expectCount) == s.after &&
        reported == old(reported) + [if s.popped.None? then Unexpected else StatusOf(HttpCallMatches(s.popped.value, upstream, headers, body, trailers, timeout))]
        && tokenId == (if s.popped.None? then None else s.popped.value.tokenId)
    {
      var s := Consume(Tally(httpCall, expectCount), allowUnexpected);
      httpCall, expectCount := s.after.queue, s.after.balance;
      tokenId := if s.popped.None? then None else s.popped.value.tokenId;
      var status := if s.popped.None? then Unexpected else StatusOf(HttpCallMatches(s.popped.value, upstream, headers, body, trailers, timeout));
      Report(status);
    }

    /** `set_expect_metric_create`: expect a metric definition: metric type and name, both concrete. */
    method SetExpectMetricCreate(metricType: I32, name: string)
      requires Valid()
      modifies this`metricsCreate, this`expectCount, this`enqueued
      ensures Valid()
      ensures Tally(metricsCreate, expectCount) == Enqueue(old(Tally(metricsCreate, expectCount)), MetricCreate(metricType, name))
    {
      metricsCreate, expectCount := metricsCreate + [MetricCreate(metricType, name)], expectCount + 1;
      enqueued := enqueued + 1;
    }

    /** `get_expect_metric_create`: a metric was defined; the stored pair must equal the actual one. */
    method GetExpectMetricCreate(metricType: I32, name: string)
      requires Valid()
      modifies this`metricsCreate, this`expectCount, this`reported, this`compared, this`unexpected
      ensures Valid()
      ensures var s := Consume(old(Tally(metricsCreate, expectCount)), allowUnexpected);
        Tally(metricsCreate, expectCount) == s.after &&
        reported == old(reported) + [if s.popped.None? then Unexpected else StatusOf(s.popped.value == MetricCreate(metricType, name))]
    {
      var s := Consume(Tally(metricsCreate, expectCount), allowUnexpected);
      metricsCreate, expectCount := s.after.queue, s.after.balance;
      var status := if s.popped.None? then Unexpected else StatusOf(s.popped.value == MetricCreate(metricType, name));
      Report(status);
    }

    /** `set_expect_metric_increment`: expect a metric increment: metric id and offset, both concrete. */
    method SetExpectMetricIncrement(metricId: I32, offset: I64)
      requires Valid()
      modifies this`metricsIncrement, this`expectCount, this`enqueued
      ensures Valid()
      ensures Tally(metricsIncrement, expectCount) == Enqueue(old(Tally(metricsIncrement, expectCount)), MetricIncrement(metricId, offset))
    {
      metricsIncrement, expectCount := metricsIncrement + [MetricIncrement(metricId, offset)], expectCount + 1;
      enqueued := enqueued + 1;
    }

    /** `get_expect_metric_increment`: a metric was incremented; the stored pair must equal the actual one. */
    method GetExpectMetricIncrement(metricId: I32, offset: I64)
      requires Valid()
      modifies this`metricsIncrement, this`expectCount, this`reported, this`compared, this`unexpected
      ensures Valid()
      ensures var s := Consume(old(Tally(metricsIncrement, expectCount)), allowUnexpected);
        Tally(metricsIncrement, expectCount) == s.after &&
        reported == old(reported) + [if s.popped.None? then Unexpected else StatusOf(s.popped.value == MetricIncrement(metricId, offset))]
    {
      var s := Consume(Tally(metricsIncrement, expectCount), allowUnexpected);
      metricsIncrement, expectCount := s.after.queue, s.after.balance;
      var status := if s.popped.None? then Unexpected else StatusOf(s.popped.value == MetricIncrement(metricId, offset));
      Report(status);
    }

    /** `set_expect_metric_record`: expect a metric record: metric id and value, both concrete. */
    method SetExpectMetricRecord(metricId: I32, value: U64)
      requires Valid()
      modifies this`metricsRecord, this`expectCount, this`enqueued
      ensures Valid()
      ensures Tally(metricsRecord, expectCount) == Enqueue(old(Tally(metricsRecord, expectCount)), MetricValue(metricId, value))
    {
      metricsRecord, expectCount := metricsRecord + [MetricValue(metricId, value)], expectCount + 1;
      enqueued := enqueued + 1;
    }

    /** `get_expect_metric_record`: a metric value was recorded; the stored pair must equal the actual one. */
    method GetExpectMetricRecord(metricId: I32, value: U64)
      requires Valid()
      modifies this`metricsRecord, this`expectCount, this`reported, this`compared, this`unexpected
      ensures Valid()
      ensures var s := Consume(old(Tally(metricsRecord, expectCount)), allowUnexpected);
        Tally(metricsRecord, expectCount) == s.after &&
        reported == old(reported) + [if s.popped.None? then Unexpected else StatusOf(s.popped.value == MetricValue(metricId, value))]
    {
      var s := Consume(Tally(metricsRecord, expectCount), allowUnexpected);
      metricsRecord, expectCount := s.after.queue, s.after.balance;
      var status := if s.popped.None? then Unexpected else StatusOf(s.popped.value == MetricValue(metricId, value));
      Report(status);
    }

    /** `set_expect_metric_get`: expect a metric read: metric id and value, both concrete. */
    method SetExpectMetricGet(metricId: I32, value: U64)
      requires Valid()
      modifies this`metricsGet, this`expectCount, this`enqueued
      ensures Valid()
      ensures Tally(metricsGet, expectCount) == Enqueue(old(Tally(metricsGet, expectCount)), MetricValue(metricId, value))
    {
      metricsGet, expectCount := metricsGet + [MetricValue(metricId, value)], expectCount + 1;
      enqueued := enqueued + 1;
    }

    /** `get_expect_metric_get`: a metric was read; the stored pair must equal the actual one. */
    method GetExpectMetricGet(metricId: I32, value: U64)
      requires Valid()
      modifies this`metricsGet, this`expectCount, this`reported, this`compared, this`unexpected
      ensures Valid()
      ensures var s := Consume(old(Tally(metricsGet, expectCount)), allowUnexpected);
        Tally(metricsGet, expectCount) == s.after &&
        reported == old(reported) + [if s.popped.None? then Unexpected else StatusOf(s.popped.value == MetricValue(metricId, value))]
    {
      var s := Consume(Tally(metricsGet, expectCount), allowUnexpected);
      metricsGet, expectCount := s.after.queue, s.after.balance;
      var status := if s.popped.None? then Unexpected else StatusOf(s.popped.value == MetricValue(metricId, value));
      Report(status);
    }
  }

  /** How many times `x` occurs in `s`. */
  function Occurrences(s: seq<ExpectStatus>, x: ExpectStatus): nat {
    if s == [] then 0 else Occurrences(s[..|s| - 1], x) + (if s[|s| - 1] == x then 1 else 0)
  }

  /** The verdict of `assert_stage`: the source panics on the two imbalances. */
  datatype StageVerdict =
    | Balanced
    | Remaining(remaining: nat)   // "failed to consume all expectations"
    | Unaccounted(excess: nat)    // "expectations failed to account for all host calls"

  /** `ExpectHandle`: owns the one staged ledger. */
  class ExpectHandle {
    var staged: Expect

    ghost predicate Valid()
      reads this, staged
    {
      staged.Valid()
    }

    /** `ExpectHandle::new`: a strict, empty ledger. */
    constructor ()
      ensures Valid() && fresh(staged)
      ensures !staged.allowUnexpected && staged.Drained()
      ensures staged.expectCount == 0 && staged.reported == []
    {
      staged := new Expect(false);
    }

    /** `update_stage`: discard the staged ledger, whatever it still holds, and install
        a fresh empty one in the requested mode. */
    method UpdateStage(allowUnexpected: bool)
      modifies this
      ensures Valid() && fresh(staged)
      ensures staged.allowUnexpected == allowUnexpected && staged.Drained()
      ensures staged.expectCount == 0 && staged.reported == []
    {
      staged := new Expect(allowUnexpected);
    }

    /** `assert_stage`: passes exactly on a zero balance; a positive balance is that many
        expectations left unconsumed, a negative one that many calls nothing expected. */
    function AssertStage(): (v: StageVerdict)
      reads this, staged
      ensures v == Balanced <==> staged.expectCount == 0
      ensures v.Remaining? <==> staged.expectCount > 0
      ensures v.Remaining? ==> v.remaining == staged.expectCount
      ensures v.Unaccounted? ==> v.excess == -staged.expectCount
    {
      if staged.expectCount > 0 then Remaining(staged.expectCount)
      else if staged.expectCount < 0 then Unaccounted(-1 * staged.expectCount)
      else Balanced
    }
  }
}
