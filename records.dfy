/** The expectation record of every call kind and the comparison its consumer runs
    against the actual arguments. Positions of type `Field` may be wildcards; result
    positions (`Option`) are stubs handed back to the caller and never compared. */
module Records {
  import opened Types

  /** `log_message`: level and message. */
  datatype LogExpectation = LogExpectation(level: Field<I32>, message: Field<string>)

  /** `get_buffer_bytes` and `get_header_map_pairs`: the buffer or map type to compare
      and the bytes to return. Header-map pairs arrive already encoded. */
  datatype BytesStub = BytesStub(kind: Field<I32>, result: Option<Bytes>)

  /** `set_buffer_bytes` and `set_header_map_pairs`: type and bytes, both compared. */
  datatype BytesExpectation = BytesExpectation(kind: Field<I32>, bytes: Field<Bytes>)

  /** `get_header_map_value`: map type and key compared, value returned. */
  datatype HeaderLookup = HeaderLookup(mapType: Field<I32>, key: Field<string>, result: Option<string>)

  /** `replace_header_map_value` and `add_header_map_value`: all three compared. */
  datatype HeaderEntry = HeaderEntry(mapType: Field<I32>, key: Field<string>, value: Field<string>)

  /** `remove_header_map_value`: map type and key. */
  datatype HeaderKey = HeaderKey(mapType: Field<I32>, key: Field<string>)

  /** `send_local_response`: status code, body, encoded headers, gRPC status. */
  datatype LocalResponse =
    LocalResponse(statusCode: Field<I32>, body: Field<string>, headers: Field<Bytes>, grpcStatus: Field<I32>)

  /** `http_call`: upstream, encoded headers, body, encoded trailers and the timeout in
      milliseconds are compared; the token id is returned. */
  datatype HttpCall = HttpCall(
    upstream: Field<string>, headers: Field<Bytes>, body: Field<string>,
    trailers: Field<Bytes>, timeoutMillis: Field<U64>, tokenId: Option<U32>)

  /** The metric kinds store concrete tuples only: no position is a wildcard. */
  datatype MetricCreate = MetricCreate(metricType: I32, name: string)
  datatype MetricIncrement = MetricIncrement(metricId: I32, offset: I64)
  datatype MetricValue = MetricValue(metricId: I32, value: U64)

  predicate LogMatches(e: LogExpectation, level: I32, message: string)
    ensures LogMatches(e, level, message) <==>
      (e.level.Exact? ==> e.level.value == level) &&
      (e.message.Exact? ==> e.message.value == message)
  {
    Agrees(e.level, level) && Agrees(e.message, message)
  }

  /** The tick period is stored as a `Duration` built from milliseconds and read back
      with `as_millis`, which returns the same number. */
  predicate TickMatches(e: Field<U64>, periodMillis: U128)
    ensures TickMatches(e, periodMillis) <==> (e.Exact? ==> e.value == periodMillis)
  {
    Agrees<int>(e, periodMillis)
  }

  /** Only the type takes part; the stored bytes are the stub result. */
  predicate BytesStubMatches(e: BytesStub, kind: I32)
    ensures BytesStubMatches(e, kind) <==> (e.kind.Exact? ==> e.kind.value == kind)
  {
    Agrees(e.kind, kind)
  }

  predicate BytesMatches(e: BytesExpectation, kind: I32, bytes: Bytes)
    ensures BytesMatches(e, kind, bytes) <==>
      (e.kind.Exact? ==> e.kind.value == kind) &&
      (e.bytes.Exact? ==> e.bytes.value == bytes)
  {
    Agrees(e.kind, kind) && Agrees(e.bytes, bytes)
  }

  /** The type comparison `get_expect_set_header_map_pairs` runs on the front record
      before it decides whether to remove it; it holds vacuously on an empty queue. */
  predicate FrontKindAgrees(q: seq<BytesExpectation>, kind: I32)
    ensures FrontKindAgrees(q, kind) <==> q == [] || (q[0].kind.Exact? ==> q[0].kind.value == kind)
    ensures forall bytes: Bytes :: q != [] && BytesMatches(q[0], kind, bytes) ==> FrontKindAgrees(q, kind)
  {
    q == [] || Agrees(q[0].kind, kind)
  }

  /** Only map type and key take part; the stored value is the stub result. */
  predicate HeaderLookupMatches(e: HeaderLookup, mapType: I32, key: string)
    ensures HeaderLookupMatches(e, mapType, key) <==>
      (e.mapType.Exact? ==> e.mapType.value == mapType) &&
      (e.key.Exact? ==> e.key.value == key)
  {
    Agrees(e.mapType, mapType) && Agrees(e.key, key)
  }

  predicate HeaderEntryMatches(e: HeaderEntry, mapType: I32, key: string, value: string)
    ensures HeaderEntryMatches(e, mapType, key, value) <==>
      (e.mapType.Exact? ==> e.mapType.value == mapType) &&
      (e.key.Exact? ==> e.key.value == key) &&
      (e.value.Exact? ==> e.value.value == value)
  {
    Agrees(e.mapType, mapType) && Agrees(e.key, key) && Agrees(e.value, value)
  }

  predicate HeaderKeyMatches(e: HeaderKey, mapType: I32, key: string)
    ensures HeaderKeyMatches(e, mapType, key) <==>
      (e.mapType.Exact? ==> e.mapType.value == mapType) &&
      (e.key.Exact? ==> e.key.value == key)
  {
    Agrees(e.mapType, mapType) && Agrees(e.key, key)
  }

  /** The body an absent actual body is compared as: `body.unwrap_or("default")`. */
  function BodyOrDefault(body: Option<string>): string {
    match body
    case None => "default"
    case Some(b) => b
  }

  predicate LocalResponseMatches(e: LocalResponse, statusCode: I32, body: Option<string>, headers: Bytes, grpcStatus: I32)
    ensures LocalResponseMatches(e, statusCode, body, headers, grpcStatus) <==>
      (e.statusCode.Exact? ==> e.statusCode.value == statusCode) &&
      (e.body.Exact? ==> (body.None? && e.body.value == "default") || body == Some(e.body.value)) &&
      (e.headers.Exact? ==> e.headers.value == headers) &&
      (e.grpcStatus.Exact? ==> e.grpcStatus.value == grpcStatus)
  {
    Agrees(e.statusCode, statusCode) && Agrees(e.body, BodyOrDefault(body)) &&
    Agrees(e.headers, headers) && Agrees(e.grpcStatus, grpcStatus)
  }

  /** The stored timeout as the consumer sees it: `as_millis() as i32`. */
  function TimeoutAsI32(f: Field<U64>): Field<I32> {
    match f
    case Wildcard => Wildcard
    case Exact(ms) => Exact(AsI32(ms))
  }

  predicate HttpCallMatches(e: HttpCall, upstream: string, headers: Bytes, body: Option<string>, trailers: Bytes, timeout: I32)
    ensures HttpCallMatches(e, upstream, headers, body, trailers, timeout) <==>
      (e.upstream.Exact? ==> e.upstream.value == upstream) &&
      (e.headers.Exact? ==> e.headers.value == headers) &&
      (e.body.Exact? ==> (body.None? && e.body.value == "default") || body == Some(e.body.value)) &&
      (e.trailers.Exact? ==> e.trailers.value == trailers) &&
      (e.timeoutMillis.Exact? ==> AsI32(e.timeoutMillis.value) == timeout)
  {
    Agrees(e.upstream, upstream) && Agrees(e.headers, headers) &&
    Agrees(e.body, BodyOrDefault(body)) && Agrees(e.trailers, trailers) &&
    Agrees(TimeoutAsI32(e.timeoutMillis), timeout)
  }

  /** The timeout position of an http call expectation agrees with `timeout` exactly
      when the stored milliseconds are congruent to it modulo 2^32. */
  lemma {:induction false} TimeoutAgreesModulo2To32(f: Field<U64>, timeout: I32)
    ensures Agrees(TimeoutAsI32(f), timeout) <==> (f.Exact? ==> (f.value - timeout) % TWO_TO_32 == 0)
  {
    if f.Exact? {
      AsI32Congruence(f.value, timeout);
    }
  }
}
