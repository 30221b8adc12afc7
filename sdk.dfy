/** The request pipeline of `LlmSdk` (src/lib.rs): the builder and its
    defaults, `prepare_request`, the status test of `send_and_log`, the
    stream-flag checks of the two chat entry points, and the loop of
    `chat_stream` that hands every parsed SSE frame to the callback.

    The HTTP transport, UTF-8 decoding and JSON deserialisation are not
    modelled: they are function parameters (`send`, `utf8`, `parse`,
    `decode`) that may fail. A Rust panic (`assert!`, `unwrap`) is the
    outcome `Panicked`; an `anyhow` error is one of the other `SdkError`s. */
module Sdk {
  import opened Wrappers
  import opened JsonValue
  import opened ChatCompletion
  import opened StreamFrames

  newtype byte = x: int | 0 <= x < 256

  type U32 = x: nat | x < 0x1_0000_0000

  /** `http::StatusCode` holds a three-digit code. */
  type StatusCode = s: int | 100 <= s <= 999 witness 200

  /** `TIMEOUT`, in seconds. */
  const TimeoutSecs: nat := 60
  /** `MAX_RETRIES`. */
  const MaxRetries: U32 := 3
  const DefaultBaseUrl: string := "https://api.openai.com/v1"

  /** The middleware client, reduced to the retry bound its policy was built with. */
  datatype Client = Client(maxRetries: U32)

  datatype LlmSdk = LlmSdk(baseUrl: string, token: string, maxRetries: U32, client: Client)

  /** `LlmSdkBuilder`: every field starts unset. */
  datatype LlmSdkBuilder = LlmSdkBuilder(baseUrl: Option<string>, token: Option<string>, maxRetries: Option<U32>)

  /** `LlmSdkBuilder::default()`. */
  const EmptyBuilder: LlmSdkBuilder := LlmSdkBuilder(Option.None, Option.None, Option.None)

  datatype BuildError = UninitializedField(field: string)

  /** `LlmSdkBuilder::default_client`: the retry policy takes the builder's
      own bound when one was set, and `MAX_RETRIES` otherwise. */
  function DefaultClient(b: LlmSdkBuilder): (c: Client)
    ensures b.maxRetries.Some? ==> c.maxRetries == b.maxRetries.value
    ensures b.maxRetries.None? ==> c.maxRetries == 3
  {
    Client(b.maxRetries.UnwrapOr(MaxRetries))
  }

  /** `LlmSdkBuilder::build`: only the token is required; the base URL and
      the retry bound fall back to their defaults, and the client is built
      with the same retry bound the SDK records. */
  function Build(b: LlmSdkBuilder): (r: Result<LlmSdk, BuildError>)
    ensures r.Success? <==> b.token.Some?
    ensures r.Failure? ==> r.error == UninitializedField("token")
    ensures r.Success? ==> r.value.token == b.token.value
    ensures r.Success? ==> r.value.baseUrl == if b.baseUrl.Some? then b.baseUrl.value else DefaultBaseUrl
    ensures r.Success? ==> r.value.maxRetries == if b.maxRetries.Some? then b.maxRetries.value else 3
    ensures r.Success? ==> r.value.client.maxRetries == r.value.maxRetries
  {
    if b.token.None? then Failure(UninitializedField("token"))
    else
      Success(LlmSdk(b.baseUrl.UnwrapOr(DefaultBaseUrl), b.token.value,
                     b.maxRetries.UnwrapOr(MaxRetries), DefaultClient(b)))
  }

  /** `LlmSdk::new`: the `unwrap` never fails, because the token is set. */
  function New(token: string): (sdk: LlmSdk)
    ensures Build(EmptyBuilder.(token := Some(token))) == Success(sdk)
    ensures sdk == LlmSdk(DefaultBaseUrl, token, 3, Client(3))
  {
    Build(EmptyBuilder.(token := Some(token))).value
  }

  /** `LlmSdk::new_with_base_url`: as `new`, with the given base URL. */
  function NewWithBaseUrl(token: string, baseUrl: string): (sdk: LlmSdk)
    ensures Build(EmptyBuilder.(token := Some(token), baseUrl := Some(baseUrl))) == Success(sdk)
    ensures sdk == LlmSdk(baseUrl, token, 3, Client(3))
  {
    Build(EmptyBuilder.(token := Some(token), baseUrl := Some(baseUrl))).value
  }

  /** A request ready to send: the POST call, the client that sends it, the
      bearer token when one is attached, and the timeout. */
  datatype PreparedRequest = PreparedRequest(call: PostCall, client: Client, bearer: Option<string>, timeoutSecs: nat)

  /** `LlmSdk::prepare_request` for a chat-completion request. */
  function PrepareRequest(sdk: LlmSdk, req: ChatCompletionRequest): (p: PreparedRequest)
    ensures p.call.url == sdk.baseUrl + "/chat/completions"
    ensures p.call.body == EncodeRequest(req)
    ensures p.client == sdk.client
    ensures p.bearer.Some? <==> sdk.token != ""
    ensures p.bearer.Some? ==> p.bearer.value == sdk.token
    ensures p.timeoutSecs == 60
  {
    var call := IntoRequest(req, sdk.baseUrl);
    var bearer := if sdk.token == "" then Option.None else Some(sdk.token);
    PreparedRequest(call, sdk.client, bearer, TimeoutSecs)
  }

  /** One item of the response byte stream. */
  datatype Chunk = ChunkErr | ChunkOk(bytes: seq<byte>)

  /** What the transport returns: the status, the body read as text (`None`
      when reading it fails), and the body as a stream of chunks. */
  datatype HttpResponse = HttpResponse(status: StatusCode, text: Option<string>, chunks: seq<Chunk>)

  datatype TransportError = TransportError(message: string)

  /** Why a call panicked instead of returning. */
  datatype PanicReason =
    | StreamFlagMismatch        // `assert!` on `stream`
    | InvalidUtf8               // `String::from_utf8(..).unwrap()`
    | MalformedFrame(payload: string)  // `serde_json::from_str(..).unwrap()`

  datatype SdkError =
    | Transport(cause: TransportError)
    | ApiFailed(message: string)
    | BodyUnreadable
    | Decode
    | Panicked(reason: PanicReason)

  predicate IsClientError(s: StatusCode) { 400 <= s < 500 }
  predicate IsServerError(s: StatusCode) { 500 <= s < 600 }

  /** `send_and_log`: a transport error is passed on; a status from 400 to
      599 becomes an error carrying the body text; any other response is
      returned unchanged. */
  function SendAndLog(sent: Result<HttpResponse, TransportError>): (r: Result<HttpResponse, SdkError>)
    ensures r.Success? <==> sent.Success? && !(400 <= sent.value.status <= 599)
    ensures r.Success? ==> r.value == sent.value
    ensures sent.Failure? ==> r == Failure(Transport(sent.error))
    ensures sent.Success? && 400 <= sent.value.status <= 599 ==>
              r == if sent.value.text.Some? then Failure(ApiFailed("API failed: " + sent.value.text.value))
                   else Failure(BodyUnreadable)
  {
    if sent.Failure? then Failure(Transport(sent.error))
    else
      var res := sent.value;
      if IsClientError(res.status) || IsServerError(res.status) then
        if res.text.None? then Failure(BodyUnreadable)
        else Failure(ApiFailed("API failed: " + res.text.value))
      else Success(res)
  }

  /** `chat_completion` asserts `!req.stream.unwrap_or_default()`. */
  function CompletionAllowed(req: ChatCompletionRequest): (ok: bool)
    ensures ok <==> req.stream == Option.None || req.stream == Some(false)
  {
    !req.stream.UnwrapOr(false)
  }

  /** `chat_stream` asserts `req.stream.unwrap_or_default()`. */
  function StreamAllowed(req: ChatCompletionRequest): (ok: bool)
    ensures ok <==> req.stream == Some(true)
  {
    req.stream.UnwrapOr(false)
  }

  /** Every request is accepted by exactly one of the two entry points. */
  lemma StreamFlagExclusive(req: ChatCompletionRequest)
    ensures CompletionAllowed(req) != StreamAllowed(req)
  {
  }

  /** A request that passes the streaming check is sent with `"stream": true`;
      one that passes the other check is sent without `stream` or with `false`. */
  lemma StreamFlagOnWire(sdk: LlmSdk, req: ChatCompletionRequest)
    ensures StreamAllowed(req) ==> Get(PrepareRequest(sdk, req).call.body, "stream") == Some(JBool(true))
    ensures CompletionAllowed(req) ==>
              Get(PrepareRequest(sdk, req).call.body, "stream") in {Option.None, Some(JBool(false))}
  {
    RequestOptionalField(req, 7);
  }

  /** `LlmSdk::chat_completion`: the flag check happens before anything is
      sent; then the prepared request is sent, classified, and its body
      decoded. */
  function Complete(sdk: LlmSdk, req: ChatCompletionRequest,
                    send: PreparedRequest -> Result<HttpResponse, TransportError>,
                    decode: HttpResponse -> Option<ChatCompletionResponse>): (r: Result<ChatCompletionResponse, SdkError>)
    ensures r == Failure(Panicked(StreamFlagMismatch)) <==> !CompletionAllowed(req)
    ensures r.Success? <==>
              CompletionAllowed(req) && SendAndLog(send(PrepareRequest(sdk, req))).Success?
              && decode(send(PrepareRequest(sdk, req)).value).Some?
    ensures r.Success? ==> Some(r.value) == decode(send(PrepareRequest(sdk, req)).value)
    ensures CompletionAllowed(req) && SendAndLog(send(PrepareRequest(sdk, req))).Failure? ==>
              r == Failure(SendAndLog(send(PrepareRequest(sdk, req))).error)
    ensures CompletionAllowed(req) && SendAndLog(send(PrepareRequest(sdk, req))).Success? &&
            decode(send(PrepareRequest(sdk, req)).value).None? ==>
              r == Failure(Decode)
  {
    if !CompletionAllowed(req) then Failure(Panicked(StreamFlagMismatch))
    else
      var res := SendAndLog(send(PrepareRequest(sdk, req)));
      if res.Failure? then Failure(res.error)
      else
        var body := decode(res.value);
        if body.None? then Failure(Decode) else Success(body.value)
  }

  /** The `map(from_str(..).unwrap())` and `collect` over a chunk's payloads:
      either every payload parses and the responses come in payload order,
      or the first payload that does not parse is reported. */
  function ParsePayloads(ps: seq<string>, parse: string -> Option<ChatStreamResponse>): (r: Result<seq<ChatStreamResponse>, nat>)
    ensures r.Success? <==> forall i :: 0 <= i < |ps| ==> parse(ps[i]).Some?
    ensures r.Success? ==> |r.value| == |ps|
    ensures r.Success? ==> forall i :: 0 <= i < |ps| ==> parse(ps[i]) == Some(r.value[i])
    ensures r.Failure? ==> r.error < |ps| && parse(ps[r.error]).None?
    ensures r.Failure? ==> forall j :: 0 <= j < r.error ==> parse(ps[j]).Some?
  {
    if ps == [] then Success([])
    else
      var head := parse(ps[0]);
      if head.None? then Failure(0)
      else
        var rest := ParsePayloads(ps[1..], parse);
        if rest.Failure? then
          assert forall j :: 1 <= j < rest.error + 1 ==> parse(ps[j]) == parse(ps[1..][j - 1]);
          Failure(rest.error + 1)
        else
          assert forall i :: 1 <= i < |ps| ==> ps[i] == ps[1..][i - 1];
          Success([head.value] + rest.value)
  }

  /** What happens to one `Ok` chunk. */
  datatype ChunkOutcome = Decoded(responses: seq<ChatStreamResponse>) | Aborted(reason: PanicReason)

  /** The body of the stream's `map`: decode the bytes as UTF-8, extract the
      payloads and parse each one; any failure panics. */
  function DecodeChunk(bytes: seq<byte>, utf8: seq<byte> -> Option<string>,
                       parse: string -> Option<ChatStreamResponse>): (o: ChunkOutcome)
    ensures utf8(bytes).None? ==> o == Aborted(InvalidUtf8)
    ensures o.Decoded? <==> utf8(bytes).Some? && forall i :: 0 <= i < |Frames(utf8(bytes).value)| ==> parse(Frames(utf8(bytes).value)[i]).Some?
    ensures o.Decoded? ==> |o.responses| == |Frames(utf8(bytes).value)|
    ensures o.Decoded? ==> forall i :: 0 <= i < |o.responses| ==> parse(Frames(utf8(bytes).value)[i]) == Some(o.responses[i])
    ensures utf8(bytes).Some? && o.Aborted? ==> o.reason.MalformedFrame?
    ensures o.Aborted? && o.reason.MalformedFrame? ==>
              utf8(bytes).Some? && o.reason.payload in Frames(utf8(bytes).value) && parse(o.reason.payload).None?
  {
    var text := utf8(bytes);
    if text.None? then Aborted(InvalidUtf8)
    else
      var ps := Frames(text.value);
      var parsed := ParsePayloads(ps, parse);
      if parsed.Failure? then Aborted(MalformedFrame(ps[parsed.error]))
      else Decoded(parsed.value)
  }

  /** The observable result of running the stream: the responses handed to
      the callback, in order, and the panic that ended the run, if any. */
  datatype StreamRun = StreamRun(delivered: seq<ChatStreamResponse>, aborted: Option<PanicReason>)

  /** One turn of `while let Some(r) = stream.next()`: an `Err` chunk is
      filtered out; an `Ok` chunk either delivers all its responses or
      panics. Nothing happens after a panic. */
  function Step(run: StreamRun, c: Chunk, utf8: seq<byte> -> Option<string>,
                parse: string -> Option<ChatStreamResponse>): (r: StreamRun)
    ensures run.aborted.Some? || c.ChunkErr? ==> r == run
    ensures run.aborted.None? && r.aborted.Some? ==>
              c.ChunkOk? && r.delivered == run.delivered && r.aborted.value != StreamFlagMismatch
  {
    if run.aborted.Some? || c.ChunkErr? then run
    else
      var o := DecodeChunk(c.bytes, utf8, parse);
      if o.Aborted? then StreamRun(run.delivered, Some(o.reason))
      else StreamRun(run.delivered + o.responses, Option.None)
  }

  /** The run over a prefix of the stream, one chunk after another. */
  function RunChunks(chunks: seq<Chunk>, utf8: seq<byte> -> Option<string>,
                     parse: string -> Option<ChatStreamResponse>): (r: StreamRun)
    ensures r.aborted != Some(StreamFlagMismatch)
    decreases |chunks|
  {
    if chunks == [] then StreamRun([], Option.None)
    else Step(RunChunks(chunks[..|chunks| - 1], utf8, parse), chunks[|chunks| - 1], utf8, parse)
  }

  /** Running one stretch of the stream after another: the second stretch
      only counts when the first did not panic. */
  function Then(first: StreamRun, second: StreamRun): StreamRun {
    if first.aborted.Some? then first
    else StreamRun(first.delivered + second.delivered, second.aborted)
  }

  lemma StepThen(x: StreamRun, y: StreamRun, c: Chunk, utf8: seq<byte> -> Option<string>,
                 parse: string -> Option<ChatStreamResponse>)
    ensures Step(Then(x, y), c, utf8, parse) == Then(x, Step(y, c, utf8, parse))
  {
    if x.aborted.None? && y.aborted.None? && c.ChunkOk? {
      var o := DecodeChunk(c.bytes, utf8, parse);
      if o.Decoded? {
        assert x.delivered + y.delivered + o.responses == x.delivered + (y.delivered + o.responses);
      }
    }
  }

  /** The stream splits at any point: the run over `a + b` is the run over
      `a`, followed by the run over `b` unless `a` panicked. */
  lemma {:induction false} RunChunksAppend(a: seq<Chunk>, b: seq<Chunk>, utf8: seq<byte> -> Option<string>,
                                           parse: string -> Option<ChatStreamResponse>)
    ensures RunChunks(a + b, utf8, parse) == Then(RunChunks(a, utf8, parse), RunChunks(b, utf8, parse))
    decreases |b|
  {
    if b == [] {
      assert a + b == a;
      assert RunChunks(a, utf8, parse).delivered + [] == RunChunks(a, utf8, parse).delivered;
    } else {
      var last := b[|b| - 1];
      var b' := b[..|b| - 1];
      assert (a + b)[..|a + b| - 1] == a + b';
      assert (a + b)[|a + b| - 1] == last;
      RunChunksAppend(a, b', utf8, parse);
      StepThen(RunChunks(a, utf8, parse), RunChunks(b', utf8, parse), last, utf8, parse);
    }
  }

  /** The bytes of the `Ok` chunks, in arrival order. */
  function OkBytes(chunks: seq<Chunk>): (bs: seq<seq<byte>>)
    ensures |bs| <= |chunks|
  {
    if chunks == [] then []
    else if chunks[0].ChunkErr? then OkBytes(chunks[1..])
    else [chunks[0].bytes] + OkBytes(chunks[1..])
  }

  /** A reference reading of the loop: decode the `Ok` chunks front to back,
      concatenating their responses, and stop at the first panic. */
  function DeliverAll(texts: seq<seq<byte>>, utf8: seq<byte> -> Option<string>,
                      parse: string -> Option<ChatStreamResponse>): StreamRun
  {
    if texts == [] then StreamRun([], Option.None)
    else
      var o := DecodeChunk(texts[0], utf8, parse);
      if o.Aborted? then StreamRun([], Some(o.reason))
      else
        var rest := DeliverAll(texts[1..], utf8, parse);
        StreamRun(o.responses + rest.delivered, rest.aborted)
  }

  /** One `Ok` chunk run from the start, followed by the reference reading
      of the remaining chunks, is the reference reading of them all. */
  lemma DeliverAllCons(b: seq<byte>, texts: seq<seq<byte>>, utf8: seq<byte> -> Option<string>,
                       parse: string -> Option<ChatStreamResponse>)
    ensures Then(Step(StreamRun([], Option.None), ChunkOk(b), utf8, parse), DeliverAll(texts, utf8, parse))
            == DeliverAll([b] + texts, utf8, parse)
  {
    var all := [b] + texts;
    assert all[0] == b && all[1..] == texts;
    var o := DecodeChunk(b, utf8, parse);
    if o.Decoded? {
      assert [] + o.responses == o.responses;
    }
  }

  lemma RunOne(c: Chunk, utf8: seq<byte> -> Option<string>, parse: string -> Option<ChatStreamResponse>)
    ensures RunChunks([c], utf8, parse) == Step(StreamRun([], Option.None), c, utf8, parse)
  {
    assert [c][..0] == [];
  }

  /** The chunk-by-chunk run agrees with the reference reading: `Err`
      chunks contribute nothing, responses come in chunk order and, within
      a chunk, in frame order, and a panic ends the run. */
  lemma {:induction false} RunChunksIsDeliverAll(chunks: seq<Chunk>, utf8: seq<byte> -> Option<string>,
                                                 parse: string -> Option<ChatStreamResponse>)
    ensures RunChunks(chunks, utf8, parse) == DeliverAll(OkBytes(chunks), utf8, parse)
  {
    if chunks != [] {
      var c := chunks[0];
      var rest := chunks[1..];
      assert chunks == [c] + rest;
      RunChunksAppend([c], rest, utf8, parse);
      RunChunksIsDeliverAll(rest, utf8, parse);
      RunOne(c, utf8, parse);
      var tail := RunChunks(rest, utf8, parse);
      if c.ChunkOk? {
        assert OkBytes(chunks) == [c.bytes] + OkBytes(rest);
        DeliverAllCons(c.bytes, OkBytes(rest), utf8, parse);
      } else {
        assert OkBytes(chunks) == OkBytes(rest);
        assert [] + tail.delivered == tail.delivered;
      }
    }
  }

  /** The callback never has a response taken back: what the run over a
      prefix delivered is a prefix of what any longer run delivers. */
  lemma DeliveredGrows(a: seq<Chunk>, b: seq<Chunk>, utf8: seq<byte> -> Option<string>,
                       parse: string -> Option<ChatStreamResponse>)
    ensures RunChunks(a, utf8, parse).delivered <= RunChunks(a + b, utf8, parse).delivered
  {
    RunChunksAppend(a, b, utf8, parse);
  }

  /** A chunk that arrives as an error is skipped, not treated as a failure:
      the run is the same as if it had never arrived. */
  lemma ErrChunkSkipped(a: seq<Chunk>, b: seq<Chunk>, utf8: seq<byte> -> Option<string>,
                        parse: string -> Option<ChatStreamResponse>)
    ensures RunChunks(a + [ChunkErr] + b, utf8, parse) == RunChunks(a + b, utf8, parse)
  {
    RunChunksAppend(a + [ChunkErr], b, utf8, parse);
    RunChunksAppend(a, [ChunkErr], utf8, parse);
    RunChunksAppend(a, b, utf8, parse);
    assert [ChunkErr][..0] == [];
    var ra := RunChunks(a, utf8, parse);
    assert ra.delivered + [] == ra.delivered;
  }

  /** The `[DONE]` event does not end the stream: a chunk holding only it
      delivers nothing, and the chunks after it are still decoded. */
  lemma SentinelChunkContinues(a: seq<Chunk>, bytes: seq<byte>, b: seq<Chunk>,
                               utf8: seq<byte> -> Option<string>,
                               parse: string -> Option<ChatStreamResponse>)
    requires utf8(bytes) == Some(DataPrefix + Sentinel + Delimiter)
    ensures RunChunks(a + [ChunkOk(bytes)] + b, utf8, parse) == RunChunks(a + b, utf8, parse)
  {
    SentinelChunkEmpty(bytes, utf8, parse);
    EmptyChunkSkipped(a, bytes, b, utf8, parse);
  }

  /** A chunk holding only the `[DONE]` event decodes to no response. */
  lemma SentinelChunkEmpty(bytes: seq<byte>, utf8: seq<byte> -> Option<string>,
                           parse: string -> Option<ChatStreamResponse>)
    requires utf8(bytes) == Some(DataPrefix + Sentinel + Delimiter)
    ensures DecodeChunk(bytes, utf8, parse) == Decoded([])
  {
    var done := DataPrefix + Sentinel;
    assert done[|done| - 1] == ']';
    FramesAppend(done, "");
    SentinelFrame();
    assert Frames("") == [] by { assert !(DataPrefix <= ""); }
    assert done + Delimiter + "" == DataPrefix + Sentinel + Delimiter;
  }

  /** An `Ok` chunk that decodes to no response leaves the run as it was. */
  lemma EmptyChunkSkipped(a: seq<Chunk>, bytes: seq<byte>, b: seq<Chunk>,
                          utf8: seq<byte> -> Option<string>,
                          parse: string -> Option<ChatStreamResponse>)
    requires DecodeChunk(bytes, utf8, parse) == Decoded([])
    ensures RunChunks(a + [ChunkOk(bytes)] + b, utf8, parse) == RunChunks(a + b, utf8, parse)
  {
    RunChunksAppend(a + [ChunkOk(bytes)], b, utf8, parse);
    RunChunksAppend(a, [ChunkOk(bytes)], utf8, parse);
    RunChunksAppend(a, b, utf8, parse);
    RunOne(ChunkOk(bytes), utf8, parse);
    var ra := RunChunks(a, utf8, parse);
    assert ra.delivered + [] == ra.delivered;
  }

  /** `r.iter().for_each(&mut f)`: the callback receives each response of
      one chunk, in order. */
  method Emit(delivered: seq<ChatStreamResponse>, rs: seq<ChatStreamResponse>)
    returns (after: seq<ChatStreamResponse>)
    ensures after == delivered + rs
  {
    after := delivered;
    for j := 0 to |rs|
      invariant after == delivered + rs[..j]
    {
      after := after + [rs[j]];
    }
    assert rs[..|rs|] == rs;
  }

  /** The run over one more chunk is one more `Step`. */
  lemma RunChunksSnoc(chunks: seq<Chunk>, i: nat, utf8: seq<byte> -> Option<string>,
                      parse: string -> Option<ChatStreamResponse>)
    requires i < |chunks|
    ensures RunChunks(chunks[..i + 1], utf8, parse) == Step(RunChunks(chunks[..i], utf8, parse), chunks[i], utf8, parse)
  {
    assert chunks[..i + 1][..i] == chunks[..i];
  }

  /** After a panic the rest of the stream changes nothing. */
  lemma RunChunksAbortStays(chunks: seq<Chunk>, i: nat, utf8: seq<byte> -> Option<string>,
                            parse: string -> Option<ChatStreamResponse>)
    requires i <= |chunks| && RunChunks(chunks[..i], utf8, parse).aborted.Some?
    ensures RunChunks(chunks, utf8, parse) == RunChunks(chunks[..i], utf8, parse)
  {
    RunChunksAppend(chunks[..i], chunks[i..], utf8, parse);
    assert chunks[..i] + chunks[i..] == chunks;
  }

  /** The delivery loop of `chat_stream`: `delivered` is the sequence of
      callback arguments, and `aborted` the panic that stopped the loop. */
  method DeliverChunks(chunks: seq<Chunk>, utf8: seq<byte> -> Option<string>,
                       parse: string -> Option<ChatStreamResponse>)
    returns (delivered: seq<ChatStreamResponse>, aborted: Option<PanicReason>)
    ensures StreamRun(delivered, aborted) == RunChunks(chunks, utf8, parse)
  {
    delivered := [];
    aborted := Option.None;
    var i := 0;
    while i < |chunks| && aborted.None?
      invariant 0 <= i <= |chunks|
      invariant StreamRun(delivered, aborted) == RunChunks(chunks[..i], utf8, parse)
    {
      RunChunksSnoc(chunks, i, utf8, parse);
      if chunks[i].ChunkOk? {
        var o := DecodeChunk(chunks[i].bytes, utf8, parse);
        if o.Aborted? {
          aborted := Some(o.reason);
        } else {
          delivered := Emit(delivered, o.responses);
        }
      }
      i := i + 1;
    }
    if i < |chunks| {
      RunChunksAbortStays(chunks, i, utf8, parse);
    } else {
      assert chunks[..i] == chunks;
    }
  }

  /** `LlmSdk::chat_stream`: `delivered` is what the callback receives. The
      flag check and `send_and_log` come first; after that the call ends
      when the byte stream does, and succeeds unless a chunk panicked. */
  method ChatStream(sdk: LlmSdk, req: ChatCompletionRequest,
                    send: PreparedRequest -> Result<HttpResponse, TransportError>,
                    utf8: seq<byte> -> Option<string>,
                    parse: string -> Option<ChatStreamResponse>)
    returns (delivered: seq<ChatStreamResponse>, r: Result<(), SdkError>)
    ensures !StreamAllowed(req) ==> delivered == [] && r == Failure(Panicked(StreamFlagMismatch))
    ensures StreamAllowed(req) && SendAndLog(send(PrepareRequest(sdk, req))).Failure? ==>
              delivered == [] && r == Failure(SendAndLog(send(PrepareRequest(sdk, req))).error)
    ensures StreamAllowed(req) && SendAndLog(send(PrepareRequest(sdk, req))).Success? ==>
              var run := RunChunks(send(PrepareRequest(sdk, req)).value.chunks, utf8, parse);
              delivered == run.delivered
              && (r.Success? <==> run.aborted.None?)
              && (run.aborted.Some? ==> r == Failure(Panicked(run.aborted.value)))
  {
    if !StreamAllowed(req) {
      return [], Failure(Panicked(StreamFlagMismatch));
    }
    var res := SendAndLog(send(PrepareRequest(sdk, req)));
    if res.Failure? {
      return [], Failure(res.error);
    }
    var aborted;
    delivered, aborted := DeliverChunks(res.value.chunks, utf8, parse);
    if aborted.Some? {
      r := Failure(Panicked(aborted.value));
    } else {
      r := Success(());
    }
  }
}
