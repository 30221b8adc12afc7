# llm-sdk chat core in Dafny

This project models the chat-completion core of `llm-sdk`, a Rust client for OpenAI-compatible chat APIs, and proves properties of the model. It has two layers:

- **The data model and its wire shape** (`src/api/chat_completion.rs`). This covers the message union tagged by `role`, the request with its omit-when-unset fields, the tool and tool-call records, and the enums with their serde names. It also covers the model names with their `Other` fallback, the constructors `new`, `new_with_tools`, `new_system`, `new_user`, `get_name` and `Tool::new_function`, and the response records.
  - Serialisation is a total function into a small JSON value (`JsonValue.Value`) whose object members keep serde's output order.
  - Decoders are written as reference inverses so that round trips can be proved.
- **The request pipeline** (`src/lib.rs`). This covers:
  - the builder defaults;
  - `prepare_request`: a bearer token only when the token is non-empty, and a 60 s timeout;
  - the status test of `send_and_log`;
  - the `stream` assertions of `chat_completion` and `chat_stream`;
  - the `chat_stream` loop: each chunk of the body is split on blank lines, the `data: ` payloads are kept except empty ones and `[DONE]`, each payload is parsed, and the callback receives every parsed frame in order.

Files:

| file | module | contents |
|---|---|---|
| `wrappers.dfy` | `Wrappers` | `Option` and `Result` |
| `json.dfy` | `JsonValue` | the JSON value, key lookup, and serde's skip-if-absent members |
| `chat_completion.dfy` | `ChatCompletion` | the data model, its encoders and decoders, and the request encoding |
| `stream_frames.dfy` | `StreamFrames` | `str::split`, `strip_prefix` and the payload filter for one chunk |
| `sdk.dfy` | `Sdk` | builder, `prepare_request`, `send_and_log`, entry points, and the delivery loop |

Some external pieces are function parameters that may fail:

- the HTTP transport (`send`);
- UTF-8 decoding (`utf8`);
- `serde_json` parsing of a stream frame (`parse`);
- parsing of a completion body (`decode`).

A Rust panic (`assert!`, or `unwrap` on a failed decode) is the outcome `Sdk.SdkError.Panicked`. An `anyhow` error is one of the other `SdkError` variants. The callback is an out-parameter, `delivered`: the sequence of values the callback receives.

In some places the code behaves differently from what its comments or a reader might expect. The model follows the code:

- **No buffering across chunks.** Each chunk of the byte stream is decoded, split and parsed on its own, so a frame cut in two by the network is not reassembled. The first piece yields a truncated payload, which then has to parse. The second piece carries no `data: ` prefix and yields nothing (`StreamFrames.SplitFrameNotReassembled`).
- **`[DONE]` does not stop anything.** It is filtered out like an empty payload. Later segments of the same chunk and later chunks are still decoded. The loop ends only when the byte stream ends (`StreamFrames.SentinelDoesNotStop`, `Sdk.SentinelChunkContinues`).
- **A bad chunk panics.** A chunk that is not UTF-8, or any payload that does not parse, panics. This ends the call after the earlier chunks were delivered, and nothing of the failing chunk is delivered: the chunk's payloads are collected before the callback runs.
- **`Err` chunks are dropped silently** (`Sdk.ErrChunkSkipped`).
- **Assistant content `None` is written as `null`.** `AssistantMessage.content` has no skip attribute, so an absent content is sent as `"content": null`, unlike `name` and `tool_calls`.
- **`ChatResponseFormat::Json` is written as `"json"`.** The field's doc comment speaks of `{ "type": "json_object" }`, but `rename_all = "snake_case"` writes `"json"`.

## Model

| member | source | states |
|---|---|---|
| JsonValue.OptMember | src/api/chat_completion.rs:189-190 | a `skip_serializing_if = "Option::is_none"` field contributes its key exactly when the value is `Some`, and then holds that value |
| JsonValue.PresentMembersLookup | src/api/chat_completion.rs:16-18 | among fields with distinct keys, looking up a field's key in the written object gives the field's value when set and nothing when unset |
| JsonValue.PresentMembersNone | src/api/chat_completion.rs:16-18 | when no skippable field is set, none of them is written |
| JsonValue.PresentMembersDistinct | src/api/chat_completion.rs:16-18 | leaving out unset fields never makes two written members share a key |
| ChatCompletion.ParseToolType | src/api/chat_completion.rs:254-258 | the only tool-type name is `"function"` |
| ChatCompletion.ParseFinishReason | src/api/chat_completion.rs:326-333 | a reason parsed from a string has that string as its snake_case name |
| ChatCompletion.FinishReasonRoundTrip | src/api/chat_completion.rs:326-333 | a string parses to reason `f` if and only if it is `f`'s snake_case name (`stop`, `length`, `content_filter`, `tool_calls`) |
| ChatCompletion.ModelName | src/api/chat_completion.rs:149-181 | a named model is written as one of the seven rename strings, and `Other(s)` is written as `s` itself (untagged) |
| ChatCompletion.ParseModel | src/api/chat_completion.rs:149-182 | a model name decodes to `Other` exactly when it is none of the seven rename strings |
| ChatCompletion.ParseModelThenName | src/api/chat_completion.rs:149-182 | decoding any string as a model and writing it back gives the same string |
| ChatCompletion.ModelNameThenParse | src/api/chat_completion.rs:149-182 | writing a model and decoding it gives the model back unless it is an `Other` spelling a known name; a named model is written as a known name |
| ChatCompletion.DefaultModelName | src/api/chat_completion.rs:150-154 | the default model is written `gpt-3.5-turbo-1106` and that name decodes to the default |
| ChatCompletion.EncodeToolChoice | src/api/chat_completion.rs:78-87 | `None` and `Auto` are written as strings and only `Function` as an object |
| ChatCompletion.ToolChoiceInjective | src/api/chat_completion.rs:78-87 | different tool choices are written differently |
| ChatCompletion.ToolChoiceAutoIsAuto | src/api/chat_completion.rs:78-82 | `Auto` is written `"auto"` and `None` is written `"none"` |
| ChatCompletion.EncodeResponseFormat | src/api/chat_completion.rs:107-110 | a response format is an object with the single key `"type"` |
| ChatCompletion.ResponseFormatWire | src/api/chat_completion.rs:112-120 | `Json` is written `{"type": "json"}` and `Text` is written `{"type": "text"}`, as `rename_all = "snake_case"` gives |
| ChatCompletion.ResponseFormatInjective | src/api/chat_completion.rs:107-120 | two response formats are written alike exactly when they are equal |
| ChatCompletion.NewFunctionTool | src/api/chat_completion.rs:389-404 | `new_function` gives a tool of type `Function` carrying the name, the description and the schema unchanged |
| ChatCompletion.NewFunctionToolShape | src/api/chat_completion.rs:89-105 | such a tool is written with `"type": "function"` and a `"function"` object of description, name and parameters |
| ChatCompletion.EncodeTool | src/api/chat_completion.rs:89-95 | a tool is an object with exactly the keys `"type"` and `"function"`, in that order |
| ChatCompletion.EncodeToolInjective | src/api/chat_completion.rs:89-105 | two tools are written alike exactly when they are equal, so the type, description, name and schema all reach the wire |
| ChatCompletion.EncodeFunctionCall | src/api/chat_completion.rs:233-239 | a function call is written with exactly the keys `"name"` and `"arguments"` |
| ChatCompletion.EncodeToolCall | src/api/chat_completion.rs:223-231 | a tool call is written with exactly the keys `"id"`, `"type"` and `"function"` |
| ChatCompletion.DecodeFunctionCall | src/api/chat_completion.rs:233-239 | decoding succeeds if and only if `"name"` and `"arguments"` are both string members, and the call takes both from them |
| ChatCompletion.DecodeToolCall | src/api/chat_completion.rs:223-239 | decoding succeeds if and only if `"id"` is a string, `"type"` is `"function"` and `"function"` decodes as a function call; the id and the call come from those members |
| ChatCompletion.DecodeToolCalls | src/api/chat_completion.rs:210-212 | decoding a list succeeds if and only if every element decodes, and keeps length and order |
| ChatCompletion.ToolCallRoundTrip | src/api/chat_completion.rs:223-239 | decoding a written tool call gives it back |
| ChatCompletion.ToolCallsRoundTrip | src/api/chat_completion.rs:210-212 | decoding a written list of tool calls gives the list back |
| ChatCompletion.GetName | src/api/chat_completion.rs:380-386 | the name is absent exactly when the given string is empty, and is otherwise that string |
| ChatCompletion.NewSystem | src/api/chat_completion.rs:366-371 | `new_system` gives a `System` message with the content, and the name set exactly when it is non-empty |
| ChatCompletion.NewUser | src/api/chat_completion.rs:373-378 | `new_user` gives a `User` message with the content, and the name set exactly when it is non-empty |
| ChatCompletion.RoleName | src/api/chat_completion.rs:122-133 | the role tag is `system`, `user`, `assistant` or `tool` exactly for the variant of that name |
| ChatCompletion.MessageBody | src/api/chat_completion.rs:184-221 | every body starts with `content`; an assistant's absent content is `null`; a system or user body has at most a `name` besides; a tool body ends with `tool_call_id` |
| ChatCompletion.EncodeMessage | src/api/chat_completion.rs:122-133 | a message is one object whose first member is `"role"` with the variant's snake_case name, beside the body fields |
| ChatCompletion.MessageKeysExact | src/api/chat_completion.rs:184-221 | a message object has exactly the keys its variant's fields and skip attributes give, in field order |
| ChatCompletion.MessageKeysDistinct | src/api/chat_completion.rs:122-133 | no key of a message object repeats, so the role tag never collides with a body field |
| ChatCompletion.NameKeyIffSet | src/api/chat_completion.rs:184-200 | a system or user message has a `"name"` key exactly when its name is set, and the key holds that name |
| ChatCompletion.ConstructedNameKey | src/api/chat_completion.rs:366-386 | a message from `new_system` or `new_user` has a `"name"` key exactly when the given name is non-empty, and never an empty name |
| ChatCompletion.DecodeAssistantMessage | src/api/chat_completion.rs:202-213 | an assistant object without `"tool_calls"` decodes with an empty tool-call list (`#[serde(default)]`) |
| ChatCompletion.DecodeMessage | src/api/chat_completion.rs:122-133 | a decoded message's variant is the one the `"role"` member names |
| ChatCompletion.MessageRoundTrip | src/api/chat_completion.rs:122-221 | decoding a written message of any variant gives it back |
| ChatCompletion.NamedRoundTrip | src/api/chat_completion.rs:184-200 | the content and the optional name of a system or user message are recovered from its object |
| ChatCompletion.AssistantRoundTrip | src/api/chat_completion.rs:202-213 | decoding a written assistant message gives it back |
| ChatCompletion.AssistantFields | src/api/chat_completion.rs:204-209 | an assistant's content is recovered whether present or `null`, and its name whether present or skipped |
| ChatCompletion.AssistantToolCalls | src/api/chat_completion.rs:210-212 | `"tool_calls"` is present exactly when the list is non-empty, and holds the written calls |
| ChatCompletion.NewRequest | src/api/chat_completion.rs:342-349 | `new` sets the model and messages, an empty tool list and no optional field |
| ChatCompletion.NewRequestWithTools | src/api/chat_completion.rs:351-362 | `new_with_tools` differs from `new` only in the tool list |
| ChatCompletion.OptTools | src/api/chat_completion.rs:61-64 | the tool list is written exactly when it is non-empty |
| ChatCompletion.EncodeRequest | src/api/chat_completion.rs:7-14 | a request object starts with `"messages"` and `"model"`, holding the written messages and the model name |
| ChatCompletion.RequestKeysDistinct | src/api/chat_completion.rs:7-73 | the fifteen request keys are pairwise different |
| ChatCompletion.RequestObjectDistinct | src/api/chat_completion.rs:7-73 | whichever fields are set, no key of a written request repeats |
| ChatCompletion.RequestOptionalField | src/api/chat_completion.rs:15-72 | each skippable field's key is present exactly when the field is set (for `tools`, non-empty), and holds its encoding |
| ChatCompletion.RequestFieldValues | src/api/chat_completion.rs:7-73 | looking up each of the fifteen keys gives the corresponding field's encoding, or nothing when unset |
| ChatCompletion.RequestFieldPresence | src/api/chat_completion.rs:7-73 | `"messages"` and `"model"` are always present and every other key is present if and only if its field is set |
| ChatCompletion.NewRequestEncoding | src/api/chat_completion.rs:342-349 | a request from `new` is written with `messages` and `model` only |
| ChatCompletion.NewRequestWithToolsEncoding | src/api/chat_completion.rs:351-362 | a request from `new_with_tools` adds exactly a `tools` member, and only for a non-empty list |
| ChatCompletion.NewRequestWithToolChoiceEncoding | src/api/chat_completion.rs:65-68 | setting only the tool choice adds exactly a `tool_choice` member after `messages` and `model` |
| ChatCompletion.TestMessagesShape | src/api/chat_completion.rs:493-500 | the test's system message has no `name` key and its user message has `"name": "user1"` |
| ChatCompletion.SimpleRequestShape | src/api/chat_completion.rs:483-503 | the request of the serialisation test is written as the object the test expects |
| ChatCompletion.ToolRequestShape | src/api/chat_completion.rs:505-541 | the request with two tools is written as the object the test expects, for any generated schemas |
| ChatCompletion.IntoRequest | src/api/chat_completion.rs:335-340 | a chat request is a POST to the base URL followed by `/chat/completions`, with the written request as body |
| StreamFrames.FindGap | src/lib.rs:98 | the delimiter found is a blank line and no blank line comes before it |
| StreamFrames.SplitFrames | src/lib.rs:98 | `split` always yields at least one piece; what the pieces are is stated by the lemmas below |
| StreamFrames.SplitFramesJoin | src/lib.rs:98 | the pieces, joined with the delimiter, give back the chunk text |
| StreamFrames.SplitFramesLeftmost | src/lib.rs:98 | no piece contains a blank line, and no piece but the last ends in a newline: the delimiters are matched leftmost first |
| StreamFrames.SplitFramesAppend | src/lib.rs:98 | splitting `a`, a delimiter, then `b` gives the pieces of `a` followed by those of `b` when `a` does not end in a newline |
| StreamFrames.SplitFramesNoDelimiter | src/lib.rs:98 | text without a blank line is a single piece |
| StreamFrames.StripPrefix | src/lib.rs:99 | the prefix is removed exactly when the text starts with it, and the rest follows it |
| StreamFrames.SegmentPayload | src/lib.rs:99-100 | a kept payload is the segment minus `data: `, and is neither empty nor `[DONE]` |
| StreamFrames.SegmentPayloadOf | src/lib.rs:99-100 | the segment `data: p` yields exactly `p` unless `p` is empty or `[DONE]` |
| StreamFrames.Payloads | src/lib.rs:99-100 | no more payloads than segments, none empty and none `[DONE]` |
| StreamFrames.Frames | src/lib.rs:98-100 | a chunk yields at most as many payloads as it has segments |
| StreamFrames.PayloadsMembership | src/lib.rs:99-100 | a string is a payload if and only if it is kept and `data: ` followed by it is a segment |
| StreamFrames.FramesMembership | src/lib.rs:98-100 | a string is among a chunk's payloads if and only if it is kept and `data: ` followed by it is a piece of the chunk |
| StreamFrames.PayloadsAppend | src/lib.rs:99-102 | the filter works segment by segment, so payload order follows segment order |
| StreamFrames.FramesAppend | src/lib.rs:98-102 | two texts joined by a delimiter yield the payloads of the first followed by those of the second |
| StreamFrames.SingleFrame | src/lib.rs:98-100 | one `data: ` frame holding no blank line yields exactly its payload |
| StreamFrames.SentinelFrame | src/lib.rs:100 | the frame `data: [DONE]` yields nothing |
| StreamFrames.SentinelDoesNotStop | src/lib.rs:100 | after `data: [DONE]` and a delimiter, the rest of the chunk yields what it would on its own |
| StreamFrames.SplitFrameNotReassembled | src/lib.rs:96-102 | a frame split across two chunks yields its truncated first part from the first chunk and nothing from the second |
| StreamFrames.SplitFrameExample | src/lib.rs:96-102 | `data: {"id"` then `:1}` and a blank line yield `{"id"` and nothing |
| Sdk.DefaultClient | src/lib.rs:46-50 | the client's retry policy takes the builder's bound when set and 3 otherwise |
| Sdk.Build | src/lib.rs:22-33 | building fails exactly when no token was given; the base URL defaults to `https://api.openai.com/v1`, the retry bound to 3, and the client uses the recorded bound |
| Sdk.New | src/lib.rs:62-64 | `new` never fails and gives the default base URL, the token and 3 retries |
| Sdk.NewWithBaseUrl | src/lib.rs:66-72 | `new_with_base_url` never fails and gives the base URL, the token and 3 retries |
| Sdk.PrepareRequest | src/lib.rs:141-149 | the call goes to the base URL's `/chat/completions` with the encoded request; a bearer token is attached exactly when the token is non-empty; the timeout is 60 s |
| Sdk.SendAndLog | src/lib.rs:156-167 | the response passes exactly when it arrived and its status is outside 400-599, and is then unchanged; otherwise the error carries the transport error or `API failed: ` and the body |
| Sdk.CompletionAllowed | src/lib.rs:78 | `chat_completion` accepts a request exactly when `stream` is unset or `false` |
| Sdk.StreamAllowed | src/lib.rs:89 | `chat_stream` accepts a request exactly when `stream` is `Some(true)` |
| Sdk.StreamFlagExclusive | src/lib.rs:78-89 | every request is accepted by exactly one of the two entry points |
| Sdk.StreamFlagOnWire | src/lib.rs:89-90 | a streaming request is sent with `"stream": true`, and a non-streaming one without `stream` or with `false` |
| Sdk.Complete | src/lib.rs:74-82 | the call panics exactly when the flag check fails, and succeeds exactly when the flag check, the send, the status and the body decoding all succeed, returning the decoded body; a failed send gives its error and a body that does not decode gives `Decode` |
| Sdk.ParsePayloads | src/lib.rs:101-102 | parsing succeeds if and only if every payload parses, giving the responses in payload order; otherwise it reports the first payload that does not |
| Sdk.DecodeChunk | src/lib.rs:96-102 | a chunk panics when it is not UTF-8 or one of its payloads does not parse, and otherwise yields one response per payload, in order; once the text is UTF-8, a panic names a payload of the chunk that does not parse |
| Sdk.Step | src/lib.rs:93-106 | after a panic, and on an `Err` chunk, nothing changes; a new panic comes from an `Ok` chunk, is never the flag panic, and delivers nothing of that chunk |
| Sdk.RunChunks | src/lib.rs:93-106 | no run over the chunks ends with the flag panic: the loop panics only on bad UTF-8 or a frame that does not parse |
| Sdk.RunChunksAppend | src/lib.rs:104-106 | the run over two stretches of chunks is the first run followed by the second, unless the first panicked |
| Sdk.RunChunksIsDeliverAll | src/lib.rs:93-106 | step-by-step delivery equals decoding the `Ok` chunks front to back and concatenating their responses, stopping at the first panic |
| Sdk.RunChunksAbortStays | src/lib.rs:97-101 | after a panic, further chunks change nothing |
| Sdk.DeliveredGrows | src/lib.rs:104-106 | a response handed to the callback is never taken back: what a prefix of the stream delivered begins what any longer stream delivers |
| Sdk.ErrChunkSkipped | src/lib.rs:95 | an `Err` chunk leaves the run as if it had never arrived |
| Sdk.SentinelChunkContinues | src/lib.rs:100-106 | a chunk holding only the `[DONE]` event delivers nothing, and the chunks after it are still delivered |
| Sdk.SentinelChunkEmpty | src/lib.rs:96-102 | a chunk holding only the `[DONE]` event decodes to no response |
| Sdk.EmptyChunkSkipped | src/lib.rs:104-106 | an `Ok` chunk that decodes to no response leaves the run as if it had never arrived |
| Sdk.Emit | src/lib.rs:105 | the callback receives one chunk's responses, each once, in order |
| Sdk.DeliverChunks | src/lib.rs:93-106 | the loop delivers exactly the responses, and ends with exactly the panic, that the chunk-by-chunk run gives |
| Sdk.ChatStream | src/lib.rs:84-108 | a failed flag check panics and a failed send returns its error, with nothing delivered; otherwise the callback receives the run's responses, and the call succeeds exactly when no chunk panicked |

## Left out

- The HTTP transport, the middleware stack, tracing and the `error!` log are not modelled. They are I/O and foreign libraries; `send` is a parameter returning a status, a body text and a chunk stream.
- Retry and backoff are not modelled. They live in `reqwest_retry` and in `src/middleware`, and `src/middleware` is not part of this model. Only the configured bound (`max_retries`, default 3) is recorded, on the client.
- Deserialisation and UTF-8 decoding are parameters, and the timeout is only recorded, not enforced. Deserialisation covers `serde_json::from_str` for stream frames and `res.json()` for completions. Only decoding of the messages and tool calls that the SDK also writes is modelled, as reference inverses. Duplicate keys, unknown fields and other JSON spellings are left out.
- JSON Schema generation (`ToSchema`, `schema_for!`) is left out. A tool's `parameters` is a value the caller supplies.
- `f32` fields are opaque 32-bit patterns, because only their presence matters for the request shape. serde_json writing a non-finite float as `null` is not modelled.
- `usize` is taken to be 64 bits wide.
- ChatCompletion.EncodeToolChoice: the contract does not state the `Function { name }` object shape. A TODO in the source says the current shape is wrong, and the only test of it is ignored. The body writes serde's externally tagged form.
- ChatCompletion.DecodeAssistantMessage: states only the object requirement and the tool-call default. The full inverse property is `AssistantRoundTrip`.
- The async runtime, `futures` combinators and the side effects of the `FnMut` callback are not modelled. The callback is the sequence of values it receives.
- The other endpoints (`create_image`, `speech`, `whisper`, `embedding`) are not modelled. Their request and response types are not part of this model.
- The strum `Display` and `EnumString` names are not modelled. Serialisation does not use them.
- Response records (`ChatCompletionResponse`, `ChatStreamResponse` and their parts) are datatypes only. They are produced by the `decode` and `parse` parameters.
- Builder setters and `Option<T>` builder fields are values of `Sdk.LlmSdkBuilder` updated directly. `LlmSdkBuilder::default()` is `Sdk.EmptyBuilder`.
