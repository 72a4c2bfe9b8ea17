# winston-slack, modelled in Dafny

This is a Dafny model of the decision logic in `winston-slack`. That package is a
Winston transport that posts log lines to a Slack incoming webhook. The model has
three modules:

- `JsBuiltins` (`js_builtins.dfy`) holds the JavaScript behaviour the transport relies on:
  - truthiness and `||`;
  - ASCII `toUpperCase`;
  - the decimal form of a status code in a template literal;
  - `split`/`join` with a fixed separator, proved equal to an independent "replace
    every occurrence" definition.
- `WinstonSlack` (`winston_slack.dfy`) models `lib/winston-slack.ts`:
  - the option and payload records;
  - the class `SlackLogger`. Its `Create` method validates the options. `Log` builds
    the text, merges the payload and returns the POST request it would make.
    `HandleResponse` turns the HTTP client's answer into a trace of events: the
    `'logged'` emit, the callback call, or the `TypeError` thrown when there is no
    callback to call;
  - the pure functions these methods are proved against: `DefaultText`, `Merge`,
    `ResponseEvents`.
- `WinstonSlackFormatter` (`winston_slack_formatter.dfy`) models
  `lib/winston-slack-formatter.ts`. It has the per-entry rewrite `RewriteFrame`, the
  `map` over the stack `RewriteStack`, and the in-place update of a record's `stack`
  field `Format`, on the class `Info`.

Points of the code's behaviour worth noting:

- the default text is `[*LEVEL*] msg`: the upper-cased level sits between asterisks inside the brackets;
- a per-call field overrides the default only when it is truthy, so a per-call `false`
  or empty string falls back to the default;
- a missing response counts as delivered;
- only the transport-error path checks that a callback was given;
- no field-dump formatting exists in the code, so none is modelled.

## Model

| member | source | states |
|---|---|---|
| WinstonSlack.SlackLogger.Create | lib/winston-slack.ts:54-67 | Missing options fail with "A configuration must be provided". A missing or empty `webhook_url` fails with "Configuration must include webhook_url". Construction succeeds exactly when neither happens. The new logger then keeps the options unchanged, holds a webhook URL, and `handleExceptions` is the truthiness of the option. |
| WinstonSlack.SlackLogger.constructor | lib/winston-slack.ts:65-66 | Runs only for options with a truthy webhook URL, as lines 57-63 guarantee, and leaves a valid logger. Stores the options as given. Sets `handleExceptions` to the truthiness of `config.handleExceptions`. |
| WinstonSlack.SlackLogger.Log | lib/winston-slack.ts:69-110 | Posts to the configured webhook URL with content type `application/json`. With a custom formatter, the body is the formatter's payload merged with the defaults, so its text is exactly the formatter's text. Without one, the body is the default text merged with the defaults. |
| WinstonSlack.DefaultText | lib/winston-slack.ts:76-88 | The text always starts with `[*` + upper-cased level + `*] ` + msg. The fenced trace follows exactly when meta is an Error and serialisation returns text that is neither empty nor `{}`. Otherwise the text is the header line alone, and that covers a serialisation that throws. |
| WinstonSlack.DefaultTextTrace | lib/winston-slack.ts:78-87 | Reading the fence back out of the default text gives the serialised error exactly when a trace is appended, and nothing otherwise. |
| WinstonSlack.HeaderIgnoresLevelCase | lib/winston-slack.ts:76 | The header is the same whether the level is given in lower case or already upper-cased. |
| WinstonSlack.Merge | lib/winston-slack.ts:94-104 | The text is always the per-call text and never a config value. Each of the eight other fields is the per-call value when that is truthy, otherwise the config default. An empty array of attachments counts as truthy. |
| WinstonSlack.MergeFalsyKeepsDefault | lib/winston-slack.ts:95-103 | For each field on its own, a per-call `false` flag (`link_names`, `unfurl_links`, `unfurl_media`) or empty string (`channel`, `username`, `icon_url`, `icon_emoji`) cannot override the configured default. |
| WinstonSlack.MergeIdempotent | lib/winston-slack.ts:94-104 | Merging the resulting payload with the same defaults again leaves it unchanged. |
| WinstonSlack.MergeTextOnlyTakesDefaults | lib/winston-slack.ts:91-104 | With the default strategy, every field except the text is the config default. |
| WinstonSlack.StatusMessage | lib/winston-slack.ts:117 | The error message starts with "Unexpected status code from Slack API: ". The status code can be read back from the rest of the message. |
| WinstonSlack.ResponseEvents | lib/winston-slack.ts:111-122 | With a callback given, it is called exactly once. A transport error is passed through unchanged. A status other than 200 gives an error naming the code. Otherwise the callback gets `null`. With a callback, nothing is thrown, and an error outcome produces the callback call alone. Without a callback, a `TypeError` is thrown exactly when there is no transport error. `'logged'` is emitted exactly when there is no error and the status is 200 or absent, and always before the callback. Without a callback, it is never called. |
| WinstonSlack.StatusErrorNamesCode | lib/winston-slack.ts:116-117 | A non-200 status gives exactly one error callback, and the code can be recovered from its message. |
| WinstonSlack.SlackLogger.HandleResponse | lib/winston-slack.ts:111-122 | Performs the emit and the callback calls in exactly the order `ResponseEvents` specifies. |
| JsBuiltins.Upper | lib/winston-slack.ts:76 | Keeps the length. Maps each ASCII lower-case letter to its capital and leaves every other character unchanged. |
| JsBuiltins.UpperIdempotent | lib/winston-slack.ts:76 | Upper-casing twice is the same as upper-casing once. |
| JsBuiltins.Decimal | lib/winston-slack.ts:117 | The status code is printed as a non-empty string of digits with no leading zero. |
| JsBuiltins.DecimalRoundTrip | lib/winston-slack.ts:117 | Parsing the printed code gives the code back. |
| JsBuiltins.DecimalInjective | lib/winston-slack.ts:117 | Two different codes never print the same. |
| JsBuiltins.Split | lib/winston-slack-formatter.ts:8 | Splitting always gives at least one piece. |
| JsBuiltins.SplitJoinRoundTrip | lib/winston-slack-formatter.ts:8 | Joining the pieces of a split with the same separator gives back the original string. |
| JsBuiltins.JoinSplitIsReplaceAll | lib/winston-slack-formatter.ts:8-9 | `split(sep).join(rep)` equals replacing every non-overlapping occurrence of `sep`, scanning left to right, with `rep`. |
| JsBuiltins.ReplaceAllWithoutOccurrence | lib/winston-slack-formatter.ts:8-9 | A string that does not contain the pattern comes out unchanged. |
| WinstonSlackFormatter.RewriteFrame | lib/winston-slack-formatter.ts:7-9 | One entry, rewritten with split and join, is that entry with every `" + "` replaced by a line break. |
| WinstonSlackFormatter.RewriteStack | lib/winston-slack-formatter.ts:6-9 | The output has the same length and order as the input. A null or undefined entry stays undefined. Every other entry is rewritten. |
| WinstonSlackFormatter.FrameWithoutSeparatorUnchanged | lib/winston-slack-formatter.ts:8-9 | An entry with no `" + "` is left unchanged. |
| WinstonSlackFormatter.FrameRewriteReversible | lib/winston-slack-formatter.ts:8-9 | For an entry that had no line break of its own, turning the line breaks back into `" + "` restores the entry. |
| WinstonSlackFormatter.RewriteLeavesNoSeparator | lib/winston-slack-formatter.ts:8-9 | A rewritten entry contains no `" + "`. |
| WinstonSlackFormatter.RewriteFrameIdempotent | lib/winston-slack-formatter.ts:6-9 | Rewriting an entry twice is the same as rewriting it once. |
| WinstonSlackFormatter.Format | lib/winston-slack-formatter.ts:3-13 | A falsy stack (missing, or an empty string) leaves the record as it is. An array stack is replaced in place by its rewritten entries. A non-empty string stack throws "stack.map is not a function" and writes nothing. In every case only `stack` may change, and, when it does not throw, the same record is returned. |

## Left out

- The HTTP POST itself (lib/winston-slack.ts:106-110) is network I/O. `Log` returns the request it would send, and the HTTP client's answer reaches `HandleResponse` as a `Response` value.
- The JSON body `JSON.stringify(payload)` (line 107) is not modelled. The request carries the payload record itself, and fields that are `None` stand for the keys JSON leaves out.
- The `JSON.stringify(meta)` call (line 80) is a foreign call. It is the parameter `stringify` of `Log`, and nothing is assumed about its output beyond "text, `undefined`, or throws".
- `meta instanceof Error` is reduced to the flag `Meta.isError`.
- The Winston `Transport` base class and `super(config)` (lines 51, 55) are framework plumbing, and so is the `winston.format` wrapper (formatter line 3). `emit` and the callback appear only as events in a trace.
- The custom formatter is an opaque total function from (level, msg, meta) to a payload. A formatter that throws or returns a non-object is not modelled.
- JavaScript `toUpperCase` is modelled for ASCII only. Non-ASCII case mappings are not modelled.
- `toString()` on stack entries (formatter line 7) is not modelled: entries are strings, or `None` for `null`/`undefined`.
- Record fields are typed. A value of the wrong JavaScript type, such as a number in `channel`, is not modelled, because truthiness is defined per field type only.
- Asynchrony and callback timing are not modelled. Neither is the fact that the options object is shared with the caller, who could mutate it after construction.
- Attachment contents are carried without being inspected.
- Status codes are non-negative integers (`nat`).
- A response always carries a status code: `statusCode` being `None` means there was no response at all. A response whose `statusCode` is undefined, which line 116 would report as an unexpected status ending in "undefined", is not modelled, because the HTTP client always sets it.

