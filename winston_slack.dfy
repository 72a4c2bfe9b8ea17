/** The Slack transport: it validates its configuration when constructed, turns each
    log call into a Slack incoming-webhook payload, and maps the webhook's answer onto
    the host logger's completion callback. */
module WinstonSlack {
  import opened JsBuiltins

  // ---------------------------------------------------------------------------
  // Records. Field names are the JSON keys Slack reads.

  datatype AttachmentField = AttachmentField(title: string, value: string, short: bool)

  /** A rich-message block; the transport carries it without looking inside. */
  datatype SlackAttachment = SlackAttachment(
    fallback: string, color: string, pretext: string,
    author_name: string, author_link: string, author_icon: string,
    title: string, title_link: string, text: string,
    fields: seq<AttachmentField>,
    image_url: string, thumb_url: string, footer: string, footer_icon: string,
    ts: int)

  /** A message as a custom formatter returns it, and as it is posted. A field that is
      `None` is left out of the JSON body. */
  datatype SlackPayload = SlackPayload(
    attachments: Option<seq<SlackAttachment>>,
    channel: Option<string>,
    username: Option<string>,
    icon_url: Option<string>,
    icon_emoji: Option<string>,
    link_names: Option<bool>,
    unfurl_links: Option<bool>,
    unfurl_media: Option<bool>,
    text: Option<string>)

  /** The `meta` argument of a log call, reduced to what the transport asks of it:
      whether it is an `Error` instance. `properties` stands for everything else,
      which only a custom formatter and JSON serialisation look at. */
  datatype Meta = Meta(isError: bool, properties: map<string, string>)

  /** The user's formatting hook: (level, message, meta) to a payload. */
  type Formatter = (string, string, Meta) -> SlackPayload

  /** The options the transport is constructed with. `webhook_url` is required by the
      type but may still be missing or empty at run time, which construction rejects. */
  datatype SlackTransportOptions = SlackTransportOptions(
    webhook_url: Option<string>,
    channel: Option<string>,
    username: Option<string>,
    icon_url: Option<string>,
    icon_emoji: Option<string>,
    attachments: Option<seq<SlackAttachment>>,
    unfurl_links: Option<bool>,
    unfurl_media: Option<bool>,
    link_names: Option<bool>,
    custom_formatter: Option<Formatter>,
    handleExceptions: Option<bool>)

  /** What `JSON.stringify` does with a value: it returns text, returns `undefined`,
      or throws (a cycle, a throwing `toJSON`). */
  datatype Stringified = Text(json: string) | Undefined | Thrown

  /** The HTTP request the transport makes: one POST of the payload as JSON. */
  datatype Request = Post(uri: string, contentType: string, body: SlackPayload)

  /** The error the HTTP client reports when the request itself fails. */
  datatype TransportError = TransportError(message: string)

  /** The arguments the HTTP client passes back: an error, a response with its status
      code, both absent, or both present. */
  datatype Response = Response(err: Option<TransportError>, statusCode: Option<nat>)

  /** The error handed to the log callback. */
  datatype LogError = Transport(cause: TransportError) | UnexpectedStatus(message: string)

  /** What the response handler does, in order: emit `'logged'`, call the callback
      with an error or `null`, or throw a `TypeError` because there is no callback
      to call. */
  datatype Event = EmittedLogged | CallbackCalled(err: Option<LogError>) | CallbackNotAFunction

  // ---------------------------------------------------------------------------
  // Default text

  /** The first line of a default message: `[*LEVEL*] msg`. */
  function Header(level: string, msg: string): string {
    "[*" + Upper(level) + "*] " + msg
  }

  /** The fenced block an error trace is appended as. */
  function Fence(trace: string): string {
    "\n```" + trace + "```"
  }

  /** A trace is appended only for an `Error` whose serialisation returns text that is
      neither empty nor `{}`. */
  predicate AppendsTrace(meta: Meta, json: Stringified) {
    meta.isError && json.Text? && json.json != "" && json.json != "{}"
  }

  /** The text of a message when no custom formatter is configured; `json` is what
      serialising `meta` gives. */
  function DefaultText(level: string, msg: string, meta: Meta, json: Stringified): (text: string)
    ensures StartsWith(text, Header(level, msg))
    ensures AppendsTrace(meta, json) ==> text[|Header(level, msg)|..] == Fence(json.json)
    ensures !AppendsTrace(meta, json) ==> text == Header(level, msg)
  {
    if AppendsTrace(meta, json) then Header(level, msg) + Fence(json.json) else Header(level, msg)
  }

  /** Reads the fenced trace back out of a message text, given its first line. */
  function TraceIn(text: string, header: string): Option<string> {
    if !StartsWith(text, header) then None
    else
      var rest := text[|header|..];
      if |rest| >= 7 && rest[..4] == "\n```" && rest[|rest| - 3..] == "```"
      then Some(rest[4..|rest| - 3])
      else None
  }

  /** The default text carries a trace exactly when one is appended, and then it is
      the serialised error itself. */
  lemma DefaultTextTrace(level: string, msg: string, meta: Meta, json: Stringified)
    ensures TraceIn(DefaultText(level, msg, meta, json), Header(level, msg))
         == if AppendsTrace(meta, json) then Some(json.json) else None
  {
  }

  /** The level is shown in capitals whatever case it was logged in. */
  lemma HeaderIgnoresLevelCase(level: string, msg: string)
    ensures Header(Upper(level), msg) == Header(level, msg)
  {
  }

  // ---------------------------------------------------------------------------
  // Payload merge

  /** A message that defines only `text`, as the default strategy builds it. */
  function TextOnly(text: string): SlackPayload {
    SlackPayload(None, None, None, None, None, None, None, None, Some(text))
  }

  /** The payload that is posted: each field is the per-call value when that is truthy
      and the configured default otherwise; the text is always the per-call one. */
  function Merge(message: SlackPayload, config: SlackTransportOptions): (p: SlackPayload)
    ensures p.text == message.text
    ensures p.attachments == if ArrayTruthy(message.attachments) then message.attachments else config.attachments
    ensures p.channel == if StringTruthy(message.channel) then message.channel else config.channel
    ensures p.icon_emoji == if StringTruthy(message.icon_emoji) then message.icon_emoji else config.icon_emoji
    ensures p.icon_url == if StringTruthy(message.icon_url) then message.icon_url else config.icon_url
    ensures p.link_names == if BoolTruthy(message.link_names) then message.link_names else config.link_names
    ensures p.unfurl_links == if BoolTruthy(message.unfurl_links) then message.unfurl_links else config.unfurl_links
    ensures p.unfurl_media == if BoolTruthy(message.unfurl_media) then message.unfurl_media else config.unfurl_media
    ensures p.username == if StringTruthy(message.username) then message.username else config.username
  {
    SlackPayload(
      attachments := OrArray(message.attachments, config.attachments),
      channel := OrString(message.channel, config.channel),
      username := OrString(message.username, config.username),
      icon_url := OrString(message.icon_url, config.icon_url),
      icon_emoji := OrString(message.icon_emoji, config.icon_emoji),
      link_names := OrBool(message.link_names, config.link_names),
      unfurl_links := OrBool(message.unfurl_links, config.unfurl_links),
      unfurl_media := OrBool(message.unfurl_media, config.unfurl_media),
      text := message.text)
  }

  /** A falsy per-call value never overrides a default: a per-call `false` flag or
      empty string, field by field, gives the configured value. */
  lemma MergeFalsyKeepsDefault(message: SlackPayload, config: SlackTransportOptions)
    ensures message.link_names == Some(false) ==> Merge(message, config).link_names == config.link_names
    ensures message.unfurl_links == Some(false) ==> Merge(message, config).unfurl_links == config.unfurl_links
    ensures message.unfurl_media == Some(false) ==> Merge(message, config).unfurl_media == config.unfurl_media
    ensures message.channel == Some("") ==> Merge(message, config).channel == config.channel
    ensures message.username == Some("") ==> Merge(message, config).username == config.username
    ensures message.icon_url == Some("") ==> Merge(message, config).icon_url == config.icon_url
    ensures message.icon_emoji == Some("") ==> Merge(message, config).icon_emoji == config.icon_emoji
  {
  }

  /** Merging the posted payload with the same defaults again changes nothing: every
      field that fell back to a default is either truthy now or is that default. */
  lemma MergeIdempotent(message: SlackPayload, config: SlackTransportOptions)
    ensures Merge(Merge(message, config), config) == Merge(message, config)
  {
  }

  /** With the default strategy every field but the text is the configured default. */
  lemma MergeTextOnlyTakesDefaults(text: string, config: SlackTransportOptions)
    ensures Merge(TextOnly(text), config) == SlackPayload(
      config.attachments, config.channel, config.username, config.icon_url,
      config.icon_emoji, config.link_names, config.unfurl_links, config.unfurl_media,
      Some(text))
  {
  }

  // ---------------------------------------------------------------------------
  // Delivery outcome

  const StatusPrefix := "Unexpected status code from Slack API: "

  /** The message of the error for a non-200 status. */
  function StatusMessage(code: nat): (m: string)
    ensures StartsWith(m, StatusPrefix)
    ensures ParseDecimal(m[|StatusPrefix|..]) == Some(code)
  {
    DecimalRoundTrip(code);
    assert (StatusPrefix + Decimal(code))[|StatusPrefix|..] == Decimal(code);
    StatusPrefix + Decimal(code)
  }

  /** The status check passes: there is no error, and either no response or a 200. */
  predicate Delivered(response: Response) {
    response.err.None? && (response.statusCode.None? || response.statusCode.value == 200)
  }

  /** The arguments of the callback calls in a trace, in order. */
  function Completions(events: seq<Event>): seq<Option<LogError>> {
    if events == [] then []
    else if events[0].CallbackCalled? then [events[0].err] + Completions(events[1..])
    else Completions(events[1..])
  }

  /** What the response handler does with the HTTP client's answer. */
  function ResponseEvents(response: Response, hasCallback: bool): (events: seq<Event>)
    ensures hasCallback ==> |Completions(events)| == 1
    ensures hasCallback ==> (Completions(events)[0].None? <==> Delivered(response))
    ensures hasCallback && response.err.Some? ==>
      Completions(events)[0] == Some(Transport(response.err.value))
    ensures hasCallback && !Delivered(response) && response.err.None? ==>
      Completions(events)[0] == Some(UnexpectedStatus(StatusMessage(response.statusCode.value)))
    ensures (EmittedLogged in events) <==> Delivered(response)
    ensures Delivered(response) ==> events[0] == EmittedLogged && |events| == 2
    ensures !hasCallback ==> Completions(events) == []
    ensures !hasCallback ==> (CallbackNotAFunction in events <==> response.err.None?)
    ensures hasCallback ==> CallbackNotAFunction !in events
    ensures !Delivered(response) ==> |events| <= 1
  {
    if response.err.Some? then
      if hasCallback then [CallbackCalled(Some(Transport(response.err.value)))] else []
    else if response.statusCode.Some? && response.statusCode.value != 200 then
      if hasCallback then [CallbackCalled(Some(UnexpectedStatus(StatusMessage(response.statusCode.value))))]
      else [CallbackNotAFunction]
    else
      var last := if hasCallback then CallbackCalled(None) else CallbackNotAFunction;
      assert Completions([EmittedLogged, last]) == Completions([last]) by {
        assert [EmittedLogged, last][1..] == [last];
      }
      [EmittedLogged, last]
  }

  /** The error for a non-200 status names that status: the code can be read back from
      the message, and two codes never share a message. */
  lemma StatusErrorNamesCode(response: Response)
    requires response.err.None? && response.statusCode.Some? && response.statusCode.value != 200
    ensures Completions(ResponseEvents(response, true)) == [Some(UnexpectedStatus(StatusMessage(response.statusCode.value)))]
    ensures ParseDecimal(StatusMessage(response.statusCode.value)[|StatusPrefix|..]) == Some(response.statusCode.value)
  {
  }

  // ---------------------------------------------------------------------------
  // The transport

  class SlackLogger {
    var config: SlackTransportOptions
    var handleExceptions: bool

    /** Construction succeeded, so the webhook URL is there. */
    ghost predicate Valid()
      reads this
    {
      StringTruthy(config.webhook_url)
    }

    /** Stores the options; it is reached only once the checks in `Create` pass. */
    constructor (config: SlackTransportOptions)
      requires StringTruthy(config.webhook_url)
      ensures Valid()
      ensures this.config == config
      ensures handleExceptions == BoolTruthy(config.handleExceptions)
    {
      this.config := config;
      this.handleExceptions := BoolTruthy(config.handleExceptions);
    }

    /** `new SlackLogger(config)`: throws when the options are missing or have no
        webhook URL, otherwise keeps them and copies the exception-handling flag. */
    static method Create(config: Option<SlackTransportOptions>) returns (r: Result<SlackLogger, string>)
      ensures config.None? ==> r == Failure("A configuration must be provided")
      ensures config.Some? && !StringTruthy(config.value.webhook_url) ==>
        r == Failure("Configuration must include webhook_url")
      ensures r.Success? <==> config.Some? && StringTruthy(config.value.webhook_url)
      ensures r.Success? ==> fresh(r.value) && r.value.Valid()
      ensures r.Success? ==> r.value.config == config.value
      ensures r.Success? ==> r.value.handleExceptions == BoolTruthy(config.value.handleExceptions)
    {
      if config.None? {
        return Failure("A configuration must be provided");
      }
      if !StringTruthy(config.value.webhook_url) {
        return Failure("Configuration must include webhook_url");
      }
      var logger := new SlackLogger(config.value);
      r := Success(logger);
    }

    /** `log(level, msg, meta, callback)` up to the HTTP call: builds the message with
        the custom formatter or the default text, merges it with the defaults, and
        returns the request that is posted. `stringify` is `JSON.stringify`. */
    method Log(level: string, msg: string, meta: Meta, stringify: Meta -> Stringified)
      returns (request: Request)
      requires Valid()
      ensures request.uri == config.webhook_url.value
      ensures request.contentType == "application/json"
      ensures config.custom_formatter.Some? ==>
        request.body == Merge(config.custom_formatter.value(level, msg, meta), config)
      ensures config.custom_formatter.None? ==>
        request.body == Merge(TextOnly(DefaultText(level, msg, meta, stringify(meta))), config)
    {
      var message: SlackPayload;
      if config.custom_formatter.Some? {
        message := config.custom_formatter.value(level, msg, meta);
      } else {
        var text := "[*" + Upper(level) + "*] " + msg;
        if meta.isError {
          var metaTrace := stringify(meta);
          match metaTrace {
            case Text(json) =>
              if json != "" && json != "{}" {
                text := text + "\n```" + json + "```";
                assert text == Header(level, msg) + Fence(json);
              }
            case Undefined =>
            case Thrown =>
              // the catch block: the failure is dropped and no trace is appended
          }
        }
        message := TextOnly(text);
      }
      request := Post(config.webhook_url.value, "application/json", Merge(message, config));
    }

    /** The callback given to the HTTP client: a transport error goes to the log
        callback as it is, a status other than 200 becomes an error naming it, and
        anything else emits `'logged'` and then completes without error. Only the first
        branch checks that a callback was given. This is the same mapping as
        `ResponseEvents`, written as the ordered sequence of side effects the source
        performs. */
    method HandleResponse(response: Response, hasCallback: bool) returns (events: seq<Event>)
      ensures events == ResponseEvents(response, hasCallback)
    {
      events := [];
      if response.err.Some? {
        if hasCallback {
          events := events + [CallbackCalled(Some(Transport(response.err.value)))];
        }
        return;
      }
      if response.statusCode.Some? && response.statusCode.value != 200 {
        var error := UnexpectedStatus(StatusPrefix + Decimal(response.statusCode.value));
        if hasCallback {
          events := events + [CallbackCalled(Some(error))];
        } else {
          events := events + [CallbackNotAFunction];
        }
        return;
      }
      events := events + [EmittedLogged];
      if hasCallback {
        events := events + [CallbackCalled(None)];
      } else {
        events := events + [CallbackNotAFunction];
      }
    }
  }
}
