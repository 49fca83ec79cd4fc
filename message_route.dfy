/**
 * The message intake endpoint (`POST /api/message`): a visitor's message is
 * checked in a fixed order, the sender is throttled by a per-client cooldown
 * kept in a process-wide ledger, and an accepted message is relayed to a chat
 * webhook.
 *
 * The framework pieces are inputs here: the parsed request body (`None` when
 * `request.json()` throws), the request headers, the clock reading, the
 * configured webhook URL, and whether the outbound relay reported success.
 */
module MessageRoute {
  import opened Wrappers
  import opened JsString

  /** Minimum interval between two accepted submissions from one client key, in ms. */
  const RateLimitMs: int := 5000
  /** Longest accepted trimmed message, in UTF-16 code units. */
  const MaxMessageLength: int := 500
  /** The default for every header-derived field. */
  const Unknown: string := "unknown"

  const ForwardedForHeader: string := "x-forwarded-for"
  const RealIpHeader: string := "x-real-ip"
  const CountryHeader: string := "x-vercel-ip-country"
  const RegionHeader: string := "x-vercel-ip-country-region"
  const CityHeader: string := "x-vercel-ip-city"
  const LatitudeHeader: string := "x-vercel-ip-latitude"
  const LongitudeHeader: string := "x-vercel-ip-longitude"

  /** A parsed JSON value. */
  datatype Json =
    | JNull
    | JBool(b: bool)
    | JNumber(literal: string)
    | JString(s: string)
    | JArray(items: seq<Json>)
    | JObject(fields: map<string, Json>)

  /** Request headers, keyed by lower-case name (header lookup is case-insensitive). */
  type Headers = map<string, string>

  datatype Request = Request(body: Option<Json>, headers: Headers)

  /** Why a submission was turned away. */
  datatype Reason =
    | InvalidJson
    | NotAString
    | MessageRequired
    | MessageTooLong
    | NotConfigured
    | TooManyRequests
    | RelayFailed

  /**
   * What one call of the handler ends in. `Crashed` is an uncaught exception,
   * which the framework answers with 500: reading `body.message` from a body
   * that parsed to JSON `null`, or a relay `fetch` that rejects.
   */
  datatype Outcome = Accepted | Rejected(reason: Reason) | Crashed

  /** How the awaited relay `fetch` ends: a response with `ok` set, one without, or a rejection. */
  datatype RelayAnswer = RelayOk | RelayNotOk | RelayThrew

  /** The reply sent to the client; `body` is `None` for the framework's own error page. */
  datatype HttpResponse = HttpResponse(status: int, body: Option<Json>)

  /** The outbound relay call: the trimmed message and the origin fields it reports. */
  datatype Notification = Notification(
    message: string, ip: string,
    country: string, region: string, city: string,
    latitude: string, longitude: string)

  /** The HTTP status of each outcome. */
  function Status(o: Outcome): (code: int)
    ensures code == 200 <==> o.Accepted?
    ensures code == 400 <==> o.Rejected? && o.reason in {InvalidJson, NotAString, MessageRequired, MessageTooLong}
    ensures code == 429 <==> o == Rejected(TooManyRequests)
    ensures code == 500 <==> o.Crashed? || o == Rejected(NotConfigured)
    ensures code == 502 <==> o == Rejected(RelayFailed)
  {
    match o
    case Accepted => 200
    case Crashed => 500
    case Rejected(r) =>
      match r
      case InvalidJson => 400
      case NotAString => 400
      case MessageRequired => 400
      case MessageTooLong => 400
      case NotConfigured => 500
      case TooManyRequests => 429
      case RelayFailed => 502
  }

  function ErrorText(r: Reason): string {
    match r
    case InvalidJson => "Invalid JSON body."
    case NotAString => "Message must be a string."
    case MessageRequired => "Message is required."
    case MessageTooLong => "Message must be under 500 characters."
    case NotConfigured => "Discord webhook not configured."
    case TooManyRequests => "Too many requests."
    case RelayFailed => "Discord webhook failed."
  }

  /** The JSON reply: `{ok: true}` on success, `{error: …}` on a rejection. */
  function Respond(o: Outcome): (r: HttpResponse)
    ensures r.status == Status(o)
    ensures o.Accepted? ==> r.body == Some(JObject(map["ok" := JBool(true)]))
    ensures o.Rejected? ==> r.body == Some(JObject(map["error" := JString(ErrorText(o.reason))]))
    ensures o.Crashed? <==> r.body.None?
  {
    match o
    case Accepted => HttpResponse(200, Some(JObject(map["ok" := JBool(true)])))
    case Rejected(reason) => HttpResponse(Status(o), Some(JObject(map["error" := JString(ErrorText(reason))])))
    case Crashed => HttpResponse(500, None)
  }

  /** A header's value, or "unknown" when the request does not carry it (`?? "unknown"`). */
  function HeaderOr(h: Headers, name: string): string {
    if name in h then h[name] else Unknown
  }

  /** `s.split(",")[0]`: the longest prefix of `s` without a comma. */
  function FirstEntry(s: string): (r: string)
    ensures r <= s
    ensures ',' !in r
    ensures |r| == |s| || s[|r|] == ','
  {
    if s == [] || s[0] == ',' then [] else [s[0]] + FirstEntry(s[1..])
  }

  /**
   * The cooldown key: the first entry of a non-empty `x-forwarded-for`, trimmed
   * (or "unknown" when that entry is blank); otherwise `x-real-ip`, or "unknown".
   */
  function ClientIp(h: Headers): string {
    if ForwardedForHeader in h && h[ForwardedForHeader] != "" then
      var first := Trim(FirstEntry(h[ForwardedForHeader]));
      if first == "" then Unknown else first
    else
      HeaderOr(h, RealIpHeader)
  }

  /** The relay payload for an accepted message, each origin field defaulting on its own. */
  function NotificationFor(message: string, h: Headers): Notification {
    Notification(message, ClientIp(h),
      HeaderOr(h, CountryHeader), HeaderOr(h, RegionHeader), HeaderOr(h, CityHeader),
      HeaderOr(h, LatitudeHeader), HeaderOr(h, LongitudeHeader))
  }

  /** True when the body parsed to an object whose `message` is a string. */
  predicate HasStringMessage(body: Json) {
    body.JObject? && "message" in body.fields && body.fields["message"].JString?
  }

  /** `!webhookUrl`: an unset or empty URL counts as not configured. */
  predicate Configured(webhookUrl: Option<string>) {
    webhookUrl.Some? && webhookUrl.value != ""
  }

  /**
   * The stateless checks, in order, stopping at the first failure: parse,
   * string type, non-blank, length, configuration. On success, the trimmed message.
   */
  function Validate(body: Option<Json>, webhookUrl: Option<string>): (r: Result<string, Outcome>)
    ensures r.Success? ==> r.value != "" && Trim(r.value) == r.value
    ensures r.Success? ==> Utf16Length(r.value) <= MaxMessageLength && Configured(webhookUrl)
    ensures r.Success? <==>
      && body.Some? && body.value != JNull && HasStringMessage(body.value)
      && !AllWhitespace(body.value.fields["message"].s)
      && Utf16Length(Trim(body.value.fields["message"].s)) <= MaxMessageLength
      && Configured(webhookUrl)
    ensures r.Success? ==> r.value == Trim(body.value.fields["message"].s)
    ensures r.Failure? ==> r.error != Accepted && r.error != Rejected(TooManyRequests) && r.error != Rejected(RelayFailed)
  {
    match body
    case None => Failure(Rejected(InvalidJson))
    case Some(json) =>
      if json.JNull? then Failure(Crashed)
      else if !HasStringMessage(json) then Failure(Rejected(NotAString))
      else
        var message := Trim(json.fields["message"].s);
        TrimEmptyIff(json.fields["message"].s);
        if message == "" then Failure(Rejected(MessageRequired))
        else if Utf16Length(message) > MaxMessageLength then Failure(Rejected(MessageTooLong))
        else if !Configured(webhookUrl) then Failure(Rejected(NotConfigured))
        else
          TrimIdempotent(json.fields["message"].s);
          Success(message)
  }

  /** `lastSentAt && now - lastSentAt < RATE_LIMIT_MS`; a stored 0 is falsy and blocks nothing. */
  predicate Cooling(ledger: map<string, int>, key: string, now: int) {
    key in ledger && ledger[key] != 0 && now - ledger[key] < RateLimitMs
  }

  /** What one call does: its outcome, the relay call it makes (if any) and the new ledger. */
  datatype Step = Step(outcome: Outcome, sent: Option<Notification>, ledger: map<string, int>)

  /**
   * One call of the handler against the cooldown ledger `ledger`; `relay` is how
   * the relay call ends, if one is made. The ledger entry of the client key is
   * written before the relay, so a relay that fails or throws still consumes
   * the cooldown; no other key is touched.
   */
  function Handle(ledger: map<string, int>, req: Request, now: int, webhookUrl: Option<string>, relay: RelayAnswer): (s: Step)
    ensures s.sent.Some? <==> Validate(req.body, webhookUrl).Success? && !Cooling(ledger, ClientIp(req.headers), now)
    ensures Validate(req.body, webhookUrl).Failure? ==> s.outcome == Validate(req.body, webhookUrl).error
    ensures Validate(req.body, webhookUrl).Success? && Cooling(ledger, ClientIp(req.headers), now) ==>
      s.outcome == Rejected(TooManyRequests)
    ensures s.outcome == Accepted || s.outcome == Rejected(RelayFailed) ==> s.sent.Some?
    ensures s.sent.Some? ==> (s.outcome == Accepted <==> relay == RelayOk)
    ensures s.sent.Some? ==> (s.outcome == Rejected(RelayFailed) <==> relay == RelayNotOk)
    ensures s.sent.Some? ==> (s.outcome == Crashed <==> relay == RelayThrew)
    ensures s.sent.None? ==> s.ledger == ledger
    ensures s.sent.Some? ==> s.ledger == ledger[ClientIp(req.headers) := now]
    ensures s.sent.Some? ==> Validate(req.body, webhookUrl) == Success(s.sent.value.message)
    ensures s.sent.Some? ==> s.sent.value == NotificationFor(s.sent.value.message, req.headers)
  {
    match Validate(req.body, webhookUrl)
    case Failure(o) => Step(o, None, ledger)
    case Success(message) =>
      var key := ClientIp(req.headers);
      if Cooling(ledger, key, now) then Step(Rejected(TooManyRequests), None, ledger)
      else
        var sent := Some(NotificationFor(message, req.headers));
        var outcome := match relay
          case RelayOk => Accepted
          case RelayNotOk => Rejected(RelayFailed)
          case RelayThrew => Crashed;
        Step(outcome, sent, ledger[key := now])
  }

  /** The route module: its process-wide cooldown ledger and its `POST` handler. */
  class Route {
    /** Last accepted timestamp per client key; grows for the life of the process. */
    var rateLimitByIp: map<string, int>

    constructor ()
      ensures rateLimitByIp == map[]
    {
      rateLimitByIp := map[];
    }

    /**
     * Handles one submission. `sent` is the outbound relay call, if one is made;
     * `relay` is how that call ends.
     */
    method Post(req: Request, now: int, webhookUrl: Option<string>, relay: RelayAnswer)
      returns (response: HttpResponse, sent: Option<Notification>)
      modifies this
      ensures var s := Handle(old(rateLimitByIp), req, now, webhookUrl, relay);
        response == Respond(s.outcome) && sent == s.sent && rateLimitByIp == s.ledger
    {
      sent := None;
      if req.body.None? {
        response := Respond(Rejected(InvalidJson));
        return;
      }
      var body := req.body.value;
      if body.JNull? {
        response := Respond(Crashed);
        return;
      }
      if !HasStringMessage(body) {
        response := Respond(Rejected(NotAString));
        return;
      }
      var message := Trim(body.fields["message"].s);
      if message == "" {
        response := Respond(Rejected(MessageRequired));
        return;
      }
      if Utf16Length(message) > MaxMessageLength {
        response := Respond(Rejected(MessageTooLong));
        return;
      }
      if webhookUrl.None? || webhookUrl.value == "" {
        response := Respond(Rejected(NotConfigured));
        return;
      }
      assert Validate(req.body, webhookUrl) == Success(message);

      var ip := ClientIp(req.headers);
      var country := HeaderOr(req.headers, CountryHeader);
      var region := HeaderOr(req.headers, RegionHeader);
      var city := HeaderOr(req.headers, CityHeader);
      var latitude := HeaderOr(req.headers, LatitudeHeader);
      var longitude := HeaderOr(req.headers, LongitudeHeader);
      if ip in rateLimitByIp {
        var lastSentAt := rateLimitByIp[ip];
        if lastSentAt != 0 && now - lastSentAt < RateLimitMs {
          response := Respond(Rejected(TooManyRequests));
          return;
        }
      }
      rateLimitByIp := rateLimitByIp[ip := now];

      sent := Some(Notification(message, ip, country, region, city, latitude, longitude));
      if relay == RelayThrew {
        response := Respond(Crashed);
        return;
      }
      if relay == RelayNotOk {
        response := Respond(Rejected(RelayFailed));
        return;
      }
      response := Respond(Accepted);
    }
  }

  /** A request body of the form `{"message": s}`. */
  function MessageBody(s: string): Json {
    JObject(map["message" := JString(s)])
  }

  /**
   * With a non-empty `x-forwarded-for`, the key comes from its first entry alone:
   * "unknown" when that entry is blank, otherwise the entry trimmed, which is a
   * non-empty, comma-free, already-trimmed piece of the header; `x-real-ip` is ignored.
   */
  lemma ForwardedForKey(h: Headers, realIp: string)
    requires ForwardedForHeader in h && h[ForwardedForHeader] != ""
    ensures var first := FirstEntry(h[ForwardedForHeader]);
      && (AllWhitespace(first) ==> ClientIp(h) == Unknown)
      && (!AllWhitespace(first) ==> ClientIp(h) == Trim(first))
      && (!AllWhitespace(first) ==>
            && ClientIp(h) != "" && ',' !in ClientIp(h) && Trim(ClientIp(h)) == ClientIp(h)
            && 0 <= TrimOffset(first) <= |first| - |ClientIp(h)|
            && ClientIp(h) == first[TrimOffset(first)..TrimOffset(first) + |ClientIp(h)|])
    ensures ClientIp(h[RealIpHeader := realIp]) == ClientIp(h)
  {
    var first := FirstEntry(h[ForwardedForHeader]);
    TrimEmptyIff(first);
    TrimSpec(first);
    TrimIdempotent(first);
    var h' := h[RealIpHeader := realIp];
    assert h'[ForwardedForHeader] == h[ForwardedForHeader];
  }

  /**
   * Each field of the relay payload is read from its own header: setting one header
   * changes only the fields read from it (the client key reads two), and a field
   * whose header is set reports that header's value.
   */
  lemma NotificationHeaderIndependent(message: string, h: Headers, name: string, v: string)
    ensures var n := NotificationFor(message, h);
      var n' := NotificationFor(message, h[name := v]);
      && n'.message == message
      && (name != ForwardedForHeader && name != RealIpHeader ==> n'.ip == n.ip)
      && (name != CountryHeader ==> n'.country == n.country)
      && (name != RegionHeader ==> n'.region == n.region)
      && (name != CityHeader ==> n'.city == n.city)
      && (name != LatitudeHeader ==> n'.latitude == n.latitude)
      && (name != LongitudeHeader ==> n'.longitude == n.longitude)
      && (name == CountryHeader ==> n'.country == v)
      && (name == RegionHeader ==> n'.region == v)
      && (name == CityHeader ==> n'.city == v)
      && (name == LatitudeHeader ==> n'.latitude == v)
      && (name == LongitudeHeader ==> n'.longitude == v)
  {
  }

  /**
   * The payload reports the client key as its `ip`, and each origin field whose
   * header the request does not carry as "unknown".
   */
  lemma NotificationDefaults(message: string, h: Headers)
    ensures var n := NotificationFor(message, h);
      && n.ip == ClientIp(h)
      && (CountryHeader !in h ==> n.country == Unknown)
      && (RegionHeader !in h ==> n.region == Unknown)
      && (CityHeader !in h ==> n.city == Unknown)
      && (LatitudeHeader !in h ==> n.latitude == Unknown)
      && (LongitudeHeader !in h ==> n.longitude == Unknown)
      && (ForwardedForHeader !in h && RealIpHeader !in h ==> n.ip == Unknown)
  {
  }

  /** Without a non-empty `x-forwarded-for`, the key is `x-real-ip`, or "unknown" when that is absent. */
  lemma RealIpKey(h: Headers)
    requires ForwardedForHeader !in h || h[ForwardedForHeader] == ""
    ensures RealIpHeader in h ==> ClientIp(h) == h[RealIpHeader]
    ensures RealIpHeader !in h ==> ClientIp(h) == Unknown
  {
  }

  /**
   * The key is whatever the client claims: any non-empty, comma-free, trimmed
   * value sent as `x-forwarded-for` becomes the key, whatever else the request carries.
   */
  lemma ForgedForwardedFor(h: Headers, v: string)
    requires v != "" && ',' !in v && Trim(v) == v
    ensures ClientIp(h[ForwardedForHeader := v]) == v
  {
    assert FirstEntry(v) == v;
  }

  /** A body that is not JSON gets 400 and changes nothing. */
  lemma MalformedBodyRejected(ledger: map<string, int>, h: Headers, now: int, webhookUrl: Option<string>, relay: RelayAnswer)
    ensures var s := Handle(ledger, Request(None, h), now, webhookUrl, relay);
      s == Step(Rejected(InvalidJson), None, ledger) && Respond(s.outcome).status == 400
  {
  }

  /**
   * A `message` that is missing or not a string gets 400 "must be a string",
   * never the empty-message error, and changes nothing.
   */
  lemma NonStringMessageRejected(ledger: map<string, int>, req: Request, now: int, webhookUrl: Option<string>, relay: RelayAnswer)
    requires req.body.Some? && req.body.value != JNull && !HasStringMessage(req.body.value)
    ensures var s := Handle(ledger, req, now, webhookUrl, relay);
      s == Step(Rejected(NotAString), None, ledger) && Respond(s.outcome).status == 400
  {
  }

  /** A body of JSON `null` makes the handler throw: status 500, no relay, ledger unchanged. */
  lemma NullBodyCrashes(ledger: map<string, int>, h: Headers, now: int, webhookUrl: Option<string>, relay: RelayAnswer)
    ensures var s := Handle(ledger, Request(Some(JNull), h), now, webhookUrl, relay);
      s == Step(Crashed, None, ledger) && Respond(s.outcome).status == 500
  {
  }

  /**
   * A body whose `message` is a string gets 400 "Message is required." exactly
   * when that string is whitespace throughout, whatever else the body holds.
   */
  lemma BlankMessageRequired(ledger: map<string, int>, body: Json, h: Headers, now: int,
                             webhookUrl: Option<string>, relay: RelayAnswer)
    requires HasStringMessage(body)
    ensures var s := Handle(ledger, Request(Some(body), h), now, webhookUrl, relay);
      && (s.outcome == Rejected(MessageRequired) <==> AllWhitespace(body.fields["message"].s))
      && (AllWhitespace(body.fields["message"].s) ==>
            Respond(s.outcome) == HttpResponse(400, Some(JObject(map["error" := JString("Message is required.")])))
            && s.sent.None? && s.ledger == ledger)
  {
    TrimEmptyIff(body.fields["message"].s);
  }

  /**
   * A body whose `message` is a non-blank string gets the too-long 400 exactly
   * when the trimmed message exceeds 500 UTF-16 code units.
   */
  lemma MessageLengthLimit(ledger: map<string, int>, body: Json, h: Headers, now: int,
                           webhookUrl: Option<string>, relay: RelayAnswer)
    requires HasStringMessage(body) && !AllWhitespace(body.fields["message"].s)
    ensures var s := Handle(ledger, Request(Some(body), h), now, webhookUrl, relay);
      && (s.outcome == Rejected(MessageTooLong) <==> Utf16Length(Trim(body.fields["message"].s)) > MaxMessageLength)
      && (Utf16Length(Trim(body.fields["message"].s)) > MaxMessageLength ==>
            Respond(s.outcome).status == 400 && s.sent.None? && s.ledger == ledger)
  {
  }

  /** The boundary: a trimmed message of exactly 500 code units passes, 501 does not. */
  lemma MessageLengthBoundary(s: string, webhookUrl: Option<string>)
    requires Configured(webhookUrl) && !AllWhitespace(s) && InBasicPlane(Trim(s))
    ensures |Trim(s)| == 500 ==> Validate(Some(MessageBody(s)), webhookUrl) == Success(Trim(s))
    ensures |Trim(s)| == 501 ==> Validate(Some(MessageBody(s)), webhookUrl) == Failure(Rejected(MessageTooLong))
  {
    TrimEmptyIff(s);
    Utf16LengthBasicPlane(Trim(s));
  }

  /**
   * The route trims what it receives, so a message the client already trimmed
   * is judged exactly as the untrimmed one would be.
   */
  lemma TrimmedResubmission(s: string, webhookUrl: Option<string>)
    ensures Validate(Some(MessageBody(Trim(s))), webhookUrl) == Validate(Some(MessageBody(s)), webhookUrl)
  {
    TrimIdempotent(s);
  }

  /**
   * Without a configured webhook URL nothing is ever relayed or recorded, and a
   * submission that passes the message checks gets 500.
   */
  lemma UnconfiguredNeverRelays(ledger: map<string, int>, req: Request, now: int, webhookUrl: Option<string>, relay: RelayAnswer,
                                 someUrl: string)
    requires !Configured(webhookUrl) && someUrl != ""
    ensures var s := Handle(ledger, req, now, webhookUrl, relay);
      s.sent.None? && s.ledger == ledger && s.outcome != Accepted
    ensures Validate(req.body, Some(someUrl)).Success? ==>
      && Handle(ledger, req, now, webhookUrl, relay).outcome == Rejected(NotConfigured)
      && Respond(Handle(ledger, req, now, webhookUrl, relay).outcome)
         == HttpResponse(500, Some(JObject(map["error" := JString("Discord webhook not configured.")])))
  {
  }

  /** A cooling key gets 429 whatever the relay would say, and the ledger stays as it was. */
  lemma CooldownRejects(ledger: map<string, int>, req: Request, now: int, webhookUrl: Option<string>, relay: RelayAnswer)
    requires Validate(req.body, webhookUrl).Success?
    requires Cooling(ledger, ClientIp(req.headers), now)
    ensures var s := Handle(ledger, req, now, webhookUrl, relay);
      s == Step(Rejected(TooManyRequests), None, ledger) && Respond(s.outcome).status == 429
  {
  }

  /** Status 200 exactly when every check passes, the key is not cooling and the relay succeeds. */
  lemma AcceptedIff(ledger: map<string, int>, req: Request, now: int, webhookUrl: Option<string>, relay: RelayAnswer)
    ensures Respond(Handle(ledger, req, now, webhookUrl, relay).outcome).status == 200
        <==> Validate(req.body, webhookUrl).Success? && !Cooling(ledger, ClientIp(req.headers), now) && relay == RelayOk
  {
  }

  /**
   * Passing the cooldown records `now` for the key before the relay, even when the
   * relay then fails (502) or its `fetch` throws (the framework's 500).
   */
  lemma RelayFailureConsumesCooldown(ledger: map<string, int>, req: Request, now: int, webhookUrl: Option<string>,
                                     relay: RelayAnswer)
    requires Validate(req.body, webhookUrl).Success?
    requires !Cooling(ledger, ClientIp(req.headers), now)
    requires relay != RelayOk
    ensures var s := Handle(ledger, req, now, webhookUrl, relay);
      && Respond(s.outcome).status == (if relay == RelayNotOk then 502 else 500) && s.sent.Some?
      && ClientIp(req.headers) in s.ledger && s.ledger[ClientIp(req.headers)] == now
  {
  }

  /** A call changes the ledger entry of its own key only. */
  lemma LedgerFrame(ledger: map<string, int>, req: Request, now: int, webhookUrl: Option<string>, relay: RelayAnswer, k: string)
    requires k != ClientIp(req.headers)
    ensures var s := Handle(ledger, req, now, webhookUrl, relay);
      (k in s.ledger <==> k in ledger) && (k in ledger ==> s.ledger[k] == ledger[k])
  {
  }

  /**
   * Two calls with the same key less than 5000 ms apart: once the first passed the
   * cooldown, the second gets 429, however its message and relay turn out.
   */
  lemma RepeatWithinCooldown(ledger: map<string, int>, r1: Request, r2: Request, t1: int, t2: int,
                             webhookUrl: Option<string>, ok1: RelayAnswer, ok2: RelayAnswer)
    requires Handle(ledger, r1, t1, webhookUrl, ok1).sent.Some?
    requires ClientIp(r2.headers) == ClientIp(r1.headers)
    requires Validate(r2.body, webhookUrl).Success?
    requires t1 != 0 && t2 - t1 < RateLimitMs
    ensures var l1 := Handle(ledger, r1, t1, webhookUrl, ok1).ledger;
      Handle(l1, r2, t2, webhookUrl, ok2) == Step(Rejected(TooManyRequests), None, l1)
  {
  }

  /** Two calls with the same key at least 5000 ms apart: the second passes the cooldown. */
  lemma RepeatAfterCooldown(ledger: map<string, int>, r1: Request, r2: Request, t1: int, t2: int,
                            webhookUrl: Option<string>, ok1: RelayAnswer, ok2: RelayAnswer)
    requires Handle(ledger, r1, t1, webhookUrl, ok1).sent.Some?
    requires ClientIp(r2.headers) == ClientIp(r1.headers)
    requires Validate(r2.body, webhookUrl).Success?
    requires t2 - t1 >= RateLimitMs
    ensures var l1 := Handle(ledger, r1, t1, webhookUrl, ok1).ledger;
      && Handle(l1, r2, t2, webhookUrl, ok2).sent.Some?
      && Handle(l1, r2, t2, webhookUrl, ok2).ledger == l1[ClientIp(r2.headers) := t2]
  {
  }

  /** A call under one key never changes how a later call under another key is answered. */
  lemma KeysIndependent(ledger: map<string, int>, r1: Request, r2: Request, t1: int, t2: int,
                        webhookUrl: Option<string>, ok1: RelayAnswer, ok2: RelayAnswer)
    requires ClientIp(r2.headers) != ClientIp(r1.headers)
    ensures var l1 := Handle(ledger, r1, t1, webhookUrl, ok1).ledger;
      && Handle(l1, r2, t2, webhookUrl, ok2).outcome == Handle(ledger, r2, t2, webhookUrl, ok2).outcome
      && Handle(l1, r2, t2, webhookUrl, ok2).sent == Handle(ledger, r2, t2, webhookUrl, ok2).sent
  {
  }

  /**
   * `{"message":"hello"}` from a client with no record, with the webhook configured
   * and answering ok: 200 `{ok: true}`, and the ledger now holds `now` for the client.
   */
  lemma HelloAccepted(ledger: map<string, int>, h: Headers, now: int, webhookUrl: Option<string>)
    requires ClientIp(h) !in ledger && Configured(webhookUrl)
    ensures var s := Handle(ledger, Request(Some(MessageBody("hello")), h), now, webhookUrl, RelayOk);
      && Respond(s.outcome) == HttpResponse(200, Some(JObject(map["ok" := JBool(true)])))
      && s.ledger == ledger[ClientIp(h) := now]
      && s.sent == Some(NotificationFor("hello", h))
  {
  }

  /** `{"message":""}` gets 400 "Message is required.". */
  lemma EmptyMessageScenario(ledger: map<string, int>, h: Headers, now: int, webhookUrl: Option<string>, relay: RelayAnswer)
    ensures var s := Handle(ledger, Request(Some(MessageBody("")), h), now, webhookUrl, relay);
      && Respond(s.outcome) == HttpResponse(400, Some(JObject(map["error" := JString("Message is required.")])))
      && s.ledger == ledger
  {
  }
}
