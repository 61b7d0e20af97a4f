/**
 * `WebhookService`: resolves a webhook by name, checks its rate limiter,
 * encodes the payload, publishes the lifecycle events and classifies the
 * HTTP result.
 *
 * What the outside world decides is passed in: the clock reading `now`,
 * whether turning the JSON tree into text failed (`serializeError`), the
 * HTTP result (`http`) and the ISO-8601 instant formatter (`iso`). Events
 * handed to the host's scheduler are appended to `events` in the order
 * they are scheduled; the request that would be posted is returned.
 */
module Service {
  import opened Wrappers
  import opened Responses
  import opened Embeds
  import opened Json
  import opened Payload
  import opened Events
  import opened Config
  import opened RateLimit

  /** What came back from the HTTP call: a status line, or an `IOException`. */
  datatype HttpResult =
    | HttpResponse(code: int, reason: string)
    | TransportError(message: string)

  /** The POST the service issues: the webhook's URL and the JSON body. */
  datatype HttpPost = HttpPost(url: string, body: Json)

  /** The result of one `send`: the outcome, the events published, the request issued. */
  datatype Delivery = Delivery(response: WebhookResponse, events: seq<WebhookEvent>, post: Option<HttpPost>)

  function NotFoundMessage(name: string): string {
    "Webhook not found: " + name
  }

  /** The placeholder outcome carried by the PRE_SEND event. */
  function PreSendResponse(): WebhookResponse {
    Success(0, "Preparing to send webhook")
  }

  /**
   * The decision sequence of `send`, given whether the name resolved
   * (`url`) and whether the limiter admitted the call. Each step
   * short-circuits: resolve, rate-limit, encode, PRE_SEND, HTTP, terminal
   * event. Encoding comes before PRE_SEND, so an encoding failure publishes
   * nothing.
   */
  function Dispatch(
    name: string, embeds: seq<WebhookEmbed>, url: Option<string>, admitted: bool,
    serializeError: Option<string>, http: HttpResult, iso: Instant -> string): (d: Delivery)
    // at most PRE_SEND and one terminal event
    ensures |d.events| <= 2
    // no outcome is successful without a 2xx answer, whose status it carries
    ensures d.response.success ==>
      d.post.Some? && http.HttpResponse? && 200 <= http.code < 300 && d.response.statusCode == http.code
  {
    if url.None? then
      Delivery(Failure(404, NotFoundMessage(name)), [], None)
    else if !admitted then
      var r := Failure(429, "Rate limited");
      Delivery(r, [WebhookEvent(name, embeds, r, RateLimited)], None)
    else if serializeError.Some? then
      Delivery(Failure(400, "Failed to create JSON payload: " + serializeError.value), [], None)
    else
      var pre := WebhookEvent(name, embeds, PreSendResponse(), PreSend);
      var post := HttpPost(url.value, CreateJsonPayload(embeds, iso));
      match http
      case HttpResponse(code, reason) =>
        var ok := 200 <= code < 300;
        var r := if ok then Success(code, reason) else Failure(code, reason);
        Delivery(r, [pre, WebhookEvent(name, embeds, r, if ok then Sent else Failed)], Some(post))
      case TransportError(message) =>
        var r := Failure(500, "Failed to send webhook: " + message);
        Delivery(r, [pre, WebhookEvent(name, embeds, r, Failed)], Some(post))
  }

  /**
   * The event trace of one `send`: every event is about this call, and
   * there is at most one terminal event, which comes last and carries the
   * returned outcome; anything before it is PRE_SEND.
   */
  lemma DispatchEvents(
    name: string, embeds: seq<WebhookEmbed>, url: Option<string>, admitted: bool,
    serializeError: Option<string>, http: HttpResult, iso: Instant -> string)
    ensures var d := Dispatch(name, embeds, url, admitted, serializeError, http, iso);
      && (forall i :: 0 <= i < |d.events| ==> d.events[i].webhookName == name && d.events[i].embeds == embeds)
      && (forall i :: 0 <= i < |d.events| - 1 ==> d.events[i].eventType == PreSend)
      && (d.events != [] ==> IsTerminal(d.events[|d.events| - 1].eventType) && d.events[|d.events| - 1].response == d.response)
  {
    var d := Dispatch(name, embeds, url, admitted, serializeError, http, iso);
    if url.None? {
      assert d.events == [];
    } else if !admitted {
      assert d.events == [WebhookEvent(name, embeds, d.response, RateLimited)];
    } else if serializeError.Some? {
      assert d.events == [];
    } else {
      assert |d.events| == 2 && d.events[0].eventType == PreSend;
      assert d.events[1].response == d.response && d.events[1].eventType != PreSend;
    }
  }

  /**
   * The request is issued exactly when the name resolved, the limiter
   * admitted and encoding succeeded; it goes to the webhook's URL with the
   * encoded payload, and exactly then PRE_SEND is published first, with the
   * placeholder outcome.
   */
  lemma DispatchPosts(
    name: string, embeds: seq<WebhookEmbed>, url: Option<string>, admitted: bool,
    serializeError: Option<string>, http: HttpResult, iso: Instant -> string)
    ensures var d := Dispatch(name, embeds, url, admitted, serializeError, http, iso);
      && (d.post.Some? <==> url.Some? && admitted && serializeError.None?)
      && (d.post.Some? <==> |d.events| == 2)
      && (d.post.Some? ==> d.events[0].response == PreSendResponse())
      && (d.post.Some? ==> d.post.value == HttpPost(url.value, CreateJsonPayload(embeds, iso)))
  {
  }

  /**
   * Once sent, the outcome is the HTTP status line, successful exactly for
   * 2xx, and the terminal event is SENT or FAILED accordingly.
   */
  lemma DispatchClassifies(
    name: string, embeds: seq<WebhookEmbed>, url: Option<string>, admitted: bool,
    serializeError: Option<string>, http: HttpResult, iso: Instant -> string)
    ensures var d := Dispatch(name, embeds, url, admitted, serializeError, http, iso);
      && (d.post.Some? && http.HttpResponse? ==>
            && (d.response.success <==> 200 <= http.code < 300)
            && d.response.statusCode == http.code && d.response.message == http.reason
            && d.events[1].eventType == (if d.response.success then Sent else Failed))
  {
  }

  /** An unknown name: 404, no event, no request. */
  lemma UnknownNameOutcome(name: string, embeds: seq<WebhookEmbed>, admitted: bool,
                           serializeError: Option<string>, http: HttpResult, iso: Instant -> string)
    ensures var d := Dispatch(name, embeds, None, admitted, serializeError, http, iso);
      && d.response == Failure(404, NotFoundMessage(name))
      && d.events == [] && d.post.None?
  {
  }

  /** `sub` occurs in `s` at offset `i`. */
  predicate OccursAt(s: string, sub: string, i: int) {
    0 <= i <= |s| - |sub| && s[i..i + |sub|] == sub
  }

  /** The 404 message says "not found". */
  lemma NotFoundMessageSaysNotFound(name: string)
    ensures exists i :: OccursAt(NotFoundMessage(name), "not found", i)
  {
    assert OccursAt(NotFoundMessage(name), "not found", 8);
  }

  /** A denied limiter: 429 and exactly one RATE_LIMITED event, no PRE_SEND, no request. */
  lemma RateLimitedOutcome(name: string, embeds: seq<WebhookEmbed>, url: string,
                           serializeError: Option<string>, http: HttpResult, iso: Instant -> string)
    ensures var d := Dispatch(name, embeds, Some(url), false, serializeError, http, iso);
      && d.response == Failure(429, "Rate limited")
      && d.events == [WebhookEvent(name, embeds, d.response, RateLimited)]
      && d.post.None?
  {
  }

  /** An encoding failure: 400 and no event at all, PRE_SEND included. */
  lemma EncodingFailureOutcome(name: string, embeds: seq<WebhookEmbed>, url: string, error: string,
                               http: HttpResult, iso: Instant -> string)
    ensures var d := Dispatch(name, embeds, Some(url), true, Some(error), http, iso);
      && !d.response.success && d.response.statusCode == 400
      && d.events == [] && d.post.None?
  {
  }

  /** A transport error: 500 and a FAILED event after PRE_SEND. */
  lemma TransportFailureOutcome(name: string, embeds: seq<WebhookEmbed>, url: string, message: string,
                                iso: Instant -> string)
    ensures var d := Dispatch(name, embeds, Some(url), true, None, TransportError(message), iso);
      && d.response == Failure(500, "Failed to send webhook: " + message)
      && d.events == [WebhookEvent(name, embeds, PreSendResponse(), PreSend),
                      WebhookEvent(name, embeds, d.response, Failed)]
  {
  }

  class WebhookService {
    const config: WebhookConfig
    var limiters: map<string, RateLimiter>
    var events: seq<WebhookEvent>

    /** The registry is consistent, and each name has its own limiter object. */
    ghost predicate Valid()
      reads this, config, limiters.Values
    {
      && config.Valid()
      && (forall a, b :: a in limiters && b in limiters && a != b ==> limiters[a] != limiters[b])
      && (forall n :: n in limiters ==> limiters[n].Valid())
    }

    constructor (config: WebhookConfig)
      requires config.Valid()
      ensures Valid()
      ensures this.config == config && limiters == map[] && events == []
    {
      this.config := config;
      limiters := map[];
      events := [];
    }

    /**
     * `getRateLimiter`: the name's limiter, created on first use from the
     * registry's current limit and period, and reused afterwards.
     */
    method GetRateLimiter(name: string) returns (limiter: RateLimiter)
      requires Valid()
      modifies this`limiters
      ensures Valid()
      ensures name in limiters && limiter == limiters[name]
      ensures name in old(limiters) ==> limiters == old(limiters)
      ensures name !in old(limiters) ==>
        && fresh(limiter) && limiters == old(limiters)[name := limiter]
        && limiter.timestamps == []
        && limiter.maxRequests == config.GetRateLimit(name)
        && limiter.periodNanos == config.GetRateLimitPeriod(name) * NanosPerSecond
    {
      if name in limiters {
        return limiters[name];
      }
      limiter := new RateLimiter(config.GetRateLimit(name), config.GetRateLimitPeriod(name));
      limiters := limiters[name := limiter];
    }

    /**
     * `send(name, embeds)`. An unknown name leaves the limiters alone. A
     * known name's limiter (reused, or created now with an empty window)
     * moves its window as `Acquire` says, and the outcome, the events
     * published and the request issued are those of `Dispatch` with the
     * limiter's decision. No other limiter changes.
     */
    method Send(name: string, embeds: seq<WebhookEmbed>, now: int, serializeError: Option<string>,
                http: HttpResult, iso: Instant -> string)
      returns (response: WebhookResponse, post: Option<HttpPost>)
      requires Valid()
      modifies this, limiters.Values
      ensures Valid()
      ensures config.GetWebhookUrl(name).None? ==>
        && limiters == old(limiters)
        && (forall n :: n in old(limiters) ==> limiters[n].timestamps == old(limiters[n].timestamps))
        && var d := Dispatch(name, embeds, None, false, serializeError, http, iso);
           response == d.response && post == d.post && events == old(events) + d.events
      ensures config.GetWebhookUrl(name).Some? ==>
        && name in limiters
        && limiters == old(limiters)[name := limiters[name]]
        && var l := limiters[name];
           var before := if name in old(limiters) then old(limiters[name].timestamps) else [];
           var decision := Acquire(l.maxRequests, l.periodNanos, before, now);
           var d := Dispatch(name, embeds, config.GetWebhookUrl(name), decision.admitted, serializeError, http, iso);
           && l.timestamps == decision.window
           && response == d.response && post == d.post && events == old(events) + d.events
      ensures name in old(limiters) ==> name in limiters && limiters[name] == old(limiters[name])
      ensures name in limiters && name !in old(limiters) ==>
        && fresh(limiters[name])
        && limiters[name].maxRequests == config.GetRateLimit(name)
        && limiters[name].periodNanos == config.GetRateLimitPeriod(name) * NanosPerSecond
      ensures forall n :: n in old(limiters) && n != name ==>
        n in limiters && limiters[n] == old(limiters[n]) && limiters[n].timestamps == old(limiters[n].timestamps)
    {
      var url := config.GetWebhookUrl(name);
      if url.None? {
        response := Failure(404, NotFoundMessage(name));
        post := None;
        return;
      }
      var admitted := CheckRateLimit(name, now);
      response, post := Deliver(name, embeds, url.value, admitted, serializeError, http, iso);
    }

    /**
     * `getRateLimiter(name).tryAcquire()`: the name's limiter (reused, or
     * created now with an empty window) decides as `Acquire` says; no other
     * limiter changes.
     */
    method CheckRateLimit(name: string, now: int) returns (admitted: bool)
      requires Valid()
      modifies this`limiters, limiters.Values
      ensures Valid()
      ensures name in limiters
      ensures limiters == old(limiters)[name := limiters[name]]
      ensures var l := limiters[name];
        var before := if name in old(limiters) then old(limiters[name].timestamps) else [];
        Decision(admitted, l.timestamps) == Acquire(l.maxRequests, l.periodNanos, before, now)
      ensures name in old(limiters) ==> limiters[name] == old(limiters[name])
      ensures name !in old(limiters) ==>
        && fresh(limiters[name])
        && limiters[name].maxRequests == config.GetRateLimit(name)
        && limiters[name].periodNanos == config.GetRateLimitPeriod(name) * NanosPerSecond
      ensures forall n :: n in old(limiters) && n != name ==>
        n in limiters && limiters[n] == old(limiters[n]) && limiters[n].timestamps == old(limiters[n].timestamps)
    {
      var limiter := GetRateLimiter(name);
      ghost var table := limiters;
      assert forall n :: n in table && n != name ==> table[n] != limiter;
      label Acquiring:
      admitted := limiter.TryAcquire(now);
      assert forall n :: n in table && n != name ==> table[n].timestamps == old@Acquiring(table[n].timestamps);
    }

    /**
     * The steps of `send` after the limiter has decided: report a denial,
     * encode, publish PRE_SEND, post, classify and publish the terminal event.
     */
    method Deliver(name: string, embeds: seq<WebhookEmbed>, url: string, admitted: bool,
                   serializeError: Option<string>, http: HttpResult, iso: Instant -> string)
      returns (response: WebhookResponse, post: Option<HttpPost>)
      modifies this`events
      ensures var d := Dispatch(name, embeds, Some(url), admitted, serializeError, http, iso);
        && response == d.response && post == d.post && events == old(events) + d.events
    {
      if !admitted {
        response := Failure(429, "Rate limited");
        events := events + [WebhookEvent(name, embeds, response, RateLimited)];
        post := None;
        return;
      }
      if serializeError.Some? {
        response := Failure(400, "Failed to create JSON payload: " + serializeError.value);
        post := None;
        return;
      }
      post := Some(HttpPost(url, CreateJsonPayload(embeds, iso)));
      events := events + [WebhookEvent(name, embeds, PreSendResponse(), PreSend)];
      match http {
        case HttpResponse(code, reason) =>
          var ok := 200 <= code < 300;
          response := if ok then Success(code, reason) else Failure(code, reason);
          events := events + [WebhookEvent(name, embeds, response, if ok then Sent else Failed)];
        case TransportError(message) =>
          response := Failure(500, "Failed to send webhook: " + message);
          events := events + [WebhookEvent(name, embeds, response, Failed)];
      }
    }

    /**
     * `send(name, embed)`: sends the one-element list, so everything `Send`
     * promises holds with `[embed]` as the embeds, and every event it
     * publishes carries exactly that embed.
     */
    method SendEmbed(name: string, embed: WebhookEmbed, now: int, serializeError: Option<string>,
                     http: HttpResult, iso: Instant -> string)
      returns (response: WebhookResponse, post: Option<HttpPost>)
      requires Valid()
      modifies this, limiters.Values
      ensures Valid()
      ensures config.GetWebhookUrl(name).None? ==>
        && limiters == old(limiters)
        && (forall n :: n in old(limiters) ==> limiters[n].timestamps == old(limiters[n].timestamps))
        && var d := Dispatch(name, [embed], None, false, serializeError, http, iso);
           response == d.response && post == d.post && events == old(events) + d.events
      ensures config.GetWebhookUrl(name).Some? ==>
        && name in limiters
        && limiters == old(limiters)[name := limiters[name]]
        && var l := limiters[name];
           var before := if name in old(limiters) then old(limiters[name].timestamps) else [];
           var decision := Acquire(l.maxRequests, l.periodNanos, before, now);
           var d := Dispatch(name, [embed], config.GetWebhookUrl(name), decision.admitted, serializeError, http, iso);
           && l.timestamps == decision.window
           && response == d.response && post == d.post && events == old(events) + d.events
      ensures name in old(limiters) ==> name in limiters && limiters[name] == old(limiters[name])
      ensures name in limiters && name !in old(limiters) ==>
        && fresh(limiters[name])
        && limiters[name].maxRequests == config.GetRateLimit(name)
        && limiters[name].periodNanos == config.GetRateLimitPeriod(name) * NanosPerSecond
      ensures forall n :: n in old(limiters) && n != name ==>
        n in limiters && limiters[n] == old(limiters[n]) && limiters[n].timestamps == old(limiters[n].timestamps)
      ensures |events| >= |old(events)|
      ensures forall i :: |old(events)| <= i < |events| ==> events[i].embeds == [embed]
    {
      ghost var before := if name in limiters then limiters[name].timestamps else [];
      var url := config.GetWebhookUrl(name);
      response, post := Send(name, [embed], now, serializeError, http, iso);
      if url.Some? {
        var l := limiters[name];
        DispatchEvents(name, [embed], url, Acquire(l.maxRequests, l.periodNanos, before, now).admitted, serializeError, http, iso);
      } else {
        DispatchEvents(name, [embed], None, false, serializeError, http, iso);
      }
    }

    /** `webhookExists`. */
    function WebhookExists(name: string): (known: bool)
      reads this, config
      ensures known <==> name in config.webhooks
    {
      config.GetWebhookUrl(name).Some?
    }

    /** `registerWebhook`: delegates to the registry. */
    method RegisterWebhook(name: string, url: string) returns (ok: bool)
      requires Valid()
      modifies config`webhooks, config`sections
      ensures Valid()
      ensures ok <==> name !in old(config.webhooks)
      ensures config.webhooks == if ok then old(config.webhooks)[name := url] else old(config.webhooks)
      ensures config.sections == if ok then SetUrl(old(config.sections), name, url) else old(config.sections)
      ensures limiters == old(limiters)
    {
      ok := config.RegisterWebhook(name, url);
    }

    /**
     * `unregisterWebhook`: drops the name's limiter, whether or not the name
     * was registered, then unregisters it.
     */
    method UnregisterWebhook(name: string) returns (ok: bool)
      requires Valid()
      modifies this`limiters, config`webhooks, config`sections
      ensures Valid()
      ensures limiters == old(limiters) - {name}
      ensures ok <==> name in old(config.webhooks)
      ensures config.webhooks == old(config.webhooks) - {name}
      ensures config.sections == if ok then old(config.sections) - {name} else old(config.sections)
    {
      limiters := limiters - {name};
      ok := config.UnregisterWebhook(name);
    }

    /** `getWebhooks`: the registry's copy. */
    method GetWebhooks() returns (m: map<string, string>)
      ensures m == config.webhooks
    {
      m := config.GetWebhooks();
    }
  }

  /**
   * `unregisterWebhook` drops the name's limiter, and for a registered
   * name its whole section. A name registered again and then sent to gets a
   * new limiter, built from the registry (the defaults, if the name had been
   * registered), with an empty window: the call goes out exactly when that
   * limit is positive, and the window then holds only `now`.
   */
  method ReregisterThenSend(s: WebhookService, name: string, url: string, embeds: seq<WebhookEmbed>,
                            now: int, http: HttpResult, iso: Instant -> string)
    returns (removed: bool, registered: bool, response: WebhookResponse, post: Option<HttpPost>)
    requires s.Valid()
    modifies s, s.config`webhooks, s.config`sections, s.limiters.Values
    ensures s.Valid()
    ensures registered
    ensures name in s.limiters && fresh(s.limiters[name])
    ensures s.limiters[name].maxRequests == s.config.GetRateLimit(name)
    ensures removed ==> s.limiters[name].maxRequests == s.config.defaultRateLimit
    ensures post.Some? <==> s.limiters[name].maxRequests > 0
    ensures post.Some? ==> post.value.url == url
    ensures s.limiters[name].timestamps == if post.Some? then [now] else []
  {
    removed := s.UnregisterWebhook(name);
    registered := s.RegisterWebhook(name, url);
    if removed {
      assert s.config.RateLimitSectionOf(name).None?;
    }
    response, post := s.Send(name, embeds, now, None, http, iso);
    DispatchPosts(name, embeds, Some(url), s.limiters[name].maxRequests > 0, None, http, iso);
  }
}
