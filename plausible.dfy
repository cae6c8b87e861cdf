/** The Plausible adapter (src/Analytics/Adapter/Plausible.php): `send`
    provisions a goal named after the event type and then posts the event;
    `validate` reads the visitor count of the aggregate statistics. */
module Plausible {
  import opened Php
  import opened Http
  import opened Events

  const Endpoint: string := "https://plausible.io/api"

  datatype Config = Config(domain: string, apiKey: string, userAgent: string, clientIP: string)

  function Configure(domain: string, apiKey: string, userAgent: string, clientIP: string): (c: Config)
    ensures c.domain == domain && c.apiKey == apiKey && c.userAgent == userAgent && c.clientIP == clientIP
  {
    Config(domain, apiKey, userAgent, clientIP)
  }

  function GoalRequest(cfg: Config, eventName: string): Request {
    Request(PUT, Given(Endpoint + "/v1/sites/goals"),
      [("Content-Type", "application/x-www-form-urlencoded"), ("Authorization", "Bearer " + cfg.apiKey)],
      Payload(Dict([("site_id", Str(cfg.domain)), ("goal_type", Str("event")), ("event_name", Str(eventName))])))
  }

  /** `provisionGoal`: one PUT, then true. */
  function ProvisionGoal(cfg: Config, eventName: string, reply: Reply): (o: Outcome<bool>)
    ensures o.calls == [GoalRequest(cfg, eventName)]
    ensures o.result.Ok? <==> reply.failure.None?
    ensures o.result.Ok? ==> o.result.value
  {
    if reply.failure.Some? then Outcome([GoalRequest(cfg, eventName)], Err(TransportError(reply)))
    else Outcome([GoalRequest(cfg, eventName)], Ok(true))
  }

  /** The event body; Plausible's `name` is the event type. */
  function EventParams(cfg: Config, e: EventData): Assoc<Value> {
    [("url", Str(e.url)), ("props", Dict(e.props)), ("domain", Str(cfg.domain)), ("name", Str(e.eventType)),
     ("referrer", e.Prop("referrer")), ("screen_width", e.Prop("screenWidth"))]
  }

  function EventRequest(cfg: Config, e: EventData): Request {
    Request(POST, Given(Endpoint + "/event"),
      [("X-Forwarded-For", cfg.clientIP), ("User-Agent", cfg.userAgent), ("Content-Type", "application/json")],
      Payload(Dict(EventParams(cfg, e))))
  }

  /** What `send` does; `enabled` is the flag of the adapter base class. */
  function SendOutcome(cfg: Config, enabled: bool, e: EventData, goalReply: Reply, eventReply: Reply): Outcome<bool> {
    if !enabled then Return(false)
    else
      var g := ProvisionGoal(cfg, e.eventType, goalReply);
      match g.result
      case Err(err) => Outcome(g.calls, Err(err))
      case Ok(provisioned) =>
        if !provisioned then Outcome(g.calls, Ok(false))
        else if eventReply.failure.Some? then Outcome(g.calls + [EventRequest(cfg, e)], Err(TransportError(eventReply)))
        else Outcome(g.calls + [EventRequest(cfg, e)], Ok(true))
  }

  /** Disabled, `send` sends nothing; enabled, the goal PUT always comes
      first, the event POST follows unless the PUT threw, and the result is
      true exactly when neither threw. */
  lemma SendOrder(cfg: Config, enabled: bool, e: EventData, goalReply: Reply, eventReply: Reply)
    ensures var o := SendOutcome(cfg, enabled, e, goalReply, eventReply);
      (!enabled ==> o == Return(false)) &&
      (enabled ==> (o.calls[0] == GoalRequest(cfg, e.eventType) &&
        (goalReply.failure.None? ==> o.calls == [GoalRequest(cfg, e.eventType), EventRequest(cfg, e)]) &&
        (goalReply.failure.Some? ==> o.calls == [GoalRequest(cfg, e.eventType)]) &&
        (o.result == Ok(true) <==> goalReply.failure.None? && eventReply.failure.None?)))
  {
  }

  /** The event carries the type as its name, and the referrer and screen
      width props as they are (null when missing). */
  lemma EventFields(cfg: Config, e: EventData)
    ensures Get(EventParams(cfg, e), "name") == Some(Str(e.eventType))
    ensures Get(EventParams(cfg, e), "referrer") == Some(e.Prop("referrer"))
    ensures Get(EventParams(cfg, e), "screen_width") == Some(e.Prop("screenWidth"))
    ensures Keys(EventParams(cfg, e)) == ["url", "props", "domain", "name", "referrer", "screen_width"]
  {
    var p := EventParams(cfg, e);
    assert KeysUnique(p);
    GetAt(p, 3);
    GetAt(p, 4);
    GetAt(p, 5);
  }

  /** The aggregate query filters on a goal named after the event name. */
  function ValidateRequest(cfg: Config, e: EventData, rt: Runtime): Request {
    Request(GET, WithQuery(Endpoint + "/v1/stats/aggregate",
        [("site_id", Str(cfg.domain)), ("filters", Str(rt.jsonEncode(Dict([("goal", Str(e.name))]))))]),
      [("Content-Type", ""), ("Authorization", "Bearer " + cfg.apiKey)], NoBody)
  }

  /** `$checkCreated['results']['visitors']['value']`, null when any step
      is missing or the body is not JSON. */
  function Visitors(decoded: Option<Value>): Value {
    match decoded
    case None => Null
    case Some(v) => At(At(At(v, "results"), "visitors"), "value")
  }

  const ValidationFailed: Error := Exception("Failed to validate event", 0)

  /** What `validate` does. */
  function ValidateOutcome(cfg: Config, enabled: bool, e: EventData, rt: Runtime, reply: Reply): Outcome<bool> {
    if !enabled then Return(false)
    else if IsEmpty(Str(e.eventType)) then Throw("Event type is required")
    else if IsEmpty(Str(e.url)) then Throw("Event URL is required")
    else if reply.failure.Some? then Outcome([ValidateRequest(cfg, e, rt)], Err(TransportError(reply)))
    else
      var value := Visitors(rt.jsonDecode(reply.body));
      if value.Null? then Outcome([ValidateRequest(cfg, e, rt)], Err(ValidationFailed))
      else Outcome([ValidateRequest(cfg, e, rt)], Ok(GreaterThanZero(value)))
  }

  /** The checks run before any request, with the type checked first; a
      response without a visitor count throws; otherwise the result is
      `value > 0`, which for an integer count is the integer comparison. */
  lemma ValidateRule(cfg: Config, enabled: bool, e: EventData, rt: Runtime, reply: Reply)
    ensures var o := ValidateOutcome(cfg, enabled, e, rt, reply);
      (!enabled ==> o == Return(false)) &&
      (enabled && IsEmpty(Str(e.eventType)) ==> o == Throw("Event type is required")) &&
      (enabled && Truthy(Str(e.eventType)) && IsEmpty(Str(e.url)) ==> o == Throw("Event URL is required")) &&
      (o.calls != [] ==> o.calls == [ValidateRequest(cfg, e, rt)]) &&
      (enabled && Truthy(Str(e.eventType)) && Truthy(Str(e.url)) && reply.failure.None? ==>
        (o.result == Err(ValidationFailed) <==> Visitors(rt.jsonDecode(reply.body)).Null?)) &&
      (o.result == Ok(true) ==> (reply.failure.None? && GreaterThanZero(Visitors(rt.jsonDecode(reply.body))))) &&
      (Visitors(rt.jsonDecode(reply.body)).Int? && o.result.Ok? && enabled ==>
        (o.result.value <==> Visitors(rt.jsonDecode(reply.body)).i > 0))
  {
  }

  /** `send` provisions and posts under the event type, but `validate`
      looks the goal up under the event name; they name the same goal only
      when the two agree. */
  lemma GoalNamesDiffer(cfg: Config, e: EventData, rt: Runtime)
    ensures GoalRequest(cfg, e.eventType).body.params.entries[2] == ("event_name", Str(e.eventType))
    ensures ValidateRequest(cfg, e, rt).url.query[1] == ("filters", Str(rt.jsonEncode(Dict([("goal", Str(e.name))]))))
  {
  }
}
