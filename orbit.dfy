/** The Orbit adapter (src/Analytics/Adapter/Orbit.php): an event with an
    email becomes one activity POST carrying the activity and the member's
    identity, with null and '' entries left out of both. */
module Orbit {
  import opened Php
  import opened Http
  import opened Events

  const BaseEndpoint: string := "https://app.orbit.love/api/v1/"

  datatype Config = Config(endpoint: string, apiKey: string, dataOrigin: string)

  /** The constructor appends the workspace id to the base endpoint. */
  function Configure(workspaceId: string, apiKey: string, dataOrigin: string): (c: Config)
    ensures |c.endpoint| == |BaseEndpoint| + |workspaceId|
    ensures c.endpoint[..|BaseEndpoint|] == BaseEndpoint && c.endpoint[|BaseEndpoint|..] == workspaceId
    ensures c.apiKey == apiKey && c.dataOrigin == dataOrigin
  {
    Config(BaseEndpoint + workspaceId, apiKey, dataOrigin)
  }

  function Activity(e: EventData): Assoc<Value> {
    FilterNonEmpty([("title", Str(e.name)), ("activity_type_key", Str(e.eventType))])
  }

  function Identity(cfg: Config, e: EventData): Assoc<Value> {
    FilterNonEmpty([("source", Str(cfg.dataOrigin)), ("email", e.Prop("email")), ("username", e.Prop("username"))])
  }

  function ActivityRequest(cfg: Config, e: EventData): Request {
    Request(POST, Given(cfg.endpoint + "/activities"),
      [("Content-Type", "application/json"), ("Authorization", "Bearer " + cfg.apiKey)],
      Payload(Dict([("activity", Dict(Activity(e))), ("identity", Dict(Identity(cfg, e)))])))
  }

  /** What `send` does: nothing without an email, otherwise one POST, after
      which it reports true whatever the answer (unless the call throws). */
  function SendOutcome(cfg: Config, e: EventData, reply: Reply): Outcome<bool> {
    if !Truthy(e.Prop("email")) then Return(false)
    else if reply.failure.Some? then Outcome([ActivityRequest(cfg, e)], Err(TransportError(reply)))
    else Outcome([ActivityRequest(cfg, e)], Ok(true))
  }

  /** `send` does not look at the enabled flag: it sends exactly when the
      email is truthy, and then reports true unless the call threw. */
  lemma SendRule(cfg: Config, e: EventData, reply: Reply)
    ensures var o := SendOutcome(cfg, e, reply);
      (o.calls == [] <==> IsEmpty(e.Prop("email"))) && (o.calls == [] ==> o == Return(false)) &&
      (Truthy(e.Prop("email")) ==> (o.result.Ok? <==> reply.failure.None?) && (o.result.Ok? ==> o.result.value))
  {
  }

  /** The filter keeps an activity entry exactly when it is not '': the
      title and the type are each left out when empty. */
  lemma ActivityEntries(e: EventData)
    ensures Get(Activity(e), "title") == if e.name == "" then None else Some(Str(e.name))
    ensures Get(Activity(e), "activity_type_key") == if e.eventType == "" then None else Some(Str(e.eventType))
  {
    var act := [("title", Str(e.name)), ("activity_type_key", Str(e.eventType))];
    assert KeysUnique(act);
    FilterGet(act, "title");
    FilterGet(act, "activity_type_key");
  }

  /** Past the guard the email is always kept; the username is kept only
      when set to a non-empty value, and the source unless the data origin
      is ''. */
  lemma IdentityEntries(cfg: Config, e: EventData)
    requires Truthy(e.Prop("email"))
    ensures Get(Identity(cfg, e), "email") == Some(e.Prop("email"))
    ensures Get(Identity(cfg, e), "username") == if KeepEntry(e.Prop("username")) then Some(e.Prop("username")) else None
    ensures Get(Identity(cfg, e), "source") == if cfg.dataOrigin == "" then None else Some(Str(cfg.dataOrigin))
  {
    var id := [("source", Str(cfg.dataOrigin)), ("email", e.Prop("email")), ("username", e.Prop("username"))];
    assert KeysUnique(id);
    GetAt(id, 0);
    GetAt(id, 1);
    GetAt(id, 2);
    assert KeepEntry(e.Prop("email"));
    FilterGet(id, "email");
    FilterGet(id, "username");
    FilterGet(id, "source");
  }
}
