/** The ReoDev adapter (src/Analytics/Adapter/ReoDev.php): an event with an
    email becomes one PUT adding a developer to a product list; the props
    other than email, name and account travel JSON-encoded as `data`. */
module ReoDev {
  import opened Php
  import opened Http
  import opened Events

  const DefaultEndpoint: string := "https://ingest.reo.dev/api/"

  datatype Config = Config(endpoint: string, email: string, apiKey: string, listId: string)

  function Configure(email: string, apiKey: string, listId: string): (c: Config)
    ensures c.endpoint == DefaultEndpoint && c.email == email && c.apiKey == apiKey && c.listId == listId
  {
    Config(DefaultEndpoint, email, apiKey, listId)
  }

  /** The props carried in the body's own fields. */
  const IdentityKeys: seq<string> := ["email", "name", "account"]

  /** The body for a developer, given the JSON text of the remaining props. */
  function DeveloperBody(e: EventData, data: string): Value {
    Dict([
      ("type", Str("DEVELOPER")),
      ("entities", List([Dict([
        ("primaryKey", e.Prop("email")),
        ("clientKey", Str("email")),
        ("fieldType", Str("String")),
        ("companyData", Dict([
          ("name", e.Prop("name")),
          ("action", Str(e.eventType)),
          ("label", Str(e.name)),
          ("url", Str(e.url)),
          ("account", e.Prop("account")),
          ("data", Str(data))]))])]))])
  }

  function ListRequest(cfg: Config, body: Value): Request {
    Request(PUT, Given(cfg.endpoint + "/product/list/" + cfg.listId),
      [("Content-Type", "application/json"), ("x-api-key", cfg.apiKey), ("user", cfg.email)], Payload(body))
  }

  /** What `send` does: nothing without an email, otherwise one PUT, after
      which it reports true unless the call throws. */
  function SendOutcome(cfg: Config, e: EventData, rt: Runtime, reply: Reply): Outcome<bool> {
    if !Truthy(e.Prop("email")) then Return(false)
    else
      var req := ListRequest(cfg, DeveloperBody(e, rt.jsonEncode(Dict(Drop(e.props, IdentityKeys)))));
      if reply.failure.Some? then Outcome([req], Err(TransportError(reply))) else Outcome([req], Ok(true))
  }

  /** `send`: the three `unset`s on a copy of the props, then the PUT. */
  method Send(cfg: Config, e: EventData, rt: Runtime, reply: Reply) returns (o: Outcome<bool>)
    ensures o == SendOutcome(cfg, e, rt, reply)
  {
    if !Truthy(e.Prop("email")) {
      return Return(false);
    }
    var data := e.props;
    data := Remove(data, "email");
    data := Remove(data, "name");
    data := Remove(data, "account");
    StripsIdentity(e.props);
    var req := ListRequest(cfg, DeveloperBody(e, rt.jsonEncode(Dict(data))));
    if reply.failure.Some? {
      return Outcome([req], Err(TransportError(reply)));
    }
    return Outcome([req], Ok(true));
  }

  /** Unsetting the three keys in turn drops exactly those keys and keeps
      every other prop, in order. */
  lemma StripsIdentity(props: Assoc<Value>)
    ensures Remove(Remove(Remove(props, "email"), "name"), "account") == Drop(props, IdentityKeys)
  {
    RemoveThree(props, "email", "name", "account");
  }

  lemma RemoveTwo(a: Assoc<Value>, k1: string, k2: string)
    ensures Remove(Remove(a, k1), k2) == Drop(a, [k1, k2])
  {
    RemoveIsDrop(a, k1);
    RemoveIsDrop(Remove(a, k1), k2);
    DropTwice(a, [k1], [k2]);
    assert [k1] + [k2] == [k1, k2];
  }

  lemma RemoveThree(a: Assoc<Value>, k1: string, k2: string, k3: string)
    ensures Remove(Remove(Remove(a, k1), k2), k3) == Drop(a, [k1, k2, k3])
  {
    var r2 := Remove(Remove(a, k1), k2);
    RemoveTwo(a, k1, k2);
    RemoveIsDrop(r2, k3);
    DropTwice(a, [k1, k2], [k3]);
    assert [k1, k2] + [k3] == [k1, k2, k3];
  }

  /** Every prop except email, name and account reaches `data` unchanged. */
  lemma DataKeepsOtherProps(props: Assoc<Value>, k: string)
    requires KeysUnique(props)
    ensures Get(Drop(props, IdentityKeys), k) == if k in IdentityKeys then None else Get(props, k)
  {
    DropGet(props, IdentityKeys, k);
  }

  /** `send` sends exactly when the email is truthy and then reports true
      unless the call threw; the entity is keyed by that email. */
  lemma SendRule(cfg: Config, e: EventData, rt: Runtime, reply: Reply)
    ensures var o := SendOutcome(cfg, e, rt, reply);
      (o.calls == [] <==> IsEmpty(e.Prop("email"))) && (o.calls == [] ==> o == Return(false)) &&
      (Truthy(e.Prop("email")) ==> ((o.result.Ok? <==> reply.failure.None?) && (o.result.Ok? ==> o.result.value) &&
        o.calls[0].verb == PUT && o.calls[0].body.params.entries[1].1.items[0].entries[0] == ("primaryKey", e.Prop("email"))))
  {
  }
}
