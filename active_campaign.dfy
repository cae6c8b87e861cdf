/** The ActiveCampaign adapter (src/Analytics/Adapter/ActiveCampaign.php):
    events are form posts to the event endpoint; contacts are looked up,
    created and deleted through the account's REST API. Every transport
    failure becomes `false`: nothing here throws. */
module ActiveCampaign {
  import opened Php
  import opened Http
  import opened Events

  const Endpoint: string := "https://trackcmp.net/event"

  datatype Config = Config(key: string, actid: string, apiKey: string, organisationID: string, email: string)

  function Configure(key: string, actid: string, apiKey: string, organisationID: string, email: string): (c: Config)
    ensures c.key == key && c.actid == actid && c.apiKey == apiKey
    ensures c.organisationID == organisationID && c.email == email
  {
    Config(key, actid, apiKey, organisationID, email)
  }

  /** The account's contacts collection. */
  function ContactsUrl(cfg: Config): string {
    "https://" + cfg.organisationID + ".api-us1.com/api/3/contacts"
  }

  // ---- contactExists --------------------------------------------------------

  function LookupRequest(cfg: Config, email: string): Request {
    Request(GET, WithQuery(ContactsUrl(cfg), [("email", Str(email))]), [("Api-Token", cfg.apiKey)], NoBody)
  }

  /** `json_decode($body, true)['meta']['total']`. */
  function Total(decoded: Option<Value>): Value {
    match decoded
    case None => Null
    case Some(v) => At(At(v, "meta"), "total")
  }

  /** `json_decode($body, true)['contacts'][0]['id']`. */
  function FirstContactId(decoded: Option<Value>): Value {
    match decoded
    case None => Null
    case Some(v) => At(AtIndex(At(v, "contacts"), 0), "id")
  }

  /** `contactExists`: the first contact's id when the search counted more
      than zero contacts, and false otherwise or on a transport error. */
  function ContactExists(cfg: Config, email: string, rt: Runtime, reply: Reply): (o: Outcome<Value>)
    ensures o.calls == [LookupRequest(cfg, email)]
    ensures reply.failure.Some? ==> o.result == Ok(Bool(false))
    ensures reply.failure.None? && GreaterThanZero(Total(rt.jsonDecode(reply.body))) ==>
      o.result == Ok(FirstContactId(rt.jsonDecode(reply.body)))
    ensures reply.failure.None? && !GreaterThanZero(Total(rt.jsonDecode(reply.body))) ==> o.result == Ok(Bool(false))
  {
    var calls := [LookupRequest(cfg, email)];
    if reply.failure.Some? then Outcome(calls, Ok(Bool(false)))
    else
      var decoded := rt.jsonDecode(reply.body);
      if GreaterThanZero(Total(decoded)) then Outcome(calls, Ok(FirstContactId(decoded)))
      else Outcome(calls, Ok(Bool(false)))
  }

  /** A body that is not JSON, or that has no positive count, means no
      contact. */
  lemma NoCountNoContact(cfg: Config, email: string, rt: Runtime, reply: Reply)
    requires reply.failure.None?
    requires rt.jsonDecode(reply.body).None? || Total(rt.jsonDecode(reply.body)) == Null
    ensures ContactExists(cfg, email, rt, reply).result == Ok(Bool(false))
  {
  }

  /** On an answer `{"meta": {"total": n}, "contacts": cs}` the lookup gives
      the first contact's id when n > 0 and false when n <= 0. */
  lemma ContactExistsReadsTotal(cfg: Config, email: string, rt: Runtime, reply: Reply, n: int, contacts: Value)
    requires reply.failure.None?
    requires rt.jsonDecode(reply.body) == Some(Dict([("meta", Dict([("total", Int(n))])), ("contacts", contacts)]))
    ensures ContactExists(cfg, email, rt, reply).result == Ok(if n > 0 then At(AtIndex(contacts, 0), "id") else Bool(false))
  {
    var v := Dict([("meta", Dict([("total", Int(n))])), ("contacts", contacts)]);
    assert At(v, "meta") == Dict([("total", Int(n))]);
    assert At(At(v, "meta"), "total") == Int(n);
    var es := [("meta", Dict([("total", Int(n))])), ("contacts", contacts)];
    assert KeysUnique(es);
    GetAt(es, 1);
    assert At(v, "contacts") == contacts;
  }

  // ---- createContact --------------------------------------------------------

  function CreateContactRequest(cfg: Config, email: string, firstName: string, lastName: string, rt: Runtime): Request {
    Request(POST, Given(ContactsUrl(cfg)), [("Content-Type", "application/json"), ("Api-Token", cfg.apiKey)],
      Text(rt.jsonEncode(Dict([("contact", Dict([("email", Str(email)), ("firstName", Str(firstName)), ("lastName", Str(lastName))]))]))))
  }

  /** `createContact`: true exactly when the API answered 201 Created. */
  function CreateContact(cfg: Config, email: string, firstName: string, lastName: string, rt: Runtime, reply: Reply): (o: Outcome<bool>)
    ensures o.calls == [CreateContactRequest(cfg, email, firstName, lastName, rt)]
    ensures o.result.Ok?
    ensures o.result.value <==> reply.failure.None? && reply.status == 201
  {
    Outcome([CreateContactRequest(cfg, email, firstName, lastName, rt)], Ok(reply.failure.None? && reply.status == 201))
  }

  // ---- deleteContact --------------------------------------------------------

  function DeleteContactRequest(cfg: Config, contact: Value): Request {
    Request(DELETE, Given(ContactsUrl(cfg) + "/" + StringOf(contact)), [("Api-Token", cfg.apiKey)], NoBody)
  }

  /** `deleteContact`: the lookup, then, only for a truthy id, the DELETE
      of that contact. */
  function DeleteContact(cfg: Config, email: string, rt: Runtime, lookup: Reply, reply: Reply): Outcome<bool> {
    var found := ContactExists(cfg, email, rt, lookup);
    var contact := found.result.value;
    if !Truthy(contact) then Outcome(found.calls, Ok(false))
    else
      Outcome(found.calls + [DeleteContactRequest(cfg, contact)], Ok(reply.failure.None? && reply.status == 200))
  }

  /** The DELETE goes out exactly when the lookup found a truthy id, it
      names that id, and the result is true exactly when it answered 200. */
  lemma DeleteContactRule(cfg: Config, email: string, rt: Runtime, lookup: Reply, reply: Reply)
    ensures var o := DeleteContact(cfg, email, rt, lookup, reply);
      var id := ContactExists(cfg, email, rt, lookup).result.value;
      o.calls[0] == LookupRequest(cfg, email) && o.result.Ok? &&
      (|o.calls| == 2 <==> Truthy(id)) &&
      (Truthy(id) ==> (o.calls[1] == DeleteContactRequest(cfg, id) &&
        (id.Int? ==> o.calls[1].url == Given(ContactsUrl(cfg) + "/" + Text.IntToString(id.i))))) &&
      (o.result.value <==> Truthy(id) && reply.failure.None? && reply.status == 200) &&
      (lookup.failure.Some? ==> o.calls == [LookupRequest(cfg, email)] && !o.result.value)
  {
  }

  // ---- createEvent ----------------------------------------------------------

  /** The event fields before filtering. */
  function EventQuery(cfg: Config, e: EventData, rt: Runtime): Assoc<Value> {
    [("key", Str(cfg.key)), ("event", Str(e.name)), ("actid", Str(cfg.actid)),
     ("eventdata", Str(rt.jsonEncode(Dict(e.props)))),
     ("visit", Str(rt.jsonEncode(Dict([("email", e.Prop("email"))]))))]
  }

  function EventRequest(cfg: Config, e: EventData, rt: Runtime): Request {
    Request(POST, Given(Endpoint), [("Content-Type", "application/x-www-form-urlencoded")],
      Form(FilterNonEmpty(EventQuery(cfg, e, rt))))
  }

  /** `createEvent`; `enabled` is the flag of the adapter base class. */
  function CreateEvent(cfg: Config, enabled: bool, e: EventData, rt: Runtime, reply: Reply): (o: Outcome<bool>)
    ensures !enabled ==> o == Return(false)
    ensures enabled ==> o.calls == [EventRequest(cfg, e, rt)]
    ensures o.result.Ok? && (o.result.value <==> enabled && reply.failure.None?)
  {
    if !enabled then Return(false)
    else Outcome([EventRequest(cfg, e, rt)], Ok(reply.failure.None?))
  }

  /** The posted form keeps the key, the name and the actid exactly when
      they are not ''; the two JSON fields are kept unless their encoding
      is empty. */
  lemma EventFormFields(cfg: Config, e: EventData, rt: Runtime)
    ensures var f := FilterNonEmpty(EventQuery(cfg, e, rt));
      Get(f, "key") == (if cfg.key == "" then None else Some(Str(cfg.key))) &&
      Get(f, "event") == (if e.name == "" then None else Some(Str(e.name))) &&
      Get(f, "actid") == (if cfg.actid == "" then None else Some(Str(cfg.actid))) &&
      (rt.jsonEncode(Dict(e.props)) != "" ==> Get(f, "eventdata") == Some(Str(rt.jsonEncode(Dict(e.props))))) &&
      (rt.jsonEncode(Dict([("email", e.Prop("email"))])) != "" ==>
        Get(f, "visit") == Some(Str(rt.jsonEncode(Dict([("email", e.Prop("email"))])))))
  {
    var q := EventQuery(cfg, e, rt);
    assert KeysUnique(q);
    FilterAtIndex(q, 0);
    FilterAtIndex(q, 1);
    FilterAtIndex(q, 2);
    FilterAtIndex(q, 3);
    FilterAtIndex(q, 4);
  }
}
