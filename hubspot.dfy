/** The HubSpot adapter (src/Analytics/Adapter/HubSpot.php): a CRM client
    for contacts, companies and the associations between them, over the
    adapter base class's `call()`. A call that throws is caught and becomes
    `false`. Event tracking itself is a no-op behind the enabled flag. */
module HubSpot {
  import opened Php
  import opened Http

  /** The adapter's `$endpoint` field. The base class's `call()` prefixes it
      to the path of each request; the recorded requests keep only that path. */
  const Endpoint: string := "https://api.hubapi.com"

  /** The default headers the constructor installs for every call. */
  datatype Config = Config(headers: Assoc<string>)

  function Configure(token: string): (c: Config)
    ensures Keys(c.headers) == ["Authorization"]
    ensures Get(c.headers, "Authorization") == Some("Bearer " + token)
  {
    Config([("Authorization", "Bearer " + token)])
  }

  /** `send` and `validate`: nothing is sent, and the result is the flag. */
  function Track(enabled: bool): (o: Outcome<bool>)
    ensures o.calls == [] && o.result == Ok(enabled)
  {
    if !enabled then Return(false) else Return(true)
  }

  const JsonHeaders: Assoc<string> := [("Content-Type", "application/json")]

  // ---- searches ---------------------------------------------------------------

  /** The search body: one filter, `propertyName EQ value`. */
  function SearchBody(propertyName: string, value: string): Value {
    Dict([("filterGroups", Dict([("filters", List([Dict([("value", Str(value)), ("propertyName", Str(propertyName)),
      ("operator", Str("EQ"))])]))]))])
  }

  function SearchRequest(path: string, propertyName: string, value: string): Request {
    Request(GET, Given(path), [], Payload(SearchBody(propertyName, value)))
  }

  /** `$result['results'][0]['id']`. */
  function FirstResultId(result: Value): Value {
    At(AtIndex(At(result, "results"), 0), "id")
  }

  /** The shared shape of `contactExists` and `accountExists`: the first
      match's id if the decoded answer is truthy and counts more than zero
      matches, and false otherwise or when the call throws. */
  function Exists(path: string, propertyName: string, value: string, rt: Runtime, reply: Reply): Outcome<Value> {
    var calls := [SearchRequest(path, propertyName, value)];
    if reply.failure.Some? then Outcome(calls, Ok(Bool(false)))
    else
      var result := match rt.jsonDecode(reply.body) case Some(v) => v case None => Null;
      if Truthy(result) && GreaterThanZero(At(result, "total")) then Outcome(calls, Ok(FirstResultId(result)))
      else Outcome(calls, Ok(Bool(false)))
  }

  /** The search never throws: a thrown call or a body that is not JSON
      answers false. */
  lemma ExistsNeverThrows(path: string, propertyName: string, value: string, rt: Runtime, reply: Reply)
    ensures var o := Exists(path, propertyName, value, rt, reply);
      o.calls == [SearchRequest(path, propertyName, value)] && o.result.Ok? &&
      (reply.failure.Some? || rt.jsonDecode(reply.body).None? ==> o.result.value == Bool(false))
  {
  }

  /** On an answer `{"total": n, "results": rs}` the search gives the first
      result's id when n > 0 and false when n <= 0. */
  lemma ExistsReadsTotal(path: string, propertyName: string, value: string, rt: Runtime, reply: Reply,
                         n: int, results: Value)
    requires reply.failure.None?
    requires rt.jsonDecode(reply.body) == Some(Dict([("total", Int(n)), ("results", results)]))
    ensures Exists(path, propertyName, value, rt, reply).result ==
      Ok(if n > 0 then At(AtIndex(results, 0), "id") else Bool(false))
  {
    var v := Dict([("total", Int(n)), ("results", results)]);
    assert At(v, "total") == Int(n);
    var es := [("total", Int(n)), ("results", results)];
    assert KeysUnique(es);
    GetAt(es, 1);
    assert At(v, "results") == results;
  }

  function ContactExists(email: string, rt: Runtime, reply: Reply): (o: Outcome<Value>)
    ensures o == Exists("/crm/v3/objects/contacts/search", "email", email, rt, reply)
    ensures o.calls[0].body.params == SearchBody("email", email)
  {
    Exists("/crm/v3/objects/contacts/search", "email", email, rt, reply)
  }

  function AccountExists(name: string, rt: Runtime, reply: Reply): (o: Outcome<Value>)
    ensures o == Exists("/crm/v3/objects/companies/search", "name", name, rt, reply)
    ensures o.calls[0].body.params == SearchBody("name", name)
  {
    Exists("/crm/v3/objects/companies/search", "name", name, rt, reply)
  }

  // ---- writes -----------------------------------------------------------------

  /** One call whose result is whether it went through. */
  function Write(req: Request, reply: Reply): (o: Outcome<bool>)
    ensures o.calls == [req] && o.result == Ok(reply.failure.None?)
  {
    Outcome([req], Ok(reply.failure.None?))
  }

  function ContactBody(email: string, firstName: string, lastName: string, phone: string): Value {
    Dict([("contact", Dict([("email", Str(email)), ("firstname", Str(firstName)), ("lastname", Str(lastName)),
      ("phone", Str(phone))]))])
  }

  function CreateContact(email: string, firstName: string, lastName: string, phone: string, reply: Reply): (o: Outcome<bool>)
    ensures o.calls == [Request(POST, Given("/crm/v3/objects/contacts"), JsonHeaders, Payload(ContactBody(email, firstName, lastName, phone)))]
    ensures o.result == Ok(reply.failure.None?)
  {
    Write(Request(POST, Given("/crm/v3/objects/contacts"), JsonHeaders, Payload(ContactBody(email, firstName, lastName, phone))), reply)
  }

  function UpdateContact(contactId: string, email: string, firstName: string, lastName: string, phone: string, reply: Reply): (o: Outcome<bool>)
    ensures o.calls == [Request(PATCH, Given("/crm/v3/objects/contacts/" + contactId), JsonHeaders,
      Payload(ContactBody(email, firstName, lastName, phone)))]
    ensures o.result == Ok(reply.failure.None?)
  {
    Write(Request(PATCH, Given("/crm/v3/objects/contacts/" + contactId), JsonHeaders, Payload(ContactBody(email, firstName, lastName, phone))), reply)
  }

  /** `deleteContact`: the search, then the DELETE only for a truthy id. */
  function DeleteContact(email: string, rt: Runtime, lookup: Reply, reply: Reply): Outcome<bool> {
    var found := ContactExists(email, rt, lookup);
    var contact := found.result.value;
    if !Truthy(contact) then Outcome(found.calls, Ok(false))
    else
      var d := Write(Request(DELETE, Given("/crm/v3/objects/contacts/" + StringOf(contact)), JsonHeaders, NoBody), reply);
      Outcome(found.calls + d.calls, d.result)
  }

  /** The DELETE is sent exactly when the search found a truthy id, names
      that id, and the result is true exactly when it went through. */
  lemma DeleteContactRule(email: string, rt: Runtime, lookup: Reply, reply: Reply)
    ensures var o := DeleteContact(email, rt, lookup, reply);
      var id := ContactExists(email, rt, lookup).result.value;
      o.calls[0] == SearchRequest("/crm/v3/objects/contacts/search", "email", email) &&
      (|o.calls| == 2 <==> Truthy(id)) &&
      (Truthy(id) ==> o.calls[1].verb == DELETE && o.calls[1].url == Given("/crm/v3/objects/contacts/" + StringOf(id))) &&
      (o.result == Ok(true) <==> Truthy(id) && reply.failure.None?) &&
      (lookup.failure.Some? ==> o.result == Ok(false) && |o.calls| == 1)
  {
  }

  function AccountBody(name: string, url: string): Value {
    Dict([("name", Str(name)), ("domain", Str(url))])
  }

  function CreateAccount(name: string, url: string, reply: Reply): (o: Outcome<bool>)
    ensures o.calls == [Request(POST, Given("/crm/v3/objects/companies"), JsonHeaders, Payload(AccountBody(name, url)))]
    ensures o.result == Ok(reply.failure.None?)
  {
    Write(Request(POST, Given("/crm/v3/objects/companies"), JsonHeaders, Payload(AccountBody(name, url))), reply)
  }

  /** `updateAccount`; its owner id and extra fields are accepted and not sent. */
  function UpdateAccount(accountId: string, name: string, url: string, ownerId: int, fields: Assoc<Value>, reply: Reply): (o: Outcome<bool>)
    ensures o.calls == [Request(PATCH, Given("/crm/v3/objects/companies/" + accountId), JsonHeaders, Payload(AccountBody(name, url)))]
    ensures o.result == Ok(reply.failure.None?)
  {
    Write(Request(PATCH, Given("/crm/v3/objects/companies/" + accountId), JsonHeaders, Payload(AccountBody(name, url))), reply)
  }

  function DeleteAccount(accountId: string, reply: Reply): (o: Outcome<bool>)
    ensures o.calls == [Request(DELETE, Given("/crm/v3/objects/companies/" + accountId), JsonHeaders, NoBody)]
    ensures o.result == Ok(reply.failure.None?)
  {
    Write(Request(DELETE, Given("/crm/v3/objects/companies/" + accountId), JsonHeaders, NoBody), reply)
  }

  // ---- syncAssociation --------------------------------------------------------

  function AssociationsPath(accountId: string): string {
    "/crm/v4/objects/contact/" + accountId + "/associations/company"
  }

  /** `$association['from']['id'] == $contactId`, PHP's loose comparison. */
  predicate IsFrom(association: Value, contactId: string) {
    LooselyEquals(At(At(association, "from"), "id"), contactId)
  }

  /** The association id the `foreach` leaves behind: that of the last
      matching association, null when none matches. */
  function LastMatch(associations: seq<Value>, contactId: string): Value
    decreases |associations|
  {
    if associations == [] then Null
    else
      var n := |associations| - 1;
      if IsFrom(associations[n], contactId) then At(associations[n], "id") else LastMatch(associations[..n], contactId)
  }

  /** The loop's answer, stated without the loop: null when nothing
      matches, otherwise the id of the matching entry that no later entry
      overrides. */
  lemma {:induction false} LastMatchIsLast(associations: seq<Value>, contactId: string, j: int)
    requires -1 <= j < |associations|
    requires j >= 0 ==> IsFrom(associations[j], contactId)
    requires forall i :: j < i < |associations| ==> !IsFrom(associations[i], contactId)
    ensures LastMatch(associations, contactId) == if j < 0 then Null else At(associations[j], "id")
    decreases |associations|
  {
    if associations != [] {
      var n := |associations| - 1;
      if j < n {
        assert !IsFrom(associations[n], contactId);
        var init := associations[..n];
        forall i | j < i < |init| ensures !IsFrom(init[i], contactId) {
          assert init[i] == associations[i];
        }
        if j >= 0 {
          assert init[j] == associations[j];
        }
        LastMatchIsLast(init, contactId, j);
      }
    }
  }

  /** The `foreach` over `$response['results']`. */
  method FindAssociation(associations: seq<Value>, contactId: string) returns (associationId: Value)
    ensures associationId == LastMatch(associations, contactId)
  {
    associationId := Null;
    var i := 0;
    while i < |associations|
      invariant 0 <= i <= |associations|
      invariant associationId == LastMatch(associations[..i], contactId)
    {
      assert associations[..i + 1][..i] == associations[..i];
      if IsFrom(associations[i], contactId) {
        associationId := At(associations[i], "id");
      }
      i := i + 1;
    }
    assert associations[..i] == associations;
  }

  const Definition: Assoc<Value> := [("category", Str("HUBSPOT_DEFINED")), ("definitionId", Int(1))]

  function CreateAssociationRequest(accountId: string, contactId: string): Request {
    Request(PUT, Given(AssociationsPath(accountId)), JsonHeaders,
      Payload(Dict([("from", Dict([("id", Str(contactId)), ("type", Str("CONTACT"))])),
                    ("to", Dict([("id", Str(accountId)), ("type", Str("COMPANY"))]))] + Definition)))
  }

  function UpdateAssociationRequest(accountId: string, associationId: Value): Request {
    Request(PATCH, Given(AssociationsPath(accountId) + "/" + StringOf(associationId)), JsonHeaders, Payload(Dict(Definition)))
  }

  /** The associations listed by the GET's answer. */
  function Listed(rt: Runtime, reply: Reply): seq<Value> {
    match rt.jsonDecode(reply.body)
    case None => []
    case Some(v) => Items(At(v, "results"))
  }

  /** The requests `syncAssociation` makes, and whether one of them threw. */
  function SyncCalls(accountId: string, contactId: string, rt: Runtime, lookup: Reply, write: Reply): (seq<Request>, bool) {
    var get := Request(GET, Given(AssociationsPath(accountId)), [], NoBody);
    if lookup.failure.Some? then ([get], true)
    else
      var associationId := LastMatch(Listed(rt, lookup), contactId);
      var second := if IsEmpty(associationId) then CreateAssociationRequest(accountId, contactId)
                    else UpdateAssociationRequest(accountId, associationId);
      ([get, second], write.failure.Some?)
  }

  /** `syncAssociation` as written: a caught exception returns false, but
      the success path falls off the end of a function declared `: bool`,
      which PHP answers with a TypeError. */
  function SyncAssociationAsWritten(accountId: string, contactId: string, rt: Runtime, lookup: Reply, write: Reply): Outcome<bool> {
    var (calls, threw) := SyncCalls(accountId, contactId, rt, lookup, write);
    if threw then Outcome(calls, Ok(false))
    else Outcome(calls, Err(TypeError("HubSpot::syncAssociation(): Return value must be of type bool, none returned")))
  }

  /** Every sync whose calls go through ends in the TypeError. */
  lemma SyncSuccessThrows(accountId: string, contactId: string, rt: Runtime, lookup: Reply, write: Reply)
    requires lookup.failure.None? && write.failure.None?
    ensures SyncAssociationAsWritten(accountId, contactId, rt, lookup, write).result.Err?
    ensures SyncAssociationAsWritten(accountId, contactId, rt, lookup, write).result.error.TypeError?
  {
  }

  /** The intended `syncAssociation`: true when both calls go through. */
  function SyncAssociation(accountId: string, contactId: string, rt: Runtime, lookup: Reply, write: Reply): Outcome<bool> {
    var (calls, threw) := SyncCalls(accountId, contactId, rt, lookup, write);
    Outcome(calls, Ok(!threw))
  }

  /** The sync makes the lookup, then creates the association when the
      contact has none with a non-empty id and otherwise updates the last
      one listed for it; it never throws, and reports true exactly when
      both calls went through. */
  lemma SyncAssociationRule(accountId: string, contactId: string, rt: Runtime, lookup: Reply, write: Reply)
    ensures var o := SyncAssociation(accountId, contactId, rt, lookup, write);
      var id := LastMatch(Listed(rt, lookup), contactId);
      o.calls[0] == Request(GET, Given(AssociationsPath(accountId)), [], NoBody) &&
      (lookup.failure.Some? ==> o == Outcome([o.calls[0]], Ok(false))) &&
      (lookup.failure.None? ==> (|o.calls| == 2 &&
        (IsEmpty(id) ==> o.calls[1] == CreateAssociationRequest(accountId, contactId)) &&
        (Truthy(id) ==> o.calls[1] == UpdateAssociationRequest(accountId, id)))) &&
      (o.result == Ok(true) <==> lookup.failure.None? && write.failure.None?) &&
      SyncAssociationAsWritten(accountId, contactId, rt, lookup, write).calls == o.calls
  {
  }

  /** The intended `syncAssociation`, with the loop of the source. */
  method Sync(accountId: string, contactId: string, rt: Runtime, lookup: Reply, write: Reply) returns (o: Outcome<bool>)
    ensures o == SyncAssociation(accountId, contactId, rt, lookup, write)
  {
    var get := Request(GET, Given(AssociationsPath(accountId)), [], NoBody);
    if lookup.failure.Some? {
      return Outcome([get], Ok(false));
    }
    var associationId := FindAssociation(Listed(rt, lookup), contactId);
    var second;
    if IsEmpty(associationId) {
      second := CreateAssociationRequest(accountId, contactId);
    } else {
      second := UpdateAssociationRequest(accountId, associationId);
    }
    return Outcome([get, second], Ok(write.failure.None?));
  }
}
