/** The Google Analytics adapter (src/Analytics/Adapter/GoogleAnalytics.php):
    events and page views become one form POST of the Measurement Protocol
    fields, gated by the adapter's enabled flag. */
module GoogleAnalyticsAdapter {
  import opened Php
  import opened Http

  /** The adapter's `$endpoint` field. The base class's `call()` prefixes it
      to the path of each request; the recorded requests keep only that path. */
  const Endpoint: string := "https://www.google-analytics.com/collect"

  datatype Config = Config(tid: string, cid: string)

  function OptionalString(s: Option<string>): Value {
    match s
    case None => Null
    case Some(t) => Str(t)
  }

  function OptionalInt(i: Option<int>): Value {
    match i
    case None => Null
    case Some(n) => Int(n)
  }

  /** The fields every hit starts with. */
  function Common(cfg: Config): Assoc<Value> {
    [("tid", Str(cfg.tid)), ("cid", Str(cfg.cid)), ("v", Int(1))]
  }

  function EventQuery(category: string, action: string, eventLabel: Option<string>, value: Option<int>): Assoc<Value> {
    [("ec", Str(category)), ("ea", Str(action)), ("el", OptionalString(eventLabel)), ("ev", OptionalInt(value)), ("t", Str("event"))]
  }

  function PageViewQuery(hostname: string, page: string, title: Option<string>): Assoc<Value> {
    [("dh", Str(hostname)), ("dp", Str(page)), ("dt", OptionalString(title)), ("t", Str("pageview"))]
  }

  /** The base class's `execute(POST, '', ...)` with the merged fields. */
  function HitRequest(cfg: Config, query: Assoc<Value>): Request {
    Request(POST, Given(""), [("content-type", "application/x-www-form-urlencoded")], Payload(Dict(Merge(Common(cfg), query))))
  }

  function Hit(cfg: Config, enabled: bool, query: Assoc<Value>, reply: Reply): Outcome<bool> {
    if !enabled then Return(false)
    else if reply.failure.Some? then Outcome([HitRequest(cfg, query)], Err(TransportError(reply)))
    else Outcome([HitRequest(cfg, query)], Ok(true))
  }

  function CreateEvent(cfg: Config, enabled: bool, category: string, action: string, eventLabel: Option<string>,
                       value: Option<int>, reply: Reply): (o: Outcome<bool>)
    ensures !enabled ==> o == Return(false)
    ensures enabled ==> o.calls == [HitRequest(cfg, EventQuery(category, action, eventLabel, value))]
    ensures enabled ==> (o.result.Ok? <==> reply.failure.None?) && (o.result.Ok? ==> o.result.value)
  {
    Hit(cfg, enabled, EventQuery(category, action, eventLabel, value), reply)
  }

  function CreatePageView(cfg: Config, enabled: bool, hostname: string, page: string, title: Option<string>,
                          reply: Reply): (o: Outcome<bool>)
    ensures !enabled ==> o == Return(false)
    ensures enabled ==> o.calls == [HitRequest(cfg, PageViewQuery(hostname, page, title))]
    ensures enabled ==> (o.result.Ok? <==> reply.failure.None?) && (o.result.Ok? ==> o.result.value)
  {
    Hit(cfg, enabled, PageViewQuery(hostname, page, title), reply)
  }

  /** The hit's fields are tid, cid and v = 1, then the event's or the page
      view's own fields in order: no key of the hit collides with them. */
  lemma HitFields(cfg: Config, category: string, action: string, eventLabel: Option<string>, value: Option<int>,
                  hostname: string, page: string, title: Option<string>)
    ensures Merge(Common(cfg), EventQuery(category, action, eventLabel, value)) == Common(cfg) + EventQuery(category, action, eventLabel, value)
    ensures Merge(Common(cfg), PageViewQuery(hostname, page, title)) == Common(cfg) + PageViewQuery(hostname, page, title)
  {
    var ev := EventQuery(category, action, eventLabel, value);
    var pv := PageViewQuery(hostname, page, title);
    assert Keys(Common(cfg)) == ["tid", "cid", "v"];
    assert KeysUnique(ev) && Disjoint(Common(cfg), ev);
    assert KeysUnique(pv) && Disjoint(Common(cfg), pv);
    MergeDisjoint(Common(cfg), ev);
    MergeDisjoint(Common(cfg), pv);
  }
}
