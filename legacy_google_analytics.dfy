/** The stand-alone Google Analytics tracker (src/Analytics/GoogleAnalytics.php),
    which extends the enable/disable gate itself and posts the Measurement
    Protocol form with curl. */
module LegacyGoogleAnalytics {
  import opened Php
  import opened Http
  import Gate
  import GoogleAnalyticsAdapter

  const Url: string := "https://www.google-analytics.com/collect"

  /** The curl request of `prepareCurl`. */
  function CollectRequest(tid: string, cid: string, query: Assoc<Value>): Request {
    Request(POST, Given(Url), [("Content-Type", "application/x-www-form-urlencoded")],
      Form(Merge(GoogleAnalyticsAdapter.Common(GoogleAnalyticsAdapter.Config(tid, cid)), query)))
  }

  /** `execute`: one form POST to the collect URL whose fields are tid, cid
      and v followed by the query (array_merge of disjoint keys appends); a
      curl error is thrown with its message after "Error:". */
  function Execute(tid: string, cid: string, query: Assoc<Value>, reply: Reply): (o: Outcome<bool>)
    ensures |o.calls| == 1 && o.calls[0].verb == POST && o.calls[0].url == Given(Url) && o.calls[0].body.Form?
    ensures KeysUnique(query) && Disjoint(GoogleAnalyticsAdapter.Common(GoogleAnalyticsAdapter.Config(tid, cid)), query) ==>
      o.calls[0].body.fields == [("tid", Str(tid)), ("cid", Str(cid)), ("v", Int(1))] + query
    ensures reply.failure.Some? ==> o.result == Err(Exception("Error:" + reply.failure.value, 0))
    ensures reply.failure.None? ==> o.result == Ok(true)
  {
    var common := GoogleAnalyticsAdapter.Common(GoogleAnalyticsAdapter.Config(tid, cid));
    assert KeysUnique(query) && Disjoint(common, query) ==> Merge(common, query) == common + query by {
      if KeysUnique(query) && Disjoint(common, query) {
        MergeDisjoint(common, query);
      }
    }
    if reply.failure.Some? then Outcome([CollectRequest(tid, cid, query)], Err(Exception("Error:" + reply.failure.value, 0)))
    else Outcome([CollectRequest(tid, cid, query)], Ok(true))
  }

  /** The event and page-view hits post tid, cid and v, then their own
      fields in the order the query literals give them. */
  lemma HitForms(tid: string, cid: string, category: string, action: string, eventLabel: Option<string>,
                 value: Option<int>, hostname: string, page: string, title: Option<string>, reply: Reply)
    ensures Execute(tid, cid, GoogleAnalyticsAdapter.EventQuery(category, action, eventLabel, value), reply).calls[0].body.fields ==
      [("tid", Str(tid)), ("cid", Str(cid)), ("v", Int(1))] + GoogleAnalyticsAdapter.EventQuery(category, action, eventLabel, value)
    ensures Execute(tid, cid, GoogleAnalyticsAdapter.PageViewQuery(hostname, page, title), reply).calls[0].body.fields ==
      [("tid", Str(tid)), ("cid", Str(cid)), ("v", Int(1))] + GoogleAnalyticsAdapter.PageViewQuery(hostname, page, title)
  {
    var common := GoogleAnalyticsAdapter.Common(GoogleAnalyticsAdapter.Config(tid, cid));
    var ev := GoogleAnalyticsAdapter.EventQuery(category, action, eventLabel, value);
    var pv := GoogleAnalyticsAdapter.PageViewQuery(hostname, page, title);
    assert Keys(common) == ["tid", "cid", "v"];
    assert KeysUnique(ev) && Disjoint(common, ev);
    assert KeysUnique(pv) && Disjoint(common, pv);
  }

  class GoogleAnalytics {
    const gate: Gate.Analytics
    const tid: string
    const cid: string

    constructor (tid: string, cid: string)
      ensures this.tid == tid && this.cid == cid && fresh(gate) && gate.enabled
    {
      this.tid := tid;
      this.cid := cid;
      gate := new Gate.Analytics();
    }

    method CreateEvent(category: string, action: string, eventLabel: Option<string>, value: Option<int>, reply: Reply)
      returns (o: Outcome<bool>)
      ensures !gate.enabled ==> o == Return(false)
      ensures gate.enabled ==> o == Execute(tid, cid, GoogleAnalyticsAdapter.EventQuery(category, action, eventLabel, value), reply)
    {
      if !gate.enabled {
        return Return(false);
      }
      var query := [("ec", Str(category)), ("ea", Str(action)), ("el", GoogleAnalyticsAdapter.OptionalString(eventLabel)),
                    ("ev", GoogleAnalyticsAdapter.OptionalInt(value)), ("t", Str("event"))];
      o := Execute(tid, cid, query, reply);
    }

    method CreatePageView(hostname: string, page: string, title: Option<string>, reply: Reply) returns (o: Outcome<bool>)
      ensures !gate.enabled ==> o == Return(false)
      ensures gate.enabled ==> o == Execute(tid, cid, GoogleAnalyticsAdapter.PageViewQuery(hostname, page, title), reply)
    {
      if !gate.enabled {
        return Return(false);
      }
      var query := [("dh", Str(hostname)), ("dp", Str(page)), ("dt", GoogleAnalyticsAdapter.OptionalString(title)),
                    ("t", Str("pageview"))];
      o := Execute(tid, cid, query, reply);
    }
  }

  /** A disabled tracker reports false and sends nothing, and enabling it
      again makes it post once more. */
  method DisableThenEnable(ga: GoogleAnalytics, category: string, action: string, reply: Reply)
    returns (off: Outcome<bool>, on: Outcome<bool>)
    modifies ga.gate
    ensures off == Return(false)
    ensures on.calls == [CollectRequest(ga.tid, ga.cid, GoogleAnalyticsAdapter.EventQuery(category, action, None, None))]
    ensures reply.failure.None? ==> on.result == Ok(true)
    ensures ga.gate.enabled
  {
    ga.gate.Disable();
    off := ga.CreateEvent(category, action, None, None, reply);
    ga.gate.Enable();
    on := ga.CreateEvent(category, action, None, None, reply);
  }
}
