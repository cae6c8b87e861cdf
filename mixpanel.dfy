/** The Mixpanel adapter (src/Analytics/Adapter/Mixpanel.php): a tracked
    event becomes one `/track` POST whose properties start with the token,
    the time and the distinct id, followed by the event's own props. */
module Mixpanel {
  import Text
  import opened Php
  import opened Http
  import opened Events

  /** The adapter's `$endpoint` field. The base class's `call()` prefixes it
      to the path of each request; the recorded requests keep only that path. */
  const Endpoint: string := "https://api.mixpanel.com"

  datatype Config = Config(token: string)

  /** The three properties set before the props are copied. `now` stands in
      for `microtime(true)`, used when the event has no `time` prop. */
  function BaseProperties(cfg: Config, e: EventData, now: Value): Assoc<Value> {
    [("token", Str(cfg.token)), ("time", Coalesce(e.props, "time", now)), ("distinct_id", e.Prop("distinct_id"))]
  }

  /** The `foreach` copy: a prop is written only when its key is not already
      set to a non-null value. */
  function CopyUnset(acc: Assoc<Value>, props: Assoc<Value>): Assoc<Value>
    decreases |props|
  {
    if props == [] then acc
    else
      var n := |props| - 1;
      var before := CopyUnset(acc, props[..n]);
      if Isset(before, props[n].0) then before else Put(before, props[n].0, props[n].1)
  }

  /** A key set in the base keeps its base value; any other key reads the
      prop when there is one, and otherwise still reads the base. */
  lemma {:induction false} CopyUnsetGet(base: Assoc<Value>, props: Assoc<Value>, k: string)
    requires KeysUnique(props)
    ensures Lookup(CopyUnset(base, props), k) ==
      if Isset(base, k) || k !in Keys(props) then Lookup(base, k) else Lookup(props, k)
    decreases |props|
  {
    if props != [] {
      var n := |props| - 1;
      var init := props[..n];
      var last := props[n];
      assert props == init + [last];
      assert KeysUnique(init);
      CopyUnsetGet(base, init, k);
      var before := CopyUnset(base, init);
      KeysAppend(init, [last]);
      GetAppend(init, last.0, last.1, k);
      if !Isset(before, last.0) {
        PutGet(before, last.0, last.1, k);
      }
      if k == last.0 {
        assert k !in Keys(init) by {
          forall i | 0 <= i < n ensures init[i].0 != k { assert init[i] == props[i]; }
        }
        CopyUnsetGet(base, init, last.0);
      }
    }
  }

  /** The copied props come after the base keys, in prop order; a prop whose
      key is a base key stays in the base key's slot. */
  lemma {:induction false} CopyUnsetKeys(base: Assoc<Value>, props: Assoc<Value>)
    requires KeysUnique(props)
    ensures Keys(CopyUnset(base, props)) == Keys(base) + Keys(Drop(props, Keys(base)))
    decreases |props|
  {
    if props != [] {
      var n := |props| - 1;
      SnocUnique(props);
      CopyUnsetKeys(base, props[..n]);
      CopyUnsetKeysStep(base, props[..n], props[n]);
    }
  }

  /** One step of `CopyUnsetKeys`: copying one more prop, with a new key. */
  lemma CopyUnsetKeysStep(base: Assoc<Value>, init: Assoc<Value>, last: (string, Value))
    requires last.0 !in Keys(init)
    requires Keys(CopyUnset(base, init)) == Keys(base) + Keys(Drop(init, Keys(base)))
    ensures Keys(CopyUnset(base, init + [last])) == Keys(base) + Keys(Drop(init + [last], Keys(base)))
  {
    var props := init + [last];
    assert props[..|props| - 1] == init && props[|props| - 1] == last;
    var before := CopyUnset(base, init);
    var d := Drop(init, Keys(base));
    var extra := if last.0 in Keys(base) then [] else [last];
    assert Drop(props, Keys(base)) == d + extra;
    KeysAppend(d, extra);
    DropKeys(init, Keys(base));
    assert last.0 !in Keys(d);
    assert last.0 in Keys(before) <==> last.0 in Keys(base);
    var after := CopyUnset(base, props);
    if last.0 in Keys(base) {
      assert extra == [] && d + extra == d;
      if !Isset(before, last.0) {
        PutKeys(before, last.0, last.1);
      }
      assert Keys(after) == Keys(before);
    } else {
      assert !Isset(before, last.0);
      assert after == Put(before, last.0, last.1);
      PutKeys(before, last.0, last.1);
      assert Keys(after) == Keys(before) + [last.0];
      Text.AppendAssoc(Keys(base), Keys(d), Keys(extra));
    }
  }

  /** `$properties`. */
  function Properties(cfg: Config, e: EventData, now: Value): Assoc<Value> {
    CopyUnset(BaseProperties(cfg, e, now), e.props)
  }

  /** What the base properties read, key by key. */
  lemma BaseLookups(cfg: Config, e: EventData, now: Value, k: string)
    ensures var base := BaseProperties(cfg, e, now);
      Lookup(base, "token") == Str(cfg.token) &&
      Lookup(base, "time") == Coalesce(e.props, "time", now) &&
      Lookup(base, "distinct_id") == e.Prop("distinct_id") &&
      (k != "token" && k != "time" && k != "distinct_id" ==> Lookup(base, k) == Null)
  {
    var base := BaseProperties(cfg, e, now);
    assert KeysUnique(base) && Keys(base) == ["token", "time", "distinct_id"];
    GetAt(base, 0);
    GetAt(base, 1);
    GetAt(base, 2);
  }

  /** A prop never overrides the token, the time or the distinct id, and
      every other prop is passed through under its own key. */
  lemma PropertiesKeepBase(cfg: Config, e: EventData, now: Value, k: string)
    requires KeysUnique(e.props) && now != Null && Truthy(e.Prop("distinct_id"))
    ensures Lookup(Properties(cfg, e, now), "token") == Str(cfg.token)
    ensures Lookup(Properties(cfg, e, now), "time") == Coalesce(e.props, "time", now)
    ensures Lookup(Properties(cfg, e, now), "distinct_id") == e.Prop("distinct_id")
    ensures k != "token" && k != "time" && k != "distinct_id" ==> Lookup(Properties(cfg, e, now), k) == e.Prop(k)
  {
    var base := BaseProperties(cfg, e, now);
    BaseLookups(cfg, e, now, k);
    CopyUnsetGet(base, e.props, "token");
    CopyUnsetGet(base, e.props, "time");
    CopyUnsetGet(base, e.props, "distinct_id");
    if k != "token" && k != "time" && k != "distinct_id" {
      CopyUnsetGet(base, e.props, k);
    }
  }

  /** The property keys: the three base keys, then the other prop keys in
      prop order. */
  lemma PropertiesOrder(cfg: Config, e: EventData, now: Value)
    requires KeysUnique(e.props)
    ensures Keys(Properties(cfg, e, now)) == ["token", "time", "distinct_id"] + Keys(Drop(e.props, ["token", "time", "distinct_id"]))
  {
    var base := BaseProperties(cfg, e, now);
    CopyUnsetKeys(base, e.props);
    assert Keys(base) == ["token", "time", "distinct_id"];
  }

  /** Builds `$properties` with the loop of `send`. */
  method BuildProperties(cfg: Config, e: EventData, now: Value) returns (properties: Assoc<Value>)
    ensures properties == Properties(cfg, e, now)
  {
    properties := BaseProperties(cfg, e, now);
    var props := e.props;
    var i := 0;
    while i < |props|
      invariant 0 <= i <= |props|
      invariant properties == CopyUnset(BaseProperties(cfg, e, now), props[..i])
    {
      assert props[..i + 1][..i] == props[..i];
      if !Isset(properties, props[i].0) {
        properties := Put(properties, props[i].0, props[i].1);
      }
      i := i + 1;
    }
    assert props[..i] == props;
  }

  function TrackRequest(cfg: Config, e: EventData, now: Value): Request {
    Request(POST, Given("/track"), [("Content-Type", "application/json"), ("accept", "text/plain")],
      Payload(List([Dict([("event", Str(e.name)), ("properties", Dict(Properties(cfg, e, now)))])])))
  }

  /** What `send` does: nothing without a distinct id, otherwise one POST
      whose answer must be exactly '1'. */
  function SendOutcome(cfg: Config, e: EventData, now: Value, reply: Reply): Outcome<bool> {
    if !Truthy(e.Prop("distinct_id")) then Return(false)
    else if reply.failure.Some? then Outcome([TrackRequest(cfg, e, now)], Err(TransportError(reply)))
    else Outcome([TrackRequest(cfg, e, now)], Ok(reply.body == "1"))
  }

  method Send(cfg: Config, e: EventData, now: Value, reply: Reply) returns (o: Outcome<bool>)
    ensures o == SendOutcome(cfg, e, now, reply)
  {
    if !Truthy(e.Prop("distinct_id")) {
      return Return(false);
    }
    var properties := BuildProperties(cfg, e, now);
    var payload := List([Dict([("event", Str(e.name)), ("properties", Dict(properties))])]);
    var req := Request(POST, Given("/track"), [("Content-Type", "application/json"), ("accept", "text/plain")], Payload(payload));
    if reply.failure.Some? {
      return Outcome([req], Err(TransportError(reply)));
    }
    return Outcome([req], Ok(reply.body == "1"));
  }

  /** `send` ignores the enabled flag; it sends exactly when the distinct id
      is truthy, and it reports true exactly when the answer is '1'. */
  lemma SendRule(cfg: Config, e: EventData, now: Value, reply: Reply)
    ensures var o := SendOutcome(cfg, e, now, reply);
      (|o.calls| == 1 <==> Truthy(e.Prop("distinct_id"))) && (o.calls == [] ==> o == Return(false)) &&
      (o.result == Ok(true) <==> Truthy(e.Prop("distinct_id")) && reply.failure.None? && reply.body == "1")
  {
  }

  /** What `validate` does; `enabled` is the flag of the adapter base class. */
  function ValidateOutcome(cfg: Config, enabled: bool, e: EventData, now: Value, reply: Reply): Outcome<bool> {
    if !enabled then Return(false)
    else if IsEmpty(e.Prop("distinct_id")) then Throw("Distinct id is required for Mixpanel event")
    else
      var s := SendOutcome(cfg, e, now, reply);
      match s.result
      case Err(err) => Outcome(s.calls, Err(err))
      case Ok(sent) => if sent then Outcome(s.calls, Ok(true)) else Outcome(s.calls, Err(Exception("Failed to send Mixpanel event", 0)))
  }

  method Validate(cfg: Config, enabled: bool, e: EventData, now: Value, reply: Reply) returns (o: Outcome<bool>)
    ensures o == ValidateOutcome(cfg, enabled, e, now, reply)
  {
    if !enabled {
      return Return(false);
    }
    if IsEmpty(e.Prop("distinct_id")) {
      return Throw("Distinct id is required for Mixpanel event");
    }
    var s := Send(cfg, e, now, reply);
    if s.result.Err? {
      return Outcome(s.calls, Err(s.result.error));
    }
    if !s.result.value {
      return Outcome(s.calls, Err(Exception("Failed to send Mixpanel event", 0)));
    }
    return Outcome(s.calls, Ok(true));
  }

  /** `validate` is false only when disabled; when enabled it either returns
      true, exactly when the event was accepted, or throws. */
  lemma ValidateRule(cfg: Config, enabled: bool, e: EventData, now: Value, reply: Reply)
    ensures var o := ValidateOutcome(cfg, enabled, e, now, reply);
      (o.result == Ok(false) <==> !enabled) &&
      (enabled ==> (o.result == Ok(true) <==> SendOutcome(cfg, e, now, reply).result == Ok(true))) &&
      (enabled && IsEmpty(e.Prop("distinct_id")) ==> (o.calls == [] &&
        o.result == Err(Exception("Distinct id is required for Mixpanel event", 0)))) &&
      (enabled && Truthy(e.Prop("distinct_id")) && reply.failure.None? && reply.body != "1" ==>
        o.result == Err(Exception("Failed to send Mixpanel event", 0)))
  {
  }
}
