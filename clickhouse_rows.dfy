/** The pure half of the ClickHouse adapter (src/Analytics/Adapter/ClickHouse.php):
    identifier guarding, event sanity checks, and the mapping of one event to
    one JSONEachRow row of dimension columns plus parallel meta arrays. */
module ClickHouseRows {
  import opened Text
  import opened Php
  import opened Http
  import opened Events

  // ---- identifiers ---------------------------------------------------------

  predicate IsIdentStart(c: char) { 'A' <= c <= 'Z' || 'a' <= c <= 'z' || c == '_' }

  predicate IsIdentChar(c: char) { IsIdentStart(c) || '0' <= c <= '9' }

  /** `[A-Za-z_][A-Za-z0-9_]*` covering the whole string. */
  predicate IsIdentifier(s: string) {
    |s| > 0 && IsIdentStart(s[0]) && forall i :: 1 <= i < |s| ==> IsIdentChar(s[i])
  }

  /** What `preg_match('/^[A-Za-z_][A-Za-z0-9_]*$/', $s)` accepts. Without the
      D modifier PCRE's `$` also matches just before a final "\n". */
  predicate PcreAcceptsIdentifier(s: string) {
    IsIdentifier(s) || (|s| > 1 && s[|s| - 1] == '\n' && IsIdentifier(s[..|s| - 1]))
  }

  function InvalidIdentifier(id: string): Error {
    Exception("Invalid ClickHouse identifier: " + id, 0)
  }

  /** `guardIdentifier` as written: it passes "events\n". */
  function GuardIdentifierAsWritten(id: string): (r: Result<()>)
    ensures r.Ok? <==> PcreAcceptsIdentifier(id)
    ensures r.Err? ==> r.error == InvalidIdentifier(id)
  {
    if PcreAcceptsIdentifier(id) then Ok(()) else Err(InvalidIdentifier(id))
  }

  /** A name ending in a newline passes the guard as written although it is
      not an identifier, so a control character reaches the SQL text. */
  lemma GuardAdmitsTrailingNewline()
    ensures GuardIdentifierAsWritten("events\n").Ok?
    ensures !IsIdentifier("events\n") && '\n' in "events\n"
  {
    assert "events\n"[..6] == "events";
    assert !IsIdentChar("events\n"[6]);
  }

  /** `guardIdentifier` as intended (a `$` that is end of subject, the D
      modifier): a name passes exactly when it is letters, digits and
      underscores not starting with a digit. */
  function GuardIdentifier(id: string): (r: Result<()>)
    ensures r.Ok? <==> IsIdentifier(id)
    ensures r.Ok? ==> |id| > 0 && forall i :: 0 <= i < |id| ==> IsIdentChar(id[i])
    ensures r.Err? ==> r.error == InvalidIdentifier(id)
  {
    if IsIdentifier(id) then Ok(()) else Err(InvalidIdentifier(id))
  }

  /** The corrected guard differs from the one as written only on names
      with a final newline. */
  lemma GuardsAgreeOffNewline(id: string)
    requires id == [] || id[|id| - 1] != '\n'
    ensures GuardIdentifier(id) == GuardIdentifierAsWritten(id)
  {
  }

  // ---- configuration -------------------------------------------------------

  const DefaultDatabase: string := "analytics"
  const DefaultTable: string := "events"
  const DefaultUsername: string := "default"

  datatype Config = Config(endpoint: string, database: string, table: string, username: string, password: string)

  /** The constructor as written: trailing '/' stripped from the endpoint,
      then the database and then the table passed through the guard as
      written, so a name with one final "\n" is accepted. */
  function ConfigureAsWritten(endpoint: string, database: string, table: string, username: string, password: string): (r: Result<Config>)
    ensures r.Ok? <==> PcreAcceptsIdentifier(database) && PcreAcceptsIdentifier(table)
    ensures !PcreAcceptsIdentifier(database) ==> r == Err(InvalidIdentifier(database))
    ensures PcreAcceptsIdentifier(database) && !PcreAcceptsIdentifier(table) ==> r == Err(InvalidIdentifier(table))
    ensures r.Ok? ==> r.value == Config(RTrimChar(endpoint, '/'), database, table, username, password)
  {
    var ep := RTrimChar(endpoint, '/');
    match GuardIdentifierAsWritten(database)
    case Err(e) => Err(e)
    case Ok(_) =>
      match GuardIdentifierAsWritten(table)
      case Err(e) => Err(e)
      case Ok(_) => Ok(Config(ep, database, table, username, password))
  }

  /** The adapter as written is built on the database "analytics\n", which
      then reaches every SQL statement; the corrected constructor refuses it. */
  lemma ConstructorAdmitsTrailingNewline()
    ensures ConfigureAsWritten("http://ch:8123", "analytics\n", "events", "default", "").Ok?
    ensures Configure("http://ch:8123", "analytics\n", "events", "default", "") == Err(InvalidIdentifier("analytics\n"))
  {
    assert "analytics\n"[..9] == "analytics";
    assert !IsIdentChar("analytics\n"[9]);
    assert IsIdentifier("events") by {
      assert forall i :: 1 <= i < 6 ==> IsIdentChar("events"[i]);
    }
  }

  /** The two constructors agree on every pair of names without a final
      newline. */
  lemma ConstructorsAgreeOffNewline(endpoint: string, database: string, table: string, username: string, password: string)
    requires database == [] || database[|database| - 1] != '\n'
    requires table == [] || table[|table| - 1] != '\n'
    ensures Configure(endpoint, database, table, username, password) ==
      ConfigureAsWritten(endpoint, database, table, username, password)
  {
    GuardsAgreeOffNewline(database);
    GuardsAgreeOffNewline(table);
  }

  /** The constructor as intended: trailing '/' stripped from the endpoint,
      then the database and then the table guarded by `GuardIdentifier`. */
  function Configure(endpoint: string, database: string, table: string, username: string, password: string): (r: Result<Config>)
    ensures r.Ok? <==> IsIdentifier(database) && IsIdentifier(table)
    ensures !IsIdentifier(database) ==> r == Err(InvalidIdentifier(database))
    ensures IsIdentifier(database) && !IsIdentifier(table) ==> r == Err(InvalidIdentifier(table))
    ensures r.Ok? ==> (r.value.database == database && r.value.table == table &&
      r.value.username == username && r.value.password == password)
    ensures r.Ok? ==> |r.value.endpoint| <= |endpoint| && r.value.endpoint == endpoint[..|r.value.endpoint|]
    ensures r.Ok? ==> forall i :: |r.value.endpoint| <= i < |endpoint| ==> endpoint[i] == '/'
    ensures r.Ok? ==> r.value.endpoint == [] || r.value.endpoint[|r.value.endpoint| - 1] != '/'
  {
    var ep := RTrimChar(endpoint, '/');
    match GuardIdentifier(database)
    case Err(e) => Err(e)
    case Ok(_) =>
      match GuardIdentifier(table)
      case Err(e) => Err(e)
      case Ok(_) => Ok(Config(ep, database, table, username, password))
  }

  // ---- event sanity --------------------------------------------------------

  /** `assertEventIsValid`: type, then URL, then name must be non-empty in
      the sense of PHP's `empty()`. */
  function ValidateEvent(e: EventData): (r: Result<()>)
    ensures r.Ok? <==> Truthy(Str(e.eventType)) && Truthy(Str(e.url)) && Truthy(Str(e.name))
    ensures IsEmpty(Str(e.eventType)) ==> r == Err(Exception("Event type is required", 0))
    ensures Truthy(Str(e.eventType)) && IsEmpty(Str(e.url)) ==> r == Err(Exception("Event URL is required", 0))
    ensures Truthy(Str(e.eventType)) && Truthy(Str(e.url)) && IsEmpty(Str(e.name)) ==>
      r == Err(Exception("Event name is required", 0))
  {
    if IsEmpty(Str(e.eventType)) then Err(Exception("Event type is required", 0))
    else if IsEmpty(Str(e.url)) then Err(Exception("Event URL is required", 0))
    else if IsEmpty(Str(e.name)) then Err(Exception("Event name is required", 0))
    else Ok(())
  }

  /** The failure `send` stops at: that of the first invalid event of the batch. */
  function FirstInvalid(events: seq<EventData>): Option<Error>
    decreases |events|
  {
    if events == [] then None
    else
      var before := FirstInvalid(events[..|events| - 1]);
      if before.Some? then before
      else
        var last := ValidateEvent(events[|events| - 1]);
        if last.Err? then Some(last.error) else None
  }

  /** One failing event makes the whole batch fail. */
  lemma InvalidEventFails(events: seq<EventData>, i: nat)
    requires i < |events| && ValidateEvent(events[i]).Err?
    ensures FirstInvalid(events).Some?
  {
    FirstInvalidIsFirst(events);
  }

  /** A batch passes exactly when each of its events passes, and otherwise
      fails with the error of its first failing event. */
  lemma {:induction false} FirstInvalidIsFirst(events: seq<EventData>)
    ensures FirstInvalid(events).None? <==> forall i :: 0 <= i < |events| ==> ValidateEvent(events[i]).Ok?
    ensures FirstInvalid(events).Some? ==> exists i :: (0 <= i < |events| &&
      ValidateEvent(events[i]) == Err(FirstInvalid(events).value) &&
      forall j :: 0 <= j < i ==> ValidateEvent(events[j]).Ok?)
    decreases |events|
  {
    if events != [] {
      var n := |events| - 1;
      var init := events[..n];
      FirstInvalidIsFirst(init);
      assert forall i :: 0 <= i < n ==> init[i] == events[i];
      if FirstInvalid(init).Some? {
        var i :| 0 <= i < |init| && ValidateEvent(init[i]) == Err(FirstInvalid(init).value) &&
          forall j :: 0 <= j < i ==> ValidateEvent(init[j]).Ok?;
        assert ValidateEvent(events[i]) == Err(FirstInvalid(events).value);
      } else if ValidateEvent(events[n]).Err? {
        assert ValidateEvent(events[n]) == Err(FirstInvalid(events).value);
      }
    }
  }

  /** Extending a batch that has passed so far by one event. */
  lemma FirstInvalidSnoc(events: seq<EventData>, i: nat)
    requires i < |events| && FirstInvalid(events[..i]).None?
    ensures FirstInvalid(events[..i + 1]) ==
      (if ValidateEvent(events[i]).Err? then Some(ValidateEvent(events[i]).error) else None)
  {
    assert events[..i + 1][..i] == events[..i];
  }

  /** Once a prefix has failed, the whole batch fails the same way. */
  lemma {:induction false} FirstInvalidOfPrefix(events: seq<EventData>, k: nat)
    requires k <= |events| && FirstInvalid(events[..k]).Some?
    ensures FirstInvalid(events) == FirstInvalid(events[..k])
    decreases |events| - k
  {
    if k < |events| {
      assert events[..k + 1][..k] == events[..k];
      FirstInvalidOfPrefix(events, k + 1);
    } else {
      assert events[..k] == events;
    }
  }

  // ---- dimensions ----------------------------------------------------------

  /** The prop-backed dimension columns: column name, prop key, and the value
      used when the prop is missing or null. */
  const PropColumns: seq<(string, string, Value)> := [
    ("referrer", "referrer", Str("")),
    ("referrerSource", "referrer_source", Str("")),
    ("countryCode", "country_code", Str("")),
    ("screenSize", "screen_size", Str("")),
    ("operatingSystem", "operating_system", Str("")),
    ("operatingSystemVersion", "operating_system_version", Str("")),
    ("browser", "browser", Str("")),
    ("browserVersion", "browser_version", Str("")),
    ("utmMedium", "utm_medium", Str("")),
    ("utmSource", "utm_source", Str("")),
    ("utmCampaign", "utm_campaign", Str("")),
    ("utmContent", "utm_content", Str("")),
    ("utmTerm", "utm_term", Str("")),
    ("revenueReportingAmount", "revenue_reporting_amount", Null),
    ("revenueReportingCurrency", "revenue_reporting_currency", Str("")),
    ("revenueSourceAmount", "revenue_source_amount", Null),
    ("revenueSourceCurrency", "revenue_source_currency", Str(""))
  ]

  /** The dimension column names, in the order `buildDimensions` lists them. */
  const DimensionColumns: seq<string> := [
    "eventType", "eventName", "url", "hostName", "pathName",
    "referrer", "referrerSource", "countryCode", "screenSize", "operatingSystem",
    "operatingSystemVersion", "browser", "browserVersion", "utmMedium", "utmSource",
    "utmCampaign", "utmContent", "utmTerm", "revenueReportingAmount",
    "revenueReportingCurrency", "revenueSourceAmount", "revenueSourceCurrency"
  ]

  /** `$urlParts['host'] ?? ''`. */
  function HostName(parts: UrlParts): string {
    if parts.host.Some? then parts.host.value else ""
  }

  /** `($urlParts['path'] ?? '/') . (isset($urlParts['query']) ? '?' . $urlParts['query'] : '')`. */
  function PathName(parts: UrlParts): string {
    (if parts.path.Some? then parts.path.value else "/") +
    (if parts.query.Some? then "?" + parts.query.value else "")
  }

  /** The path name splits back into the path (or '/') and the query at its
      first '?', and has no '?' when there is no query. */
  lemma PathNameSplits(parts: UrlParts)
    requires parts.path.None? || '?' !in parts.path.value
    ensures var path := if parts.path.Some? then parts.path.value else "/";
      SplitFirst(PathName(parts), '?') ==
        if parts.query.Some? then Some2(path, parts.query.value) else None2
  {
    var path := if parts.path.Some? then parts.path.value else "/";
    assert '?' !in path;
    if parts.query.Some? {
      var s := PathName(parts);
      assert s == path + ['?'] + parts.query.value;
      FirstIndexAt(path, parts.query.value, '?');
      assert s[..|path|] == path && s[|path| + 1..] == parts.query.value;
    }
  }

  /** The `$dimensions` array of one event. */
  function Dimensions(e: EventData, rt: Runtime): (d: Assoc<Value>)
    ensures |d| == |DimensionColumns|
  {
    var parts := rt.parseUrl(e.url);
    [("eventType", Str(e.eventType)), ("eventName", Str(e.name)), ("url", Str(e.url)),
     ("hostName", Str(HostName(parts))), ("pathName", Str(PathName(parts)))] +
    seq(|PropColumns|, i requires 0 <= i < |PropColumns| =>
      (PropColumns[i].0, Coalesce(e.props, PropColumns[i].1, PropColumns[i].2)))
  }

  /** `array_keys($dimensions)` is the same fixed column list for every event. */
  lemma DimensionKeys(e: EventData, rt: Runtime)
    ensures Keys(Dimensions(e, rt)) == DimensionColumns
  {
    var parts := rt.parseUrl(e.url);
    var head := [("eventType", Str(e.eventType)), ("eventName", Str(e.name)), ("url", Str(e.url)),
     ("hostName", Str(HostName(parts))), ("pathName", Str(PathName(parts)))];
    var tail := seq(|PropColumns|, i requires 0 <= i < |PropColumns| =>
      (PropColumns[i].0, Coalesce(e.props, PropColumns[i].1, PropColumns[i].2)));
    assert Dimensions(e, rt) == head + tail;
    KeysAppend(head, tail);
    PropColumnNames();
    assert Keys(tail) == DimensionColumns[5..];
    assert Keys(head) == DimensionColumns[..5];
    assert DimensionColumns == DimensionColumns[..5] + DimensionColumns[5..];
  }

  /** The prop-backed columns are the dimension columns after the first five. */
  lemma PropColumnNames()
    ensures forall i :: 0 <= i < |PropColumns| ==> PropColumns[i].0 == DimensionColumns[5 + i]
  {
  }

  /** Each prop-backed column holds its prop, or its default when the prop is
      missing or null ('' except for the two revenue amounts, which get null). */
  lemma DimensionReadsProp(e: EventData, rt: Runtime, i: nat)
    requires i < |PropColumns|
    ensures Dimensions(e, rt)[5 + i] == (PropColumns[i].0, Coalesce(e.props, PropColumns[i].1, PropColumns[i].2))
    ensures Lookup(e.props, PropColumns[i].1) == Null ==>
      Dimensions(e, rt)[5 + i].1 == (if PropColumns[i].0 in ["revenueReportingAmount", "revenueSourceAmount"] then Null else Str(""))
  {
  }

  // ---- meta arrays ---------------------------------------------------------

  /** `stringifyMetaValue`: '' for null, the `(string)` cast for a scalar,
      JSON for anything else. */
  function StringifyMetaValue(v: Value, rt: Runtime): (r: string)
    ensures v.Null? ==> r == ""
    ensures IsScalar(v) ==> r == StringOf(v)
    ensures !v.Null? && !IsScalar(v) ==> r == rt.jsonEncode(v)
  {
    if v.Null? then "" else if IsScalar(v) then StringOf(v) else rt.jsonEncode(v)
  }

  /** The text of a string or an int meta value reads back as that value. */
  lemma MetaValueReadsBack(v: Value, rt: Runtime)
    ensures v.Str? ==> StringifyMetaValue(v, rt) == v.s
    ensures v.Int? ==> IsDecimal(StringifyMetaValue(v, rt)) && ParseDecimal(StringifyMetaValue(v, rt)) == v.i
    ensures v.Bool? ==> StringifyMetaValue(v, rt) == (if v.b then "1" else "")
  {
    if v.Int? { IntToStringRoundTrip(v.i); }
  }

  /** `$metaKeys`: the prop keys outside `reserved`, in prop order. */
  function MetaKeys(props: Assoc<Value>, reserved: seq<string>): seq<string>
    decreases |props|
  {
    if props == [] then []
    else
      var n := |props| - 1;
      MetaKeys(props[..n], reserved) + (if props[n].0 in reserved then [] else [props[n].0])
  }

  /** `$metaValues`: the stringified values of the same props, in the same order. */
  function MetaValues(props: Assoc<Value>, reserved: seq<string>, rt: Runtime): seq<string>
    decreases |props|
  {
    if props == [] then []
    else
      var n := |props| - 1;
      MetaValues(props[..n], reserved, rt) +
        (if props[n].0 in reserved then [] else [StringifyMetaValue(props[n].1, rt)])
  }

  /** A key is a meta key exactly when it is a prop key outside `reserved`. */
  lemma {:induction false} MetaKeyIff(props: Assoc<Value>, reserved: seq<string>, k: string)
    ensures k in MetaKeys(props, reserved) <==> k in Keys(props) && k !in reserved
    decreases |props|
  {
    if props != [] {
      var n := |props| - 1;
      assert props == props[..n] + [props[n]];
      MetaKeyIff(props[..n], reserved, k);
      KeysAppend(props[..n], [props[n]]);
    }
  }

  /** The meta keys are exactly the prop keys outside `reserved`. */
  lemma MetaKeysExactly(props: Assoc<Value>, reserved: seq<string>)
    ensures forall k :: k in MetaKeys(props, reserved) <==> k in Keys(props) && k !in reserved
  {
    forall k ensures k in MetaKeys(props, reserved) <==> k in Keys(props) && k !in reserved {
      MetaKeyIff(props, reserved, k);
    }
  }

  /** The reserved list holds the column names, not the prop keys the
      columns are read from: a prop such as `referrer_source` both fills its
      column and is repeated as a meta key, while `referrer` and `browser`,
      whose prop key is the column name, are not repeated. */
  lemma PropBackedColumnsRepeatInMeta(props: Assoc<Value>)
    ensures forall i :: 0 <= i < |PropColumns| ==>
      (PropColumns[i].1 in Keys(props) ==> (PropColumns[i].1 in MetaKeys(props, DimensionColumns) <==> PropColumns[i].1 !in DimensionColumns))
    ensures "referrer_source" !in DimensionColumns && "referrer" in DimensionColumns
  {
    MetaKeysExactly(props, DimensionColumns);
  }

  /** Each meta key's value sits at the same position of `metaValue`, and the
      two arrays have the same length. */
  lemma {:induction false} MetaAligned(props: Assoc<Value>, reserved: seq<string>, rt: Runtime)
    requires KeysUnique(props)
    ensures |MetaKeys(props, reserved)| == |MetaValues(props, reserved, rt)|
    ensures forall i :: 0 <= i < |MetaKeys(props, reserved)| ==>
      MetaValues(props, reserved, rt)[i] == StringifyMetaValue(Lookup(props, MetaKeys(props, reserved)[i]), rt)
    decreases |props|
  {
    if props != [] {
      var n := |props| - 1;
      SnocUnique(props);
      MetaAligned(props[..n], reserved, rt);
      MetaAlignedStep(props[..n], props[n], reserved, rt);
    }
  }

  /** One step of `MetaAligned`: appending a prop with a new key. */
  lemma MetaAlignedStep(init: Assoc<Value>, last: (string, Value), reserved: seq<string>, rt: Runtime)
    requires last.0 !in Keys(init)
    requires |MetaKeys(init, reserved)| == |MetaValues(init, reserved, rt)|
    requires forall i :: 0 <= i < |MetaKeys(init, reserved)| ==>
      MetaValues(init, reserved, rt)[i] == StringifyMetaValue(Lookup(init, MetaKeys(init, reserved)[i]), rt)
    ensures |MetaKeys(init + [last], reserved)| == |MetaValues(init + [last], reserved, rt)|
    ensures forall i :: 0 <= i < |MetaKeys(init + [last], reserved)| ==>
      MetaValues(init + [last], reserved, rt)[i] == StringifyMetaValue(Lookup(init + [last], MetaKeys(init + [last], reserved)[i]), rt)
  {
    var props := init + [last];
    assert props[..|props| - 1] == init && props[|props| - 1] == last;
    var mk, mv := MetaKeys(init, reserved), MetaValues(init, reserved, rt);
    var extra := if last.0 in reserved then [] else [last.0];
    var extraValue := if last.0 in reserved then [] else [StringifyMetaValue(last.1, rt)];
    assert MetaKeys(props, reserved) == mk + extra;
    assert MetaValues(props, reserved, rt) == mv + extraValue;
    forall i | 0 <= i < |mk + extra|
      ensures (mv + extraValue)[i] == StringifyMetaValue(Lookup(props, (mk + extra)[i]), rt)
    {
      if i < |mk| {
        assert mk[i] in mk;
        MetaKeyIff(init, reserved, mk[i]);
        GetAppend(init, last.0, last.1, mk[i]);
      } else {
        GetAppend(init, last.0, last.1, last.0);
      }
    }
  }

  /** Meta keys keep the order the props have: the meta keys of earlier
      props come before those of later props. */
  lemma {:induction false} MetaKeysInPropOrder(a: Assoc<Value>, b: Assoc<Value>, reserved: seq<string>)
    ensures MetaKeys(a + b, reserved) == MetaKeys(a, reserved) + MetaKeys(b, reserved)
    decreases |b|
  {
    if b == [] {
      assert a + b == a;
    } else {
      var m := |b| - 1;
      assert (a + b)[..|a + b| - 1] == a + b[..m] && (a + b)[|a + b| - 1] == b[m];
      MetaKeysInPropOrder(a, b[..m], reserved);
    }
  }

  // ---- rows ----------------------------------------------------------------

  /** The five columns appended to the dimensions of every row. */
  const RowTailColumns: seq<string> := ["metaKey", "metaValue", "userAgent", "clientIp", "createdAt"]

  function StrList(xs: seq<string>): (v: Value)
    ensures v.List? && |v.items| == |xs| && forall i :: 0 <= i < |xs| ==> v.items[i] == Str(xs[i])
  {
    List(seq(|xs|, i requires 0 <= i < |xs| => Str(xs[i])))
  }

  /** The five columns that follow the dimensions: the meta arrays, the
      client's user agent and IP (or '') and the creation time. */
  function RowTail(metaKeys: seq<string>, metaValues: seq<string>, userAgent: Option<string>, clientIP: Option<string>, now: string): (tail: Assoc<Value>)
    ensures Keys(tail) == RowTailColumns && KeysUnique(tail)
  {
    [("metaKey", StrList(metaKeys)),
     ("metaValue", StrList(metaValues)),
     ("userAgent", Str(if userAgent.Some? then userAgent.value else "")),
     ("clientIp", Str(if clientIP.Some? then clientIP.value else "")),
     ("createdAt", Str(now))]
  }

  /** One JSONEachRow row: the dimensions merged with the tail columns; the
      creation time is supplied by the caller in place of the clock. */
  function Row(e: EventData, rt: Runtime, userAgent: Option<string>, clientIP: Option<string>, now: string): Assoc<Value> {
    var dims := Dimensions(e, rt);
    var reserved := Keys(dims);
    Merge(dims, RowTail(MetaKeys(e.props, reserved), MetaValues(e.props, reserved, rt), userAgent, clientIP, now))
  }

  lemma TailColumnsAreNew()
    ensures forall i :: 0 <= i < |RowTailColumns| ==> RowTailColumns[i] !in DimensionColumns
  {
  }

  /** A row is the dimension columns followed by the five tail columns, in
      the order of the INSERT statement's column list. */
  lemma RowShape(e: EventData, rt: Runtime, userAgent: Option<string>, clientIP: Option<string>, now: string)
    ensures Keys(Row(e, rt, userAgent, clientIP, now)) == DimensionColumns + RowTailColumns
    ensures Row(e, rt, userAgent, clientIP, now)[..|DimensionColumns|] == Dimensions(e, rt)
  {
    var dims := Dimensions(e, rt);
    DimensionKeys(e, rt);
    var reserved := Keys(dims);
    var tail := RowTail(MetaKeys(e.props, reserved), MetaValues(e.props, reserved, rt), userAgent, clientIP, now);
    TailColumnsAreNew();
    assert Disjoint(dims, tail) by {
      forall i | 0 <= i < |tail| ensures tail[i].0 !in Keys(dims) {
        assert tail[i].0 == Keys(tail)[i] == RowTailColumns[i];
      }
    }
    MergeDisjoint(dims, tail);
    KeysAppend(dims, tail);
    assert (dims + tail)[..|dims|] == dims;
  }

  /** `f` applied to each element, in order. */
  function MapEach<A, B>(f: A -> B, xs: seq<A>): (ys: seq<B>)
    ensures |ys| == |xs|
    ensures forall i :: 0 <= i < |xs| ==> ys[i] == f(xs[i])
    decreases |xs|
  {
    if xs == [] then []
    else
      var n := |xs| - 1;
      assert forall i :: 0 <= i < n ==> xs[..n][i] == xs[i];
      MapEach(f, xs[..n]) + [f(xs[n])]
  }

  /** The `$rows` of a batch whose events all passed: one row per event, in order. */
  function Rows(events: seq<EventData>, rt: Runtime, userAgent: Option<string>, clientIP: Option<string>, now: string): (rows: seq<Assoc<Value>>)
    ensures |rows| == |events|
    ensures forall i :: 0 <= i < |events| ==> rows[i] == Row(events[i], rt, userAgent, clientIP, now)
  {
    MapEach(e => Row(e, rt, userAgent, clientIP, now), events)
  }
}
