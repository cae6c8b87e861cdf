/** The ClickHouse adapter (src/Analytics/Adapter/ClickHouse.php): how
    `execute` turns SQL, named parameters and JSONEachRow rows into one
    HTTP POST and how it reads the answer, the `send`/`validate` flows built
    on it, and the adapter object with its once-only schema flag. */
module ClickHouseAdapter {
  import opened Text
  import opened Php
  import opened Http
  import opened Events
  import opened ClickHouseRows
  import Gate

  // ---- SQL statements ------------------------------------------------------

  /** `database.table`; both parts passed the identifier guard. */
  function Target(cfg: Config): string { cfg.database + "." + cfg.table }

  /** The indentation of a column line in the INSERT text. */
  const ColumnIndent: string := "                "

  /** One indented line per column, each but the last ending in ','. */
  function ColumnLines(cols: seq<string>): (lines: seq<string>)
    ensures |lines| == |cols|
    ensures forall i :: 0 <= i < |cols| ==> lines[i] == ColumnIndent + cols[i] + (if i < |cols| - 1 then "," else "")
  {
    seq(|cols|, i requires 0 <= i < |cols| => ColumnIndent + cols[i] + (if i < |cols| - 1 then "," else ""))
  }

  /** The lines of the INSERT statement: the target, one line per column
      of a row in row order, and the closing format clause. */
  function InsertLines(cfg: Config): seq<string> {
    ["INSERT INTO " + Target(cfg) + " ("] + ColumnLines(DimensionColumns + RowTailColumns) + ["            ) FORMAT JSONEachRow"]
  }

  function InsertSql(cfg: Config): string {
    Join(InsertLines(cfg), "\n")
  }

  /** With newline-free names, the INSERT text splits back into its lines:
      the target line, then one line per column name, in row order. */
  lemma InsertSqlLines(cfg: Config)
    requires '\n' !in cfg.database && '\n' !in cfg.table
    ensures SplitOn(InsertSql(cfg), '\n') == InsertLines(cfg)
    ensures |InsertLines(cfg)| == |DimensionColumns + RowTailColumns| + 2
  {
    var cols := DimensionColumns + RowTailColumns;
    var lines := InsertLines(cfg);
    ColumnsHaveNoNewline();
    forall i | 0 <= i < |lines| ensures '\n' !in lines[i] {
      if 0 < i < |lines| - 1 {
        assert lines[i] == ColumnLines(cols)[i - 1];
      }
    }
    SplitJoin(lines, '\n');
  }

  lemma ColumnsHaveNoNewline()
    ensures forall i :: 0 <= i < |DimensionColumns + RowTailColumns| ==> '\n' !in (DimensionColumns + RowTailColumns)[i]
  {
    var cols := DimensionColumns + RowTailColumns;
    DimensionColumnsHaveNoNewline();
    TailColumnsHaveNoNewline();
    assert forall i :: 0 <= i < |cols| ==>
      cols[i] == if i < |DimensionColumns| then DimensionColumns[i] else RowTailColumns[i - |DimensionColumns|];
  }

  lemma DimensionColumnsHaveNoNewline()
    ensures forall i :: 0 <= i < |DimensionColumns| ==> '\n' !in DimensionColumns[i]
  {
    var cols := DimensionColumns;
    HeadColumnsHaveNoNewline();
    MiddleColumnsHaveNoNewline();
    LastColumnsHaveNoNewline();
    assert forall i :: 0 <= i < |cols| ==>
      cols[i] == if i < 8 then cols[..8][i] else if i < 16 then cols[8..16][i - 8] else cols[16..][i - 16];
  }

  lemma HeadColumnsHaveNoNewline()
    ensures forall i :: 0 <= i < 8 ==> '\n' !in DimensionColumns[..8][i]
  {
  }

  lemma MiddleColumnsHaveNoNewline()
    ensures forall i :: 0 <= i < 8 ==> '\n' !in DimensionColumns[8..16][i]
  {
  }

  lemma LastColumnsHaveNoNewline()
    ensures forall i :: 0 <= i < 6 ==> '\n' !in DimensionColumns[16..][i]
  {
  }

  lemma TailColumnsHaveNoNewline()
    ensures forall i :: 0 <= i < |RowTailColumns| ==> '\n' !in RowTailColumns[i]
  {
  }

  function SelectSql(cfg: Config): string {
    "SELECT count() AS cnt FROM " + Target(cfg) +
    " WHERE eventType = {eventType:String} AND eventName = {eventName:String} AND url = {url:String} FORMAT JSON"
  }

  /** The column types, codecs and MergeTree settings of the table; their
      text is not reproduced. */
  const TableSchema: string := "(...) ENGINE = MergeTree()"

  function CreateTableSql(cfg: Config): string {
    "CREATE TABLE IF NOT EXISTS " + Target(cfg) + " " + TableSchema
  }

  function DropTableSql(cfg: Config): string {
    "DROP TABLE IF EXISTS " + Target(cfg)
  }

  // ---- the request `execute` sends -----------------------------------------

  /** `$paramPayload`: every named parameter under its `param_` key. */
  function ParamPayload(params: Assoc<Value>): Assoc<Value>
    decreases |params|
  {
    if params == [] then []
    else
      var n := |params| - 1;
      Put(ParamPayload(params[..n]), "param_" + params[n].0, params[n].1)
  }

  /** The parameters with their keys prefixed, entry by entry. */
  function Prefixed(params: Assoc<Value>): (r: Assoc<Value>)
    ensures |r| == |params|
    ensures forall i :: 0 <= i < |params| ==> r[i] == ("param_" + params[i].0, params[i].1)
  {
    seq(|params|, i requires 0 <= i < |params| => ("param_" + params[i].0, params[i].1))
  }

  lemma PrefixInjective(p: string, a: string, b: string)
    ensures p + a == p + b <==> a == b
  {
    if p + a == p + b {
      assert a == (p + a)[|p|..] && b == (p + b)[|p|..];
    }
  }

  /** Distinct parameter names give distinct `param_` keys. */
  lemma PrefixedUnique(params: Assoc<Value>)
    requires KeysUnique(params)
    ensures KeysUnique(Prefixed(params))
  {
    var r := Prefixed(params);
    forall i, j | 0 <= i < j < |r| ensures r[i].0 != r[j].0 {
      PrefixInjective("param_", params[i].0, params[j].0);
    }
  }

  /** Prefixing an array with one more, new, entry. */
  lemma PrefixedSnoc(init: Assoc<Value>, last: (string, Value))
    requires last.0 !in Keys(init)
    ensures "param_" + last.0 !in Keys(Prefixed(init))
    ensures Prefixed(init + [last]) == Prefixed(init) + [("param_" + last.0, last.1)]
  {
    var k := "param_" + last.0;
    forall i | 0 <= i < |init| ensures Prefixed(init)[i].0 != k {
      PrefixInjective("param_", init[i].0, last.0);
    }
    var a, b := Prefixed(init + [last]), Prefixed(init) + [(k, last.1)];
    forall i | 0 <= i < |a| ensures a[i] == b[i] {
      if i < |init| { assert (init + [last])[i] == init[i]; }
    }
  }

  /** With distinct parameter names, the payload is the prefixed parameters
      in their own order. */
  lemma {:induction false} ParamPayloadIsPrefixed(params: Assoc<Value>)
    requires KeysUnique(params)
    ensures ParamPayload(params) == Prefixed(params)
    ensures KeysUnique(Prefixed(params))
    decreases |params|
  {
    PrefixedUnique(params);
    if params != [] {
      var n := |params| - 1;
      SnocUnique(params);
      ParamPayloadIsPrefixed(params[..n]);
      PrefixedSnoc(params[..n], params[n]);
    }
  }

  /** `$queryParams`: database and user, the parameters, and the password
      unless it is empty. */
  function QueryParams(cfg: Config, params: Assoc<Value>): Assoc<Value> {
    var q := Merge([("database", Str(cfg.database)), ("user", Str(cfg.username))], ParamPayload(params));
    if IsEmpty(Str(cfg.password)) then q else Put(q, "password", Str(cfg.password))
  }

  /** No `param_` key collides with database, user or password, so the query
      is those fixed keys around the prefixed parameters, in order. */
  lemma QueryParamsShape(cfg: Config, params: Assoc<Value>)
    requires KeysUnique(params)
    ensures QueryParams(cfg, params) ==
      [("database", Str(cfg.database)), ("user", Str(cfg.username))] + Prefixed(params) +
      (if IsEmpty(Str(cfg.password)) then [] else [("password", Str(cfg.password))])
  {
    var base := [("database", Str(cfg.database)), ("user", Str(cfg.username))];
    var pp := Prefixed(params);
    ParamPayloadIsPrefixed(params);
    PrefixedAvoidsFixedKeys(base, params);
    MergeDisjoint(base, pp);
    KeysAppend(base, pp);
    assert Keys(base) == ["database", "user"];
    assert "password" !in Keys(base + pp);
  }

  lemma PrefixedAvoidsFixedKeys(base: Assoc<Value>, params: Assoc<Value>)
    requires Keys(base) == ["database", "user"]
    ensures Disjoint(base, Prefixed(params))
    ensures "password" !in Keys(Prefixed(params))
  {
    var pp := Prefixed(params);
    forall i | 0 <= i < |pp| ensures pp[i].0 !in Keys(base) && pp[i].0 != "password" {
      assert pp[i].0[0] == 'p' && pp[i].0[2] == 'r';
    }
  }

  /** The JSON text of each row. */
  function JsonLines(rows: seq<Assoc<Value>>, rt: Runtime): (lines: seq<string>)
    ensures |lines| == |rows|
    ensures forall i :: 0 <= i < |rows| ==> lines[i] == rt.jsonEncode(Dict(rows[i]))
  {
    seq(|rows|, i requires 0 <= i < |rows| => rt.jsonEncode(Dict(rows[i])))
  }

  /** The SQL alone, or the SQL, a newline and the rows one per line. */
  function ExecuteBody(sql: string, rows: Option<seq<Assoc<Value>>>, rt: Runtime): string {
    if rows.None? then sql else sql + "\n" + Join(JsonLines(rows.value, rt), "\n")
  }

  function ContentType(rows: Option<seq<Assoc<Value>>>): string {
    if rows.None? then "text/plain" else "application/json"
  }

  /** The one POST `execute` makes. */
  function ExecuteRequest(cfg: Config, sql: string, params: Assoc<Value>, rows: Option<seq<Assoc<Value>>>, rt: Runtime): Request {
    Request(POST, WithQuery(cfg.endpoint + "/", QueryParams(cfg, params)),
      [("Content-Type", ContentType(rows))], Text(ExecuteBody(sql, rows, rt)))
  }

  /** When no encoded row contains a newline, the body's lines are the SQL's
      lines followed by the rows, one per line and in order. */
  lemma BodyCarriesRows(sql: string, rows: seq<Assoc<Value>>, rt: Runtime)
    requires |rows| > 0
    requires forall i :: 0 <= i < |rows| ==> '\n' !in rt.jsonEncode(Dict(rows[i]))
    ensures SplitOn(ExecuteBody(sql, Some(rows), rt), '\n') == SplitOn(sql, '\n') + JsonLines(rows, rt)
  {
    var lines := JsonLines(rows, rt);
    assert ExecuteBody(sql, Some(rows), rt) == sql + ['\n'] + Join(lines, ['\n']);
    SplitOnConcat(sql, Join(lines, ['\n']), '\n');
    SplitJoin(lines, '\n');
  }

  // ---- reading the response ------------------------------------------------

  /** The header callback on one raw line: split the lower-cased line at its
      first ':', trim both halves; a line without ':' is skipped. */
  function ParseHeaderLine(line: string): (r: Option<(string, string)>)
    ensures r.None? <==> ':' !in line
  {
    LowerKeepsColon(line);
    match SplitFirst(Lower(line), ':')
    case None2 => None
    case Some2(name, value) => Some((Lower(Trim(name)), Trim(value)))
  }

  /** Every raw line, parsed. */
  function ParsedLines(lines: seq<string>): (hs: seq<Option<(string, string)>>)
    ensures |hs| == |lines|
    ensures forall i :: 0 <= i < |lines| ==> hs[i] == ParseHeaderLine(lines[i])
  {
    seq(|lines|, i requires 0 <= i < |lines| => ParseHeaderLine(lines[i]))
  }

  /** The array the callback fills, one parsed line after another: a later
      line overwrites an earlier one of the same name in its slot. */
  function Collect(hs: seq<Option<(string, string)>>): Assoc<string>
    decreases |hs|
  {
    if hs == [] then []
    else
      var n := |hs| - 1;
      var before := Collect(hs[..n]);
      match hs[n]
      case None => before
      case Some(h) => Put(before, h.0, h.1)
  }

  /** `$responseHeaders` after the callback has seen the lines in order. */
  function HeaderMap(lines: seq<string>): Assoc<string> {
    Collect(ParsedLines(lines))
  }

  predicate Names(h: Option<(string, string)>, k: string) {
    h.Some? && h.value.0 == k
  }

  lemma {:induction false} CollectAbsent(hs: seq<Option<(string, string)>>, k: string)
    ensures k !in Keys(Collect(hs)) <==> forall i :: 0 <= i < |hs| ==> !Names(hs[i], k)
    decreases |hs|
  {
    if hs != [] {
      var n := |hs| - 1;
      CollectAbsent(hs[..n], k);
      CollectAbsentStep(hs, hs[..n], k);
    }
  }

  /** One step of `CollectAbsent`: the last line either names k or not. */
  lemma CollectAbsentStep(hs: seq<Option<(string, string)>>, init: seq<Option<(string, string)>>, k: string)
    requires hs != [] && init == hs[..|hs| - 1]
    requires k !in Keys(Collect(init)) <==> forall i :: 0 <= i < |init| ==> !Names(init[i], k)
    ensures k !in Keys(Collect(hs)) <==> forall i :: 0 <= i < |hs| ==> !Names(hs[i], k)
  {
    var n := |hs| - 1;
    var before := Collect(init);
    CollectSnoc(hs, n);
    assert hs[..n + 1] == hs;
    NamesSnoc(hs, init, k);
    if hs[n].Some? {
      PutKeys(before, hs[n].value.0, hs[n].value.1);
    }
  }

  lemma NamesSnoc(hs: seq<Option<(string, string)>>, init: seq<Option<(string, string)>>, k: string)
    requires hs != [] && init == hs[..|hs| - 1]
    ensures (forall i :: 0 <= i < |hs| ==> !Names(hs[i], k)) <==>
      (forall i :: 0 <= i < |init| ==> !Names(init[i], k)) && !Names(hs[|hs| - 1], k)
  {
    assert forall i :: 0 <= i < |init| ==> init[i] == hs[i];
  }

  /** One more line seen by the callback. */
  lemma CollectSnoc(hs: seq<Option<(string, string)>>, i: nat)
    requires i < |hs|
    ensures hs[i].None? ==> Collect(hs[..i + 1]) == Collect(hs[..i])
    ensures hs[i].Some? ==> Collect(hs[..i + 1]) == Put(Collect(hs[..i]), hs[i].value.0, hs[i].value.1)
  {
    assert hs[..i + 1][..i] == hs[..i];
  }

  lemma {:induction false} CollectLastWins(hs: seq<Option<(string, string)>>, i: nat, k: string, v: string)
    requires i < |hs| && hs[i] == Some((k, v))
    requires forall j :: i < j < |hs| ==> !Names(hs[j], k)
    ensures Get(Collect(hs), k) == Some(v)
    decreases |hs|
  {
    var n := |hs| - 1;
    var init := hs[..n];
    var before := Collect(init);
    CollectSnoc(hs, n);
    assert hs[..n + 1] == hs;
    if i == n {
      PutGet(before, k, v, k);
    } else {
      assert init[i] == hs[i];
      forall j | i < j < n ensures !Names(init[j], k) { assert init[j] == hs[j]; }
      CollectLastWins(init, i, k, v);
      assert !Names(hs[n], k);
      if hs[n].Some? {
        PutGet(before, hs[n].value.0, hs[n].value.1, k);
      }
    }
  }

  /** A header is absent exactly when no line names it. */
  lemma HeaderAbsent(lines: seq<string>, k: string)
    ensures k !in Keys(HeaderMap(lines)) <==> forall i :: 0 <= i < |lines| ==> !Names(ParseHeaderLine(lines[i]), k)
  {
    CollectAbsent(ParsedLines(lines), k);
  }

  /** A header reads the value of the last line that names it. */
  lemma HeaderLastWins(lines: seq<string>, i: nat, k: string, v: string)
    requires i < |lines| && ParseHeaderLine(lines[i]) == Some((k, v))
    requires forall j :: i < j < |lines| ==> !Names(ParseHeaderLine(lines[j]), k)
    ensures Get(HeaderMap(lines), k) == Some(v)
  {
    CollectLastWins(ParsedLines(lines), i, k, v);
  }

  /** `$responseHeaders['content-type'] ?? ''`. */
  function ResponseContentType(lines: seq<string>): string {
    match Get(HeaderMap(lines), "content-type")
    case Some(v) => v
    case None => ""
  }

  /** What `execute` returns for a decoded body under its `array|string`
      return type: an array as is, a string as is, a bool or an int cast to
      string, and null a TypeError. */
  function ReturnArrayOrString(v: Value): (r: Result<Value>)
    ensures v.Null? <==> r.Err?
    ensures r.Ok? ==> r.value.List? || r.value.Dict? || r.value.Str?
    ensures IsScalar(v) ==> r == Ok(Str(StringOf(v)))
  {
    match v
    case Null => Err(TypeError("Return value must be of type array|string, null returned"))
    case Bool(_) => Ok(Str(StringOf(v)))
    case Int(_) => Ok(Str(StringOf(v)))
    case _ => Ok(v)
  }

  const JsonParseError: Error := Exception("Failed to parse ClickHouse JSON response: ", 0)

  /** The response rules of `execute`, in order: a transport error, an HTTP
      error status, a JSON body (asked for, or announced by the content
      type), and otherwise the raw body. */
  function Interpret(reply: Reply, expectJson: bool, rt: Runtime): (r: Result<Value>)
    ensures r.Ok? ==> reply.failure.None? && reply.status < 400
    ensures reply.failure.Some? ==> r == Err(Exception(reply.failure.value, reply.status))
    ensures reply.failure.None? && reply.status >= 400 ==>
      r == Err(Exception(if Truthy(Str(reply.body)) then reply.body else "ClickHouse responded with error", reply.status))
    ensures (reply.failure.None? && reply.status < 400 && !expectJson &&
      !StartsWith(ResponseContentType(reply.headerLines), "application/json")) ==> r == Ok(Str(reply.body))
    ensures (reply.failure.None? && reply.status < 400 &&
      (expectJson || StartsWith(ResponseContentType(reply.headerLines), "application/json"))) ==>
      r == match rt.jsonDecode(reply.body) case None => Err(JsonParseError) case Some(v) => ReturnArrayOrString(v)
  {
    if reply.failure.Some? then Err(Exception(reply.failure.value, reply.status))
    else if reply.status >= 400 then
      Err(Exception(if Truthy(Str(reply.body)) then reply.body else "ClickHouse responded with error", reply.status))
    else if expectJson || StartsWith(ResponseContentType(reply.headerLines), "application/json") then
      match rt.jsonDecode(reply.body)
      case None => Err(JsonParseError)
      case Some(v) => ReturnArrayOrString(v)
    else Ok(Str(reply.body))
  }

  // ---- send and validate ---------------------------------------------------

  /** What `send` does with a batch. */
  function SendOutcome(cfg: Config, enabled: bool, events: seq<EventData>, rt: Runtime,
                       userAgent: Option<string>, clientIP: Option<string>, now: string, reply: Reply): Outcome<bool> {
    if !enabled then Return(false)
    else match FirstInvalid(events)
      case Some(err) => Outcome([], Err(err))
      case None =>
        if events == [] then Return(false)
        else
          var req := ExecuteRequest(cfg, InsertSql(cfg), [], Some(Rows(events, rt, userAgent, clientIP, now)), rt);
          match Interpret(reply, false, rt)
          case Err(e) => Outcome([req], Err(e))
          case Ok(_) => Outcome([req], Ok(true))
  }

  /** A disabled adapter, an empty batch and a batch with an invalid event
      send nothing; the invalid case throws the first invalid event's error. */
  lemma SendWithoutRequest(cfg: Config, enabled: bool, events: seq<EventData>, rt: Runtime,
                           userAgent: Option<string>, clientIP: Option<string>, now: string, reply: Reply)
    ensures var o := SendOutcome(cfg, enabled, events, rt, userAgent, clientIP, now, reply);
      (!enabled ==> o == Return(false)) &&
      (enabled && events == [] ==> o == Return(false)) &&
      (enabled && FirstInvalid(events).Some? ==> o == Outcome([], Err(FirstInvalid(events).value)))
  {
  }

  /** One invalid event anywhere in the batch stops the whole batch: nothing
      is sent and `send` throws. */
  lemma InvalidEventSendsNothing(cfg: Config, events: seq<EventData>, i: nat, rt: Runtime,
                                 userAgent: Option<string>, clientIP: Option<string>, now: string, reply: Reply)
    requires i < |events| && ValidateEvent(events[i]).Err?
    ensures var o := SendOutcome(cfg, true, events, rt, userAgent, clientIP, now, reply);
      o.calls == [] && o.result.Err?
  {
    InvalidEventFails(events, i);
  }

  /** A valid batch is one INSERT carrying one row per event, in order; it
      reports true exactly when the response passes the rules of `execute`. */
  lemma SendsOneRowPerEvent(cfg: Config, events: seq<EventData>, rt: Runtime,
                            userAgent: Option<string>, clientIP: Option<string>, now: string, reply: Reply)
    requires events != []
    requires forall i :: 0 <= i < |events| ==> ValidateEvent(events[i]).Ok?
    requires forall i :: 0 <= i < |events| ==> '\n' !in rt.jsonEncode(Dict(Row(events[i], rt, userAgent, clientIP, now)))
    ensures var o := SendOutcome(cfg, true, events, rt, userAgent, clientIP, now, reply);
      |o.calls| == 1 && o.calls[0].verb == POST && o.calls[0].body.Text? &&
      SplitOn(o.calls[0].body.text, '\n') ==
        SplitOn(InsertSql(cfg), '\n') + JsonLines(Rows(events, rt, userAgent, clientIP, now), rt) &&
      (o.result == Ok(true) <==> Interpret(reply, false, rt).Ok?) &&
      (o.result.Err? ==> o.result == Err(Interpret(reply, false, rt).error))
  {
    FirstInvalidIsFirst(events);
    var rows := Rows(events, rt, userAgent, clientIP, now);
    InsertOutcome(cfg, events, rt, userAgent, clientIP, now, reply);
    assert forall i :: 0 <= i < |rows| ==> '\n' !in rt.jsonEncode(Dict(rows[i]));
    BodyCarriesRows(InsertSql(cfg), rows, rt);
  }

  /** The outcome of `send` on a valid, non-empty batch. */
  lemma InsertOutcome(cfg: Config, events: seq<EventData>, rt: Runtime,
                      userAgent: Option<string>, clientIP: Option<string>, now: string, reply: Reply)
    requires events != [] && FirstInvalid(events).None?
    ensures var res := Interpret(reply, false, rt);
      SendOutcome(cfg, true, events, rt, userAgent, clientIP, now, reply) ==
        Outcome([ExecuteRequest(cfg, InsertSql(cfg), [], Some(Rows(events, rt, userAgent, clientIP, now)), rt)],
          if res.Ok? then Ok(true) else Err(res.error))
  {
  }

  lemma RowsSnoc(events: seq<EventData>, i: nat, rt: Runtime, userAgent: Option<string>, clientIP: Option<string>, now: string)
    requires i < |events|
    ensures Rows(events[..i + 1], rt, userAgent, clientIP, now) ==
      Rows(events[..i], rt, userAgent, clientIP, now) + [Row(events[i], rt, userAgent, clientIP, now)]
  {
    var f := e => Row(e, rt, userAgent, clientIP, now);
    assert events[..i + 1][..i] == events[..i];
    assert MapEach(f, events[..i + 1]) == MapEach(f, events[..i]) + [f(events[i])];
  }

  /** `($response['data'][0]['cnt'] ?? 0)`. */
  function Count(response: Value): Value {
    var c := At(AtIndex(At(response, "data"), 0), "cnt");
    if c.Null? then Int(0) else c
  }

  /** The named parameters of the SELECT. */
  function SelectParams(e: EventData): Assoc<Value> {
    [("eventType", Str(e.eventType)), ("eventName", Str(e.name)), ("url", Str(e.url))]
  }

  /** What `validate` does with one event. */
  function ValidateOutcome(cfg: Config, enabled: bool, e: EventData, rt: Runtime, reply: Reply): Outcome<bool> {
    if !enabled then Return(false)
    else match ValidateEvent(e)
      case Err(err) => Outcome([], Err(err))
      case Ok(_) =>
        var req := ExecuteRequest(cfg, SelectSql(cfg), SelectParams(e), None, rt);
        match Interpret(reply, true, rt)
        case Err(err) => Outcome([req], Err(err))
        case Ok(v) => Outcome([req], Ok(GreaterThanZero(Count(v))))
  }

  /** The SELECT binds the event's type, name and URL as `param_` query
      parameters, and `validate` is true exactly when the count it reads
      back is an integer above zero (ClickHouse's JSON format quotes 64-bit
      counts, so both an int and its decimal text are covered). */
  lemma ValidateReadsCount(cfg: Config, e: EventData, rt: Runtime, reply: Reply, n: int, quoted: bool)
    requires ValidateEvent(e).Ok?
    requires reply.failure.None? && reply.status < 400
    requires rt.jsonDecode(reply.body) ==
      Some(Dict([("data", List([Dict([("cnt", if quoted then Str(IntToString(n)) else Int(n))])]))]))
    ensures var o := ValidateOutcome(cfg, true, e, rt, reply);
      |o.calls| == 1 && o.calls[0].url.WithQuery? &&
      o.calls[0].url.query == [("database", Str(cfg.database)), ("user", Str(cfg.username)),
        ("param_eventType", Str(e.eventType)), ("param_eventName", Str(e.name)), ("param_url", Str(e.url))] +
        (if IsEmpty(Str(cfg.password)) then [] else [("password", Str(cfg.password))]) &&
      (o.result == Ok(true) <==> n > 0) && o.result.Ok?
  {
    SelectQuery(cfg, e);
    var response := rt.jsonDecode(reply.body).value;
    assert Interpret(reply, true, rt) == Ok(response);
    CountReadsBack(n, quoted);
  }

  lemma SelectQuery(cfg: Config, e: EventData)
    ensures QueryParams(cfg, SelectParams(e)) ==
      [("database", Str(cfg.database)), ("user", Str(cfg.username)),
        ("param_eventType", Str(e.eventType)), ("param_eventName", Str(e.name)), ("param_url", Str(e.url))] +
        (if IsEmpty(Str(cfg.password)) then [] else [("password", Str(cfg.password))])
  {
    var ps := SelectParams(e);
    assert KeysUnique(ps);
    QueryParamsShape(cfg, ps);
    PrefixedSelectParams(e);
  }

  lemma PrefixedSelectParams(e: EventData)
    ensures Prefixed(SelectParams(e)) ==
      [("param_eventType", Str(e.eventType)), ("param_eventName", Str(e.name)), ("param_url", Str(e.url))]
  {
    var ps := SelectParams(e);
    assert "param_" + "eventType" == "param_eventType";
    assert "param_" + "eventName" == "param_eventName";
    assert "param_" + "url" == "param_url";
    assert Prefixed(ps)[0] == ("param_eventType", Str(e.eventType));
    assert Prefixed(ps)[1] == ("param_eventName", Str(e.name));
    assert Prefixed(ps)[2] == ("param_url", Str(e.url));
  }

  lemma CountReadsBack(n: int, quoted: bool)
    ensures var response := Dict([("data", List([Dict([("cnt", if quoted then Str(IntToString(n)) else Int(n))])]))]);
      GreaterThanZero(Count(response)) <==> n > 0
  {
    IntToStringRoundTrip(n);
    var cnt := if quoted then Str(IntToString(n)) else Int(n);
    var response := Dict([("data", List([Dict([("cnt", cnt)])]))]);
    assert At(response, "data") == List([Dict([("cnt", cnt)])]);
    assert Count(response) == cnt;
  }

  /** A response without a count, or an error, never validates. */
  lemma ValidateNeedsCount(cfg: Config, enabled: bool, e: EventData, rt: Runtime, reply: Reply)
    ensures var o := ValidateOutcome(cfg, enabled, e, rt, reply);
      (o.result == Ok(true) ==> (enabled && ValidateEvent(e).Ok? && Interpret(reply, true, rt).Ok? &&
        GreaterThanZero(Count(Interpret(reply, true, rt).value)))) &&
      (Interpret(reply, true, rt).Ok? && At(AtIndex(At(Interpret(reply, true, rt).value, "data"), 0), "cnt").Null? ==>
        o.result != Ok(true))
  {
  }

  // ---- the adapter object --------------------------------------------------

  function Discard(r: Result<Value>): Result<()> {
    match r
    case Ok(_) => Ok(())
    case Err(e) => Err(e)
  }

  class ClickHouse {
    const config: Config
    /** The enable/disable switch inherited from the analytics base class. */
    const gate: Gate.Analytics
    var clientIP: Option<string>
    var userAgent: Option<string>
    /** Whether `setup` has already created the table. */
    var schemaEnsured: bool

    constructor (cfg: Config)
      ensures config == cfg && fresh(gate) && gate.enabled
      ensures clientIP == Some("") && userAgent == None && !schemaEnsured
    {
      config := cfg;
      gate := new Gate.Analytics();
      clientIP := Some("");
      userAgent := None;
      schemaEnsured := false;
    }

    /** `new ClickHouse(...)`: throws on a bad identifier, as `Configure` does. */
    static method Create(endpoint: string, database: string, table: string, username: string, password: string)
      returns (r: Result<ClickHouse>)
      ensures r.Err? <==> Configure(endpoint, database, table, username, password).Err?
      ensures r.Err? ==> r.error == Configure(endpoint, database, table, username, password).error
      ensures r.Ok? ==> fresh(r.value) && fresh(r.value.gate) && r.value.gate.enabled && !r.value.schemaEnsured
      ensures r.Ok? ==> r.value.config == Configure(endpoint, database, table, username, password).value
    {
      var c := Configure(endpoint, database, table, username, password);
      if c.Err? {
        return Err(c.error);
      }
      var ch := new ClickHouse(c.value);
      return Ok(ch);
    }

    /** `buildDimensions`: the dimension columns and the meta arrays. */
    static method BuildDimensions(e: EventData, rt: Runtime) returns (dims: Assoc<Value>, metaKeys: seq<string>, metaValues: seq<string>)
      ensures dims == Dimensions(e, rt)
      ensures metaKeys == MetaKeys(e.props, DimensionColumns)
      ensures metaValues == MetaValues(e.props, DimensionColumns, rt)
    {
      dims := Dimensions(e, rt);
      var reserved := Keys(dims);
      DimensionKeys(e, rt);
      metaKeys, metaValues := [], [];
      var props := e.props;
      var i := 0;
      while i < |props|
        invariant 0 <= i <= |props|
        invariant metaKeys == MetaKeys(props[..i], reserved)
        invariant metaValues == MetaValues(props[..i], reserved, rt)
      {
        assert props[..i + 1][..i] == props[..i];
        if props[i].0 !in reserved {
          metaKeys := metaKeys + [props[i].0];
          metaValues := metaValues + [StringifyMetaValue(props[i].1, rt)];
        }
        i := i + 1;
      }
      assert props[..i] == props;
    }

    /** One row of `send`: the dimensions merged with the meta arrays and
        the client and time columns. */
    static method BuildRow(e: EventData, rt: Runtime, userAgent: Option<string>, clientIP: Option<string>, now: string)
      returns (row: Assoc<Value>)
      ensures row == Row(e, rt, userAgent, clientIP, now)
    {
      var dims, metaKeys, metaValues := BuildDimensions(e, rt);
      DimensionKeys(e, rt);
      row := Merge(dims, RowTail(metaKeys, metaValues, userAgent, clientIP, now));
    }

    /** `$paramPayload` built by the loop over the named parameters. */
    static method BuildParamPayload(params: Assoc<Value>) returns (payload: Assoc<Value>)
      ensures payload == ParamPayload(params)
    {
      payload := [];
      var i := 0;
      while i < |params|
        invariant 0 <= i <= |params|
        invariant payload == ParamPayload(params[..i])
      {
        assert params[..i + 1][..i] == params[..i];
        payload := Put(payload, "param_" + params[i].0, params[i].1);
        i := i + 1;
      }
      assert params[..i] == params;
    }

    /** The header callback applied to each raw line in turn. */
    static method CollectHeaders(lines: seq<string>) returns (headers: Assoc<string>)
      ensures headers == HeaderMap(lines)
    {
      headers := CollectParsed(ParsedLines(lines));
    }

    /** The loop behind `CollectHeaders`, over the parsed lines. */
    static method CollectParsed(hs: seq<Option<(string, string)>>) returns (headers: Assoc<string>)
      ensures headers == Collect(hs)
    {
      headers := [];
      var i := 0;
      while i < |hs|
        invariant 0 <= i <= |hs|
        invariant headers == Collect(hs[..i])
      {
        CollectSnoc(hs, i);
        if hs[i].Some? {
          headers := Put(headers, hs[i].value.0, hs[i].value.1);
        }
        i := i + 1;
      }
      assert hs[..i] == hs;
    }

    /** `execute`: the request it sends and what it returns or throws. */
    method Execute(sql: string, params: Assoc<Value>, rows: Option<seq<Assoc<Value>>>, expectJson: bool, rt: Runtime, reply: Reply)
      returns (req: Request, r: Result<Value>)
      ensures req == ExecuteRequest(config, sql, params, rows, rt)
      ensures r == Interpret(reply, expectJson, rt)
    {
      var paramPayload := BuildParamPayload(params);
      var queryParams := Merge([("database", Str(config.database)), ("user", Str(config.username))], paramPayload);
      if !IsEmpty(Str(config.password)) {
        queryParams := Put(queryParams, "password", Str(config.password));
      }
      var body := sql;
      var headers := [("Content-Type", "text/plain")];
      if rows.Some? {
        body := body + "\n" + Join(JsonLines(rows.value, rt), "\n");
        headers := [("Content-Type", "application/json")];
      }
      req := Request(POST, WithQuery(config.endpoint + "/", queryParams), headers, Text(body));
      var responseHeaders := CollectHeaders(reply.headerLines);
      if reply.failure.Some? {
        r := Err(Exception(reply.failure.value, reply.status));
        return;
      }
      if reply.status >= 400 {
        r := Err(Exception(if Truthy(Str(reply.body)) then reply.body else "ClickHouse responded with error", reply.status));
        return;
      }
      var contentType := match Get(responseHeaders, "content-type") case Some(v) => v case None => "";
      if expectJson || StartsWith(contentType, "application/json") {
        var decoded := rt.jsonDecode(reply.body);
        if decoded.None? {
          r := Err(JsonParseError);
          return;
        }
        r := ReturnArrayOrString(decoded.value);
        return;
      }
      r := Ok(Str(reply.body));
    }

    /** `send`: validate and build the rows event by event, then one INSERT. */
    method Send(events: seq<EventData>, rt: Runtime, now: string, reply: Reply) returns (o: Outcome<bool>)
      ensures o == SendOutcome(config, gate.enabled, events, rt, userAgent, clientIP, now, reply)
    {
      if !gate.enabled {
        return Return(false);
      }
      var failure, rows := BuildRows(events, rt, userAgent, clientIP, now);
      if failure.Some? {
        return Outcome([], Err(failure.value));
      }
      if rows == [] {
        return Return(false);
      }
      var req, r := Execute(InsertSql(config), [], Some(rows), false, rt, reply);
      if r.Err? {
        return Outcome([req], Err(r.error));
      }
      return Outcome([req], Ok(true));
    }

    /** The loop of `send`: each event is checked and turned into its row,
        stopping at the first invalid one. */
    static method BuildRows(events: seq<EventData>, rt: Runtime, userAgent: Option<string>, clientIP: Option<string>, now: string)
      returns (failure: Option<Error>, rows: seq<Assoc<Value>>)
      ensures failure == FirstInvalid(events)
      ensures failure.None? ==> rows == Rows(events, rt, userAgent, clientIP, now)
    {
      rows := [];
      var i := 0;
      while i < |events|
        invariant 0 <= i <= |events|
        invariant FirstInvalid(events[..i]).None?
        invariant rows == Rows(events[..i], rt, userAgent, clientIP, now)
      {
        var check := ValidateEvent(events[i]);
        FirstInvalidSnoc(events, i);
        if check.Err? {
          FirstInvalidOfPrefix(events, i + 1);
          return Some(check.error), rows;
        }
        var row := BuildRow(events[i], rt, userAgent, clientIP, now);
        RowsSnoc(events, i, rt, userAgent, clientIP, now);
        rows := rows + [row];
        i := i + 1;
      }
      assert events[..i] == events;
      failure := None;
    }

    /** `validate`: count the stored copies of the event. */
    method Validate(e: EventData, rt: Runtime, reply: Reply) returns (o: Outcome<bool>)
      ensures o == ValidateOutcome(config, gate.enabled, e, rt, reply)
    {
      if !gate.enabled {
        return Return(false);
      }
      var check := ValidateEvent(e);
      if check.Err? {
        return Outcome([], Err(check.error));
      }
      var req, r := Execute(SelectSql(config), SelectParams(e), None, true, rt, reply);
      if r.Err? {
        return Outcome([req], Err(r.error));
      }
      return Outcome([req], Ok(GreaterThanZero(Count(r.value))));
    }

    /** `setup`: create the table once; the flag is set only when the
        CREATE succeeded. */
    method Setup(rt: Runtime, reply: Reply) returns (o: Outcome<()>)
      modifies this`schemaEnsured
      ensures old(schemaEnsured) ==> o == Return(()) && schemaEnsured
      ensures !old(schemaEnsured) ==>
        o.calls == [ExecuteRequest(config, CreateTableSql(config), [], None, rt)] &&
        o.result == Discard(Interpret(reply, false, rt)) &&
        (schemaEnsured <==> o.result.Ok?)
    {
      if schemaEnsured {
        return Return(());
      }
      var req, r := Execute(CreateTableSql(config), [], None, false, rt, reply);
      if r.Err? {
        return Outcome([req], Err(r.error));
      }
      schemaEnsured := true;
      return Outcome([req], Ok(()));
    }

    /** `resetStorage`: DROP, clear the flag, then `setup`, which now always
        issues the CREATE. A failed DROP throws before the flag is touched. */
    method ResetStorage(rt: Runtime, dropReply: Reply, createReply: Reply) returns (o: Outcome<()>)
      modifies this`schemaEnsured
      ensures var drop := ExecuteRequest(config, DropTableSql(config), [], None, rt);
        var create := ExecuteRequest(config, CreateTableSql(config), [], None, rt);
        if Interpret(dropReply, false, rt).Err? then
          o == Outcome([drop], Err(Interpret(dropReply, false, rt).error)) && schemaEnsured == old(schemaEnsured)
        else
          o.calls == [drop, create] && o.result == Discard(Interpret(createReply, false, rt)) &&
          (schemaEnsured <==> o.result.Ok?)
    {
      var req, r := Execute(DropTableSql(config), [], None, false, rt, dropReply);
      if r.Err? {
        return Outcome([req], Err(r.error));
      }
      schemaEnsured := false;
      var s := Setup(rt, createReply);
      return Outcome([req] + s.calls, s.result);
    }
  }

  /** Once a `setup` has succeeded, a second one sends nothing. */
  method SetupTwice(ch: ClickHouse, rt: Runtime, first: Reply, second: Reply) returns (o1: Outcome<()>, o2: Outcome<()>)
    modifies ch`schemaEnsured
    ensures o1.result.Ok? ==> o2 == Return(()) && ch.schemaEnsured
    ensures o1.result.Err? ==> !old(ch.schemaEnsured) && |o2.calls| == 1
  {
    o1 := ch.Setup(rt, first);
    o2 := ch.Setup(rt, second);
  }
}
