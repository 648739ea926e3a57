/**
 * The request handling of pylocalwunder/localwunderserver.py: for every parameter
 * definition, the inputs are looked up in the weather station's query, the sensor
 * state is chosen (the first input, or the transform's result), and a JSON payload
 * is posted to the Home Assistant sensor through the client session.
 *
 * The `asyncio.create_task` calls the handler makes are modelled as running one
 * after the other, in the order of the definitions; the post of each update is
 * recorded in the session's `sent` list, and the way each update ends is returned.
 */
module LocalWunder {
  import opened Wrappers
  import opened Numeric
  import opened Common

  // ---------------------------------------------------------------------------
  // The weather station's query

  /** A value the weather station sent: its text, and the decimal number it denotes. */
  datatype Reading = Reading(text: string, number: real)

  /** The query string: (name, value) pairs in the order they arrived; names may repeat. */
  type Query = seq<(string, Reading)>

  /** The position of the first pair named k, or |q| when there is none. */
  function FirstIndex(q: Query, k: string): (i: nat)
    ensures i <= |q|
    ensures i < |q| ==> q[i].0 == k
    ensures forall j :: 0 <= j < i ==> q[j].0 != k
  {
    if q == [] then 0
    else if q[0].0 == k then 0
    else 1 + FirstIndex(q[1..], k)
  }

  /** `request.query.get(k)`: the value of the first pair named k, or None. */
  function QueryGet(q: Query, k: string): (r: Option<Reading>)
    ensures r.None? <==> forall i :: 0 <= i < |q| ==> q[i].0 != k
    ensures r.Some? ==> exists i :: 0 <= i < |q| && q[i] == (k, r.value) && forall j :: 0 <= j < i ==> q[j].0 != k
  {
    var i := FirstIndex(q, k);
    if i < |q| then Some(q[i].1) else None
  }

  /** Of a sequence of distinct names, the prefix is distinct and the last name is not in it. */
  lemma DistinctInit(s: seq<string>)
    requires |s| > 0
    ensures Distinct(s) ==> Distinct(s[..|s| - 1]) && s[|s| - 1] !in s[..|s| - 1]
  {
    var init := s[..|s| - 1];
    if Distinct(s) {
      forall i, j | 0 <= i < j < |init| ensures init[i] != init[j] {
        assert init[i] == s[i] && init[j] == s[j];
      }
    }
  }

  /**
   * The keys of a dictionary built from the names s in order: each name once, at the
   * place it first occurs.
   */
  function Dedup(s: seq<string>): (d: seq<string>)
    ensures Distinct(d)
    ensures forall x :: x in d <==> x in s
    ensures |s| > 0 ==> |d| > 0 && d[0] == s[0]
    ensures Distinct(s) ==> d == s
  {
    if s == [] then []
    else
      var init := s[..|s| - 1];
      var last := s[|s| - 1];
      assert s == init + [last];
      DistinctInit(s);
      var d := Dedup(init);
      if last in d then d else d + [last]
  }

  /**
   * The deduplicated names of a prefix of the list are a prefix of the deduplicated
   * list: adding names never reorders or drops those already kept, so the keys are in
   * the order of their first occurrence.
   */
  lemma {:induction false} DedupExtends(s: seq<string>, n: int)
    requires 0 <= n <= |s|
    ensures Dedup(s[..n]) <= Dedup(s)
    decreases |s|
  {
    if n == |s| {
      assert s[..n] == s;
    } else {
      var init := s[..|s| - 1];
      assert s[..n] == init[..n];
      DedupExtends(init, n);
      assert Dedup(init) <= Dedup(s);
    }
  }

  /** The entries of a dictionary mapping each of the names to the query's value for it. */
  function Bind(names: seq<string>, q: Query): (es: seq<(string, Option<Reading>)>)
    ensures |es| == |names|
  {
    if names == [] then [] else [(names[0], QueryGet(q, names[0]))] + Bind(names[1..], q)
  }

  lemma {:induction false} BindKeys(names: seq<string>, q: Query)
    ensures Keys(Bind(names, q)) == names
    decreases |names|
  {
    if names != [] {
      BindKeys(names[1..], q);
      assert Keys(Bind(names, q)) == [names[0]] + Keys(Bind(names[1..], q));
    }
  }

  lemma {:induction false} BindLookup(names: seq<string>, q: Query, k: string)
    ensures Lookup(Bind(names, q), k) == if k in names then Some(QueryGet(q, k)) else None
    decreases |names|
  {
    if names != [] {
      BindLookup(names[1..], q, k);
      assert k in names <==> k == names[0] || k in names[1..];
    }
  }

  /**
   * `input_params`: the dictionary of one definition's input parameters, each bound to
   * the query's value for it.
   */
  function InputParams(p: ParameterDefinition, q: Query): (kw: Kwargs<Reading>)
    ensures |kw.entries| == |Dedup(p.inputParameters)|
  {
    Kwargs(Bind(Dedup(p.inputParameters), q))
  }

  /**
   * The keys of `input_params` are the definition's input parameters, in their order
   * and each once; each is bound to the query's value for it, or to None when the query
   * does not have it; no other name is a key.
   */
  lemma InputParamsContents(p: ParameterDefinition, q: Query, k: string)
    ensures Keys(InputParams(p, q).entries) == Dedup(p.inputParameters)
    ensures Get(InputParams(p, q), k).Some? <==> k in p.inputParameters
    ensures k in p.inputParameters ==> Get(InputParams(p, q), k) == Some(QueryGet(q, k))
  {
    BindKeys(Dedup(p.inputParameters), q);
    BindLookup(Dedup(p.inputParameters), q, k);
  }

  /** The decimal number of an optional reading, as `Decimal(value)` gives it. */
  function NumberOf(v: Option<Reading>): (r: Option<real>)
    ensures r.None? <==> v.None?
    ensures v.Some? ==> r.value == v.value.number
  {
    match v
    case None => None
    case Some(reading) => Some(reading.number)
  }

  /** The entries a transform sees: each reading replaced by its number. */
  function NumberEntries(es: seq<(string, Option<Reading>)>): (ns: seq<(string, Option<real>)>)
    ensures |ns| == |es|
    ensures forall i :: 0 <= i < |es| ==> ns[i] == (es[i].0, NumberOf(es[i].1))
  {
    if es == [] then [] else [(es[0].0, NumberOf(es[0].1))] + NumberEntries(es[1..])
  }

  /** The keyword arguments a transform is called with: the readings as numbers. */
  function Numbers(kw: Kwargs<Reading>): (n: Kwargs<real>)
    ensures |n.entries| == |kw.entries|
    ensures kw.entries != [] ==> n.entries[0] == (kw.entries[0].0, NumberOf(kw.entries[0].1))
  {
    Kwargs(NumberEntries(kw.entries))
  }

  lemma {:induction false} NumberEntriesLookup(es: seq<(string, Option<Reading>)>, k: string)
    ensures Lookup(NumberEntries(es), k).None? <==> Lookup(es, k).None?
    ensures Lookup(es, k).Some? ==> Lookup(NumberEntries(es), k) == Some(NumberOf(Lookup(es, k).value))
    decreases |es|
  {
    if es != [] {
      NumberEntriesLookup(es[1..], k);
    }
  }

  /** A transform finds the same names as the dictionary, bound to their numbers. */
  lemma NumbersContents(kw: Kwargs<Reading>, k: string)
    ensures Keys(Numbers(kw).entries) == Keys(kw.entries)
    ensures Get(Numbers(kw), k).None? <==> Get(kw, k).None?
    ensures Get(kw, k).Some? ==> Get(Numbers(kw), k) == Some(NumberOf(Get(kw, k).value))
  {
    NumberEntriesLookup(kw.entries, k);
    NumberEntriesKeys(kw.entries);
  }

  lemma NumberEntriesKeys(es: seq<(string, Option<Reading>)>)
    ensures Keys(NumberEntries(es)) == Keys(es)
  {
    assert forall i :: 0 <= i < |es| ==> Keys(NumberEntries(es))[i] == Keys(es)[i];
  }

  // ---------------------------------------------------------------------------
  // What one update posts

  /** The `state` of a payload: JSON null, a string, or a decimal number. */
  datatype State = Null | Text(text: string) | Number(value: Decimal)

  /** The `state` for a value a transform returned. */
  function TransformedState(v: Option<Decimal>): (s: State)
    ensures s == Null <==> v.None?
    ensures v.Some? ==> s == Number(v.value)
  {
    match v
    case None => Null
    case Some(d) => Number(d)
  }

  /** The `state` for an input passed through as the station sent it. */
  function PassedState(v: Option<Reading>): (s: State)
    ensures s == Null <==> v.None?
    ensures v.Some? ==> s == Text(v.value.text)
  {
    match v
    case None => Null
    case Some(reading) => Text(reading.text)
  }

  /** A StopIteration that escapes a coroutine reaches its awaiter as this RuntimeError. */
  const CoroutineRaisedStopIteration: PyError := RuntimeError("coroutine raised StopIteration")

  /**
   * The exception an awaiter sees when e escapes a coroutine: StopIteration becomes
   * RuntimeError, any other exception is unchanged.
   */
  function CoroutineError(e: PyError): (r: PyError)
    ensures e == StopIteration ==> r == CoroutineRaisedStopIteration
    ensures e != StopIteration ==> r == e
  {
    if e == StopIteration then CoroutineRaisedStopIteration else e
  }

  /**
   * The sensor state of an update: the value of the first input is looked up first,
   * even when a transform follows, so a definition without inputs fails there; without
   * a transform that value is the state, with one the transform's result over all the
   * inputs is, and an exception of the transform escapes the coroutine.
   */
  function SensorState(p: ParameterDefinition, kw: Kwargs<Reading>): (r: Result<State>)
    ensures kw.entries == [] ==> r == Err(CoroutineRaisedStopIteration)
    ensures kw.entries != [] && p.transform.None? ==> r == Ok(PassedState(kw.entries[0].1))
    ensures kw.entries != [] && p.transform.Some? ==>
              var t := p.transform.value(Numbers(kw));
              && (r.Ok? <==> t.Ok?)
              && (t.Ok? ==> r.value == TransformedState(t.value))
              && (t.Err? ==> r.error == CoroutineError(t.error))
  {
    match FirstValue(kw)
    case Err(_) => Err(CoroutineRaisedStopIteration)
    case Ok(first) =>
      match p.transform
      case None => Ok(PassedState(first))
      case Some(t) =>
        match t(Numbers(kw))
        case Err(e) => Err(CoroutineError(e))
        case Ok(v) => Ok(TransformedState(v))
  }

  /** The `attributes` of a payload. */
  datatype Attributes = Attributes(unitOfMeasurement: string, icon: string, friendlyName: string)

  /**
   * The attributes of a definition's sensor: a missing unit of measure or icon
   * becomes the empty string; the friendly name is the sensor name.
   */
  function AttributesOf(p: ParameterDefinition): (a: Attributes)
    ensures p.haSensorUom.None? ==> a.unitOfMeasurement == ""
    ensures p.haSensorUom.Some? ==> a.unitOfMeasurement == p.haSensorUom.value
    ensures p.haSensorIcon.None? ==> a.icon == ""
    ensures p.haSensorIcon.Some? ==> a.icon == p.haSensorIcon.value
    ensures a.friendlyName == p.haSensorName
  {
    Attributes(OrEmpty(p.haSensorUom), OrEmpty(p.haSensorIcon), p.haSensorName)
  }

  /** The JSON document posted: `{"state": ..., "attributes": {...}}`. */
  datatype Payload = Payload(state: State, attributes: Attributes)

  const SensorPathPrefix: string := "/api/states/sensor."

  /** The path of a sensor's state, relative to the Home Assistant base URI. */
  function SensorPath(id: string): (path: string)
    ensures |path| == |SensorPathPrefix| + |id|
    ensures path[..|SensorPathPrefix|] == SensorPathPrefix
    ensures path[|SensorPathPrefix|..] == id
  {
    SensorPathPrefix + id
  }

  /** Distinct sensor ids are posted to distinct paths. */
  lemma SensorPathInjective(a: string, b: string)
    ensures SensorPath(a) == SensorPath(b) <==> a == b
  {
    if SensorPath(a) == SensorPath(b) {
      assert a == SensorPath(a)[|SensorPathPrefix|..];
    }
  }

  /** A post: the path it goes to and the payload it carries. */
  datatype PostRequest = PostRequest(path: string, payload: Payload)

  /**
   * The part of `update_home_assistant` before its `try`: the request an update posts,
   * or the exception that ends the update before anything is posted.
   */
  function PrepareUpdate(p: ParameterDefinition, kw: Kwargs<Reading>): (r: Result<PostRequest>)
    ensures r.Err? <==> SensorState(p, kw).Err?
    ensures r.Err? ==> r.error == SensorState(p, kw).error
    ensures r.Ok? ==> r.value.path == SensorPath(p.haSensorId)
    ensures r.Ok? ==> r.value.payload == Payload(SensorState(p, kw).value, AttributesOf(p))
  {
    match SensorState(p, kw)
    case Err(e) => Err(e)
    case Ok(state) => Ok(PostRequest(SensorPath(p.haSensorId), Payload(state, AttributesOf(p))))
  }

  // ---------------------------------------------------------------------------
  // The client session and the server

  /** The `Authorization` header, with the token as an f-string renders it. */
  function AuthorizationHeader(token: Option<string>): (h: (string, string))
    ensures h.0 == "Authorization"
    ensures |h.1| >= 7
    ensures h.1[..7] == "Bearer "
    ensures token.Some? ==> h.1[7..] == token.value
    ensures token.None? ==> h.1 == "Bearer None"
  {
    ("Authorization", "Bearer " + FormatOptional(token))
  }

  const SessionClosedError: PyError := RuntimeError("Session is closed")

  /**
   * An HTTP client session bound to the Home Assistant base URI. The posts it
   * delivered are recorded in `sent`.
   */
  class ClientSession {
    const baseUrl: Option<string>
    const headers: seq<(string, string)>
    var closed: bool
    var sent: seq<PostRequest>

    constructor (baseUrl: Option<string>, headers: seq<(string, string)>)
      ensures this.baseUrl == baseUrl && this.headers == headers
      ensures !closed && sent == []
    {
      this.baseUrl := baseUrl;
      this.headers := headers;
      closed := false;
      sent := [];
    }

    /** Closes the session; closing it again does nothing. */
    method Close()
      modifies this
      ensures closed
      ensures sent == old(sent)
    {
      closed := true;
    }

    /**
     * Posts a request: a closed session raises RuntimeError, a request to one of the
     * `unreachable` paths raises ClientError, and any other request is delivered.
     */
    method Post(req: PostRequest, unreachable: set<string>) returns (err: Option<PyError>)
      modifies this
      ensures closed == old(closed)
      ensures old(closed) ==> err == Some(SessionClosedError)
      ensures !old(closed) && req.path in unreachable ==> err == Some(ClientError)
      ensures err.None? <==> !old(closed) && req.path !in unreachable
      ensures err.None? ==> sent == old(sent) + [req]
      ensures err.Some? ==> sent == old(sent)
    {
      if closed {
        return Some(SessionClosedError);
      }
      if req.path in unreachable {
        return Some(ClientError);
      }
      sent := sent + [req];
      return None;
    }
  }

  /** Whether the server has a client session, and whether it is open. */
  datatype SessionStatus = NoSession | Open | Closed

  /**
   * How one update ends: an exception before the post (it escapes the task), an
   * exception of the post (caught and logged), or a delivered post.
   */
  datatype UpdateOutcome =
    | NotPosted(error: PyError)
    | PostRaised(request: PostRequest, error: PyError)
    | Posted(request: PostRequest)

  /**
   * How the update of one definition ends, given the session it posts through:
   * without a session the `post` attribute lookup fails, a closed session raises,
   * and a post to an unreachable path fails; all three happen inside the `try`.
   */
  function Outcome(p: ParameterDefinition, kw: Kwargs<Reading>, status: SessionStatus,
                   unreachable: set<string>): (o: UpdateOutcome)
    ensures o.NotPosted? <==> PrepareUpdate(p, kw).Err?
    ensures o.NotPosted? ==> o.error == PrepareUpdate(p, kw).error
    ensures !o.NotPosted? ==> o.request == PrepareUpdate(p, kw).value
    ensures o.Posted? <==> PrepareUpdate(p, kw).Ok? && status == Open && SensorPath(p.haSensorId) !in unreachable
  {
    match PrepareUpdate(p, kw)
    case Err(e) => NotPosted(e)
    case Ok(req) =>
      match status
      case NoSession => PostRaised(req, AttributeError)
      case Closed => PostRaised(req, SessionClosedError)
      case Open => if req.path in unreachable then PostRaised(req, ClientError) else Posted(req)
  }

  /**
   * How the updates of a list of definitions end, one per definition in the same
   * order, each with that definition's inputs taken from the query.
   */
  function Outcomes(defs: seq<ParameterDefinition>, q: Query, status: SessionStatus,
                    unreachable: set<string>): (os: seq<UpdateOutcome>)
    ensures |os| == |defs|
  {
    if defs == [] then []
    else
      var init := defs[..|defs| - 1];
      var last := defs[|defs| - 1];
      Outcomes(init, q, status, unreachable) + [Outcome(last, InputParams(last, q), status, unreachable)]
  }

  /**
   * Exactly one update per definition, in the order of the definitions, and none of
   * them skipped: the i-th outcome is that of the i-th definition alone.
   */
  lemma {:induction false} OutcomesPerDefinition(defs: seq<ParameterDefinition>, q: Query,
                                                 status: SessionStatus, unreachable: set<string>, i: int)
    requires 0 <= i < |defs|
    ensures Outcomes(defs, q, status, unreachable)[i] == Outcome(defs[i], InputParams(defs[i], q), status, unreachable)
    decreases |defs|
  {
    if i < |defs| - 1 {
      var init := defs[..|defs| - 1];
      OutcomesPerDefinition(init, q, status, unreachable, i);
      assert init[i] == defs[i];
    }
  }

  /** The requests delivered by a sequence of updates, in order. */
  function Posts(os: seq<UpdateOutcome>): (rs: seq<PostRequest>)
    ensures |rs| <= |os|
  {
    if os == [] then []
    else (if os[0].Posted? then [os[0].request] else []) + Posts(os[1..])
  }

  /** The requests delivered by two runs of updates are those of each, in order. */
  lemma {:induction false} PostsAppend(a: seq<UpdateOutcome>, b: seq<UpdateOutcome>)
    ensures Posts(a + b) == Posts(a) + Posts(b)
    decreases |a|
  {
    if a == [] {
      assert a + b == b;
    } else {
      ConcatTail(a, b);
      PostsAppend(a[1..], b);
      var head := if a[0].Posted? then [a[0].request] else [];
      assert Posts(a + b) == head + Posts(a[1..] + b);
      ConcatAssociative(head, Posts(a[1..]), Posts(b));
    }
  }

  lemma ConcatAssociative<T>(a: seq<T>, b: seq<T>, c: seq<T>)
    ensures (a + b) + c == a + (b + c)
  {
  }

  lemma ConcatTail<T>(a: seq<T>, b: seq<T>)
    requires a != []
    ensures (a + b)[0] == a[0] && (a + b)[1..] == a[1..] + b
  {
  }

  lemma PrefixSnoc<T>(s: seq<T>, i: int)
    requires 0 <= i < |s|
    ensures s[..i + 1] == s[..i] + [s[i]]
  {
  }

  lemma PrefixWhole<T>(s: seq<T>)
    ensures s[..|s|] == s
  {
  }

  // ---------------------------------------------------------------------------
  // Worked updates

  /** The temperature sensor of a typical configuration: `tempf` converted to Celsius. */
  function TemperatureDefinition(): (p: ParameterDefinition)
    ensures p.inputParameters == [WsInputTempFahrenheit] && p.transform.Some?
  {
    ParameterDefinition([WsInputTempFahrenheit], "wupws_temp", "Temperature",
                        Some(UomCelcius), Some("mdi:thermometer"), Some(ConvertFToC))
  }

  /** The temperature definition's inputs for a query holding just `tempf`. */
  lemma {:induction false} TemperatureInputs(r: Reading)
    ensures InputParams(TemperatureDefinition(), [(WsInputTempFahrenheit, r)]).entries
         == [(WsInputTempFahrenheit, Some(r))]
    ensures Numbers(InputParams(TemperatureDefinition(), [(WsInputTempFahrenheit, r)]))
         == Single(WsInputTempFahrenheit, Some(r.number))
  {
    var p := TemperatureDefinition();
    var q: Query := [(WsInputTempFahrenheit, r)];
    var kw := InputParams(p, q);
    assert Distinct(p.inputParameters);
    InputParamsContents(p, q, WsInputTempFahrenheit);
    assert kw.entries == [(WsInputTempFahrenheit, Some(r))];
    assert Numbers(kw).entries == [Numbers(kw).entries[0]];
  }

  /** A query sending 98.6F posts 37.0 to the temperature sensor. */
  lemma TemperatureUpdatePosted()
    ensures var p := TemperatureDefinition();
            var q: Query := [(WsInputTempFahrenheit, Reading("98.6", 98.6))];
            Outcome(p, InputParams(p, q), Open, {})
              == Posted(PostRequest("/api/states/sensor.wupws_temp",
                                    Payload(Number(Decimal(370, 1)),
                                            Attributes(UomCelcius, "mdi:thermometer", "Temperature"))))
  {
    var p := TemperatureDefinition();
    var q: Query := [(WsInputTempFahrenheit, Reading("98.6", 98.6))];
    var kw := InputParams(p, q);
    TemperatureInputs(Reading("98.6", 98.6));
    ConvertFToCBodyTemperature();
    assert SensorState(p, kw) == Ok(Number(Decimal(370, 1)));
  }

  /** A passed-through input the query lacks is posted as JSON null. */
  lemma MissingInputPostedAsNull(p: ParameterDefinition, q: Query)
    requires p.inputParameters != [] && p.transform.None?
    requires forall i :: 0 <= i < |q| ==> q[i].0 != p.inputParameters[0]
    ensures Outcome(p, InputParams(p, q), Open, {}).Posted?
    ensures Outcome(p, InputParams(p, q), Open, {}).request.payload.state == Null
  {
    var kw := InputParams(p, q);
    InputParamsContents(p, q, p.inputParameters[0]);
    assert Keys(kw.entries)[0] == kw.entries[0].0;
  }

  /** A query without `tempf` posts a null temperature: the conversion passes None through. */
  lemma TemperatureMissingPostedAsNull()
    ensures Outcome(TemperatureDefinition(), InputParams(TemperatureDefinition(), []), Open, {}).Posted?
    ensures Outcome(TemperatureDefinition(), InputParams(TemperatureDefinition(), []), Open, {}).request.payload.state == Null
  {
    var p := TemperatureDefinition();
    var kw := InputParams(p, []);
    assert Distinct(p.inputParameters);
    InputParamsContents(p, [], WsInputTempFahrenheit);
    assert kw.entries == [(WsInputTempFahrenheit, None)];
    assert Numbers(kw).entries == [Numbers(kw).entries[0]];
    assert Numbers(kw) == Single(WsInputTempFahrenheit, None);
    assert p.transform.value(Numbers(kw)) == Ok(None);
    assert SensorState(p, kw) == Ok(Null);
  }

  /** The heat index sensor of a typical configuration: `tempf` and `humidity`, in Celsius. */
  function HeatIndexDefinition(): (p: ParameterDefinition)
    ensures p.inputParameters == [WsInputTempFahrenheit, WsInputHumidity] && p.transform.Some?
  {
    ParameterDefinition([WsInputTempFahrenheit, WsInputHumidity], "wupws_heatindex", "Heat Index",
                        Some(UomCelcius), Some("mdi:thermometer"), Some(CalculateHeatIndexC))
  }

  /** The heat index sensor of a query without `humidity` ends with TypeError and posts nothing. */
  lemma HeatIndexWithoutHumidityNotPosted(t: Reading)
    ensures var p := HeatIndexDefinition();
            var q: Query := [(WsInputTempFahrenheit, t)];
            Outcome(p, InputParams(p, q), Open, {}) == NotPosted(TypeError)
  {
    var p := HeatIndexDefinition();
    var q: Query := [(WsInputTempFahrenheit, t)];
    var kw := InputParams(p, q);
    InputParamsContents(p, q, WsInputTempFahrenheit);
    InputParamsContents(p, q, WsInputHumidity);
    NumbersContents(kw, WsInputTempFahrenheit);
    NumbersContents(kw, WsInputHumidity);
    assert QueryGet(q, WsInputHumidity) == None;
    assert DecimalArg(Numbers(kw), WsInputHumidity) == Err(TypeError);
  }

  /**
   * A hot, dry reading, 100F at 5% humidity, reaches the low-humidity correction:
   * the heat index transform raises TypeError and the sensor is not updated.
   */
  lemma DryHeatIndexNotPosted()
    ensures var p := HeatIndexDefinition();
            var q: Query := [(WsInputTempFahrenheit, Reading("100", 100.0)), (WsInputHumidity, Reading("5", 5.0))];
            Outcome(p, InputParams(p, q), Open, {}) == NotPosted(TypeError)
  {
    var p := HeatIndexDefinition();
    var q: Query := [(WsInputTempFahrenheit, Reading("100", 100.0)), (WsInputHumidity, Reading("5", 5.0))];
    var kw := InputParams(p, q);
    InputParamsContents(p, q, WsInputTempFahrenheit);
    InputParamsContents(p, q, WsInputHumidity);
    NumbersContents(kw, WsInputTempFahrenheit);
    NumbersContents(kw, WsInputHumidity);
    assert FirstIndex(q, WsInputTempFahrenheit) == 0;
    assert WsInputTempFahrenheit[0] != WsInputHumidity[0];
    assert FirstIndex(q[1..], WsInputHumidity) == 0;
    assert FirstIndex(q, WsInputHumidity) == 1;
    assert DecimalArg(Numbers(kw), WsInputTempFahrenheit) == Ok(100.0);
    assert DecimalArg(Numbers(kw), WsInputHumidity) == Ok(5.0);
    HeatIndexAsWrittenCounterexample();
    assert p.transform.value(Numbers(kw)) == Err(TypeError);
    assert SensorState(p, kw) == Err(TypeError);
  }

  /**
   * A transform that raises StopIteration on its inputs ends the update with the
   * coroutine's RuntimeError, as the first-value lookup does on no inputs.
   */
  lemma TransformStopIterationNotPosted(p: ParameterDefinition, q: Query, status: SessionStatus,
                                        unreachable: set<string>)
    requires p.inputParameters != [] && p.transform.Some?
    requires p.transform.value(Numbers(InputParams(p, q))) == Err(StopIteration)
    ensures Outcome(p, InputParams(p, q), status, unreachable) == NotPosted(CoroutineRaisedStopIteration)
  {
  }

  /** A definition without input parameters ends before posting, whatever it transforms. */
  lemma NoInputsNotPosted(p: ParameterDefinition, q: Query, status: SessionStatus, unreachable: set<string>)
    requires p.inputParameters == []
    ensures Outcome(p, InputParams(p, q), status, unreachable) == NotPosted(CoroutineRaisedStopIteration)
  {
  }

  /** The reply of the request handler. */
  datatype Response = HTTPOk | HandlerRaised(error: PyError)

  /** The server: its configuration and its client session, which starts out missing. */
  class LocalWunderServer {
    const config: Configuration
    var clientSession: ClientSession?

    constructor (config: Configuration)
      ensures this.config == config
      ensures clientSession == null
    {
      this.config := config;
      clientSession := null;
    }

    function Status(): SessionStatus
      reads this, clientSession
    {
      if clientSession == null then NoSession
      else if clientSession.closed then Closed
      else Open
    }

    /**
     * The startup handler: a new open session bound to the configured base URI, with
     * the `Authorization` header built from the configured token.
     */
    method CreateClientSession()
      modifies this
      ensures fresh(clientSession)
      ensures clientSession.baseUrl == config.haServerUri
      ensures clientSession.headers == [AuthorizationHeader(config.haLongLivedToken)]
      ensures !clientSession.closed && clientSession.sent == []
      ensures Status() == Open
    {
      clientSession := new ClientSession(config.haServerUri, [AuthorizationHeader(config.haLongLivedToken)]);
    }

    /**
     * The shutdown handler: closes the session; without one, looking up `close` on
     * None raises AttributeError.
     */
    method CleanupClientSession() returns (err: Option<PyError>)
      modifies clientSession
      ensures err == if old(clientSession) == null then Some(AttributeError) else None
      ensures clientSession == old(clientSession)
      ensures clientSession != null ==> clientSession.closed && clientSession.sent == old(clientSession.sent)
      ensures old(Status()) != NoSession ==> Status() == Closed
    {
      if clientSession == null {
        return Some(AttributeError);
      }
      clientSession.Close();
      return None;
    }

    /** The update of one definition's sensor, posted through the current session. */
    method UpdateHomeAssistant(p: ParameterDefinition, values: Kwargs<Reading>, unreachable: set<string>)
      returns (o: UpdateOutcome)
      modifies clientSession
      ensures o == Outcome(p, values, old(Status()), unreachable)
      ensures Status() == old(Status())
      ensures clientSession != null ==> clientSession.sent == old(clientSession.sent) + Posts([o])
    {
      match PrepareUpdate(p, values)
      case Err(e) =>
        o := NotPosted(e);
      case Ok(req) =>
        if clientSession == null {
          o := PostRaised(req, AttributeError);
        } else {
          var err := clientSession.Post(req, unreachable);
          o := if err.Some? then PostRaised(req, err.value) else Posted(req);
        }
    }

    /**
     * The request handler: starts one update per parameter definition, in the order of
     * the configuration, each with that definition's inputs taken from the query, and
     * replies HTTPOk whatever the updates do. Definitions left at None make the loop
     * raise TypeError before anything is started.
     */
    method UpdateWeatherStation(q: Query, unreachable: set<string>)
      returns (resp: Response, outcomes: seq<UpdateOutcome>)
      modifies clientSession
      ensures config.parameterDefinitions.None? ==> resp == HandlerRaised(TypeError) && outcomes == []
      ensures config.parameterDefinitions.Some? ==> resp == HTTPOk
      ensures config.parameterDefinitions.Some? ==>
                outcomes == Outcomes(config.parameterDefinitions.value, q, old(Status()), unreachable)
      ensures Status() == old(Status())
      ensures clientSession != null ==> clientSession.sent == old(clientSession.sent) + Posts(outcomes)
    {
      if config.parameterDefinitions.None? {
        return HandlerRaised(TypeError), [];
      }
      var defs := config.parameterDefinitions.value;
      ghost var expected := Outcomes(defs, q, Status(), unreachable);
      outcomes := [];
      var i := 0;
      while i < |defs|
        invariant 0 <= i <= |defs|
        invariant outcomes == expected[..i]
        invariant Status() == old(Status())
        invariant clientSession != null ==> clientSession.sent == old(clientSession.sent) + Posts(outcomes)
      {
        var values := InputParams(defs[i], q);
        var o := UpdateHomeAssistant(defs[i], values, unreachable);
        OutcomesPerDefinition(defs, q, old(Status()), unreachable, i);
        PostsAppend(outcomes, [o]);
        if clientSession != null {
          ConcatAssociative(old(clientSession.sent), Posts(outcomes), Posts([o]));
        }
        PrefixSnoc(expected, i);
        outcomes := outcomes + [o];
        i := i + 1;
      }
      PrefixWhole(expected);
      resp := HTTPOk;
    }
  }
}
