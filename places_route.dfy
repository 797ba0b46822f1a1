/**
 * The facility-search route `POST /api/places`: it validates a JSON body,
 * fills in the search defaults, forwards one text search to the maps
 * provider, and wraps the provider's answer, or the error, in its own JSON
 * reply. The provider call is an input (`Upstream`); the result also says
 * which request, if any, was sent.
 */
module PlacesRoute {
  import opened Wrappers
  import opened Json

  /** What the provider call came to. */
  datatype Upstream =
    | Rejected(message: string)                                   // `fetch` itself rejected
    | Responded(ok: bool, statusText: string, json: Result<Json>) // a response; `json` is its parsed body, or the parse error

  /** The request sent to the provider: its two credential headers and its JSON body. */
  datatype Request = Request(apiKey: string, fieldMask: string, body: Json)

  datatype Response =
    | Reply(status: nat, body: map<string, Json>)
    | Crash(message: string)  // thrown before the `try`: the framework answers 500 without a body of this route

  datatype Outcome = Outcome(request: Option<Request>, response: Response)

  const FieldMask := "places.displayName,places.formattedAddress,places.location,places.id,places.types"
  const DefaultRadius: real := 5000.0
  const DefaultPageSize: real := 5.0
  const DefaultRank := "RELEVANCE"

  /** A configuration value is usable when it is set and non-empty. */
  predicate Present(v: Option<string>) {
    v.Some? && v.value != ""
  }

  /** The search body: the query, the page size and ranking, and a circle of `radius` metres around the centre. */
  function SearchBody(textQuery: Json, latitude: Json, longitude: Json, radius: Json, pageSize: Json, rankPreference: Json): (j: Json)
    ensures j.Obj? && j.fields.Keys == {"textQuery", "pageSize", "rankPreference", "locationBias"}
  {
    Obj(map[
      "textQuery" := textQuery,
      "pageSize" := pageSize,
      "rankPreference" := rankPreference,
      "locationBias" := Obj(map[
        "circle" := Obj(map[
          "radius" := radius,
          "center" := Obj(map["latitude" := latitude, "longitude" := longitude])])])])
  }

  /** Reading the search body back gives each value where the provider expects it. */
  lemma SearchBodyPaths(textQuery: Json, latitude: Json, longitude: Json, radius: Json, pageSize: Json, rankPreference: Json)
    ensures var sent := SearchBody(textQuery, latitude, longitude, radius, pageSize, rankPreference);
      && Path(sent, ["textQuery"]) == textQuery
      && Path(sent, ["pageSize"]) == pageSize
      && Path(sent, ["rankPreference"]) == rankPreference
      && Path(sent, ["locationBias", "circle", "radius"]) == radius
      && Path(sent, ["locationBias", "circle", "center", "latitude"]) == latitude
      && Path(sent, ["locationBias", "circle", "center", "longitude"]) == longitude
  {
    var sent := SearchBody(textQuery, latitude, longitude, radius, pageSize, rankPreference);
    var circle := Path(sent, ["locationBias", "circle"]);
    assert Path(sent, ["locationBias", "circle", "radius"]) == Path(circle, ["radius"]) by {
      assert ["locationBias", "circle", "radius"][1..] == ["circle", "radius"];
      assert ["circle", "radius"][1..] == ["radius"];
    }
    CenterPaths(sent, circle);
  }

  /** The two coordinates sit under `center` in the circle. */
  lemma CenterPaths(sent: Json, circle: Json)
    requires circle == Path(sent, ["locationBias", "circle"])
    ensures Path(sent, ["locationBias", "circle", "center", "latitude"]) == Path(Path(circle, ["center"]), ["latitude"])
    ensures Path(sent, ["locationBias", "circle", "center", "longitude"]) == Path(Path(circle, ["center"]), ["longitude"])
  {
    assert ["locationBias", "circle", "center", "latitude"][1..] == ["circle", "center", "latitude"];
    assert ["circle", "center", "latitude"][1..] == ["center", "latitude"];
    assert ["center", "latitude"][1..] == ["latitude"];
    assert ["locationBias", "circle", "center", "longitude"][1..] == ["circle", "center", "longitude"];
    assert ["circle", "center", "longitude"][1..] == ["center", "longitude"];
    assert ["center", "longitude"][1..] == ["longitude"];
  }

  /** Reads `v.k1.k2...` on nested plain objects; `undefined` as soon as a step is not an object. */
  function Path(v: Json, keys: seq<string>): Json
    decreases |keys|
  {
    if keys == [] then v
    else if v.Obj? then Path(Field(v.fields, keys[0]), keys[1..])
    else Undefined
  }

  /** On a value that is neither `null` nor `undefined`, a property read is a one-step path. */
  lemma PropIsPath(v: Json, key: string)
    requires !v.Null? && !v.Undefined?
    ensures Prop(v, key) == Success(Path(v, [key]))
  {
    assert [key][1..] == [];
  }

  /** The body of every error reply from inside the `try`: the stack travels only in development. */
  function ErrorBody(message: string, stack: string, nodeEnv: Option<string>): (b: map<string, Json>)
    ensures "success" in b && b["success"] == Bool(false)
    ensures "error" in b && b["error"] == Str(message)
    ensures "stack" in b <==> nodeEnv == Some("development")
    ensures "stack" in b ==> b["stack"] == Str(stack)
    ensures b.Keys <= {"success", "error", "stack"}
  {
    var b := map["success" := Bool(false), "error" := Str(message)];
    if nodeEnv == Some("development") then b["stack" := Str(stack)] else b
  }

  /** After the request was sent: the provider's outcome decides the reply. */
  function AfterFetch(upstream: Upstream, stack: string, nodeEnv: Option<string>): (r: Response)
    ensures r.Reply?
    ensures r.status == 200 <==> upstream.Responded? && upstream.ok && upstream.json.Success?
    ensures r.status != 200 ==> r.status == 500
    ensures upstream.Rejected? ==> r == Reply(500, ErrorBody(upstream.message, stack, nodeEnv))
    ensures upstream.Responded? && !upstream.ok ==>
      r == Reply(500, ErrorBody("Google Places API error: " + upstream.statusText, stack, nodeEnv))
    ensures upstream.Responded? && upstream.ok && upstream.json.Failure? ==>
      r == Reply(500, ErrorBody(upstream.json.error, stack, nodeEnv))
  {
    match upstream
    case Rejected(m) => Reply(500, ErrorBody(m, stack, nodeEnv))
    case Responded(ok, statusText, json) =>
      if !ok then Reply(500, ErrorBody("Google Places API error: " + statusText, stack, nodeEnv))
      else if json.Failure? then Reply(500, ErrorBody(json.error, stack, nodeEnv))
      else Reply(200, map["success" := Bool(true), "places" := json.value])
  }

  /**
   * `POST(request)`: `body` is what `request.json()` came to, `apiKey` the
   * provider key from the environment, `stack` the stack trace a thrown
   * error would carry.
   */
  function Post(body: Result<Json>, apiKey: Option<string>, nodeEnv: Option<string>, upstream: Upstream, stack: string): (o: Outcome)
    // an unreadable body, or a body that is `null` (or `undefined`), throws before any check
    ensures o.response.Crash? <==> body.Failure? || body.value.Null? || body.value.Undefined?
    ensures o.response.Crash? ==>
      o.request.None? && o.response.message == (if body.Failure? then body.error else ReadError(body.value, "textQuery"))
    ensures o.response.Reply? && o.response.status == 400 <==>
      body.Success? && !body.value.Null? && !body.value.Undefined? &&
      !(Truthy(Path(body.value, ["textQuery"])) && Truthy(Path(body.value, ["latitude"])) && Truthy(Path(body.value, ["longitude"])))
    ensures o.response.Reply? && o.response.status == 400 ==>
      o.response.body == map["success" := Bool(false), "error" := Str("Missing required parameters: textQuery, latitude, longitude")]
    // the provider is asked exactly when the three required fields are truthy and the key is set
    ensures o.request.Some? <==>
      body.Success? && Truthy(Path(body.value, ["textQuery"])) && Truthy(Path(body.value, ["latitude"]))
      && Truthy(Path(body.value, ["longitude"])) && Present(apiKey)
    ensures o.request.Some? ==>
      var sent := o.request.value.body;
      && o.request.value.apiKey == apiKey.value
      && o.request.value.fieldMask == FieldMask
      && Path(sent, ["textQuery"]) == Path(body.value, ["textQuery"])
      && Path(sent, ["locationBias", "circle", "center", "latitude"]) == Path(body.value, ["latitude"])
      && Path(sent, ["locationBias", "circle", "center", "longitude"]) == Path(body.value, ["longitude"])
      && Path(sent, ["locationBias", "circle", "radius"]) == DefaultIfUndefined(Path(body.value, ["radius"]), Num(DefaultRadius))
      && Path(sent, ["pageSize"]) == DefaultIfUndefined(Path(body.value, ["pageSize"]), Num(DefaultPageSize))
      && Path(sent, ["rankPreference"]) == DefaultIfUndefined(Path(body.value, ["rankPreference"]), Str(DefaultRank))
    // validation passed but no key: a configuration error, and no request
    ensures (body.Success? && Truthy(Path(body.value, ["textQuery"])) && Truthy(Path(body.value, ["latitude"]))
             && Truthy(Path(body.value, ["longitude"])) && !Present(apiKey)) ==>
      o == Outcome(None, Reply(500, map["success" := Bool(false), "error" := Str("API configuration error")]))
    // once the request is sent, the provider's outcome alone decides the reply
    ensures o.request.Some? ==> o.response == AfterFetch(upstream, stack, nodeEnv)
    // success carries the provider's parsed answer unchanged
    ensures o.response.Reply? && o.response.status == 200 <==>
      o.request.Some? && upstream.Responded? && upstream.ok && upstream.json.Success?
    ensures o.response.Reply? && o.response.status == 200 ==>
      o.response.body == map["success" := Bool(true), "places" := upstream.json.value]
    ensures o.response.Reply? ==> o.response.status in {200, 400, 500}
  {
    if body.Failure? then Outcome(None, Crash(body.error))
    else
      var b := body.value;
      match Prop(b, "textQuery")
      case Failure(m) => Outcome(None, Crash(m))
      case Success(textQuery) =>
        PropIsPath(b, "textQuery");
        PropIsPath(b, "latitude");
        PropIsPath(b, "longitude");
        var latitude := Prop(b, "latitude").value;
        var longitude := Prop(b, "longitude").value;
        if !Truthy(textQuery) || !Truthy(latitude) || !Truthy(longitude) then
          Outcome(None, Reply(400, map["success" := Bool(false), "error" := Str("Missing required parameters: textQuery, latitude, longitude")]))
        else if !Present(apiKey) then
          Outcome(None, Reply(500, map["success" := Bool(false), "error" := Str("API configuration error")]))
        else
          PropIsPath(b, "radius");
          PropIsPath(b, "pageSize");
          PropIsPath(b, "rankPreference");
          var radius := DefaultIfUndefined(Prop(b, "radius").value, Num(DefaultRadius));
          var pageSize := DefaultIfUndefined(Prop(b, "pageSize").value, Num(DefaultPageSize));
          var rankPreference := DefaultIfUndefined(Prop(b, "rankPreference").value, Str(DefaultRank));
          SearchBodyPaths(textQuery, latitude, longitude, radius, pageSize, rankPreference);
          var request := Request(apiKey.value, FieldMask, SearchBody(textQuery, latitude, longitude, radius, pageSize, rankPreference));
          Outcome(Some(request), AfterFetch(upstream, stack, nodeEnv))
  }

  /** A missing key is a configuration error, reported after validation and before any provider call. */
  lemma MissingKeyIsConfigurationError(body: Json, nodeEnv: Option<string>, upstream: Upstream, stack: string)
    requires Truthy(Path(body, ["textQuery"])) && Truthy(Path(body, ["latitude"])) && Truthy(Path(body, ["longitude"]))
    ensures Post(Success(body), None, nodeEnv, upstream, stack)
         == Outcome(None, Reply(500, map["success" := Bool(false), "error" := Str("API configuration error")]))
  {
  }

  /** Destructuring defaults fire on `undefined` only: an explicit radius `0` or `null` is forwarded as given. */
  lemma ExplicitRadiusKept(fields: map<string, Json>, apiKey: string, nodeEnv: Option<string>, upstream: Upstream, stack: string)
    requires "radius" in fields && !fields["radius"].Undefined?
    requires Truthy(Field(fields, "textQuery")) && Truthy(Field(fields, "latitude")) && Truthy(Field(fields, "longitude"))
    requires apiKey != ""
    ensures var o := Post(Success(Obj(fields)), Some(apiKey), nodeEnv, upstream, stack);
      o.request.Some? && Path(o.request.value.body, ["locationBias", "circle", "radius"]) == fields["radius"]
  {
  }

  /** A coordinate of `0` (the equator or the prime meridian) is falsy, so such a search is refused. */
  lemma ZeroCoordinateRefused(fields: map<string, Json>, apiKey: Option<string>, nodeEnv: Option<string>, upstream: Upstream, stack: string)
    requires Field(fields, "latitude") == Num(0.0) || Field(fields, "longitude") == Num(0.0)
    ensures Post(Success(Obj(fields)), apiKey, nodeEnv, upstream, stack).response.Reply?
    ensures Post(Success(Obj(fields)), apiKey, nodeEnv, upstream, stack).response.status == 400
    ensures Post(Success(Obj(fields)), apiKey, nodeEnv, upstream, stack).request.None?
  {
  }
}
