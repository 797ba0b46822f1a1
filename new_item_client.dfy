/**
 * The item-upload component: the form state (chosen file, preview, the
 * classifier's predictions, the chosen label, the user's text, the busy
 * flag) as a class whose methods are the component's handlers, and the pure
 * steps of a submission — reading the two replies, mapping place results to
 * recycling locations, looking up the confidence of the chosen label,
 * parsing the guidance text and assembling the item record.
 *
 * Every browser or network effect is an input: the position (or its
 * refusal), the two joined replies, the classifier's reply, the generated
 * item hash and the clock.
 */
module NewItemClient {
  import opened Wrappers
  import opened Json
  import opened Text
  import opened FirebaseDBHelpers
  import GeminiRoute

  /** A picked or dropped file: only its name and declared MIME type matter here. */
  datatype File = File(name: string, mimeType: string)

  /** One classifier prediction. */
  datatype Prediction = Prediction(labelText: string, score: real)  // `labelText` is the prediction's `label`

  /** The MIME types the form accepts. */
  const AllowedTypes: seq<string> := ["image/jpeg", "image/jpg", "image/png", "image/webp"]

  const UnsupportedTypeAlert := "Please upload a JPEG, PNG, or WebP image."
  const NoGeolocationAlert := "Geolocation is not supported by your browser."
  const LocationDeniedAlert := "Location access is required to submit. Please allow location access and try again."
  const MissingIdAlert := "User ID or item hash is missing."
  const NotMappableMessage := "(placesResp.places || []).map is not a function"
  const AnswerNotStringMessage := "geminiResp.answer.match is not a function"

  // ---------------------------------------------------------------------------
  // Guidance parsing: `/Cost:\s*([^\n]*)/` and `/Details:\s*([\s\S]*)/`, each group trimmed.
  // ---------------------------------------------------------------------------

  /**
   * The outcome label: after the first `Cost:`, blanks (newlines included) are
   * skipped and the rest of that line is taken and trimmed; absent when the
   * answer holds no `Cost:`. The label never spans two lines.
   */
  function CostOf(answer: string): (r: Option<string>)
    ensures r.None? <==> !Contains(answer, "Cost:")
    ensures r.Some? ==> '\n' !in r.value
  {
    match IndexOf(answer, "Cost:")
    case None => None
    case Some(i) =>
      var line := TakeLine(SkipWhite(answer[i + 5..]));
      TrimKeepsOut(line, '\n');
      Some(Trim(line))
  }

  /** The description: everything after the first `Details:`, trimmed; absent when the answer holds no `Details:`. */
  function DetailsOf(answer: string): (r: Option<string>)
    ensures r.None? <==> !Contains(answer, "Details:")
  {
    match IndexOf(answer, "Details:")
    case None => None
    case Some(i) => Some(Trim(SkipWhite(answer[i + 8..])))
  }

  datatype Guidance = Guidance(outcome: string, description: string)

  /** The outcome and description drawn from the answer; they default to "Neutral" and the whole answer. */
  function ParseGuidance(answer: string): (g: Guidance)
    ensures !Contains(answer, "Cost:") ==> g.outcome == "Neutral"
    ensures Contains(answer, "Cost:") ==> '\n' !in g.outcome
    ensures !Contains(answer, "Details:") ==> g.description == answer
  {
    Guidance(CostOf(answer).GetOr("Neutral"), DetailsOf(answer).GetOr(answer))
  }

  /**
   * Characterises the outcome: for an answer whose first `Cost:` is followed
   * by blanks and then a non-blank line, the outcome is that line, trimmed.
   */
  lemma {:induction false} CostLine(a: string, w: string, line: string, rest: string)
    requires !Contains(a, "Cost:")
    requires AllWhite(w)
    requires line != [] && !IsWhite(line[0]) && '\n' !in line
    requires rest == [] || rest[0] == '\n'
    ensures CostOf(a + "Cost:" + w + line + rest) == Some(Trim(line))
  {
    var s := a + "Cost:" + w + line + rest;
    assert s == a + "Cost:" + (w + line + rest);
    FirstOccurrenceAfter(a, "Cost:", w + line + rest);
    assert s[|a| + 5..] == w + (line + rest);
    SkipWhiteOver(w, line + rest);
    TakeLineOver(line, rest);
  }

  /**
   * The other outcome of a first `Cost:`: when only blanks (newlines
   * included) follow it to the end of the answer, the outcome is "", not
   * "Neutral".
   */
  lemma {:induction false} CostBlankTail(a: string, w: string)
    requires !Contains(a, "Cost:")
    requires AllWhite(w)
    ensures CostOf(a + "Cost:" + w) == Some("")
  {
    var s := a + "Cost:" + w;
    FirstOccurrenceAfter(a, "Cost:", w);
    assert s[|a| + 5..] == w;
    assert SkipWhite(w) == [];
  }

  /** Characterises the description: it is everything after the first `Details:`, trimmed. */
  lemma {:induction false} DetailsRest(a: string, z: string)
    requires !Contains(a, "Details:")
    ensures DetailsOf(a + "Details:" + z) == Some(Trim(z))
  {
    FirstOccurrenceAfter(a, "Details:", z);
    assert (a + "Details:" + z)[|a| + 8..] == z;
    TrimAfterSkipWhite(z);
  }

  /** The three-section layout the guidance is meant to follow. */
  function GuidanceText(outcome: string, value: string, details: string): string {
    "Cost: " + outcome + "\n\nRedemption Value: " + value + "\n\nDetails: " + details
  }

  /** The first two sections of the layout hold no `Details:` unless the outcome or the value does. */
  lemma HeadHasNoDetails(outcome: string, value: string)
    requires !Contains(outcome, "Details:") && !Contains(value, "Details:")
    ensures !Contains("Cost: " + outcome + "\n\nRedemption Value: " + value + "\n\n", "Details:")
  {
    var p := "Details:";
    var first := "Cost: " + outcome;
    var second := "\nRedemption Value: " + value + "\n\n";
    OutcomeLineHasNoDetails(outcome);
    ValueLineHasNoDetails(value);
    ContainsAcross(first, '\n', second, p);
    assert first + ['\n'] + second == "Cost: " + outcome + "\n\nRedemption Value: " + value + "\n\n";
  }

  lemma OutcomeLineHasNoDetails(outcome: string)
    requires !Contains(outcome, "Details:")
    ensures !Contains("Cost: " + outcome, "Details:")
  {
    var p := "Details:";
    ShorterNotContained("Cost:", p);
    ContainsAcross("Cost:", ' ', outcome, p);
    assert "Cost:" + [' '] + outcome == "Cost: " + outcome;
  }

  lemma ValueLineHasNoDetails(value: string)
    requires !Contains(value, "Details:")
    ensures !Contains("\nRedemption Value: " + value + "\n\n", "Details:")
  {
    var p := "Details:";
    var line := "Redemption Value: " + value;
    LabelledValueHasNoDetails(value);
    ShorterNotContained([], p);
    ContainsAcross([], '\n', [], p);
    assert [] + ['\n'] + [] == "\n";
    ContainsAcross(line, '\n', "\n", p);
    assert line + ['\n'] + "\n" == line + "\n\n";
    ContainsAcross([], '\n', line + "\n\n", p);
    assert [] + ['\n'] + (line + "\n\n") == "\nRedemption Value: " + value + "\n\n";
  }

  lemma LabelledValueHasNoDetails(value: string)
    requires !Contains(value, "Details:")
    ensures !Contains("Redemption Value: " + value, "Details:")
  {
    var p := "Details:";
    MissingCharNotContained("Redemption", p, ':');
    ShorterNotContained("Value:", p);
    ContainsAcross("Redemption", ' ', "Value:", p);
    assert "Redemption" + [' '] + "Value:" == "Redemption Value:";
    ContainsAcross("Redemption Value:", ' ', value, p);
    assert "Redemption Value:" + [' '] + value == "Redemption Value: " + value;
  }

  /**
   * Round trip: a guidance text in the three-section layout parses back to its
   * outcome and its (trimmed) details, as long as the outcome is one trimmed
   * line and neither of the first two sections mentions `Details:`.
   */
  lemma {:induction false} GuidanceRoundTrip(outcome: string, value: string, details: string)
    requires outcome != [] && !IsWhite(outcome[0]) && !IsWhite(outcome[|outcome| - 1]) && '\n' !in outcome
    requires !Contains(outcome, "Details:") && !Contains(value, "Details:")
    ensures ParseGuidance(GuidanceText(outcome, value, details)) == Guidance(outcome, Trim(details))
  {
    GuidanceOutcome(outcome, value, details);
    GuidanceDetails(outcome, value, details);
  }

  /** The outcome half of the round trip: the `Cost:` line is read back whatever follows it. */
  lemma GuidanceOutcome(outcome: string, value: string, details: string)
    requires outcome != [] && !IsWhite(outcome[0]) && !IsWhite(outcome[|outcome| - 1]) && '\n' !in outcome
    ensures CostOf(GuidanceText(outcome, value, details)) == Some(outcome)
  {
    var tail := "\n\nRedemption Value: " + value + "\n\nDetails: " + details;
    assert GuidanceText(outcome, value, details) == [] + "Cost:" + " " + outcome + tail;
    ShorterNotContained([], "Cost:");
    CostLine([], " ", outcome, tail);
    TrimOfTrimmed(outcome);
  }

  /** The description half of the round trip: the last section is read back whatever the outcome line holds. */
  lemma GuidanceDetails(outcome: string, value: string, details: string)
    requires !Contains(outcome, "Details:") && !Contains(value, "Details:")
    ensures DetailsOf(GuidanceText(outcome, value, details)) == Some(Trim(details))
  {
    var head := "Cost: " + outcome + "\n\nRedemption Value: " + value + "\n\n";
    HeadHasNoDetails(outcome, value);
    assert GuidanceText(outcome, value, details) == head + "Details:" + (" " + details);
    DetailsRest(head, " " + details);
    TrimLeadingBlank(' ', details);
  }

  // ---------------------------------------------------------------------------
  // Recycling locations and confidence.
  // ---------------------------------------------------------------------------

  /** One place result as a recycling location: `name`/`address` default to "", `latitude`/`longitude` to 0. */
  function LocationOf(place: Json): (r: Result<Location>)
    ensures r.Failure? <==> place.Undefined? || place.Null?
    ensures r.Success? ==>
      && (Truthy(Prop(place, "name").value) ==> r.value.name == Prop(place, "name").value)
      && (!Truthy(Prop(place, "name").value) ==> r.value.name == Str(""))
      && (Truthy(Prop(place, "latitude").value) ==> r.value.lat == Prop(place, "latitude").value)
      && (!Truthy(Prop(place, "latitude").value) ==> r.value.lat == Num(0.0))
      && (Truthy(Prop(place, "longitude").value) ==> r.value.long == Prop(place, "longitude").value)
      && (!Truthy(Prop(place, "longitude").value) ==> r.value.long == Num(0.0))
      && (Truthy(Prop(place, "address").value) ==> r.value.address == Prop(place, "address").value)
      && (!Truthy(Prop(place, "address").value) ==> r.value.address == Str(""))
  {
    match Prop(place, "name")
    case Failure(m) => Failure(m)
    case Success(name) =>
      Success(Location(
        Or(name, Str("")),
        Or(Prop(place, "latitude").value, Num(0.0)),
        Or(Prop(place, "longitude").value, Num(0.0)),
        Or(Prop(place, "address").value, Str(""))))
  }

  /** `places.map(...)`: element by element, in order; the first `null`/`undefined` element throws. */
  function MapPlaces(places: seq<Json>): (r: Result<seq<Location>>)
    ensures r.Success? <==> forall i :: 0 <= i < |places| ==> LocationOf(places[i]).Success?
    ensures r.Success? ==> |r.value| == |places|
    ensures r.Success? ==> forall i :: 0 <= i < |places| ==> r.value[i] == LocationOf(places[i]).value
    ensures r.Failure? ==> exists i :: (0 <= i < |places| && LocationOf(places[i]).Failure? && r.error == LocationOf(places[i]).error
      && forall j :: 0 <= j < i ==> LocationOf(places[j]).Success?)
  {
    if places == [] then Success([])
    else
      match LocationOf(places[0])
      case Failure(m) => Failure(m)
      case Success(first) =>
        match MapPlaces(places[1..])
        case Failure(m) =>
          var k :| 0 <= k < |places[1..]| && LocationOf(places[1..][k]).Failure? && m == LocationOf(places[1..][k]).error
            && forall j :: 0 <= j < k ==> LocationOf(places[1..][j]).Success?;
          assert places[1..][k] == places[k + 1];
          assert forall j :: 0 <= j < k + 1 ==> LocationOf(places[j]).Success? by {
            forall j | 0 <= j < k + 1 ensures LocationOf(places[j]).Success? {
              if j > 0 { assert places[j] == places[1..][j - 1]; }
            }
          }
          Failure(m)
        case Success(rest) =>
          assert forall i :: 1 <= i < |places| ==> places[i] == places[1..][i - 1];
          Success([first] + rest)
  }

  /** `(placesResp.places || []).map(...)`: a missing list maps to none, a list element by element, anything else throws. */
  function MapLocations(places: Json): (r: Result<seq<Location>>)
    ensures !Truthy(places) ==> r == Success([])
    ensures places.Arr? ==> r == MapPlaces(places.elems)
    ensures Truthy(places) && !places.Arr? ==> r == Failure(NotMappableMessage)
  {
    match Or(places, Arr([]))
    case Arr(elems) => MapPlaces(elems)
    case _ => Failure(NotMappableMessage)
  }

  /** `predictions.find(p => p.label === selected)`: the index of the first prediction with that label. */
  function FindLabel(predictions: seq<Prediction>, selected: string): (r: Option<nat>)
    ensures r.Some? ==> r.value < |predictions| && predictions[r.value].labelText == selected
    ensures r.Some? ==> forall j :: 0 <= j < r.value ==> predictions[j].labelText != selected
    ensures r.None? <==> forall j :: 0 <= j < |predictions| ==> predictions[j].labelText != selected
  {
    if predictions == [] then None
    else if predictions[0].labelText == selected then Some(0)
    else
      match FindLabel(predictions[1..], selected)
      case None =>
        assert forall j :: 1 <= j < |predictions| ==> predictions[j] == predictions[1..][j - 1];
        None
      case Some(k) =>
        assert forall j :: 1 <= j <= k ==> predictions[j] == predictions[1..][j - 1];
        Some(k + 1)
  }

  /** `selectedPredictionObj?.score ?? 0`: the score of the first prediction with the chosen label, or 0. */
  function ConfidenceFor(predictions: seq<Prediction>, selected: string): (r: real)
    ensures (forall j :: 0 <= j < |predictions| ==> predictions[j].labelText != selected) ==> r == 0.0
    ensures forall i :: (0 <= i < |predictions| && predictions[i].labelText == selected
      && (forall j :: 0 <= j < i ==> predictions[j].labelText != selected)) ==> r == predictions[i].score
  {
    match FindLabel(predictions, selected)
    case None => 0.0
    case Some(i) => predictions[i].score
  }

  /** Right after a classification the pre-selected label is the first prediction's, so the confidence is its score. */
  lemma TopPredictionConfidence(predictions: seq<Prediction>)
    requires predictions != []
    ensures ConfidenceFor(predictions, predictions[0].labelText) == predictions[0].score
  {
  }

  // ---------------------------------------------------------------------------
  // Reading the two replies and assembling the item.
  // ---------------------------------------------------------------------------

  /** One reply of the joined requests: its `content-type` header, its body parsed as JSON (or the parse error), its body as text. */
  datatype HttpReply = HttpReply(contentType: Option<string>, json: Result<Json>, text: string)

  /** A reply is read as JSON when its content type mentions `application/json`. */
  predicate IsJson(reply: HttpReply): (b: bool)
    ensures b <==> Contains(reply.contentType.GetOr(""), "application/json")
    ensures reply.contentType.None? ==> !b
  {
    ShorterNotContained("", "application/json");
    Includes(reply.contentType.GetOr(""), "application/json")
  }

  /** The guidance reply: its JSON, or `{ answer: text }`. */
  function ReadGuidance(reply: HttpReply): (r: Result<Json>)
    ensures IsJson(reply) ==> r == reply.json
    ensures !IsJson(reply) ==> r == Success(Obj(map["answer" := Str(reply.text)]))
  {
    if IsJson(reply) then reply.json else Success(Obj(map["answer" := Str(reply.text)]))
  }

  /** The places reply: its JSON, or `{ places: [] }`. */
  function ReadPlaces(reply: HttpReply): (r: Result<Json>)
    ensures IsJson(reply) ==> r == reply.json
    ensures !IsJson(reply) ==> r == Success(Obj(map["places" := Arr([])]))
  {
    if IsJson(reply) then reply.json else Success(Obj(map["places" := Arr([])]))
  }

  /** `geminiResp.answer` as text: falsy is "", a string is itself, anything else makes `.match` throw. */
  function AnswerText(answer: Json): (r: Result<string>)
    ensures !Truthy(answer) ==> r == Success("")
    ensures answer.Str? ==> r == Success(answer.s)
    ensures r.Failure? <==> Truthy(answer) && !answer.Str?
  {
    if !Truthy(answer) then Success("")
    else if answer.Str? then Success(answer.s)
    else Failure(AnswerNotStringMessage)
  }

  /** The guidance half reads without throwing: the reply parses, `answer` can be read, and it is falsy or a string. */
  predicate GuidanceReadable(guidance: HttpReply) {
    && ReadGuidance(guidance).Success?
    && Prop(ReadGuidance(guidance).value, "answer").Success?
    && AnswerText(Prop(ReadGuidance(guidance).value, "answer").value).Success?
  }

  /** The places half reads without throwing: the reply parses, `places` can be read, and every place maps. */
  predicate PlacesReadable(places: HttpReply) {
    && ReadPlaces(places).Success?
    && Prop(ReadPlaces(places).value, "places").Success?
    && MapLocations(Prop(ReadPlaces(places).value, "places").value).Success?
  }

  /**
   * The item record built from the two replies, in the order the code reads
   * them; `Failure` carries the message of the first error thrown. The user
   * location is attached later, once the ids are checked.
   */
  function BuildItem(guidance: HttpReply, places: HttpReply, predictions: seq<Prediction>, selected: string,
                     preview: Option<string>, itemHash: string, now: int): (r: Result<ItemData>)
    // an item is built exactly when neither half throws
    ensures r.Success? <==> GuidanceReadable(guidance) && PlacesReadable(places)
    ensures r.Success? ==>
      && MapLocations(Prop(ReadPlaces(places).value, "places").value) == Success(r.value.recyclingLocations)
      && var g := ParseGuidance(AnswerText(Prop(ReadGuidance(guidance).value, "answer").value).value);
      && r.value.itemWinOrLose == g.outcome && r.value.itemDescription == g.description
    ensures r.Success? ==>
      && r.value.itemHash == itemHash
      && r.value.itemName == selected
      && (preview.Some? && preview.value != "" ==> r.value.itemPhoto == preview.value)
      && (preview.None? || preview.value == "" ==> r.value.itemPhoto == "")
      && r.value.createdAt == now
      && r.value.confidenceRating == ConfidenceFor(predictions, selected)
      && r.value.userLocation.None?
    // otherwise the error is that of the first step that throws, in reading order
    ensures ReadGuidance(guidance).Failure? ==> r == Failure(ReadGuidance(guidance).error)
    ensures ReadGuidance(guidance).Success? && ReadPlaces(places).Failure? ==> r == Failure(ReadPlaces(places).error)
    ensures (ReadGuidance(guidance).Success? && ReadPlaces(places).Success?
             && Prop(ReadPlaces(places).value, "places").Failure?) ==>
      r == Failure(Prop(ReadPlaces(places).value, "places").error)
    ensures (ReadGuidance(guidance).Success? && ReadPlaces(places).Success?
             && Prop(ReadPlaces(places).value, "places").Success?
             && MapLocations(Prop(ReadPlaces(places).value, "places").value).Failure?) ==>
      r == Failure(MapLocations(Prop(ReadPlaces(places).value, "places").value).error)
    ensures (ReadGuidance(guidance).Success? && PlacesReadable(places)
             && Prop(ReadGuidance(guidance).value, "answer").Failure?) ==>
      r == Failure(Prop(ReadGuidance(guidance).value, "answer").error)
    ensures (ReadGuidance(guidance).Success? && PlacesReadable(places)
             && Prop(ReadGuidance(guidance).value, "answer").Success?
             && AnswerText(Prop(ReadGuidance(guidance).value, "answer").value).Failure?) ==>
      r == Failure(AnswerText(Prop(ReadGuidance(guidance).value, "answer").value).error)
  {
    match ReadGuidance(guidance)
    case Failure(m) => Failure(m)
    case Success(geminiResp) =>
      match ReadPlaces(places)
      case Failure(m) => Failure(m)
      case Success(placesResp) =>
        match Prop(placesResp, "places")
        case Failure(m) => Failure(m)
        case Success(placesList) =>
          match MapLocations(placesList)
          case Failure(m) => Failure(m)
          case Success(recyclingLocations) =>
            var confidenceRating := ConfidenceFor(predictions, selected);
            match Prop(geminiResp, "answer")
            case Failure(m) => Failure(m)
            case Success(answer) =>
              match AnswerText(answer)
              case Failure(m) => Failure(m)
              case Success(text) =>
                var g := ParseGuidance(text);
                var photo := if preview.Some? && preview.value != "" then preview.value else "";
                Success(ItemData(itemHash, selected, photo, g.description, g.outcome,
                                 recyclingLocations, now, confidenceRating, None))
  }

  /**
   * A places reply that is not JSON always reads, as `{ places: [] }`: the
   * item is then built exactly when the guidance half reads, and it has no
   * recycling locations.
   */
  lemma NonJsonPlacesHaveNoLocations(guidance: HttpReply, places: HttpReply, predictions: seq<Prediction>, selected: string,
                                     preview: Option<string>, itemHash: string, now: int)
    requires !IsJson(places)
    ensures PlacesReadable(places)
    ensures var item := BuildItem(guidance, places, predictions, selected, preview, itemHash, now);
      && (item.Success? <==> GuidanceReadable(guidance))
      && (item.Success? ==> item.value.recyclingLocations == [])
  {
  }

  /**
   * Every reply of the guidance route as written to a request without
   * `userText` is an error body without `answer`. It always reads, so the
   * item is built exactly when the places half reads, and its outcome is
   * "Neutral" and its description empty.
   */
  lemma GuidanceErrorIsNeutral(key: string, tag: string, model: GeminiRoute.ModelCall, places: HttpReply,
                               predictions: seq<Prediction>, preview: Option<string>, itemHash: string, now: int)
    requires key != "" && tag != ""
    ensures var reply := GeminiRoute.Post(Some(key), Some(tag), None, model);
      var guidance := HttpReply(Some("application/json"), Success(GeminiRoute.BodyJson(reply.body)), "");
      var item := BuildItem(guidance, places, predictions, tag, preview, itemHash, now);
      && GuidanceReadable(guidance)
      && (item.Success? <==> PlacesReadable(places))
      && (item.Success? ==> item.value.itemWinOrLose == "Neutral" && item.value.itemDescription == "")
  {
    var reply := GeminiRoute.Post(Some(key), Some(tag), None, model);
    assert !reply.body.Answer?;
    assert Includes("application/json", "application/json") by {
      assert OccursAt("application/json", "application/json", 0);
    }
    ShorterNotContained("", "Cost:");
    ShorterNotContained("", "Details:");
  }

  /**
   * With the guidance route as evidently intended, a request carrying only
   * the label is answered. That reply always reads, so the item is built
   * exactly when the places half reads, and it takes its outcome and
   * description from the model's text.
   */
  lemma IntendedGuidanceIsParsed(key: string, tag: string, text: string, places: HttpReply,
                                 predictions: seq<Prediction>, preview: Option<string>, itemHash: string, now: int)
    requires key != "" && tag != "" && text != ""
    ensures var reply := GeminiRoute.PostIntended(Some(key), Some(tag), None, GeminiRoute.Answered(text));
      var guidance := HttpReply(Some("application/json"), Success(GeminiRoute.BodyJson(reply.body)), "");
      var item := BuildItem(guidance, places, predictions, tag, preview, itemHash, now);
      && GuidanceReadable(guidance)
      && (item.Success? <==> PlacesReadable(places))
      && (item.Success? ==>
            item.value.itemWinOrLose == ParseGuidance(text).outcome && item.value.itemDescription == ParseGuidance(text).description)
  {
    GeminiRoute.LabelOnlyRequest(key, tag, text);
    assert Includes("application/json", "application/json") by {
      assert OccursAt("application/json", "application/json", 0);
    }
  }

  // ---------------------------------------------------------------------------
  // The form state and its handlers.
  // ---------------------------------------------------------------------------

  /** The classifier route's JSON body, as the form reads it. */
  datatype ClassifyBody = ClassifyBody(success: bool, wastePredictions: Option<seq<Prediction>>, error: string)

  /** What the classification request came to. */
  datatype ClassifyReply =
    | FetchRejected(message: string)
    | FetchResponded(ok: bool, status: nat, body: Result<ClassifyBody>)

  /** The predictions a classification yields, or the alert it raises. */
  function Classified(reply: ClassifyReply): (r: Result<seq<Prediction>>)
    ensures reply.FetchResponded? && !reply.ok ==> r == Failure("Failed: API error: " + NatToString(reply.status))
    ensures r.Success? <==> (reply.FetchResponded? && reply.ok && reply.body.Success?
      && reply.body.value.success && reply.body.value.wastePredictions.Some?)
    ensures r.Success? ==> r.value == reply.body.value.wastePredictions.value
    ensures reply.FetchRejected? ==> r == Failure("Failed: " + reply.message)
    ensures reply.FetchResponded? && reply.ok && reply.body.Failure? ==> r == Failure("Failed: " + reply.body.error)
    ensures (reply.FetchResponded? && reply.ok && reply.body.Success?
             && !(reply.body.value.success && reply.body.value.wastePredictions.Some?)) ==>
      r == Failure("Error: " + (if reply.body.value.error != "" then reply.body.value.error else "Classification failed"))
    ensures r.Failure? ==> "Failed: " <= r.error || "Error: " <= r.error
  {
    match reply
    case FetchRejected(m) => Failure("Failed: " + m)
    case FetchResponded(ok, status, body) =>
      if !ok then Failure("Failed: API error: " + NatToString(status))
      else if body.Failure? then Failure("Failed: " + body.error)
      else if body.value.success && body.value.wastePredictions.Some? then Success(body.value.wastePredictions.value)
      else Failure("Error: " + (if body.value.error != "" then body.value.error else "Classification failed"))
  }

  /** `!input.trim() || !selectedPrediction`: a submission needs some non-blank text and a chosen label. */
  predicate CanSubmit(input: string, selected: string) {
    Trim(input) != "" && selected != ""
  }

  /** The guard passes exactly when the text has a non-blank character and a label is chosen. */
  lemma CanSubmitMeaning(input: string, selected: string)
    ensures CanSubmit(input, selected) <==> !WhiteBetween(input, 0, |input|) && selected != ""
  {
    TrimMeaning(input);
    var a := BlankRunEnd(input, 0);
    if Trim(input) != "" {
      assert input[a] == Trim(input)[0];
    }
  }

  /** The browser's answer to the position request. */
  datatype Geolocation = Unsupported | Denied | Located(latitude: real, longitude: real)

  /** How a submission ended: ignored by the guard, an alert, or the item saved and the page navigated. */
  datatype SubmitOutcome = Ignored | Alerted(message: string) | Saved(navigateTo: string)

  class UploadForm {
    /** The `userId` prop and the `uid` route parameter. */
    const userId: Option<string>
    const uid: string

    var image: Option<File>
    var preview: Option<string>
    var predictions: seq<Prediction>
    var selectedPrediction: string
    var input: string
    var isLoading: bool

    constructor (userId: Option<string>, uid: string)
      ensures this.userId == userId && this.uid == uid
      ensures image.None? && preview.None? && predictions == [] && selectedPrediction == "" && input == "" && !isLoading
    {
      this.userId := userId;
      this.uid := uid;
      image := None;
      preview := None;
      predictions := [];
      selectedPrediction := "";
      input := "";
      isLoading := false;
    }

    /** `processFile(file)`: an allowed file becomes the image; any other is refused with an alert; no file does nothing. */
    method ProcessFile(file: Option<File>) returns (alert: Option<string>)
      modifies this
      ensures file.Some? && file.value.mimeType in AllowedTypes ==> image == file && alert.None?
      ensures file.Some? && file.value.mimeType !in AllowedTypes ==> image == old(image) && alert == Some(UnsupportedTypeAlert)
      ensures file.None? ==> image == old(image) && alert.None?
      ensures preview == old(preview) && predictions == old(predictions) && selectedPrediction == old(selectedPrediction)
      ensures input == old(input) && isLoading == old(isLoading)
    {
      alert := None;
      if file.None? {
        return;
      }
      if file.value.mimeType !in AllowedTypes {
        alert := Some(UnsupportedTypeAlert);
        return;
      }
      image := file;
    }

    /** The reader's `onloadend`: the data URL becomes the preview. */
    method PreviewLoaded(dataUrl: string)
      modifies this
      ensures preview == Some(dataUrl)
      ensures image == old(image) && predictions == old(predictions) && selectedPrediction == old(selectedPrediction)
      ensures input == old(input) && isLoading == old(isLoading)
    {
      preview := Some(dataUrl);
    }

    /** `handleRemove()`: the form is cleared, so it cannot be submitted until refilled. */
    method HandleRemove()
      modifies this
      ensures image.None? && preview.None? && predictions == [] && selectedPrediction == "" && input == ""
      ensures isLoading == old(isLoading)
      ensures !CanSubmit(input, selectedPrediction)
    {
      image := None;
      preview := None;
      predictions := [];
      selectedPrediction := "";
      input := "";
    }

    /**
     * `classifyImage()` with the request's outcome `reply`: without an image
     * nothing happens; otherwise the predictions are replaced by the new
     * ones (the first one pre-selected), or cleared with an alert.
     */
    method ClassifyImage(reply: ClassifyReply) returns (alert: Option<string>)
      modifies this
      ensures old(image).None? ==> (alert.None? && predictions == old(predictions)
        && selectedPrediction == old(selectedPrediction) && isLoading == old(isLoading))
      ensures old(image).Some? ==> !isLoading
      ensures old(image).Some? && Classified(reply).Success? ==>
        && alert.None?
        && predictions == Classified(reply).value
        && selectedPrediction == (if predictions != [] then predictions[0].labelText else "")
      ensures old(image).Some? && Classified(reply).Failure? ==>
        alert == Some(Classified(reply).error) && predictions == [] && selectedPrediction == ""
      ensures image == old(image) && preview == old(preview) && input == old(input)
    {
      alert := None;
      if image.None? {
        return;
      }
      isLoading := true;
      predictions := [];
      selectedPrediction := "";
      match Classified(reply) {
        case Success(ps) =>
          predictions := ps;
          if |ps| > 0 {
            selectedPrediction := ps[0].labelText;
          }
        case Failure(m) =>
          alert := Some(m);
      }
      isLoading := false;
    }

    /**
     * `submitToGemini()` with the position `geo`, the joined replies
     * `replies` (or the error that rejected the join), the generated item
     * hash and the clock `now`. When the item is saved, the store holds its
     * projection under the user's id and the page moves to the item.
     */
    method SubmitToGemini(geo: Geolocation, replies: Result<(HttpReply, HttpReply)>, itemHash: string, now: int, store: ItemStore)
      returns (outcome: SubmitOutcome)
      modifies this, store
      ensures image == old(image) && preview == old(preview) && predictions == old(predictions)
      ensures selectedPrediction == old(selectedPrediction) && input == old(input)
      ensures !CanSubmit(old(input), old(selectedPrediction)) ==>
        outcome == Ignored && isLoading == old(isLoading) && store.db == old(store.db)
      ensures CanSubmit(old(input), old(selectedPrediction)) ==> outcome != Ignored && !isLoading
      ensures outcome.Alerted? || outcome.Ignored? ==> store.db == old(store.db)
      ensures CanSubmit(old(input), old(selectedPrediction)) && geo.Unsupported? ==> outcome == Alerted(NoGeolocationAlert)
      ensures CanSubmit(old(input), old(selectedPrediction)) && geo.Denied? ==> outcome == Alerted(LocationDeniedAlert)
      ensures CanSubmit(old(input), old(selectedPrediction)) && geo.Located? && replies.Failure? ==>
        outcome == Alerted("Failed: " + replies.error)
      ensures CanSubmit(old(input), old(selectedPrediction)) && geo.Located? && replies.Success? ==>
        var built := BuildItem(replies.value.0, replies.value.1, predictions, selectedPrediction, preview, itemHash, now);
        && (built.Failure? ==> outcome == Alerted("Failed: " + built.error))
        && (built.Success? && (userId.None? || userId.value == "" || itemHash == "") ==> outcome == Alerted(MissingIdAlert))
        && (built.Success? && userId.Some? && userId.value != "" && itemHash != "" ==>
              && outcome == Saved("/dashboard/" + uid + "/items/" + itemHash)
              && store.db == Put(old(store.db), userId.value,
                                 built.value.(userLocation := Some(Coords(geo.latitude, geo.longitude)))))
    {
      if Trim(input) == "" || selectedPrediction == "" {
        return Ignored;
      }
      isLoading := true;
      if geo.Unsupported? {
        outcome := Alerted(NoGeolocationAlert);
        isLoading := false;
        return;
      }
      if geo.Denied? {
        outcome := Alerted(LocationDeniedAlert);
        isLoading := false;
        return;
      }
      if replies.Failure? {
        outcome := Alerted("Failed: " + replies.error);
        isLoading := false;
        return;
      }
      var (guidance, places) := replies.value;
      var built := BuildItem(guidance, places, predictions, selectedPrediction, preview, itemHash, now);
      if built.Failure? {
        outcome := Alerted("Failed: " + built.error);
        isLoading := false;
        return;
      }
      var itemData := built.value;
      if userId.None? || userId.value == "" || itemHash == "" {
        outcome := Alerted(MissingIdAlert);
        isLoading := false;
        return;
      }
      itemData := itemData.(userLocation := Some(Coords(geo.latitude, geo.longitude)));
      store.AddItemToUser(userId.value, itemData);
      outcome := Saved("/dashboard/" + uid + "/items/" + itemHash);
      isLoading := false;
    }
  }
}
