/**
 * The image-classification route `POST /api/classification`: it forwards the
 * uploaded image's bytes to the hosted classifier and wraps the classifier's
 * predictions, or the error, in its own JSON reply. The classifier call is an
 * input (`Upstream`); the result also says which request, if any, was sent.
 */
module ClassificationRoute {
  import opened Wrappers
  import opened Json
  import opened Text

  /** The `image` form entry: its bytes and its declared MIME type (`""` when the browser gave none). */
  datatype Image = Image(bytes: seq<bv8>, mimeType: string)

  /** What the classifier call came to. */
  datatype Upstream =
    | Rejected(message: string)                                                   // `fetch` itself rejected
    | Responded(ok: bool, status: nat, statusText: string, text: string, json: Result<Json>)

  /** The request sent to the classifier: its two headers and the raw image bytes. */
  datatype Request = Request(authorization: string, contentType: string, body: seq<bv8>)

  datatype Response = Response(status: nat, body: map<string, Json>)

  datatype Outcome = Outcome(request: Option<Request>, response: Response)

  /** A template literal prints an unset environment variable as "undefined". */
  function Interpolate(v: Option<string>): string {
    v.GetOr("undefined")
  }

  /** The message of the error thrown on a non-2xx reply: the status code, then the reply text or, if empty, the status text. */
  function UpstreamErrorMessage(status: nat, text: string, statusText: string): (m: string)
    ensures |m| > |"Hugging Face API error ("| && m[..|"Hugging Face API error ("|] == "Hugging Face API error ("
    // the prefix, the status in decimal, "): ", then the reply text or, when that is empty, the status text
    ensures var prefix := "Hugging Face API error (";
      var digits := NatToString(status);
      var tail := if text != "" then text else statusText;
      && |m| == |prefix| + |digits| + 3 + |tail|
      && m[|prefix|..|prefix| + |digits|] == digits
      && m[|prefix| + |digits|..|prefix| + |digits| + 3] == "): "
      && m[|m| - |tail|..] == tail
  {
    var tail := if text != "" then text else statusText;
    var m := "Hugging Face API error (" + NatToString(status) + "): " + tail;
    assert m[24..24 + |NatToString(status)|] == NatToString(status);
    assert m[24 + |NatToString(status)|..24 + |NatToString(status)| + 3] == "): ";
    assert m[|m| - |tail|..] == tail;
    m
  }

  /** The body of every error reply from inside the `try`: the stack travels only in development. */
  function ErrorBody(message: string, stack: string, nodeEnv: Option<string>): (b: map<string, Json>)
    ensures "success" in b && b["success"] == Bool(false)
    ensures "error" in b && b["error"] == Str(message)
    ensures "stack" in b <==> nodeEnv == Some("development")
    ensures "stack" in b ==> b["stack"] == Str(stack)
  {
    var b := map["success" := Bool(false), "error" := Str(message)];
    if nodeEnv == Some("development") then b["stack" := Str(stack)] else b
  }

  /**
   * `POST(request)`: `image` is the form entry `image` (`None` when absent),
   * `apiKey` the classifier key from the environment, `stack` the stack
   * trace a thrown error would carry.
   */
  function Post(image: Option<Image>, apiKey: Option<string>, nodeEnv: Option<string>, upstream: Upstream, stack: string): (o: Outcome)
    ensures image.None? <==> o.response == Response(400, map["success" := Bool(false), "error" := Str("No image provided")])
    // the classifier is asked whenever there is an image, whatever the key
    ensures o.request.Some? <==> image.Some?
    ensures o.request.Some? ==>
      && o.request.value.body == image.value.bytes
      && o.request.value.authorization == "Bearer " + Interpolate(apiKey)
      && o.request.value.contentType == (if image.value.mimeType != "" then image.value.mimeType else "image/jpeg")
    ensures o.response.status == 200 <==> image.Some? && upstream.Responded? && upstream.ok && upstream.json.Success?
    ensures o.response.status == 200 ==>
      o.response.body == map["success" := Bool(true), "wastePredictions" := upstream.json.value]
    ensures image.Some? && upstream.Responded? && !upstream.ok ==>
      o.response == Response(500, ErrorBody(UpstreamErrorMessage(upstream.status, upstream.text, upstream.statusText), stack, nodeEnv))
    ensures image.Some? && upstream.Rejected? ==>
      o.response == Response(500, ErrorBody(upstream.message, stack, nodeEnv))
    ensures image.Some? && upstream.Responded? && upstream.ok && upstream.json.Failure? ==>
      o.response == Response(500, ErrorBody(upstream.json.error, stack, nodeEnv))
    ensures o.response.status in {200, 400, 500}
  {
    if image.None? then
      Outcome(None, Response(400, map["success" := Bool(false), "error" := Str("No image provided")]))
    else
      var img := image.value;
      var request := Request("Bearer " + Interpolate(apiKey), if img.mimeType != "" then img.mimeType else "image/jpeg", img.bytes);
      var response :=
        match upstream
        case Rejected(m) => Response(500, ErrorBody(m, stack, nodeEnv))
        case Responded(ok, status, statusText, text, json) =>
          if !ok then Response(500, ErrorBody(UpstreamErrorMessage(status, text, statusText), stack, nodeEnv))
          else if json.Failure? then Response(500, ErrorBody(json.error, stack, nodeEnv))
          else Response(200, map["success" := Bool(true), "wastePredictions" := json.value]);
      Outcome(Some(request), response)
  }

  /** The status code can be read back from the error message: it sits between the fixed prefix and the first `)`. */
  lemma {:induction false} StatusReadBack(status: nat, text: string, statusText: string)
    ensures var m := UpstreamErrorMessage(status, text, statusText);
      var prefix := "Hugging Face API error (";
      && m[..|prefix|] == prefix
      && IndexOf(m[|prefix|..], ")").Some?
      && var close := IndexOf(m[|prefix|..], ")").value;
      && m[|prefix|..][..close] == NatToString(status)
      && DigitsValue(m[|prefix|..][..close]) == status
  {
    var prefix := "Hugging Face API error (";
    var digits := NatToString(status);
    var rest := "): " + (if text != "" then text else statusText);
    var m := UpstreamErrorMessage(status, text, statusText);
    assert m == prefix + digits + rest;
    assert m[..|prefix|] == prefix;
    assert m[|prefix|..] == digits + rest;
    assert ')' !in digits;
    assert !Contains(digits, ")") by {
      MissingCharNotContained(digits, ")", ')');
    }
    assert digits + rest == digits + ")" + rest[1..];
    FirstOccurrenceAfter(digits, ")", rest[1..]);
    assert (digits + rest)[..|digits|] == digits;
    NatToStringRoundTrip(status);
  }
}
