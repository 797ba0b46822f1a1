/**
 * The guidance route `POST /api/gemini`: guard clauses, the prompt sent to the
 * generative model, and the ordered translation of error messages into HTTP
 * statuses. The model call is an input (`ModelCall`); the route's result says
 * which prompt, if any, it sent.
 */
module GeminiRoute {
  import opened Wrappers
  import opened Json
  import opened Text

  /** What `generateContent` (and `response.text()`) came to. */
  datatype ModelCall =
    | Threw(message: string)   // the call, or reading its text, threw
    | NoResponse               // `result` or `result.response` missing
    | Answered(text: string)

  datatype Body =
    | Answer(answer: string)                             // { success: true, answer }
    | Error(error: string, details: Option<string>)      // { success: false, error, details? }

  datatype Response = Response(status: nat, body: Body, prompt: Option<string>)

  /** The JSON object `NextResponse.json` serialises; an absent `details` is dropped. */
  function BodyJson(b: Body): (j: Json)
    ensures j.Obj? && "success" in j.fields && j.fields["success"] == Bool(b.Answer?)
    ensures "answer" in j.fields <==> b.Answer?
    ensures b.Answer? ==> j.fields["answer"] == Str(b.answer)
  {
    match b
    case Answer(answer) => Obj(map["success" := Bool(true), "answer" := Str(answer)])
    case Error(error, details) =>
      var fields := map["success" := Bool(false), "error" := Str(error)];
      Obj(if details.Some? then fields["details" := Str(details.value)] else fields)
  }

  const PromptPrefix := "focusing on disposing of waste properly, given the following information: "
  const PromptJoin := " User additional input: "
  const PromptSuffix := ". WHEN OUTPUTING A RESPONSE, DO NOT OUTPUT A RESPONSE IN MARKDOWN."

  /** The message of the error thrown when the API key is unset. */
  const MissingKeyMessage := "API key" + " for Gemini is not configured"

  /** The message of the TypeError thrown by assigning to the `const` binding `userText`. */
  const ConstAssignMessage := "Assignment to constant variable."

  /** A form field is truthy when it is present and non-empty. */
  predicate Present(v: Option<string>) {
    v.Some? && v.value != ""
  }

  /** String concatenation of a form value: an absent one prints as "null". */
  function Concat(v: Option<string>): string {
    v.GetOr("null")
  }

  /** The prompt: fixed prefix, the classifier label, the separator, the user's text, fixed suffix. */
  function Prompt(huggingfaceText: string, userText: string): (p: string)
    ensures |p| == |PromptPrefix| + |huggingfaceText| + |PromptJoin| + |userText| + |PromptSuffix|
    ensures p[..|PromptPrefix|] == PromptPrefix
    ensures p[|PromptPrefix|..|PromptPrefix| + |huggingfaceText|] == huggingfaceText
    ensures p[|PromptPrefix| + |huggingfaceText|..|PromptPrefix| + |huggingfaceText| + |PromptJoin|] == PromptJoin
    ensures p[|p| - |PromptSuffix| - |userText|..|p| - |PromptSuffix|] == userText
    ensures p[|p| - |PromptSuffix|..] == PromptSuffix
  {
    var p := PromptPrefix + huggingfaceText + PromptJoin + userText + PromptSuffix;
    assert p[..|PromptPrefix|] == PromptPrefix;
    assert p[|PromptPrefix|..|PromptPrefix| + |huggingfaceText|] == huggingfaceText;
    assert p[|PromptPrefix| + |huggingfaceText|..|PromptPrefix| + |huggingfaceText| + |PromptJoin|] == PromptJoin;
    assert p[|p| - |PromptSuffix| - |userText|..|p| - |PromptSuffix|] == userText;
    assert p[|p| - |PromptSuffix|..] == PromptSuffix;
    p
  }

  /** The catch block: substring tests on the message, in order. */
  function ErrorResponse(message: string): (r: Response)
    ensures r.prompt.None? && r.body.Error?
    ensures r.status == 401 <==> Contains(message, "API key")
    ensures r.status == 429 <==> !Contains(message, "API key") && (Contains(message, "quota") || Contains(message, "rate limit"))
    ensures r.status == 400 <==> (!Contains(message, "API key") && !Contains(message, "quota") && !Contains(message, "rate limit")
                                  && (Contains(message, "blocked") || Contains(message, "safety")))
    ensures r.status == 500 <==> r.body.details == Some(message)
    ensures r.status in {400, 401, 429, 500}
    ensures r.status == 401 ==> r.body == Error("Invalid API key", None)
    ensures r.status == 429 ==> r.body == Error("API rate limit exceeded. Please try again later.", None)
    ensures r.status == 400 ==> r.body == Error("Content was blocked due to safety filters", None)
    ensures r.status == 500 ==> r.body == Error("Failed to generate response", Some(message))
  {
    if Includes(message, "API key") then
      Response(401, Error("Invalid API key", None), None)
    else if Includes(message, "quota") || Includes(message, "rate limit") then
      Response(429, Error("API rate limit exceeded. Please try again later.", None), None)
    else if Includes(message, "blocked") || Includes(message, "safety") then
      Response(400, Error("Content was blocked due to safety filters", None), None)
    else
      Response(500, Error("Failed to generate response", Some(message)), None)
  }

  /** After the prompt was sent: the model's outcome decides the response. */
  function AfterCall(prompt: string, model: ModelCall): (r: Response)
    ensures r.prompt == Some(prompt)
    ensures r.status == 200 <==> model.Answered?
    ensures r.body.Answer? <==> model.Answered?
    ensures model.Answered? ==> r.body.answer == model.text
    ensures model.Threw? ==> r.status == ErrorResponse(model.message).status && r.body == ErrorResponse(model.message).body
    ensures model.NoResponse? ==> r.status == 500 && r.body == Error("No response from AI model", None)
  {
    match model
    case Threw(m) => ErrorResponse(m).(prompt := Some(prompt))
    case NoResponse => Response(500, Error("No response from AI model", None), Some(prompt))
    case Answered(text) => Response(200, Answer(text), Some(prompt))
  }

  /**
   * `POST` as written. `userText` is a `const`, so whenever it is falsy the
   * line that defaults it to "" throws a TypeError, which the catch block
   * turns into a generic 500; the model is then never called.
   */
  function Post(apiKey: Option<string>, huggingfaceText: Option<string>, userText: Option<string>, model: ModelCall): (r: Response)
    ensures !Present(apiKey) ==> r.status == 401 && r.body == Error("Invalid API key", None) && r.prompt.None?
    ensures Present(apiKey) && !Present(userText) && !Present(huggingfaceText) ==>
      r == Response(400, Error("No text provided", None), None)
    ensures Present(apiKey) && !Present(userText) && Present(huggingfaceText) ==>
      r == Response(500, Error("Failed to generate response", Some(ConstAssignMessage)), None)
    ensures r.prompt.Some? <==> Present(apiKey) && Present(userText)
    ensures r.prompt.Some? ==> r.prompt.value == Prompt(Concat(huggingfaceText), userText.value)
    ensures r.body.Answer? <==> r.prompt.Some? && model.Answered?
    ensures r.body.Answer? ==> r.status == 200 && r.body.answer == model.text
    ensures Present(apiKey) && Present(userText) && model.Threw? ==>
      r == ErrorResponse(model.message).(prompt := Some(Prompt(Concat(huggingfaceText), userText.value)))
    ensures Present(apiKey) && Present(userText) && model.NoResponse? ==>
      r == Response(500, Error("No response from AI model", None), Some(Prompt(Concat(huggingfaceText), userText.value)))
  {
    MissingKeyMessageMentionsKey();
    ConstAssignMessageMatchesNothing();
    if !Present(apiKey) then ErrorResponse(MissingKeyMessage)
    else if !Present(userText) && !Present(huggingfaceText) then Response(400, Error("No text provided", None), None)
    else if !Present(userText) then ErrorResponse(ConstAssignMessage)
    else AfterCall(Prompt(Concat(huggingfaceText), userText.value), model)
  }

  /**
   * `POST` as evidently intended: a falsy `userText` becomes "" and the
   * model is asked with the classifier label alone.
   */
  function PostIntended(apiKey: Option<string>, huggingfaceText: Option<string>, userText: Option<string>, model: ModelCall): (r: Response)
    ensures !Present(apiKey) ==> r.status == 401 && r.body == Error("Invalid API key", None) && r.prompt.None?
    ensures Present(apiKey) && !Present(userText) && !Present(huggingfaceText) ==>
      r == Response(400, Error("No text provided", None), None)
    ensures r.prompt.Some? <==> Present(apiKey) && (Present(userText) || Present(huggingfaceText))
    ensures r.prompt.Some? ==>
      r.prompt.value == Prompt(Concat(huggingfaceText), if Present(userText) then userText.value else "")
    ensures r.body.Answer? <==> r.prompt.Some? && model.Answered?
    ensures r.body.Answer? ==> r.status == 200 && r.body.answer == model.text
    ensures Present(apiKey) && (Present(userText) || Present(huggingfaceText)) && model.Threw? ==>
      r == ErrorResponse(model.message).(prompt := Some(Prompt(Concat(huggingfaceText), if Present(userText) then userText.value else "")))
    ensures Present(apiKey) && (Present(userText) || Present(huggingfaceText)) && model.NoResponse? ==>
      r == Response(500, Error("No response from AI model", None),
                    Some(Prompt(Concat(huggingfaceText), if Present(userText) then userText.value else "")))
  {
    MissingKeyMessageMentionsKey();
    if !Present(apiKey) then ErrorResponse(MissingKeyMessage)
    else if !Present(userText) && !Present(huggingfaceText) then Response(400, Error("No text provided", None), None)
    else
      var user := if Present(userText) then userText.value else "";
      AfterCall(Prompt(Concat(huggingfaceText), user), model)
  }

  /** The missing-key message is one the catch block answers with 401. */
  lemma MissingKeyMessageMentionsKey()
    ensures Contains(MissingKeyMessage, "API key")
  {
    PrefixContained("API key", " for Gemini is not configured");
  }

  /** The TypeError message holds none of the keywords the catch block looks for. */
  lemma ConstAssignMessageMatchesNothing()
    ensures !Contains(ConstAssignMessage, "API key")
    ensures !Contains(ConstAssignMessage, "quota")
    ensures !Contains(ConstAssignMessage, "rate limit")
    ensures !Contains(ConstAssignMessage, "blocked")
    ensures !Contains(ConstAssignMessage, "safety")
  {
    ConstAssignMessageNotKey();
    ConstAssignMessageNotThrottling();
    ConstAssignMessageNotBlocked();
  }

  lemma ConstAssignMessageNotKey()
    ensures !Contains(ConstAssignMessage, "API key")
  {
    assert 'P' !in ConstAssignMessage;
    MissingCharNotContained(ConstAssignMessage, "API key", 'P');
  }

  lemma ConstAssignMessageNotThrottling()
    ensures !Contains(ConstAssignMessage, "quota")
    ensures !Contains(ConstAssignMessage, "rate limit")
  {
    var m := ConstAssignMessage;
    assert !Contains(m, "quota") by {
      assert 'q' !in m;
      MissingCharNotContained(m, "quota", 'q');
    }
    assert 'r' !in m[..23];
    FirstCharTooLate(m, "rate limit");
  }

  lemma ConstAssignMessageNotBlocked()
    ensures !Contains(ConstAssignMessage, "blocked")
    ensures !Contains(ConstAssignMessage, "safety")
  {
    var m := ConstAssignMessage;
    assert !Contains(m, "blocked") by {
      assert 'k' !in m;
      MissingCharNotContained(m, "blocked", 'k');
    }
    assert 'f' !in m;
    MissingCharNotContained(m, "safety", 'f');
  }

  /**
   * The client sends the user's text as `userDescription`, never as
   * `userText`; as written, every well-configured request with a label then
   * ends in the generic 500 without reaching the model, while the intended
   * route asks the model and returns its answer.
   */
  lemma LabelOnlyRequest(apiKey: string, tag: string, answer: string)
    requires apiKey != "" && tag != ""
    ensures Post(Some(apiKey), Some(tag), None, Answered(answer)).status == 500
    ensures Post(Some(apiKey), Some(tag), None, Answered(answer)).prompt.None?
    ensures PostIntended(Some(apiKey), Some(tag), None, Answered(answer))
         == Response(200, Answer(answer), Some(Prompt(tag, "")))
  {
  }
}
