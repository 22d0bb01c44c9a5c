/**
 * The /api/advisor handler: POST {message} in, {reply} or {error} out.
 */
module Advisor {
  import opened Wrappers
  import opened JsText
  import opened Http

  const MessageRequired := Response(400, "error", "Message is required")

  /** The prompt template: the text before and after the interpolated message. */
  const PromptHead := "\n    You are an AI Career Advisor. The user says: \""
  const PromptTail := "\"" + ".\n    Provide a personalized career recommendation with next steps (skills, courses, paths).\n    Be concise but clear.\n    "

  /** The prompt carries the message verbatim, between double quotes. */
  function Prompt(message: string): (p: string)
    ensures OccursAt(p, "\"" + message + "\"", |PromptHead| - 1)
  {
    QuotedBetween(PromptHead, message, PromptTail);
    PromptHead + message + PromptTail
  }

  /** Reads the message back out of a prompt. */
  function MessageOf(prompt: string): string {
    if |PromptHead| + |PromptTail| <= |prompt| then prompt[|PromptHead|..|prompt| - |PromptTail|] else ""
  }

  /** The message can be recovered from its prompt, so different messages give different prompts. */
  lemma PromptRoundTrip(message: string)
    ensures MessageOf(Prompt(message)) == message
  {
    var p := Prompt(message);
    assert p[|PromptHead|..|p| - |PromptTail|] == message;
  }

  /**
   * handler(req, res). A non-POST method is refused before anything else; a
   * missing body throws while being destructured and lands in the catch; a
   * falsy message is refused with 400; otherwise the prompt goes to the
   * provider, whose text is passed through under "reply", and any failure
   * becomes the generic 500.
   */
  function Handle(verb: string, body: Body, provider: Provider): (o: Outcome)
    ensures verb != "POST" ==> o == Outcome(MethodNotAllowed, None)
    ensures o.prompt.Some? <==>
      verb == "POST" && body.Fields? && Truthy(Field(body.fields, "message"))
      && Interpolate(Field(body.fields, "message").value).Some?
    ensures o.prompt.Some? ==> o.prompt.value == Prompt(Interpolate(Field(body.fields, "message").value).value)
    ensures (verb == "POST" && body.Fields? && Truthy(Field(body.fields, "message"))
             && Interpolate(Field(body.fields, "message").value).None?) ==> o == Outcome(ServerError, None)
    ensures o.response.status == 200 <==> o.prompt.Some? && provider(o.prompt.value).Ok?
    ensures o.response.status == 200 ==> o.response == Response(200, "reply", provider(o.prompt.value).value)
    ensures o.prompt.Some? && provider(o.prompt.value).Err? ==> o.response == ServerError
    ensures o.response.status != 200 ==> o.response in {MethodNotAllowed, MessageRequired, ServerError}
  {
    if verb != "POST" then Outcome(MethodNotAllowed, None)
    else
      match body
      case NoBody => Outcome(ServerError, None)
      case Fields(fields) =>
        var message := Field(fields, "message");
        if !Truthy(message) then Outcome(MessageRequired, None)
        else
          match Interpolate(message.value)
          case None => Outcome(ServerError, None)
          case Some(text) =>
            var prompt := Prompt(text);
            Outcome(Respond("reply", provider(prompt)), Some(prompt))
  }

  /** A POST without a body is answered 500, not 400, and the provider is not called. */
  lemma MissingBodyIsServerError(provider: Provider)
    ensures Handle("POST", NoBody, provider) == Outcome(ServerError, None)
  {
  }

  /** A falsy message (absent, empty, or another falsy JSON value) gets 400 and no provider call. */
  lemma FalsyMessageRejected(fields: map<string, JsValue>, provider: Provider)
    requires !Truthy(Field(fields, "message"))
    ensures Handle("POST", Fields(fields), provider) == Outcome(MessageRequired, None)
  {
  }

  /**
   * A truthy message that a template literal cannot turn into text throws
   * inside the try: 500 and no provider call.
   */
  lemma UnconvertibleMessageIsServerError(provider: Provider)
    ensures Handle("POST", Fields(map["message" := JsOther(true, None)]), provider) == Outcome(ServerError, None)
  {
    assert Field(map["message" := JsOther(true, None)], "message") == Some(JsOther(true, None));
  }

  /** The server does not trim: a message of whitespace only is sent to the provider as it is. */
  lemma WhitespaceMessageAccepted(message: string, provider: Provider)
    requires message != "" && Blank(message)
    ensures Handle("POST", Fields(map["message" := JsString(message)]), provider).prompt == Some(Prompt(message))
  {
  }

  /**
   * Any failure of the provider gives exactly the generic 500: two providers
   * that both fail, whatever their causes, produce the same response.
   */
  lemma FailureCauseHidden(verb: string, body: Body, p1: Provider, p2: Provider)
    requires forall prompt :: p1(prompt).Err? && p2(prompt).Err?
    ensures Handle(verb, body, p1) == Handle(verb, body, p2)
    ensures Handle(verb, body, p1).response.status != 200
  {
  }
}
