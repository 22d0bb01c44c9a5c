/**
 * The client and the handlers together: what the page posts, what the
 * handler answers for it, and what the page then shows.
 */
module EndToEnd {
  import opened Wrappers
  import opened JsText
  import opened Http
  import opened ScriptModel
  import Advisor
  import SkillsAnalysis

  /** JSON.stringify({ message }) as the advisor handler receives it. */
  function AdvisorBody(message: string): Body {
    Fields(map["message" := JsString(message)])
  }

  /** JSON.stringify({ skills, role }) as the skills-analysis handler receives it. */
  function SkillsBody(request: SkillsRequest): Body {
    Fields(map["skills" := JsString(request.skills), "role" := JsString(request.role)])
  }

  /** data.reply of the parsed response body. */
  function AdvisorAnswerOf(r: Response): (answer: AdvisorAnswer)
    ensures answer.Answered?
    ensures answer.reply.Some? <==> r.key == "reply"
    ensures answer.reply.Some? ==> answer.reply.value == r.value
  {
    Answered(if r.key == "reply" then Some(r.value) else None)
  }

  /** data.analysis of the parsed response body. */
  function AnalysisAnswerOf(r: Response): (answer: AnalysisAnswer)
    ensures answer.Analysis?
    ensures answer.analysis.Some? <==> r.key == "analysis"
    ensures answer.analysis.Some? ==> answer.analysis.value == r.value
  {
    Analysis(if r.key == "analysis" then Some(r.value) else None)
  }

  /**
   * The page only posts trimmed, non-empty messages, so the server never
   * answers them with 400 and always hands them to the provider verbatim.
   */
  lemma PostedMessageReachesProvider(input: string, provider: Provider)
    requires !Blank(input)
    ensures Advisor.Handle("POST", AdvisorBody(SendRequest(input).value), provider).prompt == Some(Advisor.Prompt(Trim(input)))
    ensures Advisor.Handle("POST", AdvisorBody(SendRequest(input).value), provider).response != Advisor.MessageRequired
  {
    var body := AdvisorBody(Trim(input));
    assert Field(body.fields, "message") == Some(JsString(Trim(input)));
  }

  /**
   * The bot message after a send: the provider's text when it is non-empty;
   * "Sorry, no response from AI." when the text is empty or the provider
   * failed, because the 500 body parses and has no reply field.
   */
  lemma BotMessageFromProvider(input: string, provider: Provider)
    requires !Blank(input)
    ensures var o := Advisor.Handle("POST", AdvisorBody(Trim(input)), provider);
      var bot := BotText(AdvisorAnswerOf(o.response));
      match provider(Advisor.Prompt(Trim(input)))
      case Ok(text) => bot == (if text != "" then text else NoResponse)
      case Err(_) => bot == NoResponse
  {
    PostedMessageReachesProvider(input, provider);
  }

  /**
   * The skills form: a request the page posts always passes the server's
   * check; the provider's text ends up in the card with line feeds as <br>,
   * and a provider failure ends in the error alert.
   */
  lemma AnalysisFromProvider(skillsInput: string, roleInput: string, provider: Provider)
    requires !Blank(skillsInput) && !Blank(roleInput)
    ensures var request := SkillsFormRequest(skillsInput, roleInput).value;
      var o := SkillsAnalysis.Handle("POST", SkillsBody(request), provider);
      var panel := AnalysisPanel(skillsInput, roleInput, AnalysisAnswerOf(o.response));
      && o.prompt == Some(SkillsAnalysis.Prompt(request.skills, request.role))
      && match provider(o.prompt.value)
         case Ok(text) => panel == AnalysisCard(ReplaceNewlines(text))
         case Err(_) => panel == ErrorAlert
  {
    var request := SkillsFormRequest(skillsInput, roleInput).value;
    var body := SkillsBody(request);
    assert Field(body.fields, "skills") == Some(JsString(request.skills));
    assert Field(body.fields, "role") == Some(JsString(request.role));
  }
}
