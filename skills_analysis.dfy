/**
 * The /api/skills-analysis handler: POST {skills, role} in, {analysis} or
 * {error} out.
 */
module SkillsAnalysis {
  import opened Wrappers
  import opened JsText
  import opened Http

  const FieldsRequired := Response(400, "error", "Skills and role are required")

  /** The prompt template: the text around the two interpolated values. */
  const PromptHead := "\n      You are an AI Career Advisor. \n      The user currently has these skills: \""
  const PromptMiddle := "\"" + ". \n      Their target role or career path is: " + "\""
  const PromptTail := "\"" + ". \n      Identify the main skill gaps, recommend how to close them (with next steps, courses or learning paths),\n      and present it in a clear, actionable format.\n    "

  /** Where the quoted role starts in the prompt built for skills. */
  function RoleIndex(skills: string): nat {
    |PromptHead| + |skills| + |PromptMiddle| - 1
  }

  /**
   * The prompt carries both values verbatim, each between double quotes,
   * the skills before the role.
   */
  function Prompt(skills: string, role: string): (p: string)
    ensures OccursAt(p, "\"" + skills + "\"", |PromptHead| - 1)
    ensures OccursAt(p, "\"" + role + "\"", RoleIndex(skills))
    ensures |PromptHead| - 1 + |skills| + 2 <= RoleIndex(skills)
  {
    var p := PromptHead + skills + PromptMiddle + role + PromptTail;
    QuotedBetween(PromptHead, skills, PromptMiddle + role + PromptTail);
    assert p == PromptHead + skills + (PromptMiddle + role + PromptTail);
    QuotedBetween(PromptHead + skills + PromptMiddle, role, PromptTail);
    p
  }

  /**
   * handler(req, res), with the same structure as the advisor's: 405 for a
   * method other than POST, 500 for a missing body, 400 when skills or role
   * is falsy, otherwise the provider's text under "analysis" or the generic
   * 500.
   */
  function Handle(verb: string, body: Body, provider: Provider): (o: Outcome)
    ensures verb != "POST" ==> o == Outcome(MethodNotAllowed, None)
    ensures o.prompt.Some? <==>
      verb == "POST" && body.Fields? && Truthy(Field(body.fields, "skills")) && Truthy(Field(body.fields, "role"))
      && Interpolate(Field(body.fields, "skills").value).Some? && Interpolate(Field(body.fields, "role").value).Some?
    ensures o.prompt.Some? ==>
      o.prompt.value == Prompt(Interpolate(Field(body.fields, "skills").value).value,
                               Interpolate(Field(body.fields, "role").value).value)
    ensures (verb == "POST" && body.Fields? && Truthy(Field(body.fields, "skills")) && Truthy(Field(body.fields, "role"))
             && (Interpolate(Field(body.fields, "skills").value).None? || Interpolate(Field(body.fields, "role").value).None?))
            ==> o == Outcome(ServerError, None)
    ensures o.response.status == 200 <==> o.prompt.Some? && provider(o.prompt.value).Ok?
    ensures o.response.status == 200 ==> o.response == Response(200, "analysis", provider(o.prompt.value).value)
    ensures o.prompt.Some? && provider(o.prompt.value).Err? ==> o.response == ServerError
    ensures o.response.status != 200 ==> o.response in {MethodNotAllowed, FieldsRequired, ServerError}
  {
    if verb != "POST" then Outcome(MethodNotAllowed, None)
    else
      match body
      case NoBody => Outcome(ServerError, None)
      case Fields(fields) =>
        var skills := Field(fields, "skills");
        var role := Field(fields, "role");
        if !Truthy(skills) || !Truthy(role) then Outcome(FieldsRequired, None)
        else
          match (Interpolate(skills.value), Interpolate(role.value))
          case (Some(skillsText), Some(roleText)) =>
            var prompt := Prompt(skillsText, roleText);
            Outcome(Respond("analysis", provider(prompt)), Some(prompt))
          case _ => Outcome(ServerError, None)
  }

  /** A POST without a body is answered 500, not 400, and the provider is not called. */
  lemma MissingBodyIsServerError(provider: Provider)
    ensures Handle("POST", NoBody, provider) == Outcome(ServerError, None)
  {
  }

  /** Either field falsy: 400 and no provider call. */
  lemma FalsyFieldRejected(fields: map<string, JsValue>, provider: Provider)
    requires !Truthy(Field(fields, "skills")) || !Truthy(Field(fields, "role"))
    ensures Handle("POST", Fields(fields), provider) == Outcome(FieldsRequired, None)
  {
  }

  /**
   * A truthy skills or role value that a template literal cannot turn into
   * text throws inside the try: 500 and no provider call.
   */
  lemma UnconvertibleFieldIsServerError(other: string, provider: Provider)
    requires other != ""
    ensures Handle("POST", Fields(map["skills" := JsOther(true, None), "role" := JsString(other)]), provider)
      == Outcome(ServerError, None)
    ensures Handle("POST", Fields(map["skills" := JsString(other), "role" := JsOther(true, None)]), provider)
      == Outcome(ServerError, None)
  {
    var f1 := map["skills" := JsOther(true, None), "role" := JsString(other)];
    assert Field(f1, "skills") == Some(JsOther(true, None)) && Field(f1, "role") == Some(JsString(other));
    var f2 := map["skills" := JsString(other), "role" := JsOther(true, None)];
    assert Field(f2, "skills") == Some(JsString(other)) && Field(f2, "role") == Some(JsOther(true, None));
  }

  /** The server does not trim: whitespace-only skills and role reach the provider unchanged. */
  lemma WhitespaceFieldsAccepted(skills: string, role: string, provider: Provider)
    requires skills != "" && Blank(skills) && role != "" && Blank(role)
    ensures Handle("POST", Fields(map["skills" := JsString(skills), "role" := JsString(role)]), provider).prompt
      == Some(Prompt(skills, role))
  {
    var fields := map["skills" := JsString(skills), "role" := JsString(role)];
    assert Field(fields, "skills") == Some(JsString(skills));
    assert Field(fields, "role") == Some(JsString(role));
  }

  /** Whatever the causes, a failing provider yields the same generic 500. */
  lemma FailureCauseHidden(verb: string, body: Body, p1: Provider, p2: Provider)
    requires forall prompt :: p1(prompt).Err? && p2(prompt).Err?
    ensures Handle(verb, body, p1) == Handle(verb, body, p2)
    ensures Handle(verb, body, p1).response.status != 200
  {
  }
}
