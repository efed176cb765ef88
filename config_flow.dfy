/** The configuration flow of the integration: the "user" step that
    validates host, port and strip count and creates the configuration entry,
    and the "init" step of the options flow. Form rendering and the field
    schemas belong to the host runtime; a submitted form is an input value. */
module ConfigFlow {
  import opened Wrappers

  /** The submitted setup form; also the data of a configuration entry. */
  datatype UserInput = UserInput(host: string, port: int, ledStrips: int)

  /** What a flow step hands back to the host runtime. */
  datatype FlowResult =
    | ShowForm(stepId: string, errors: map<string, string>, defaults: UserInput)
    | CreateEntry(title: string, data: UserInput)
    | Abort(reason: string)

  /** The ranges a configuration entry is meant to satisfy: a non-empty host,
      a TCP port and between 1 and 100 strips. */
  predicate IsValid(i: UserInput) {
    i.host != "" && 1 <= i.port <= 65535 && 1 <= i.ledStrips <= 100
  }

  /** The error code of the validation chain. The checks form one elif
      chain, so at most one code is set, and the first failing check, in the
      order host, port, strip count, decides which. */
  function ValidationError(i: UserInput): (e: Option<string>)
    ensures e == None <==> IsValid(i)
    ensures e == Some("no_host") <==> i.host == ""
    ensures e == Some("no_port") <==> i.host != "" && !(1 <= i.port <= 65535)
    ensures e == Some("invalid_strip_number") <==>
              i.host != "" && 1 <= i.port <= 65535 && !(1 <= i.ledStrips <= 100)
  {
    if i.host == "" then Some("no_host")
    else if !(0 < i.port < 65536) then Some("no_port")
    else if !(0 < i.ledStrips <= 100) then Some("invalid_strip_number")
    else None
  }

  /** The `errors` dictionary shown with the form: empty, or the one code
      under "base". */
  function Errors(i: UserInput): (errors: map<string, string>)
    ensures |errors| <= 1
    ensures errors == map[] <==> IsValid(i)
    ensures errors != map[] ==> "base" in errors && ValidationError(i) == Some(errors["base"])
  {
    match ValidationError(i)
    case None => map[]
    case Some(code) => map["base" := code]
  }

  /** The "user" step. `configured` holds the unique ids of the entries
      already set up for this integration; the flow's unique id is the host.
      `defaults` are the defaults of the form's schema. */
  function StepUser(input: Option<UserInput>, configured: set<string>, defaults: UserInput): (r: FlowResult)
    ensures r.CreateEntry? <==> input.Some? && IsValid(input.value) && input.value.host !in configured
    ensures r.CreateEntry? ==> r.title == input.value.host && r.data == input.value
    ensures r.Abort? <==> input.Some? && IsValid(input.value) && input.value.host in configured
    ensures r.Abort? ==> r.reason == "already_configured"
    ensures r.ShowForm? ==> r.stepId == "user" && r.defaults == defaults
    ensures r.ShowForm? ==> r.errors == if input.Some? then Errors(input.value) else map[]
  {
    match input
    case None => ShowForm("user", map[], defaults)
    case Some(i) =>
      var errors := Errors(i);
      if errors == map[] then
        if i.host in configured then Abort("already_configured")
        else CreateEntry(i.host, i)
      else ShowForm("user", errors, defaults)
  }

  /** Once an entry exists for a host, a second setup for that host aborts,
      with the same input. */
  lemma {:induction false} SecondSetupAborts(i: UserInput, configured: set<string>, defaults: UserInput)
    requires StepUser(Some(i), configured, defaults).CreateEntry?
    ensures StepUser(Some(i), configured + {StepUser(Some(i), configured, defaults).title}, defaults)
            == Abort("already_configured")
  {
  }

  /** The "init" step of the options flow: a submitted form is stored as the
      options without any check; otherwise the form is shown with the entry's
      current values as defaults. */
  function StepInit(entry: UserInput, input: Option<UserInput>): (r: FlowResult)
    ensures input.Some? <==> r.CreateEntry?
    ensures r.CreateEntry? ==> r.title == "" && r.data == input.value
    ensures r.ShowForm? ==> r.stepId == "init" && r.errors == map[] && r.defaults == entry
  {
    match input
    case Some(i) => CreateEntry("", i)
    case None => ShowForm("init", map[], entry)
  }

  /** The two steps validate differently: every submitted options form is
      stored, including ones the setup step refuses. */
  lemma {:induction false} OptionsSkipValidation(entry: UserInput, i: UserInput, configured: set<string>, defaults: UserInput)
    requires !IsValid(i)
    ensures StepInit(entry, Some(i)) == CreateEntry("", i)
    ensures StepUser(Some(i), configured, defaults).ShowForm?
  {
  }
}
