/** `DiagnoseView.post`: validates a diagnosis request, asks the chat service, and either
    reports a failure or stores the exchange as a chat log record and returns it. The
    request form, the service's oracles and the record store's outcome are parameters. */
module DiagnoseView {
  import opened Outcomes
  import opened ErrorLog
  import opened CohereService
  import Text

  /** The form fields of a POST; an absent field is `None`. */
  datatype Request = Request(text: Option<string>, language: Option<string>, image: Option<Upload>)

  /** A stored `ChatLog` row, without the database id and the creation timestamp. */
  datatype ChatLog = ChatLog(userText: string, image: Option<Upload>, responseText: string)

  /** The response body: a plain error, an error with details, or the serialised record. */
  datatype Body =
    | ErrorBody(error: string)
    | ErrorDetailsBody(error: string, details: string)
    | RecordBody(record: ChatLog)

  datatype Response = Response(status: nat, body: Body)

  /** What one POST did: the response, the service call it made (if any), the record store
      afterwards, and the error log. */
  datatype Handled = Handled(response: Response, service: Option<ServiceReply>, store: seq<ChatLog>, log: Log)

  const Ok200: nat := 200
  const BadRequest400: nat := 400
  const ServerError500: nat := 500
  const DefaultLanguageCode := "en"
  const MissingInputError := "Please provide an image, text, or both"
  const ServiceFailedError := "Cohere API call failed"
  const InternalError := "Internal server error"

  /** The text stored and described: the stripped form text, or the placeholder when empty. */
  function ShownText(text: string): (t: string)
    ensures t != ""
    ensures text != "" ==> t == text
    ensures text == "" ==> t == NoDescription
  {
    if text != "" then text else NoDescription
  }

  /** The description the view passes to the service. */
  function Description(text: string, language: string): (d: string)
    ensures |ShownText(text)| < |d| && d[..|ShownText(text)|] == ShownText(text)
    ensures d != NoDescription
  {
    var d := ShownText(text) + " Respond in " + language + ".";
    assert d[|d| - 1] != NoDescription[|NoDescription| - 1];
    d
  }

  /** The request carries neither an image nor any non-whitespace text. */
  predicate IsEmptyRequest(req: Request) {
    req.image.None? && Text.AllSpace(req.text.GetOr(""))
  }

  /** `DiagnoseView().post(request)` with the service's key `key`, its oracles `so`, and the
      outcome `create` of `ChatLog.objects.create`. */
  function Post(req: Request, key: string, so: ServiceOracles, create: Outcome,
                store: seq<ChatLog>, log: Log): (r: Handled)
    ensures r.response.status in {Ok200, BadRequest400, ServerError500}
    ensures r.response.status == BadRequest400 <==> IsEmptyRequest(req)
    ensures IsEmptyRequest(req) ==>
              && r.service.None?
              && r.store == store
              && r.response.body == ErrorBody(MissingInputError)
    ensures !IsEmptyRequest(req) ==>
              var language := req.language.GetOr(DefaultLanguageCode);
              var d := Description(Text.Strip(req.text.GetOr("")), language);
              r.service == Some(QueryGemini(key, req.image, d, "", language, so, log))
    ensures r.response.status == Ok200 <==> |r.store| == |store| + 1
    ensures r.response.status == Ok200 <==>
              && !IsEmptyRequest(req)
              && r.service.Some?
              && !Text.Contains(r.service.value.text, ErrorMarker)
              && create.Pass?
    ensures r.response.status != Ok200 ==> r.store == store
    ensures r.response.status == Ok200 ==>
              && r.response.body.RecordBody?
              && r.store == store + [r.response.body.record]
              && r.response.body.record.image == req.image
              && r.response.body.record.responseText == r.service.value.text
              && r.response.body.record.userText == ShownText(Text.Strip(req.text.GetOr("")))
    ensures r.service.Some? && Text.Contains(r.service.value.text, ErrorMarker) ==>
              r.response == Response(ServerError500, ErrorBody(ServiceFailedError))
    ensures r.service.Some? && !Text.Contains(r.service.value.text, ErrorMarker) && create.Fail? ==>
              r.response == Response(ServerError500, ErrorDetailsBody(InternalError, create.exc.msg))
  {
    var text := Text.Strip(req.text.GetOr(""));
    var language := req.language.GetOr(DefaultLanguageCode);
    if req.image.None? && text == "" then
      Handled(Response(BadRequest400, ErrorBody(MissingInputError)), None, store,
              Append(log, "InputError", "No image or text provided by user"))
    else
      var reply := QueryGemini(key, req.image, Description(text, language), "", language, so, log);
      if Text.Contains(reply.text, ErrorMarker) then
        Handled(Response(ServerError500, ErrorBody(ServiceFailedError)), Some(reply), store,
                Append(reply.log, "CohereAPI", reply.text))
      else if create.Fail? then
        Handled(Response(ServerError500, ErrorDetailsBody(InternalError, create.exc.msg)), Some(reply), store,
                Append(reply.log, "ServerError", create.exc.msg))
      else
        var record := ChatLog(ShownText(text), req.image, reply.text);
        Handled(Response(Ok200, RecordBody(record)), Some(reply), store + [record], reply.log)
  }

  /** The view always hands the service a non-empty description and no `user_text`, so the
      service's own placeholder is never used: the message sent is the preamble, the view's
      description (which asks for the language a second time), and the caption block when
      an image was given. `Post` hands the service exactly this description. */
  lemma ServicePlaceholderUnreachable(text: string, language: string, image: Option<Upload>, key: string,
                                      so: ServiceOracles, log: Log)
    ensures var d := Description(text, language);
            var reply := QueryGemini(key, image, d, "", language, so, log);
            && UserText(d, "") == d
            && d != NoDescription
            && (reply.sent.Some? ==>
                  reply.sent.value == Preamble(language) + ShownText(text) + " Respond in " + language + "."
                                      + (if image.Some? then ImageDetails else ""))
  {
  }

  /** Without the `language` field the response language is "en". */
  lemma LanguageDefaultsToEn(req: Request, key: string, so: ServiceOracles, create: Outcome,
                             store: seq<ChatLog>, log: Log)
    requires req.language.None? && !IsEmptyRequest(req)
    requires key != "" && (req.image.None? || EncodeUsable(so.encode))
    ensures var reply := Post(req, key, so, create, store, log).service.value;
            reply.sent.Some? && reply.sent.value[..|Preamble("en")|] == Preamble("en")
  {
  }

  /** Every failure the service reports as a string ends in a 500 with nothing stored; with
      no API key configured, every non-empty request fails this way. */
  lemma ServiceFailuresAre500(req: Request, key: string, so: ServiceOracles, create: Outcome,
                              store: seq<ChatLog>, log: Log)
    requires !IsEmptyRequest(req)
    requires var reply := Post(req, key, so, create, store, log).service.value;
             !(reply.sent.Some? && so.chat.Ok?)
    ensures Post(req, key, so, create, store, log).response == Response(ServerError500, ErrorBody(ServiceFailedError))
    ensures Post(req, key, so, create, store, log).store == store
  {
    ErrorReplyContainsMarker(Post(req, key, so, create, store, log).service.value.text);
  }

  /** A successful chat reply that merely mentions "Error:" anywhere, not only at its start,
      is still treated as a failed call: 500, and the exchange is not stored. */
  lemma MarkerInsideReplyIs500(req: Request, key: string, so: ServiceOracles, create: Outcome,
                               store: seq<ChatLog>, log: Log, before: string, after: string)
    requires !IsEmptyRequest(req) && key != "" && (req.image.None? || EncodeUsable(so.encode))
    requires so.chat == Ok(before + ErrorMarker + after)
    ensures var r := Post(req, key, so, create, store, log);
            && r.response == Response(ServerError500, ErrorBody(ServiceFailedError))
            && r.store == store
  {
    Text.ContainedAnywhere(before, ErrorMarker, after);
  }
}
