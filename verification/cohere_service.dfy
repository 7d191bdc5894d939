/** `query_gemini`: builds the chat prompt for a plant-health question and returns the chat
    reply, or, when it cannot, a string starting with "Error:": one of two fixed messages,
    or "Error: " followed by the chat exception. The API key comes from the
    process environment; the image encoder and the embed and chat endpoints are oracles. */
module CohereService {
  import opened Outcomes
  import opened ErrorLog
  import Text

  /** An uploaded image file; its contents are only seen through the encoder oracle. */
  datatype Upload = Upload(name: string)

  /** What reading the image and encoding it as base64 PNG yields, or the exception it raised. */
  datatype EncodeOutcome = Encoded(b64: string) | EncodeFailed(exc: Exc)

  /** The outcome of each external call one request may make. */
  datatype ServiceOracles = ServiceOracles(encode: EncodeOutcome, embed: Outcome, chat: Result<string>)

  /** What `query_gemini` did: the string it returned, which external calls it made (`sent`
      is the message passed to chat, if chat was called), and the error log. */
  datatype ServiceReply = ServiceReply(
    text: string,
    encodeCalled: bool,
    embedCalled: bool,
    sent: Option<string>,
    log: Log)

  const NoKeyReply := "Error: Cohere API key not set."
  const ImageFailureReply := "Error: Failed to process image."
  const NoDescription := "No description provided"
  const ImageCaption := "An image of a plant (automatically detected)."
  const ImageDetails := "\n\nImage details: " + ImageCaption
  const ExpertInstruction := "You are a plant health expert. Identify the plant, diagnose any diseases, explain the symptoms, and provide a solution. "
  const ErrorMarker := "Error:"

  /** The fixed instruction that opens every chat message. */
  function Preamble(language: string): string {
    ExpertInstruction + "Respond in " + language + ".\n\n"
  }

  /** The module-level key: `COHERE_API_KEY` stripped, empty when unset; an empty key is
      logged as a configuration error when the module is imported. */
  function Configure(env: Option<string>, log: Log): (r: (string, Log))
    ensures r.0 == "" <==> env.None? || Text.AllSpace(env.value)
    ensures r.0 != "" ==> !Text.IsSpace(r.0[0]) && !Text.IsSpace(r.0[|r.0| - 1])
    ensures env.Some? ==>
              exists i :: Text.OccursAt(env.value, r.0, i)
                          && Text.AllSpace(env.value[..i]) && Text.AllSpace(env.value[i + |r.0|..])
    ensures r.1 == if r.0 == "" then log + [Entry("ConfigError", "Cohere API key not set")] else log
  {
    var key := Text.Strip(env.GetOr(""));
    (key, if key == "" then Append(log, "ConfigError", "Cohere API key not set") else log)
  }

  /** `image_to_base64`: the encoding, or `None` after logging any failure. */
  function ImageToBase64(e: EncodeOutcome, log: Log): (r: (Option<string>, Log))
    ensures r.0.None? <==> e.EncodeFailed?
    ensures r.0.Some? ==> r.0.value == e.b64 && r.1 == log
    ensures e.EncodeFailed? ==> r.1 == log + [Entry("ImageEncodingError", "Failed to encode image: " + e.exc.msg)]
  {
    match e
    case Encoded(b) => (Some(b), log)
    case EncodeFailed(x) => (None, Append(log, "ImageEncodingError", "Failed to encode image: " + x.msg))
  }

  /** The text the prompt is built around: `user_text`, else `description`, else a fixed
      placeholder. Python `None` and `""` are both written `""`. */
  function UserText(description: string, userText: string): (t: string)
    ensures t != ""
    ensures userText != "" ==> t == userText
    ensures userText == "" && description != "" ==> t == description
    ensures userText == "" && description == "" ==> t == NoDescription
  {
    if userText != "" then userText
    else if description != "" then description
    else NoDescription
  }

  /** A reply that starts with "Error: ", as every reply the service builds itself does. */
  predicate IsErrorReply(s: string) {
    |"Error: "| <= |s| && s[..|"Error: "|] == "Error: "
  }

  /** The chat call and its `except` clause: an exception becomes a reply string. */
  function Chat(message: string, outcome: Result<string>, encodeCalled: bool, embedCalled: bool, log: Log): (r: ServiceReply)
    ensures r.sent == Some(message)
    ensures r.encodeCalled == encodeCalled && r.embedCalled == embedCalled
    ensures outcome.Ok? ==> r.text == outcome.value && r.log == log
    ensures outcome.Raised? ==>
              && r.text == "Error: " + outcome.exc.msg
              && IsErrorReply(r.text)
              && r.log == log + [Entry("CohereAPIError", "Cohere request failed: " + outcome.exc.msg)]
  {
    match outcome
    case Ok(reply) => ServiceReply(reply, encodeCalled, embedCalled, Some(message), log)
    case Raised(e) =>
      ServiceReply("Error: " + e.msg, encodeCalled, embedCalled, Some(message),
                   Append(log, "CohereAPIError", "Cohere request failed: " + e.msg))
  }

  /** The image was encoded to a non-empty string (an empty one is falsy in Python too). */
  predicate EncodeUsable(e: EncodeOutcome) {
    e.Encoded? && e.b64 != ""
  }

  /** `query_gemini(image, description, user_text, language)` with the module key `key`. */
  function QueryGemini(key: string, image: Option<Upload>, description: string, userText: string,
                       language: string, o: ServiceOracles, log: Log): (r: ServiceReply)
    ensures key == "" ==> r == ServiceReply(NoKeyReply, false, false, None, log)
    ensures key != "" ==> (r.sent.Some? <==> image.None? || EncodeUsable(o.encode))
    ensures r.encodeCalled <==> key != "" && image.Some?
    ensures r.embedCalled <==> key != "" && image.Some? && EncodeUsable(o.encode)
    ensures key != "" && image.Some? && !EncodeUsable(o.encode) ==> r.text == ImageFailureReply
    ensures !(r.sent.Some? && o.chat.Ok?) ==> IsErrorReply(r.text)
    ensures r.sent.Some? ==>
              r.sent.value == Preamble(language) + UserText(description, userText)
                              + (if image.Some? then ImageDetails else "")
    ensures r.sent.Some? && o.chat.Ok? ==> r.text == o.chat.value
    ensures r.sent.Some? && o.chat.Raised? ==> r.text == "Error: " + o.chat.exc.msg
  {
    if key == "" then
      assert IsErrorReply(NoKeyReply);
      ServiceReply(NoKeyReply, false, false, None, log)
    else if image.None? then Chat(Preamble(language) + UserText(description, userText), o.chat, false, false, log)
    else ImageRequest(Preamble(language) + UserText(description, userText), o, log)
  }

  /** The image branch of `query_gemini`, given the preamble and text: encode, embed, then
      chat with the caption appended to the text. */
  function ImageRequest(prompt: string, o: ServiceOracles, log: Log): (r: ServiceReply)
    ensures r.encodeCalled
    ensures r.embedCalled <==> EncodeUsable(o.encode)
    ensures r.sent.Some? <==> EncodeUsable(o.encode)
    ensures !EncodeUsable(o.encode) ==> r.text == ImageFailureReply
    ensures !(r.sent.Some? && o.chat.Ok?) ==> IsErrorReply(r.text)
    ensures r.sent.Some? ==> r.sent.value == prompt + ImageDetails
    ensures r.sent.Some? && o.chat.Ok? ==> r.text == o.chat.value
    ensures r.sent.Some? && o.chat.Raised? ==> r.text == "Error: " + o.chat.exc.msg
    ensures |log| <= |r.log| && r.log[..|log|] == log
    ensures EncodeUsable(o.encode) && o.embed.Fail? ==>
              |log| < |r.log| && r.log[|log|] == Entry("CohereEmbedError", "Image embedding failed: " + o.embed.exc.msg)
  {
    var (b64, log1) := ImageToBase64(o.encode, log);
    if b64.None? || b64.value == "" then
      assert IsErrorReply(ImageFailureReply);
      ServiceReply(ImageFailureReply, true, false, None, log1)
    else
      var log2 := if o.embed.Fail? then Append(log1, "CohereEmbedError", "Image embedding failed: " + o.embed.exc.msg) else log1;
      Chat(prompt + ImageDetails, o.chat, true, true, log2)
  }

  /** The message sent to chat always begins with the expert preamble, which ends by naming
      the response language; the rest is the non-empty effective text, followed by the image
      caption block when an image was given and by nothing otherwise. */
  lemma SentMessageShape(key: string, image: Option<Upload>, description: string, userText: string,
                         language: string, o: ServiceOracles, log: Log)
    requires QueryGemini(key, image, description, userText, language, o, log).sent.Some?
    ensures var m := QueryGemini(key, image, description, userText, language, o, log).sent.value;
            var pre := Preamble(language);
            var text := UserText(description, userText);
            var tail := "Respond in " + language + ".\n\n";
            && |pre| < |m|
            && m[..|pre|] == pre
            && pre[|pre| - |tail|..] == tail
            && (image.None? ==> m[|pre|..] == text)
            && (image.Some? ==> m[|pre|..] == text + ImageDetails)
  {
    var m := QueryGemini(key, image, description, userText, language, o, log).sent.value;
    var pre := Preamble(language);
    var text := UserText(description, userText);
    var tail := "Respond in " + language + ".\n\n";
    assert pre[|pre| - |tail|..] == tail;
    if image.None? {
      assert m == pre + text;
    } else {
      assert m == pre + (text + ImageDetails);
    }
    assert m[..|pre|] == pre;
  }

  /** An embedding failure is only logged: the message sent and the reply are those of a
      request whose embedding succeeded. */
  lemma EmbedFailureOnlyLogged(key: string, image: Option<Upload>, description: string, userText: string,
                               language: string, o: ServiceOracles, log: Log, e: Exc)
    ensures var failed := QueryGemini(key, image, description, userText, language, o.(embed := Fail(e)), log);
            var passed := QueryGemini(key, image, description, userText, language, o.(embed := Pass), log);
            && failed.text == passed.text
            && failed.sent == passed.sent
            && |failed.log| == |passed.log| + (if passed.embedCalled then 1 else 0)
            && (passed.embedCalled ==>
                  failed.log == log + [Entry("CohereEmbedError", "Image embedding failed: " + e.msg)] + passed.log[|log|..])
            && (!passed.embedCalled ==> failed.log == passed.log)
  {
  }

  /** A reply starting with "Error: " contains "Error:". */
  lemma ErrorReplyContainsMarker(s: string)
    requires IsErrorReply(s)
    ensures Text.Contains(s, ErrorMarker)
  {
  }
}
