/**
 * SkillInvoker.say: match a phrase to an intent, build the skill request, POST it once to the
 * skill URL, and call back exactly once with either the response body or an error message.
 *
 * Matching (intentForPhrase), request building (intentRequest) and the HTTP transport are not
 * part of this model; each is a function parameter, so every outcome they can produce is covered.
 * The interaction model is a type parameter `M` for the same reason.
 */
module SkillInvocation {
  import opened Wrappers

  const NoMatchPrefix := "No matching intent for phrase: "

  /** An intent found for a phrase; only its identity matters here. */
  datatype Intent = Intent(name: string)

  /** The request builder, made from the invoker's interaction model and application id. */
  datatype ServiceRequest<M> = ServiceRequest(interactionModel: M, applicationID: Option<string>)

  datatype SkillInvoker<M> = SkillInvoker(
    skillURL: string, interactionModel: M, applicationID: Option<string>,
    serviceRequest: ServiceRequest<M>)

  /** One POST issued by say: target URL and JSON body (the built request, serialised). */
  datatype Post = Post(url: string, json: string)

  /** What the transport does with a POST: it throws synchronously (caught by say's try),
      hands an error to the response handler, or hands it a body. */
  datatype Transport = Rejected(message: string) | Failed(message: string) | Responded(body: string)

  /** The arguments of one callback invocation: `callback(response, error)`; None stands for
      null in the first position and for an absent argument in the second. */
  datatype Reply = Reply(response: Option<string>, error: Option<string>)

  /** Everything say does that is visible outside: the POSTs it issues, the callbacks it makes,
      and the message of an exception that escapes it (None when it returns normally). */
  datatype SayTrace = SayTrace(posts: seq<Post>, callbacks: seq<Reply>, escaped: Option<string>)

  /** The constructor: the service request is built from the invoker's own model and id. */
  function NewSkillInvoker<M>(skillURL: string, interactionModel: M, applicationID: Option<string>)
    : (r: SkillInvoker<M>)
    ensures r.skillURL == skillURL
    ensures r.serviceRequest == ServiceRequest(interactionModel, applicationID)
    ensures r.serviceRequest.interactionModel == r.interactionModel
    ensures r.serviceRequest.applicationID == r.applicationID
  {
    SkillInvoker(skillURL, interactionModel, applicationID, ServiceRequest(interactionModel, applicationID))
  }

  /**
   * say(phrase, callback). `intentForPhrase` returns Err(message) when the matcher throws: that
   * call stands before the try block, so the exception leaves say and no callback is made.
   * `intentRequest` returns Err(message) when building throws, which the try block catches.
   */
  function Say<M>(invoker: SkillInvoker<M>, phrase: string,
                  intentForPhrase: (M, string) -> Result<Option<Intent>, string>,
                  intentRequest: (ServiceRequest<M>, Intent) -> Result<string, string>,
                  transport: Post -> Transport): (t: SayTrace)
    // a matcher exception escapes, with no POST and no callback
    ensures intentForPhrase(invoker.interactionModel, phrase).Err? ==>
      t == SayTrace([], [], Some(intentForPhrase(invoker.interactionModel, phrase).error))
    // otherwise the callback runs exactly once, and at most one POST is made, to the skill URL
    ensures t.escaped.None? <==> intentForPhrase(invoker.interactionModel, phrase).Ok?
    ensures t.escaped.None? ==> |t.callbacks| == 1 && |t.posts| <= 1
    ensures forall p <- t.posts :: p.url == invoker.skillURL
    // no intent: the no-match message, and no POST
    ensures intentForPhrase(invoker.interactionModel, phrase) == Ok(None) ==>
      t == SayTrace([], [Reply(None, Some(NoMatchPrefix + phrase))], None)
    // an intent: exactly one POST of the built request, unless building throws
    ensures intentForPhrase(invoker.interactionModel, phrase).Ok? &&
            intentForPhrase(invoker.interactionModel, phrase).value.Some? ==>
      var built := intentRequest(invoker.serviceRequest, intentForPhrase(invoker.interactionModel, phrase).value.value);
      && (built.Err? ==> t == SayTrace([], [Reply(None, Some(built.error))], None))
      && (built.Ok? ==> t.posts == [Post(invoker.skillURL, built.value)])
    // what the transport reports is what the callback gets
    ensures |t.posts| == 1 ==>
      match transport(t.posts[0])
      case Rejected(m) => t.callbacks == [Reply(None, Some(m))]
      case Failed(m) => t.callbacks == [Reply(None, Some(m))]
      case Responded(body) => t.callbacks == [Reply(Some(body), None)]
    // success is exactly the case of a body with no error
    ensures forall c <- t.callbacks :: c.error.None? <==> c.response.Some?
  {
    match intentForPhrase(invoker.interactionModel, phrase)
    case Err(thrown) => SayTrace([], [], Some(thrown))
    case Ok(None) => SayTrace([], [Reply(None, Some(NoMatchPrefix + phrase))], None)
    case Ok(Some(intent)) =>
      match intentRequest(invoker.serviceRequest, intent)
      case Err(message) => SayTrace([], [Reply(None, Some(message))], None)
      case Ok(json) =>
        var post := Post(invoker.skillURL, json);
        match transport(post)
        case Rejected(message) => SayTrace([post], [Reply(None, Some(message))], None)
        case Failed(message) => SayTrace([post], [Reply(None, Some(message))], None)
        case Responded(body) => SayTrace([post], [Reply(Some(body), None)], None)
  }

  /** The callback reports success exactly when an intent matched, the request was built, and
      the transport answered with a body; it is then that body. */
  lemma SaySucceedsIff<M>(invoker: SkillInvoker<M>, phrase: string,
                          intentForPhrase: (M, string) -> Result<Option<Intent>, string>,
                          intentRequest: (ServiceRequest<M>, Intent) -> Result<string, string>,
                          transport: Post -> Transport, body: string)
    ensures Say(invoker, phrase, intentForPhrase, intentRequest, transport).callbacks == [Reply(Some(body), None)]
      <==>
      var found := intentForPhrase(invoker.interactionModel, phrase);
      && found.Ok? && found.value.Some?
      && intentRequest(invoker.serviceRequest, found.value.value).Ok?
      && transport(Post(invoker.skillURL, intentRequest(invoker.serviceRequest, found.value.value).value))
         == Responded(body)
  {
  }
}
