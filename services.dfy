/**
 * The process-wide configuration and the local rules of the two collaborators:
 * the reply generator (`get_gemini_response`) and the poster
 * (`post_facebook_reply`).  The generative-language SDK and the HTTP client are
 * oracles passed in as functions.
 */
module Services {
  import opened Wrappers

  /**
   * Read once at start-up and never changed: the webhook verify token, the page
   * access token, and whether the generative model was configured.
   */
  datatype Config = Config(
    verifyToken: Option<string>,
    pageAccessToken: Option<string>,
    modelReady: bool)

  const ModelMissingApology := "Lo siento, estoy teniendo problemas técnicos en este momento."
  const ServiceErrorApology := "Lo siento, no pude procesar tu solicitud con la IA en este momento."

  /**
   * The reply for a comment.  `sdk(comment)` is the model's text for the prompt
   * built around `comment`, or `None` when the call raises.  A model that was
   * never configured and a call that raises each give their own fixed apology;
   * only the model's own text can be empty.
   */
  function GeminiReply(modelReady: bool, sdk: string -> Option<string>, comment: string): (r: string)
    ensures !modelReady ==> r == ModelMissingApology
    ensures modelReady && sdk(comment).None? ==> r == ServiceErrorApology
    ensures modelReady && sdk(comment).Some? ==> r == sdk(comment).value
    ensures r == [] <==> modelReady && sdk(comment) == Some([])
  {
    if !modelReady then ModelMissingApology
    else match sdk(comment)
      case None => ServiceErrorApology
      case Some(text) => text
  }

  /** Python truthiness of an optional string: present and non-empty. */
  predicate Truthy(s: Option<string>) {
    s.Some? && s.value != []
  }

  /**
   * Whether a reply was published.  Without a page access token nothing is
   * sent and the answer is `false`; otherwise it is whatever `send` (the HTTP
   * request, `false` on any request error) reports.
   */
  function PostReply(
    pageAccessToken: Option<string>,
    send: (Option<string>, string, string) -> bool,
    commentId: Option<string>,
    message: string): (published: bool)
    ensures !Truthy(pageAccessToken) ==> !published
    ensures published <==> Truthy(pageAccessToken) && send(commentId, message, pageAccessToken.value)
  {
    if !Truthy(pageAccessToken) then false
    else send(commentId, message, pageAccessToken.value)
  }
}
