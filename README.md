# Facebook comment auto-responder: webhook handler model

The repository is a single Flask application, `api/index.py`. Facebook calls its
entry point, `facebook_webhook_handler`. The handler does three things:

- **GET (verification handshake).** The `hub.verify_token` query parameter is
  compared with the configured verify token. On a match the handler answers
  200 and echoes `hub.challenge`. Otherwise it answers 403 with a fixed Spanish
  error text.
- **POST (comment dispatch).** A delivery whose `object` is `page` is walked
  entry by entry, then change by change. Only `feed` changes whose item is a
  `comment` are acted on. For each such comment:
  - a self-reply guard checks whether the author is the page itself;
  - an empty guard checks whether the stripped message is empty.

  Either guard returns from the handler at once, with its own 200
  acknowledgement, and the rest of the delivery is dropped. Any other comment
  is passed to the reply generator (`get_gemini_response`). A non-empty reply
  is passed to the poster (`post_facebook_reply`), whose result is ignored.
  Otherwise the handler answers 200 `EVENT_RECEIVED`.
- **Any other method.** The handler answers 405.

The model is in six files:

- `wrappers.dfy`: `Option` and two sequence lemmas.
- `text.dfy`: Python's `str.strip()`, with the exact `str.isspace()` character set.
- `payload.dfy`: the typed JSON body. Every key read with `.get` is an `Option`, and the accessors supply the handler's defaults. It also defines the flat stream of qualifying comments.
- `services.dfy`: the configuration and the local rules of the generator and the poster. The generative-language SDK and the HTTP client are oracle functions passed in as parameters.
- `webhook.dfy`: the handler.
  - `Handle` states its meaning as functions.
  - `HandleRequest`, `DispatchEvents`, `DispatchChanges` and `DispatchChange` follow the nested loops and early returns of the source. They are proved to compute exactly `Handle`.
- `facts.dfy`: the properties of the POST branch, stated over the comment stream. These cover where dispatch stops, which calls are made and in what order, and that nothing after a guarded comment is looked at.

What the handler does is recorded as an ordered trace of collaborator calls:

- `Generate(message)`: the generator is asked about a stripped message.
- `Reply(commentId, reply)`: the poster is asked to publish a reply.

The functions that give the meaning take no poster argument. So the fact that
`HandleRequest` equals `Handle` for every `send` is the statement that the
poster's result never changes the response or the later calls.

Both fallback texts of `get_gemini_response` are non-empty (api/index.py:33,
63), so a comment whose generation fails still has the apology posted as its
reply (`WebhookFacts.FailedGenerationStillReplies`).

## Model

| member | source | states |
|---|---|---|
| `Webhook.Verify` | api/index.py:97-104 | status 200 exactly when the supplied token equals the configured one (as optional values, so absent matches unset); then the body is the challenge, unchanged; otherwise 403 with the fixed error text |
| `Webhook.Handle` | api/index.py:96-177 | GET gives the handshake response and no calls; POST always answers 200 with one of the three acknowledgements; a POST whose `object` is not `page` (or is absent) answers `EVENT_RECEIVED` with no calls; every other method answers 405 with the fixed text and no calls |
| `Webhook.HandleRequest` | api/index.py:96-177 | the handler as it runs yields exactly `Handle`'s response and call trace, whatever the poster reports |
| `Webhook.DispatchEvents` | api/index.py:106-172 | the outer loop over entries, with its early return, yields exactly the run `Dispatch` specifies |
| `Webhook.DispatchChanges` | api/index.py:114-165 | the inner loop over one entry's changes extends the calls so far exactly as `ChangesRun` specifies, stopping at a guard |
| `Webhook.DispatchChange` | api/index.py:117-165 | one change: a non-comment is skipped; for a comment the self-reply guard is checked before the empty guard; otherwise one generator call and, for a non-empty reply, one poster call |
| `Webhook.AndThenAssoc` | api/index.py:114-141 | sequencing runs with early exit is associative, so the nested loops compose into one stream |
| `Webhook.QueryGet` | api/index.py:99-101 | `request.args.get`: present exactly when the key is in the query, and then its value |
| `Webhook.AckBody` | api/index.py:135-172 | the acknowledgement text of each ending; `EVENT_RECEIVED` exactly when no guard fired, and the two guard texts each exactly for their guard |
| `Webhook.Answer` | api/index.py:152-163 | a comment that passes both guards makes one generator call on its stripped message, then one poster call under its id exactly when the reply is non-empty, never with an empty reply |
| `Webhook.Step` | api/index.py:135-163 | one qualifying comment: the self-reply guard fires whenever the author id equals the entry id, whatever the message; the empty guard only when the ids differ and the stripped message is empty; a guard makes no call; otherwise the comment is answered |
| `Webhook.ChangeRun` | api/index.py:117-165 | one change: only a feed comment can lead to a call or end the loop; at most two calls |
| `Webhook.ChangesRun` | api/index.py:116-165 | the inner loop: at most two calls per feed comment among the changes, and an early stop only if there is a feed comment |
| `Webhook.EntriesRun` | api/index.py:114-165 | the outer loop: at most two calls per feed comment in the delivery, and an early stop only if there is one |
| `Webhook.Dispatch` | api/index.py:113-167 | a delivery whose `object` is not `page` (or is absent) makes no call and completes; otherwise the outer loop, with at most two calls per feed comment |
| `Payload.EntriesOf` | api/index.py:114 | `data.get("entry", [])`: the entry list, or empty when absent |
| `Payload.ChangesOf` | api/index.py:116 | `entry.get("changes", [])`: the change list, or empty when absent |
| `Payload.ValueOf` | api/index.py:118 | `change.get("value", {})`: the value, or one with every key absent |
| `Payload.SenderOf` | api/index.py:125 | `value.get("from", {}).get("id")`: the author id, absent when `from` or its `id` is |
| `Payload.MessageOf` | api/index.py:124 | `value.get("message", "").strip()`: the stripped message, empty when absent (its properties are the `Text.Strip…` lemmas and `WebhookFacts.EmptyGuardIff`) |
| `Payload.Qualifies` | api/index.py:117-122 | a change is acted on exactly when its `field` is `feed` and its value's `item` is `comment` |
| `Payload.CommentOf` | api/index.py:115-125 | the entry id, comment id, author id and stripped message the guards and calls use |
| `Payload.CommentsIn` | api/index.py:116-122 | the feed comments among one entry's changes, in change order (properties: `WebhookFacts.CommentsInAppend`, `CommentsInSkip`, `ChangesRunIsServe`) |
| `Payload.Comments` | api/index.py:114-122 | the feed comments of a delivery, in entry order and then change order (properties: `WebhookFacts.CommentsAppend`, `EntriesRunIsServe`) |
| `Text.IsSpace` | api/index.py:124 | the characters Python's `str.isspace()` accepts, which `strip()` removes |
| `Text.Strip` | api/index.py:124 | Python's `str.strip()` with no argument (its properties are the `Text.Strip…` lemmas below) |
| `Services.GeminiReply` | api/index.py:27-63 | a model that was never configured gives the first apology; an SDK exception gives the second; otherwise the model's text; the reply is empty exactly when the model itself returned empty text |
| `Services.PostReply` | api/index.py:65-87 | without a truthy page access token nothing is sent and the result is false; otherwise the result is what the request reports |
| `Text.StripEmpty` | api/index.py:124 | the stripped message is empty exactly when the raw message is whitespace only |
| `Text.TrimEndEmpty` | api/index.py:124 | after leading whitespace is gone, trailing trimming gives the empty string exactly when the string is whitespace only |
| `Text.StripEnds` | api/index.py:124 | a non-empty stripped message begins and ends with a non-whitespace character |
| `Text.StripIsSlice` | api/index.py:124 | the stripped message is a contiguous slice of the raw message |
| `Text.StripRemovesOnlySpace` | api/index.py:124 | everything stripping removes, before and after that slice, is whitespace |
| `Text.StripKeepsTrimmed` | api/index.py:124 | a message with no whitespace at either end is unchanged by stripping |
| `Text.StripIdempotent` | api/index.py:124 | stripping twice is stripping once |
| `Text.TrimStartSpec` | api/index.py:124 | leading trimming drops a whitespace prefix and stops at a non-whitespace character |
| `Text.TrimEndSpec` | api/index.py:124 | trailing trimming drops a whitespace suffix and stops at a non-whitespace character |
| `Text.AllSpaceConcat` | api/index.py:124 | a concatenation is whitespace only exactly when both parts are |
| `WebhookFacts.FirstGuarded` | api/index.py:135-141 | the position of the first comment at which a guard fires: no comment before it is guarded, and the one at it is |
| `WebhookFacts.ChangesRunIsServe` | api/index.py:116-165 | the inner loop over one entry is the step-by-step dispatch over that entry's comment stream |
| `WebhookFacts.EntriesRunIsServe` | api/index.py:114-165 | the outer loop is the step-by-step dispatch over the whole delivery's comment stream, entry order then change order |
| `WebhookFacts.ServeAppend` | api/index.py:114-141 | dispatching a concatenated stream is dispatching the first part, then the second only if the first ran to completion |
| `WebhookFacts.ServeIsExpected` | api/index.py:135-163 | dispatch over a comment stream answers exactly the comments before the first guarded one and ends with that guard, or completes |
| `WebhookFacts.PostOutcome` | api/index.py:106-172 | a POST's full outcome: non-`page` deliveries give `EVENT_RECEIVED` and no calls; otherwise every comment before the first guarded one is answered in order, none at or after it, and the body names the guard that fired (self-reply taking precedence) or is `EVENT_RECEIVED` |
| `WebhookFacts.ShortCircuit` | api/index.py:135-141 | two `page` deliveries whose comment streams agree up to and including the first guarded comment have the same outcome, whatever follows |
| `WebhookFacts.LaterEntriesIgnored` | api/index.py:135-141 | once the entries so far stopped at a guard, appending further entries changes nothing |
| `WebhookFacts.CommentsAppend` | api/index.py:114-116 | the comment stream of concatenated entry lists is the concatenation of their streams |
| `WebhookFacts.CommentsInAppend` | api/index.py:116-122 | the comment stream of concatenated change lists is the concatenation of their streams |
| `WebhookFacts.CommentsInSkip` | api/index.py:117-122 | removing a non-comment change leaves the comment stream unchanged |
| `WebhookFacts.SkipNonComment` | api/index.py:117-122 | removing a change that is not a feed comment leaves the entry's run unchanged |
| `WebhookFacts.EmptyGuardIff` | api/index.py:124-141 | the empty-comment guard fires exactly when the raw message is absent or whitespace only |
| `WebhookFacts.Messages` | api/index.py:124 | one stripped message per comment, in order |
| `WebhookFacts.RepliesFor` | api/index.py:156-157 | the expected poster calls: each is a reply with a non-empty message, at most one per comment |
| `WebhookFacts.PromptsAppend` | api/index.py:152 | the generator calls of a concatenated trace are those of the parts, in order |
| `WebhookFacts.PostsAppend` | api/index.py:157 | the poster calls of a concatenated trace are those of the parts, in order |
| `WebhookFacts.AnswerCalls` | api/index.py:152-163 | an answered comment makes exactly one generator call on its stripped message and at most one poster call, with its comment id and a non-empty reply |
| `WebhookFacts.AnsweredPrompts` | api/index.py:152 | for answered comments the generator sees their stripped messages, one each, in order |
| `WebhookFacts.AnsweredPosts` | api/index.py:156-157 | for answered comments the poster is called once per non-empty reply, with the comment's id, in order |
| `WebhookFacts.PostCalls` | api/index.py:113-172 | for a `page` delivery the generator sees exactly the stripped messages before the first guarded comment, the poster is called exactly for those with non-empty replies, and never with an empty reply |
| `WebhookFacts.PostsMember` | api/index.py:157 | every poster call in a trace appears among its poster calls |
| `WebhookFacts.FailedGenerationStillReplies` | api/index.py:31-63 | when the model is not configured (31-33) or the SDK raises (60-63), the comment still gets the matching apology posted under its id |

## Left out

- Flask routing, `request.args`, `request.get_json` and `make_response`: the request is modelled as an already-parsed method, query map and typed body. Flask's automatic HEAD and OPTIONS handling and its own 405 for unrouted methods are not modelled; any method that reaches the handler other than GET or POST gives the handler's 405.
- Wrongly typed JSON makes the source raise part-way through a delivery, and the typed payload cannot express any of these cases:
  - a body that is not a JSON object (`data.get` at api/index.py:113);
  - a string, number or object where the `entry` or `changes` list should be, whose elements then have no `.get` (114-116);
  - `null` where an object or list is expected;
  - `"message": null` or a number, on which `.strip()` raises (124).

  Such an exception happens mid-batch, after replies to earlier comments may already have been posted. Flask then answers 500 instead of a 200 acknowledgement, and the platform redelivers the event (as the comment at 169-171 notes). In the model an absent key is `None`, a `null` in a list position cannot be written, and every POST ends in one of the three 200 acknowledgements.
- A GET that matches the token but carries no `hub.challenge` makes `make_response(None, 200)` fail in Flask. The model returns status 200 with an absent body, and does not model the failure.
- The generative-language SDK, its configuration at start-up, and `generate_content` are the oracle `sdk`. An exception is `None`. The oracle is deterministic in the comment text.
- The prompt template (api/index.py:36-50) is a constant with no logic. Its `page_name` and `page_description` parameters are unused by the source, so the oracle takes only the comment text.
- `requests.post`, `raise_for_status` and the Graph API URL are the oracle `send`. Any request error is `false`.
- Environment-variable loading and the start-up warning: the tokens and the model's availability are an immutable `Config`.
- All `print` logging and the `json.dumps` debug dump: these are side effects only.
- Concurrency between deliveries: each request is handled on its own, with no shared mutable state.
