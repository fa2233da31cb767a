/**
 * The webhook entry point: the verification handshake on GET, the comment
 * dispatch on POST, and 405 for every other method.
 *
 * The functions give the handler's meaning; the methods `DispatchEvents` and
 * `HandleRequest` follow the handler's nested loops and early returns and are
 * proved to compute exactly that meaning.
 */
module Webhook {
  import opened Wrappers
  import opened Payload
  import opened Services

  /** An already-parsed request: its method, its query parameters and its JSON body. */
  datatype Request = Request(httpMethod: string, query: map<string, string>, body: Notification)

  /** Status and body handed to `make_response`; a GET may echo an absent challenge. */
  datatype Response = Response(status: int, body: Option<string>)

  /** A call the handler makes to a collaborator, in the order it makes them. */
  datatype Call =
    | Generate(comment: string)                          // get_gemini_response(comment, ...)
    | Reply(commentId: Option<string>, message: string)   // post_facebook_reply(comment_id, message)

  /** How the dispatch ended: after every entry, or at one of the two guards. */
  datatype Ack = Completed | FromPageItself | EmptyComment

  /** The calls made so far and how the run ended. */
  datatype Run = Run(calls: seq<Call>, ack: Ack)

  /** Everything observable about one request: the response and the collaborator calls. */
  datatype Outcome = Outcome(response: Response, calls: seq<Call>)

  const VerifyTokenParam := "hub.verify_token"
  const ChallengeParam := "hub.challenge"
  const WrongTokenBody := "Error, token de verificación incorrecto"
  const NotAllowedBody := "Método no permitido"
  const ReceivedBody := "EVENT_RECEIVED"
  const FromPageBody := "EVENT_RECEIVED_FROM_PAGE_ITSELF"
  const EmptyCommentBody := "EVENT_RECEIVED_EMPTY_COMMENT"

  /** `request.args.get(key)` */
  function QueryGet(query: map<string, string>, key: string): (r: Option<string>)
    ensures r.Some? <==> key in query
    ensures r.Some? ==> r.value == query[key]
  {
    if key in query then Some(query[key]) else None
  }

  /**
   * The verification handshake.  The supplied token and the configured one are
   * compared as optional values, so an absent token matches an unset
   * configuration.
   */
  function Verify(cfg: Config, query: map<string, string>): (r: Response)
    ensures r.status == 200 <==> QueryGet(query, VerifyTokenParam) == cfg.verifyToken
    ensures r.status == 200 ==> r.body == QueryGet(query, ChallengeParam)
    ensures r.status != 200 ==> r == Response(403, Some(WrongTokenBody))
  {
    if QueryGet(query, VerifyTokenParam) == cfg.verifyToken then
      Response(200, QueryGet(query, ChallengeParam))
    else
      Response(403, Some(WrongTokenBody))
  }

  /** The acknowledgement text of each ending; the three are distinct. */
  function AckBody(a: Ack): (body: string)
    ensures body == ReceivedBody <==> a == Completed
    ensures body == FromPageBody <==> a == FromPageItself
    ensures body == EmptyCommentBody <==> a == EmptyComment
  {
    match a
    case Completed => ReceivedBody
    case FromPageItself => FromPageBody
    case EmptyComment => EmptyCommentBody
  }

  /** A comment at which one of the two guards returns from the handler. */
  predicate Guarded(c: Comment) {
    c.senderId == c.pageId || c.message == []
  }

  /** The guard that fires for a guarded comment: the self-reply guard is checked first. */
  function GuardAck(c: Comment): Ack {
    if c.senderId == c.pageId then FromPageItself else EmptyComment
  }

  /** The reply the generator gives for a comment's stripped message. */
  function ReplyFor(cfg: Config, sdk: string -> Option<string>, c: Comment): string {
    GeminiReply(cfg.modelReady, sdk, c.message)
  }

  /**
   * The calls made for a comment that passes both guards: one generator call
   * on its stripped message, then a poster call under its id exactly when the
   * reply is non-empty.
   */
  function Answer(cfg: Config, sdk: string -> Option<string>, c: Comment): (calls: seq<Call>)
    ensures 1 <= |calls| <= 2
    ensures calls[0] == Generate(c.message)
    ensures |calls| == 2 <==> ReplyFor(cfg, sdk, c) != []
    ensures |calls| == 2 ==> calls[1] == Reply(c.commentId, ReplyFor(cfg, sdk, c)) && calls[1].message != []
  {
    var reply := ReplyFor(cfg, sdk, c);
    [Generate(c.message)] + if reply != [] then [Reply(c.commentId, reply)] else []
  }

  /**
   * One qualifying comment.  The self-reply guard fires whenever the author is
   * the page, whatever the message; the empty guard only otherwise; a comment
   * that passes both is answered.  A guard makes no call.
   */
  function Step(cfg: Config, sdk: string -> Option<string>, c: Comment): (r: Run)
    ensures r.ack == FromPageItself <==> c.senderId == c.pageId
    ensures r.ack == EmptyComment <==> c.senderId != c.pageId && c.message == []
    ensures r.ack != Completed ==> r.calls == []
    ensures r.ack == Completed ==> r.calls == Answer(cfg, sdk, c)
  {
    if Guarded(c) then Run([], GuardAck(c)) else Run(Answer(cfg, sdk, c), Completed)
  }

  /** `first`, then `rest` only if `first` ran to completion. */
  function AndThen(first: Run, rest: Run): Run {
    if first.ack != Completed then first
    else Run(first.calls + rest.calls, rest.ack)
  }

  /**
   * One element of `changes`.  Only a feed comment can lead to a call or end
   * the loop; anything else is skipped.
   */
  function ChangeRun(cfg: Config, sdk: string -> Option<string>, pageId: Option<string>, c: Change): (r: Run)
    ensures (r.calls != [] || r.ack != Completed) ==> Qualifies(c)
    ensures |r.calls| <= 2
  {
    if Qualifies(c) then Step(cfg, sdk, CommentOf(pageId, c)) else Run([], Completed)
  }

  /**
   * The inner loop over one entry's changes.  It makes at most two calls per
   * comment among them, and it can only stop early if there is a comment.
   */
  function ChangesRun(cfg: Config, sdk: string -> Option<string>, pageId: Option<string>, changes: seq<Change>): (r: Run)
    ensures |r.calls| <= 2 * |CommentsIn(pageId, changes)|
    ensures r.ack != Completed ==> CommentsIn(pageId, changes) != []
  {
    if changes == [] then Run([], Completed)
    else AndThen(ChangeRun(cfg, sdk, pageId, changes[0]), ChangesRun(cfg, sdk, pageId, changes[1..]))
  }

  /**
   * The outer loop over the entries.  It makes at most two calls per comment
   * in the delivery, and it can only stop early if there is a comment.
   */
  function EntriesRun(cfg: Config, sdk: string -> Option<string>, entries: seq<Entry>): (r: Run)
    ensures |r.calls| <= 2 * |Comments(entries)|
    ensures r.ack != Completed ==> Comments(entries) != []
  {
    if entries == [] then Run([], Completed)
    else AndThen(ChangesRun(cfg, sdk, entries[0].id, ChangesOf(entries[0])), EntriesRun(cfg, sdk, entries[1..]))
  }

  /**
   * The POST branch: only a `page` delivery is looked into; any other, or one
   * without `object`, makes no call and completes.
   */
  function Dispatch(cfg: Config, sdk: string -> Option<string>, n: Notification): (r: Run)
    ensures n.objectKind != Some(PageObject) ==> r == Run([], Completed)
    ensures |r.calls| <= 2 * |Comments(EntriesOf(n))|
  {
    if n.objectKind == Some(PageObject) then EntriesRun(cfg, sdk, EntriesOf(n)) else Run([], Completed)
  }

  /** The whole handler. */
  function Handle(cfg: Config, sdk: string -> Option<string>, req: Request): (r: Outcome)
    ensures req.httpMethod == "GET" ==> r == Outcome(Verify(cfg, req.query), [])
    ensures req.httpMethod == "POST" ==> r.response.status == 200
    ensures req.httpMethod == "POST" ==>
      r.response.body in {Some(ReceivedBody), Some(FromPageBody), Some(EmptyCommentBody)}
    ensures req.httpMethod == "POST" && req.body.objectKind != Some(PageObject) ==>
      r == Outcome(Response(200, Some(ReceivedBody)), [])
    ensures req.httpMethod != "GET" && req.httpMethod != "POST" ==>
      r == Outcome(Response(405, Some(NotAllowedBody)), [])
  {
    if req.httpMethod == "GET" then
      Outcome(Verify(cfg, req.query), [])
    else if req.httpMethod == "POST" then
      var run := Dispatch(cfg, sdk, req.body);
      Outcome(Response(200, Some(AckBody(run.ack))), run.calls)
    else
      Outcome(Response(405, Some(NotAllowedBody)), [])
  }

  lemma {:induction false} AndThenAssoc(a: Run, b: Run, c: Run)
    ensures AndThen(AndThen(a, b), c) == AndThen(a, AndThen(b, c))
  {
    if a.ack == Completed && b.ack == Completed {
      assert (a.calls + b.calls) + c.calls == a.calls + (b.calls + c.calls);
    }
  }

  lemma SkipStep(cfg: Config, sdk: string -> Option<string>, pageId: Option<string>, c: Change)
    requires !Qualifies(c)
    ensures ChangeRun(cfg, sdk, pageId, c) == Run([], Completed)
  {
  }

  lemma QualifyingStep(cfg: Config, sdk: string -> Option<string>, pageId: Option<string>, c: Change)
    requires Qualifies(c)
    ensures ChangeRun(cfg, sdk, pageId, c) == Step(cfg, sdk, CommentOf(pageId, c))
  {
  }

  lemma ChangesRunUnfold(cfg: Config, sdk: string -> Option<string>, pageId: Option<string>, changes: seq<Change>, j: nat)
    requires j < |changes|
    ensures ChangesRun(cfg, sdk, pageId, changes[j..])
      == AndThen(ChangeRun(cfg, sdk, pageId, changes[j]), ChangesRun(cfg, sdk, pageId, changes[j + 1..]))
  {
    assert changes[j..][1..] == changes[j + 1..];
  }

  lemma EntriesRunUnfold(cfg: Config, sdk: string -> Option<string>, entries: seq<Entry>, i: nat)
    requires i < |entries|
    ensures EntriesRun(cfg, sdk, entries[i..])
      == AndThen(ChangesRun(cfg, sdk, entries[i].id, ChangesOf(entries[i])), EntriesRun(cfg, sdk, entries[i + 1..]))
  {
    assert entries[i..][1..] == entries[i + 1..];
  }

  /**
   * The body of the inner loop: one change, after the calls `done`.  A change
   * that is not a feed comment is skipped.  For a comment, the self-reply guard
   * comes first and the empty guard second; otherwise the generator is called
   * with the stripped message and the poster with a non-empty reply, and what
   * the poster reports is discarded.
   */
  method DispatchChange(
    cfg: Config,
    sdk: string -> Option<string>,
    send: (Option<string>, string, string) -> bool,
    pageId: Option<string>,
    change: Change,
    done: seq<Call>)
    returns (ack: Ack, calls: seq<Call>)
    ensures Run(calls, ack) == AndThen(Run(done, Completed), ChangeRun(cfg, sdk, pageId, change))
  {
    calls := done;
    if !Qualifies(change) {
      SkipStep(cfg, sdk, pageId, change);
      return Completed, calls;
    }
    QualifyingStep(cfg, sdk, pageId, change);
    var comment := CommentOf(pageId, change);
    if comment.senderId == pageId {
      return FromPageItself, calls;
    }
    if comment.message == [] {
      return EmptyComment, calls;
    }
    var reply := GeminiReply(cfg.modelReady, sdk, comment.message);
    calls := calls + [Generate(comment.message)];
    if reply != [] {
      var published := PostReply(cfg.pageAccessToken, send, comment.commentId, reply);
      calls := calls + [Reply(comment.commentId, reply)];
    }
    assert calls == done + Answer(cfg, sdk, comment);
    ack := Completed;
  }

  /**
   * The inner loop of the POST branch, over one entry's changes, after the
   * calls `done` of the entries before it; a guard ends it early.
   */
  method DispatchChanges(
    cfg: Config,
    sdk: string -> Option<string>,
    send: (Option<string>, string, string) -> bool,
    pageId: Option<string>,
    changes: seq<Change>,
    done: seq<Call>)
    returns (ack: Ack, calls: seq<Call>)
    ensures Run(calls, ack) == AndThen(Run(done, Completed), ChangesRun(cfg, sdk, pageId, changes))
  {
    ghost var goal := AndThen(Run(done, Completed), ChangesRun(cfg, sdk, pageId, changes));
    calls := done;
    var j := 0;
    while j < |changes|
      invariant 0 <= j <= |changes|
      invariant goal == AndThen(Run(calls, Completed), ChangesRun(cfg, sdk, pageId, changes[j..]))
    {
      ghost var step := ChangeRun(cfg, sdk, pageId, changes[j]);
      ghost var rest := ChangesRun(cfg, sdk, pageId, changes[j + 1..]);
      ChangesRunUnfold(cfg, sdk, pageId, changes, j);
      AndThenAssoc(Run(calls, Completed), step, rest);
      ack, calls := DispatchChange(cfg, sdk, send, pageId, changes[j], calls);
      if ack != Completed {
        return;
      }
      j := j + 1;
    }
    assert changes[j..] == [];
    ack := Completed;
  }

  /**
   * The POST branch as the handler runs it: entries, then each entry's changes,
   * returning from the whole handler as soon as a guard fires.
   */
  method DispatchEvents(
    cfg: Config,
    sdk: string -> Option<string>,
    send: (Option<string>, string, string) -> bool,
    n: Notification)
    returns (ack: Ack, calls: seq<Call>)
    ensures Run(calls, ack) == Dispatch(cfg, sdk, n)
  {
    calls := [];
    if n.objectKind != Some(PageObject) {
      return Completed, calls;
    }
    var entries := EntriesOf(n);
    ghost var whole := EntriesRun(cfg, sdk, entries);
    assert whole == AndThen(Run([], Completed), whole);
    var i := 0;
    while i < |entries|
      invariant 0 <= i <= |entries|
      invariant whole == AndThen(Run(calls, Completed), EntriesRun(cfg, sdk, entries[i..]))
    {
      ghost var entryRun := ChangesRun(cfg, sdk, entries[i].id, ChangesOf(entries[i]));
      ghost var later := EntriesRun(cfg, sdk, entries[i + 1..]);
      EntriesRunUnfold(cfg, sdk, entries, i);
      AndThenAssoc(Run(calls, Completed), entryRun, later);
      ack, calls := DispatchChanges(cfg, sdk, send, entries[i].id, ChangesOf(entries[i]), calls);
      if ack != Completed {
        return;
      }
      i := i + 1;
    }
    assert entries[i..] == [];
    ack := Completed;
  }

  /** The handler as it runs, proved to produce exactly `Handle`'s outcome. */
  method HandleRequest(
    cfg: Config,
    sdk: string -> Option<string>,
    send: (Option<string>, string, string) -> bool,
    req: Request)
    returns (response: Response, calls: seq<Call>)
    ensures Outcome(response, calls) == Handle(cfg, sdk, req)
  {
    if req.httpMethod == "GET" {
      response, calls := Verify(cfg, req.query), [];
    } else if req.httpMethod == "POST" {
      var ack;
      ack, calls := DispatchEvents(cfg, sdk, send, req.body);
      response := Response(200, Some(AckBody(ack)));
    } else {
      response, calls := Response(405, Some(NotAllowedBody)), [];
    }
  }
}
