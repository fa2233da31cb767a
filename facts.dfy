/**
 * What the POST branch does, stated over the comment stream of a delivery
 * rather than over its nested entries and changes, and the properties that
 * follow: where the dispatch stops, which calls are made and in what order,
 * and that nothing after a guarded comment is looked at.
 */
module WebhookFacts {
  import opened Wrappers
  import opened Payload
  import opened Services
  import opened Webhook
  import opened Seqs
  import opened Text

  /** The position of the first guarded comment, or `|cs|` when there is none. */
  function FirstGuarded(cs: seq<Comment>): (k: nat)
    ensures k <= |cs|
    ensures forall j | 0 <= j < k :: !Guarded(cs[j])
    ensures k < |cs| ==> Guarded(cs[k])
  {
    if cs == [] || Guarded(cs[0]) then 0 else 1 + FirstGuarded(cs[1..])
  }

  /** The calls made for comments that all pass both guards, one `Answer` after another. */
  function Answered(cfg: Config, sdk: string -> Option<string>, cs: seq<Comment>): seq<Call> {
    if cs == [] then [] else Answer(cfg, sdk, cs[0]) + Answered(cfg, sdk, cs[1..])
  }

  /**
   * The closed form of the dispatch over a comment stream: every comment before
   * the first guarded one is answered, and the guard (if any) gives the ending.
   */
  function Expected(cfg: Config, sdk: string -> Option<string>, cs: seq<Comment>): Run {
    var k := FirstGuarded(cs);
    Run(Answered(cfg, sdk, cs[..k]), if k == |cs| then Completed else GuardAck(cs[k]))
  }

  /** The dispatch over a flat comment stream, one `Step` at a time. */
  function Serve(cfg: Config, sdk: string -> Option<string>, cs: seq<Comment>): Run {
    if cs == [] then Run([], Completed) else AndThen(Step(cfg, sdk, cs[0]), Serve(cfg, sdk, cs[1..]))
  }

  // ---------------------------------------------------------------------------
  // From the nested loops to the comment stream

  lemma {:induction false} ServeAppend(cfg: Config, sdk: string -> Option<string>, a: seq<Comment>, b: seq<Comment>)
    ensures Serve(cfg, sdk, a + b) == AndThen(Serve(cfg, sdk, a), Serve(cfg, sdk, b))
    decreases |a|
  {
    if a == [] {
      assert a + b == b;
      assert [] + Serve(cfg, sdk, b).calls == Serve(cfg, sdk, b).calls;
    } else {
      ConsOfAppend(a, b);
      ServeAppend(cfg, sdk, a[1..], b);
      AndThenAssoc(Step(cfg, sdk, a[0]), Serve(cfg, sdk, a[1..]), Serve(cfg, sdk, b));
    }
  }

  /** The inner loop over one entry's changes is the dispatch over that entry's comments. */
  lemma {:induction false} ChangesRunIsServe(cfg: Config, sdk: string -> Option<string>, pageId: Option<string>, changes: seq<Change>)
    ensures ChangesRun(cfg, sdk, pageId, changes) == Serve(cfg, sdk, CommentsIn(pageId, changes))
    decreases |changes|
  {
    if changes != [] {
      ChangesRunIsServe(cfg, sdk, pageId, changes[1..]);
      var rest := CommentsIn(pageId, changes[1..]);
      if Qualifies(changes[0]) {
        var c := CommentOf(pageId, changes[0]);
        assert CommentsIn(pageId, changes) == [c] + rest;
        assert ([c] + rest)[1..] == rest;
      } else {
        assert CommentsIn(pageId, changes) == rest;
        assert [] + Serve(cfg, sdk, rest).calls == Serve(cfg, sdk, rest).calls;
      }
    }
  }

  /** The outer loop over the entries is the dispatch over the whole comment stream. */
  lemma {:induction false} EntriesRunIsServe(cfg: Config, sdk: string -> Option<string>, entries: seq<Entry>)
    ensures EntriesRun(cfg, sdk, entries) == Serve(cfg, sdk, Comments(entries))
    decreases |entries|
  {
    if entries != [] {
      EntriesRunIsServe(cfg, sdk, entries[1..]);
      ChangesRunIsServe(cfg, sdk, entries[0].id, ChangesOf(entries[0]));
      ServeAppend(cfg, sdk, CommentsIn(entries[0].id, ChangesOf(entries[0])), Comments(entries[1..]));
    }
  }

  /** The dispatch over a comment stream stops at the first guarded comment and answers every one before it. */
  lemma {:induction false} ServeIsExpected(cfg: Config, sdk: string -> Option<string>, cs: seq<Comment>)
    ensures Serve(cfg, sdk, cs) == Expected(cfg, sdk, cs)
    decreases |cs|
  {
    if cs != [] && !Guarded(cs[0]) {
      ServeIsExpected(cfg, sdk, cs[1..]);
      var k := FirstGuarded(cs);
      assert k == 1 + FirstGuarded(cs[1..]);
      assert cs[..k][1..] == cs[1..][..k - 1];
      assert cs[..k][0] == cs[0];
    }
  }

  // ---------------------------------------------------------------------------
  // The handler's outcome

  /**
   * The outcome of a POST.  A delivery whose `object` is not `page` is
   * acknowledged with no call at all.  Otherwise, over the comment stream in
   * entry order and then change order: every comment before the first guarded
   * one is answered, nothing at or after it is, and the body names the guard
   * that fired (the self-reply guard taking precedence) or is `EVENT_RECEIVED`.
   */
  lemma PostOutcome(cfg: Config, sdk: string -> Option<string>, req: Request)
    requires req.httpMethod == "POST"
    ensures var cs := Comments(EntriesOf(req.body));
      var k := FirstGuarded(cs);
      Handle(cfg, sdk, req) ==
        if req.body.objectKind != Some(PageObject) then
          Outcome(Response(200, Some(ReceivedBody)), [])
        else
          Outcome(
            Response(200, Some(
              if k == |cs| then ReceivedBody
              else if cs[k].senderId == cs[k].pageId then FromPageBody
              else EmptyCommentBody)),
            Answered(cfg, sdk, cs[..k]))
  {
    if req.body.objectKind == Some(PageObject) {
      EntriesRunIsServe(cfg, sdk, EntriesOf(req.body));
      ServeIsExpected(cfg, sdk, Comments(EntriesOf(req.body)));
    }
  }

  /**
   * The batch-wide short-circuit: two `page` deliveries whose comment streams
   * agree up to and including the first guarded comment have the same outcome,
   * whatever follows it in either.
   */
  lemma ShortCircuit(cfg: Config, sdk: string -> Option<string>, req1: Request, req2: Request)
    requires req1.httpMethod == "POST" && req2.httpMethod == "POST"
    requires req1.body.objectKind == Some(PageObject) && req2.body.objectKind == Some(PageObject)
    requires var cs1, cs2 := Comments(EntriesOf(req1.body)), Comments(EntriesOf(req2.body));
      var k := FirstGuarded(cs1);
      k < |cs1| && k < |cs2| && cs1[..k + 1] == cs2[..k + 1]
    ensures Handle(cfg, sdk, req1) == Handle(cfg, sdk, req2)
  {
    var cs1, cs2 := Comments(EntriesOf(req1.body)), Comments(EntriesOf(req2.body));
    var k := FirstGuarded(cs1);
    assert cs1[k] == cs1[..k + 1][k] == cs2[..k + 1][k] == cs2[k];
    forall j | 0 <= j < k ensures cs2[j] == cs1[j] {
      assert cs1[j] == cs1[..k + 1][j];
      assert cs2[j] == cs2[..k + 1][j];
    }
    assert FirstGuarded(cs2) == k;
    assert cs1[..k] == cs2[..k];
    PostOutcome(cfg, sdk, req1);
    PostOutcome(cfg, sdk, req2);
  }

  /**
   * Once the dispatch over some entries has stopped at a guard, entries
   * appended after them are never looked at.
   */
  lemma {:induction false} LaterEntriesIgnored(cfg: Config, sdk: string -> Option<string>, entries: seq<Entry>, more: seq<Entry>)
    requires EntriesRun(cfg, sdk, entries).ack != Completed
    ensures EntriesRun(cfg, sdk, entries + more) == EntriesRun(cfg, sdk, entries)
  {
    CommentsAppend(entries, more);
    EntriesRunIsServe(cfg, sdk, entries);
    EntriesRunIsServe(cfg, sdk, entries + more);
    ServeAppend(cfg, sdk, Comments(entries), Comments(more));
  }

  lemma {:induction false} CommentsAppend(a: seq<Entry>, b: seq<Entry>)
    ensures Comments(a + b) == Comments(a) + Comments(b)
    decreases |a|
  {
    if a == [] {
      assert a + b == b;
    } else {
      ConsOfAppend(a, b);
      CommentsAppend(a[1..], b);
      AppendAssoc(CommentsIn(a[0].id, ChangesOf(a[0])), Comments(a[1..]), Comments(b));
    }
  }

  lemma {:induction false} CommentsInAppend(pageId: Option<string>, a: seq<Change>, b: seq<Change>)
    ensures CommentsIn(pageId, a + b) == CommentsIn(pageId, a) + CommentsIn(pageId, b)
    decreases |a|
  {
    if a == [] {
      assert a + b == b;
    } else {
      ConsOfAppend(a, b);
      CommentsInAppend(pageId, a[1..], b);
      AppendAssoc(CommentsAt(pageId, a[0]), CommentsIn(pageId, a[1..]), CommentsIn(pageId, b));
    }
  }

  lemma {:induction false} CommentsInSkip(pageId: Option<string>, changes: seq<Change>, j: nat)
    requires j < |changes| && !Qualifies(changes[j])
    ensures CommentsIn(pageId, changes) == CommentsIn(pageId, changes[..j] + changes[j + 1..])
  {
    var before, after, c := changes[..j], changes[j + 1..], changes[j];
    assert changes == before + ([c] + after);
    assert CommentsIn(pageId, [c] + after) == CommentsIn(pageId, after) by {
      assert ([c] + after)[0] == c;
      assert ([c] + after)[1..] == after;
      assert CommentsAt(pageId, c) == [];
    }
    CommentsInAppend(pageId, before, [c] + after);
    CommentsInAppend(pageId, before, after);
  }

  /**
   * A change that is not a feed comment is skipped without effect: removing it
   * from an entry leaves the entry's run unchanged.
   */
  lemma SkipNonComment(cfg: Config, sdk: string -> Option<string>, pageId: Option<string>, changes: seq<Change>, j: nat)
    requires j < |changes| && !Qualifies(changes[j])
    ensures ChangesRun(cfg, sdk, pageId, changes) == ChangesRun(cfg, sdk, pageId, changes[..j] + changes[j + 1..])
  {
    CommentsInSkip(pageId, changes, j);
    ChangesRunIsServe(cfg, sdk, pageId, changes);
    ChangesRunIsServe(cfg, sdk, pageId, changes[..j] + changes[j + 1..]);
  }

  /** The empty-comment guard fires exactly when the raw `message` is absent or whitespace only. */
  lemma EmptyGuardIff(pageId: Option<string>, c: Change)
    ensures CommentOf(pageId, c).message == [] <==> AllSpace(ValueOf(c).message.GetOr([]))
  {
    StripEmpty(ValueOf(c).message.GetOr([]));
  }

  // ---------------------------------------------------------------------------
  // Which calls are made, and in what order

  /** The texts the generator is asked about, in call order. */
  function Prompts(calls: seq<Call>): seq<string> {
    if calls == [] then []
    else (if calls[0].Generate? then [calls[0].comment] else []) + Prompts(calls[1..])
  }

  /** The poster calls, in call order. */
  function Posts(calls: seq<Call>): seq<Call> {
    if calls == [] then []
    else (if calls[0].Reply? then [calls[0]] else []) + Posts(calls[1..])
  }

  /** The stripped messages of the comments, in order. */
  function Messages(cs: seq<Comment>): (ms: seq<string>)
    ensures |ms| == |cs|
    ensures forall i | 0 <= i < |cs| :: ms[i] == cs[i].message
  {
    if cs == [] then [] else [cs[0].message] + Messages(cs[1..])
  }

  /** One poster call per comment whose reply is non-empty, with that comment's id and reply, in order. */
  function RepliesFor(cfg: Config, sdk: string -> Option<string>, cs: seq<Comment>): (rs: seq<Call>)
    ensures forall r | r in rs :: r.Reply? && r.message != []
    ensures |rs| <= |cs|
  {
    if cs == [] then []
    else
      var reply := ReplyFor(cfg, sdk, cs[0]);
      (if reply != [] then [Reply(cs[0].commentId, reply)] else []) + RepliesFor(cfg, sdk, cs[1..])
  }

  lemma {:induction false} PromptsAppend(a: seq<Call>, b: seq<Call>)
    ensures Prompts(a + b) == Prompts(a) + Prompts(b)
    decreases |a|
  {
    if a == [] {
      assert a + b == b;
    } else {
      ConsOfAppend(a, b);
      PromptsAppend(a[1..], b);
      AppendAssoc(if a[0].Generate? then [a[0].comment] else [], Prompts(a[1..]), Prompts(b));
    }
  }

  lemma {:induction false} PostsAppend(a: seq<Call>, b: seq<Call>)
    ensures Posts(a + b) == Posts(a) + Posts(b)
    decreases |a|
  {
    if a == [] {
      assert a + b == b;
    } else {
      ConsOfAppend(a, b);
      PostsAppend(a[1..], b);
      AppendAssoc(if a[0].Reply? then [a[0]] else [], Posts(a[1..]), Posts(b));
    }
  }

  /** The calls for one answered comment: one generator call, then at most one poster call. */
  lemma AnswerCalls(cfg: Config, sdk: string -> Option<string>, c: Comment)
    ensures Prompts(Answer(cfg, sdk, c)) == [c.message]
    ensures Posts(Answer(cfg, sdk, c)) == RepliesFor(cfg, sdk, [c])
  {
    var reply := ReplyFor(cfg, sdk, c);
    var tail := if reply != [] then [Reply(c.commentId, reply)] else [];
    assert Answer(cfg, sdk, c) == [Generate(c.message)] + tail;
    PromptsAppend([Generate(c.message)], tail);
    PostsAppend([Generate(c.message)], tail);
    assert Prompts(tail) == [] by {
      if tail != [] { assert tail[1..] == []; }
    }
    assert Posts(tail) == tail by {
      if tail != [] { assert tail[1..] == []; }
    }
    assert [Generate(c.message)][1..] == [];
    assert [c][1..] == [];
  }

  /** For answered comments the generator is asked about each stripped message in turn. */
  lemma {:induction false} AnsweredPrompts(cfg: Config, sdk: string -> Option<string>, cs: seq<Comment>)
    ensures Prompts(Answered(cfg, sdk, cs)) == Messages(cs)
    decreases |cs|
  {
    if cs != [] {
      AnsweredPrompts(cfg, sdk, cs[1..]);
      AnswerCalls(cfg, sdk, cs[0]);
      PromptsAppend(Answer(cfg, sdk, cs[0]), Answered(cfg, sdk, cs[1..]));
    }
  }

  /**
   * For answered comments the poster is called once per non-empty reply, with
   * the comment's id, in comment order.
   */
  lemma {:induction false} AnsweredPosts(cfg: Config, sdk: string -> Option<string>, cs: seq<Comment>)
    ensures Posts(Answered(cfg, sdk, cs)) == RepliesFor(cfg, sdk, cs)
    decreases |cs|
  {
    if cs != [] {
      AnsweredPosts(cfg, sdk, cs[1..]);
      AnswerCalls(cfg, sdk, cs[0]);
      PostsAppend(Answer(cfg, sdk, cs[0]), Answered(cfg, sdk, cs[1..]));
      assert RepliesFor(cfg, sdk, [cs[0]]) + RepliesFor(cfg, sdk, cs[1..]) == RepliesFor(cfg, sdk, cs);
    }
  }

  /**
   * The generator and poster calls of a POST, in order: for a `page` delivery
   * the generator sees exactly the stripped messages of the comments before the
   * first guarded one, and the poster is called exactly for those of them whose
   * reply is non-empty; it is never called with an empty reply.
   */
  lemma PostCalls(cfg: Config, sdk: string -> Option<string>, req: Request)
    requires req.httpMethod == "POST" && req.body.objectKind == Some(PageObject)
    ensures var cs := Comments(EntriesOf(req.body));
      var k := FirstGuarded(cs);
      var calls := Handle(cfg, sdk, req).calls;
      && Prompts(calls) == Messages(cs[..k])
      && Posts(calls) == RepliesFor(cfg, sdk, cs[..k])
      && forall c | c in calls && c.Reply? :: c.message != []
  {
    var cs := Comments(EntriesOf(req.body));
    var k := FirstGuarded(cs);
    PostOutcome(cfg, sdk, req);
    AnsweredPrompts(cfg, sdk, cs[..k]);
    AnsweredPosts(cfg, sdk, cs[..k]);
    forall c | c in Handle(cfg, sdk, req).calls && c.Reply? ensures c.message != [] {
      PostsMember(Handle(cfg, sdk, req).calls, c);
    }
  }

  lemma {:induction false} PostsMember(calls: seq<Call>, c: Call)
    requires c in calls && c.Reply?
    ensures c in Posts(calls)
    decreases |calls|
  {
    if calls[0] != c {
      assert c in calls[1..];
      PostsMember(calls[1..], c);
    }
  }

  /**
   * A generation that fails still leads to a reply: when the model was never
   * configured, or the SDK call raises, every answered comment gets the fixed
   * apology posted under its id.
   */
  lemma FailedGenerationStillReplies(cfg: Config, sdk: string -> Option<string>, c: Comment)
    requires !cfg.modelReady || sdk(c.message).None?
    ensures Answer(cfg, sdk, c) == [Generate(c.message),
      Reply(c.commentId, if !cfg.modelReady then ModelMissingApology else ServiceErrorApology)]
  {
  }
}
