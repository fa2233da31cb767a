/**
 * The JSON body of a webhook delivery, typed.  Every key the handler reads with
 * `.get` is an `Option`, and the accessors below supply the handler's defaults:
 * `[]` for `entry` and `changes`, `{}` for `value` and `from`, `""` for `message`.
 */
module Payload {
  import opened Wrappers
  import opened Text

  /** `value.from`: the author of the comment. */
  datatype Sender = Sender(id: Option<string>)

  /** `change.value`: what happened in the page's feed. */
  datatype Value = Value(
    item: Option<string>,
    commentId: Option<string>,
    message: Option<string>,
    sender: Option<Sender>)

  /** One element of `entry.changes`. */
  datatype Change = Change(field: Option<string>, value: Option<Value>)

  /** One element of the top-level `entry` list; `id` is the page the entry is about. */
  datatype Entry = Entry(id: Option<string>, changes: Option<seq<Change>>)

  /** The whole delivery; `objectKind` is the top-level `object` key. */
  datatype Notification = Notification(objectKind: Option<string>, entry: Option<seq<Entry>>)

  const PageObject := "page"
  const FeedField := "feed"
  const CommentItem := "comment"

  /** `data.get("entry", [])` */
  function EntriesOf(n: Notification): seq<Entry> {
    n.entry.GetOr([])
  }

  /** `entry.get("changes", [])` */
  function ChangesOf(e: Entry): seq<Change> {
    e.changes.GetOr([])
  }

  /** `change.get("value", {})` */
  function ValueOf(c: Change): Value {
    c.value.GetOr(Value(None, None, None, None))
  }

  /** `item_value.get("from", {}).get("id")` */
  function SenderOf(v: Value): Option<string> {
    match v.sender
    case Some(s) => s.id
    case None => None
  }

  /** `item_value.get("message", "").strip()` */
  function MessageOf(v: Value): string {
    Strip(v.message.GetOr([]))
  }

  /** A change the handler acts on: a feed change whose item is a comment. */
  predicate Qualifies(c: Change) {
    c.field == Some(FeedField) && ValueOf(c).item == Some(CommentItem)
  }

  /**
   * The view of one qualifying change that the handler's guards and calls use:
   * the entry's page id, the comment id, the author id and the stripped message.
   */
  datatype Comment = Comment(
    pageId: Option<string>,
    commentId: Option<string>,
    senderId: Option<string>,
    message: string)

  function CommentOf(pageId: Option<string>, c: Change): Comment {
    var v := ValueOf(c);
    Comment(pageId, v.commentId, SenderOf(v), MessageOf(v))
  }

  /** What one change contributes to the comment stream: its comment if it qualifies, else nothing. */
  function CommentsAt(pageId: Option<string>, c: Change): seq<Comment> {
    if Qualifies(c) then [CommentOf(pageId, c)] else []
  }

  /** The comments among `changes`, in order, each seen from page `pageId`. */
  function CommentsIn(pageId: Option<string>, changes: seq<Change>): seq<Comment>
  {
    if changes == [] then []
    else CommentsAt(pageId, changes[0]) + CommentsIn(pageId, changes[1..])
  }

  /** The comment stream of a delivery: entry by entry, then change by change. */
  function Comments(entries: seq<Entry>): seq<Comment> {
    if entries == [] then []
    else CommentsIn(entries[0].id, ChangesOf(entries[0])) + Comments(entries[1..])
  }
}
