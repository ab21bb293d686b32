/** The comment box under a post: the list of comments and the draft being
    written. */
module CommentSection {

  datatype Comment = Comment(id: int, author: string, content: string)

  /** `newComment` */
  datatype Draft = Draft(author: string, content: string)

  const EmptyDraft := Draft("", "")

  /** Whether submitting the draft posts it: both fields are non-empty. */
  predicate Postable(d: Draft) {
    d.author != "" && d.content != ""
  }

  /** The comment a draft becomes when posted at time `now`. */
  function Posted(d: Draft, now: int): (c: Comment)
    ensures c.author == d.author && c.content == d.content && c.id == now
  {
    Comment(now, d.author, d.content)
  }

  class CommentSection {
    var comments: seq<Comment>
    var draft: Draft

    constructor ()
      ensures comments == [] && draft == EmptyDraft
    {
      comments := [];
      draft := EmptyDraft;
    }

    /** `setNewComment`; the inputs that would call it are commented out of
        the markup, so only the initial empty draft is ever submitted. */
    method Edit(author: string, content: string)
      modifies this`draft
      ensures draft == Draft(author, content)
    {
      draft := Draft(author, content);
    }

    /** `handleSubmit`, with `Date.now()` as `now`: a postable draft is
        appended as one comment and the draft is reset; otherwise nothing
        changes. */
    method HandleSubmit(now: int)
      modifies this`comments, this`draft
      ensures Postable(old(draft)) ==>
                comments == old(comments) + [Posted(old(draft), now)] && draft == EmptyDraft
      ensures !Postable(old(draft)) ==> comments == old(comments) && draft == old(draft)
      ensures |comments| == |old(comments)| + (if Postable(old(draft)) then 1 else 0)
      ensures comments[..|old(comments)|] == old(comments)
    {
      if draft.author != "" && draft.content != "" {
        comments := comments + [Posted(draft, now)];
        draft := EmptyDraft;
      }
    }
  }

  /** The empty draft is never posted. */
  lemma EmptyDraftNotPostable()
    ensures !Postable(EmptyDraft)
  {
  }
}
