/**
 * The comment box under each room of the delivery page
 * (src-delivery/components/PhotoSection.jsx): a text input and the comments submitted from
 * it, kept in the order they were submitted.
 */
module PhotoSection {
  import opened JsText

  /** A submitted comment: the text as typed and the time of submission (milliseconds). */
  datatype Comment = Comment(text: string, date: int)

  /** The list after submitting `draft` at time `now`: unchanged for a blank draft. */
  function AfterSubmit(saved: seq<Comment>, draft: string, now: int): (r: seq<Comment>)
    ensures IsBlank(draft) ==> r == saved
    ensures !IsBlank(draft) ==> r == saved + [Comment(draft, now)]
  {
    if Trim(draft) == "" then saved else saved + [Comment(draft, now)]
  }

  /** A drafted comment and the time it is submitted. */
  datatype Attempt = Attempt(draft: string, now: int)

  /** The list after a run of submits, starting from `saved`. */
  function AfterSubmits(saved: seq<Comment>, attempts: seq<Attempt>): seq<Comment>
    decreases |attempts|
  {
    if |attempts| == 0 then saved
    else AfterSubmits(AfterSubmit(saved, attempts[0].draft, attempts[0].now), attempts[1..])
  }

  /** The non-blank drafts of a run, as the comments they become, in order. */
  function Accepted(attempts: seq<Attempt>): (r: seq<Comment>)
    ensures |r| <= |attempts|
    ensures forall i :: 0 <= i < |r| ==> !IsBlank(r[i].text)
  {
    if |attempts| == 0 then []
    else
      var a := attempts[0];
      (if IsBlank(a.draft) then [] else [Comment(a.draft, a.now)]) + Accepted(attempts[1..])
  }

  /**
   * A run of submits keeps the earlier comments and appends exactly the non-blank drafts,
   * untrimmed and in the order they were submitted.
   */
  lemma {:induction false} SubmitsAppendAccepted(saved: seq<Comment>, attempts: seq<Attempt>)
    ensures AfterSubmits(saved, attempts) == saved + Accepted(attempts)
    decreases |attempts|
  {
    if |attempts| > 0 {
      var a := attempts[0];
      SubmitsAppendAccepted(AfterSubmit(saved, a.draft, a.now), attempts[1..]);
    }
  }

  /** One room's comment box. */
  class CommentBox {
    /** The text in the input. */
    var draft: string
    /** The submitted comments, oldest first. */
    var saved: seq<Comment>

    /** The submit button is disabled exactly while the trimmed draft is empty. */
    function SubmitDisabled(): (disabled: bool)
      reads this
      ensures disabled <==> IsBlank(draft)
    {
      Trim(draft) == ""
    }

    constructor ()
      ensures draft == "" && saved == []
    {
      draft := "";
      saved := [];
    }

    /** Typing in the input. */
    method Type(value: string)
      modifies this`draft
      ensures draft == value
    {
      draft := value;
    }

    /**
     * `handleSubmit` at time `now`: a blank draft changes nothing; otherwise the draft, as
     * typed, is appended with the time and the input is cleared.
     */
    method Submit(now: int)
      modifies this
      ensures saved == AfterSubmit(old(saved), old(draft), now)
      ensures draft == if IsBlank(old(draft)) then old(draft) else ""
    {
      if SubmitDisabled() {
        return;
      }
      saved := saved + [Comment(draft, now)];
      draft := "";
    }
  }

  /** Two rooms' boxes are independent, and a whitespace-only draft is not submitted. */
  method TwoRooms() returns (kitchen: seq<Comment>, bedroom: seq<Comment>)
    ensures kitchen == [Comment(" brighter ", 1)]
    ensures bedroom == []
  {
    var k := new CommentBox();
    var b := new CommentBox();
    k.Type(" brighter ");
    assert !IsWhiteSpace(k.draft[1]);
    k.Submit(1);
    b.Type("  ");
    assert IsBlank(b.draft);
    b.Submit(2);
    kitchen, bedroom := k.saved, b.saved;
  }
}
