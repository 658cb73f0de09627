/** The rejection-feedback dialog: blank feedback is refused, and submission waits for the parent. */
module RejectionModal {
  import opened Text

  /** How the parent's `onConfirm` promise settled. */
  datatype Settled = Resolves | Rejects

  /** The dialog's state; `open` is the parent's flag as this dialog last set it. */
  class RejectionModal {
    var feedback: string
    var isSubmitting: bool
    var open: bool
    /** The texts passed to `onConfirm`, oldest first. */
    var confirmed: seq<string>

    constructor(open: bool)
      ensures feedback == "" && !isSubmitting && this.open == open && confirmed == []
      ensures ConfirmedNonBlank()
    {
      feedback := "";
      isSubmitting := false;
      this.open := open;
      confirmed := [];
    }

    /** No blank text ever reached `onConfirm`. */
    predicate ConfirmedNonBlank()
      reads this
    {
      forall i :: 0 <= i < |confirmed| ==> !Blank(confirmed[i])
    }

    /** `!feedback.trim() || isSubmitting`. */
    function SubmitDisabled(): (disabled: bool)
      reads this
      ensures disabled <==> Blank(feedback) || isSubmitting
    {
      TrimEmptyIffBlank(feedback);
      Trim(feedback) == "" || isSubmitting
    }

    /** The textarea's `onChange`. */
    method SetFeedback(text: string)
      modifies this
      ensures feedback == text
      ensures isSubmitting == old(isSubmitting) && open == old(open) && confirmed == old(confirmed)
    {
      feedback := text;
    }

    /**
     * `handleSubmit`: blank feedback returns at once; otherwise `onConfirm`
     * gets the untrimmed text. Only when it resolves is `isSubmitting`
     * cleared and the dialog closed; a rejection leaves both as they were
     * set, since there is no `finally`.
     */
    method HandleSubmit(outcome: Settled)
      modifies this
      ensures Blank(old(feedback)) ==>
                isSubmitting == old(isSubmitting) && open == old(open) && confirmed == old(confirmed)
      ensures !Blank(old(feedback)) ==> confirmed == old(confirmed) + [old(feedback)]
      ensures !Blank(old(feedback)) && outcome == Resolves ==> !isSubmitting && !open
      ensures !Blank(old(feedback)) && outcome == Rejects ==> isSubmitting && open == old(open)
      ensures feedback == old(feedback)
      ensures old(ConfirmedNonBlank()) ==> ConfirmedNonBlank()
    {
      TrimEmptyIffBlank(feedback);
      if Trim(feedback) == "" {
        return;
      }
      isSubmitting := true;
      confirmed := confirmed + [feedback];
      if outcome == Rejects {
        return;
      }
      isSubmitting := false;
      open := false;
    }

    /** The Cancel button: close without calling `onConfirm`. */
    method Cancel()
      modifies this
      ensures !open
      ensures feedback == old(feedback) && isSubmitting == old(isSubmitting) && confirmed == old(confirmed)
    {
      open := false;
    }
  }
}
