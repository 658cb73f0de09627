/**
 * The admin status dropdown: REJECTED is held back behind the feedback
 * dialog, every other status is sent at once.
 */
module StatusDropdown {
  import opened Wrappers
  import opened Text
  import Query
  import AdminIdeaActions

  /** The toast shown after an update. */
  datatype Toast = ToastSuccess(message: string)

  /** One call of `updateIdeaStatus`: its status and the feedback argument it got. */
  datatype StatusUpdate = StatusUpdate(status: string, feedback: Option<string>)

  /** The body that call sends. */
  function BodyOf(u: StatusUpdate): seq<Query.Pair>
  {
    AdminIdeaActions.StatusBody(u.status, u.feedback)
  }

  /** The component's state, with the updates it sent and the toasts it showed. */
  class StatusDropdown {
    var rejectionModalOpen: bool
    var selectedStatus: Option<string>
    var sent: seq<StatusUpdate>
    var toasts: seq<Toast>

    constructor()
      ensures !rejectionModalOpen && selectedStatus.None? && sent == [] && toasts == []
    {
      rejectionModalOpen := false;
      selectedStatus := None;
      sent := [];
      toasts := [];
    }

    /** Only REJECTED updates ever carried feedback. */
    predicate FeedbackOnlyWhenRejected()
      reads this
    {
      forall i :: 0 <= i < |sent| && sent[i].feedback.Some? ==> sent[i].status == "REJECTED"
    }

    /**
     * `updateStatus`: the feedback is passed only for REJECTED. `updateIdeaStatus`
     * resolves on every modelled path, so the success toast is shown even when its
     * result reports a failure, and the result itself is only logged.
     */
    method UpdateStatus(status: string, feedback: Option<string>)
      modifies this
      requires FeedbackOnlyWhenRejected()
      ensures sent == old(sent) + [StatusUpdate(status, if status == "REJECTED" then feedback else None)]
      ensures toasts == old(toasts) + [ToastSuccess("Idea status updated")]
      ensures rejectionModalOpen == old(rejectionModalOpen) && selectedStatus == old(selectedStatus)
      ensures FeedbackOnlyWhenRejected()
    {
      sent := sent + [StatusUpdate(status, if status == "REJECTED" then feedback else None)];
      toasts := toasts + [ToastSuccess("Idea status updated")];
    }

    /** `handleStatusChange`: REJECTED opens the dialog and sends nothing; any other status is sent. */
    method HandleStatusChange(status: string)
      modifies this
      requires FeedbackOnlyWhenRejected()
      ensures status == "REJECTED" ==>
                selectedStatus == Some(status) && rejectionModalOpen && sent == old(sent) && toasts == old(toasts)
      ensures status != "REJECTED" ==>
                sent == old(sent) + [StatusUpdate(status, None)]
                && toasts == old(toasts) + [ToastSuccess("Idea status updated")]
                && selectedStatus == old(selectedStatus) && rejectionModalOpen == old(rejectionModalOpen)
      ensures FeedbackOnlyWhenRejected()
    {
      if status == "REJECTED" {
        selectedStatus := Some(status);
        rejectionModalOpen := true;
        return;
      }
      UpdateStatus(status, None);
    }

    /** `handleRejectionConfirm`: sends the recorded selection with the feedback, if there is one. */
    method HandleRejectionConfirm(feedback: string)
      modifies this
      requires FeedbackOnlyWhenRejected()
      ensures selectedStatus.None? || selectedStatus.value == "" ==>
                sent == old(sent) && toasts == old(toasts)
      ensures selectedStatus.Some? && selectedStatus.value != "" ==>
                sent == old(sent) + [StatusUpdate(selectedStatus.value,
                                                  if selectedStatus.value == "REJECTED" then Some(feedback) else None)]
                && toasts == old(toasts) + [ToastSuccess("Idea status updated")]
      ensures selectedStatus == old(selectedStatus) && rejectionModalOpen == old(rejectionModalOpen)
      ensures FeedbackOnlyWhenRejected()
    {
      if selectedStatus.Some? && selectedStatus.value != "" {
        UpdateStatus(selectedStatus.value, Some(feedback));
      }
    }

    /** The dialog's `onOpenChange`. */
    method SetRejectionModalOpen(open: bool)
      modifies this
      ensures rejectionModalOpen == open
      ensures selectedStatus == old(selectedStatus) && sent == old(sent) && toasts == old(toasts)
    {
      rejectionModalOpen := open;
    }
  }

  /** A body sent by the dropdown carries `rejectionFeedback` only for REJECTED. */
  lemma SentBodiesCarryFeedbackOnlyWhenRejected(d: StatusDropdown, i: int)
    requires d.FeedbackOnlyWhenRejected() && 0 <= i < |d.sent|
    ensures Query.ValuesOf(BodyOf(d.sent[i]), "status") == [d.sent[i].status]
    ensures Query.ValuesOf(BodyOf(d.sent[i]), "rejectionFeedback") != [] ==> d.sent[i].status == "REJECTED"
  {
  }

  /** A status change to REJECTED followed by a confirmation sends REJECTED with the feedback. */
  lemma RejectThenConfirm(feedback: string)
    ensures AdminIdeaActions.StatusBody("REJECTED", Some(feedback))
         == [("status", "REJECTED"), ("rejectionFeedback", feedback)]
  {
  }

  /** `getStatusStyles`. */
  function StatusStyles(status: string): (style: string)
    ensures status !in {"UNDER_REVIEW", "APPROVED", "PENDING", "REJECTED"} ==>
              style == DefaultStyle
  {
    if status == "UNDER_REVIEW" then UnderReviewStyle
    else if status == "APPROVED" then ApprovedStyle
    else if status == "PENDING" then PendingStyle
    else if status == "REJECTED" then RejectedStyle
    else DefaultStyle
  }

  // Each class list is written as two literals joined, which keeps its characters visible to the verifier.
  const UnderReviewStyle := "bg-blue-500 " + "hover:bg-blue-600 text-white"
  const ApprovedStyle := "bg-green-500 " + "hover:bg-green-600 text-white"
  const PendingStyle := "bg-amber-500 " + "hover:bg-amber-600 text-white"
  const RejectedStyle := "bg-destructive text-white " + "hover:bg-destructive/90"
  const DefaultStyle := "bg-secondary text-secondary-foreground " + "hover:bg-secondary/80"

  /** The four known statuses have four different styles, none of them the default. */
  lemma StylesDistinct()
    ensures |{StatusStyles("UNDER_REVIEW"), StatusStyles("APPROVED"), StatusStyles("PENDING"),
              StatusStyles("REJECTED"), StatusStyles("")}| == 5
  {
    assert StatusStyles("UNDER_REVIEW")[3] == 'b';
    assert StatusStyles("APPROVED")[3] == 'g';
    assert StatusStyles("PENDING")[3] == 'a';
    assert StatusStyles("REJECTED")[3] == 'd';
    assert StatusStyles("")[3] == 's';
  }

  /** Index of the first `c` in `s`, or `|s|` when there is none. */
  function FirstIndex(s: string, c: char): (i: nat)
    ensures i <= |s|
    ensures i < |s| ==> s[i] == c
    ensures forall j :: 0 <= j < i ==> s[j] != c
  {
    if s == [] then 0
    else if s[0] == c then 0
    else 1 + FirstIndex(s[1..], c)
  }

  /** `s.replace(from, to)` with a one-character pattern: only the first occurrence is replaced. */
  function ReplaceFirst(s: string, from: char, to: char): (r: string)
    ensures |r| == |s|
    ensures var i := FirstIndex(s, from);
            if i < |s| then r == s[..i] + [to] + s[i + 1..] else r == s
  {
    if s == [] then []
    else if s[0] == from then [to] + s[1..]
    else [s[0]] + ReplaceFirst(s[1..], from, to)
  }

  /** The badge label: the status lower-cased with its first underscore turned into a space. */
  function StatusLabel(status: string): (text: string)
    ensures |text| == |status|
    ensures var i := FirstIndex(status, '_');
            && (i < |status| ==> text[i] == ' ')
            && forall j :: 0 <= j < |status| && j != i ==> text[j] == LowerChar(status[j])
  {
    LowerKeepsUnderscores(status);
    ReplaceFirst(Lower(status), '_', ' ')
  }

  /** Lower-casing neither creates nor removes underscores. */
  lemma LowerKeepsUnderscores(s: string)
    ensures FirstIndex(Lower(s), '_') == FirstIndex(s, '_')
  {
    var i := FirstIndex(s, '_');
    forall j | 0 <= j < |s|
      ensures Lower(s)[j] == '_' <==> s[j] == '_'
    {
    }
    FirstIndexAt(Lower(s), '_', i);
  }

  /** `i` is the first index of `c` when `c` sits there (or `i` is the end) and nowhere before. */
  lemma {:induction false} FirstIndexAt(s: string, c: char, i: nat)
    requires i <= |s| && (i < |s| ==> s[i] == c)
    requires forall j :: 0 <= j < i ==> s[j] != c
    ensures FirstIndex(s, c) == i
  {
    if s != [] && i > 0 {
      FirstIndexAt(s[1..], c, i - 1);
    }
  }

  /** With its first underscore at `i`, a status reads as the two lower-cased halves around one blank. */
  lemma LabelSplitsAtFirstUnderscore(status: string, i: nat)
    requires i < |status| && status[i] == '_'
    requires forall j :: 0 <= j < i ==> status[j] != '_'
    ensures StatusLabel(status) == Lower(status[..i]) + " " + Lower(status[i + 1..])
  {
    FirstIndexAt(status, '_', i);
  }

  /** UNDER_REVIEW is shown as "under review". */
  lemma UnderReviewLabel()
    ensures StatusLabel("UNDER" + "_" + "REVIEW") == "under" + " " + "review"
  {
    var status := "UNDER" + "_" + "REVIEW";
    assert status[..5] == "UNDER" && status[6..] == "REVIEW";
    LabelSplitsAtFirstUnderscore(status, 5);
    LowerUnder();
    LowerReview();
  }

  lemma LowerUnder()
    ensures Lower("UNDER") == "under"
  {
  }

  lemma LowerReview()
    ensures Lower("REVIEW") == "review"
  {
  }

  /** A second underscore stays: only the first one is replaced. */
  lemma OnlyFirstUnderscore()
    ensures StatusLabel("A" + "_" + "B_C") == "a" + " " + "b_c"
  {
    var status := "A" + "_" + "B_C";
    assert status[..1] == "A" && status[2..] == "B_C";
    LabelSplitsAtFirstUnderscore(status, 1);
    LowerABC();
  }

  lemma LowerABC()
    ensures Lower("A") == "a" && Lower("B_C") == "b_c"
  {
  }

}
