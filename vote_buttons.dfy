/**
 * The up/down vote buttons of an idea page. Two counters start at the
 * counts the page was rendered with and follow the action the backend
 * reports for each vote request; a failed request resets both to those
 * initial counts.
 */
module VoteButtons {
  import opened Wrappers

  datatype VoteType = Upvote | Downvote

  /** The `action` the backend reports; any other value is `Unrecognised`. */
  datatype VoteAction = Created | Removed | Updated | Unrecognised

  /** How `submitVote` settles: a reply carrying an action, or a thrown error. */
  datatype VoteReply = Replied(action: VoteAction) | Failed(message: string)

  datatype Counts = Counts(up: int, down: int)

  function CountOf(c: Counts, t: VoteType): int
  {
    if t == Upvote then c.up else c.down
  }

  function Opposite(t: VoteType): VoteType
  {
    if t == Upvote then Downvote else Upvote
  }

  /** Change of `up + down` the UI applies for each action. */
  function TotalDelta(a: VoteAction): int
  {
    match a
    case Created => 1
    case Removed => -1
    case Updated => 0
    case Unrecognised => 0
  }

  /** The counter updates of `handleVote` for a confirmed request of type `t`. */
  function ApplyAction(c: Counts, t: VoteType, a: VoteAction): (r: Counts)
    ensures r.up + r.down == c.up + c.down + TotalDelta(a)
    ensures a == Created ==> CountOf(r, t) == CountOf(c, t) + 1 && CountOf(r, Opposite(t)) == CountOf(c, Opposite(t))
    ensures a == Removed ==> CountOf(r, t) == CountOf(c, t) - 1 && CountOf(r, Opposite(t)) == CountOf(c, Opposite(t))
    ensures a == Updated ==> CountOf(r, t) == CountOf(c, t) + 1 && CountOf(r, Opposite(t)) == CountOf(c, Opposite(t)) - 1
    ensures a == Unrecognised ==> r == c
  {
    match a
    case Removed =>
      if t == Upvote then c.(up := c.up - 1) else c.(down := c.down - 1)
    case Updated =>
      if t == Upvote then Counts(c.up + 1, c.down - 1) else Counts(c.up - 1, c.down + 1)
    case Created =>
      if t == Upvote then c.(up := c.up + 1) else c.(down := c.down + 1)
    case Unrecognised =>
      c
  }

  /** One settled request: apply the reported action, or fall back to the initial counts. */
  function Settle(c: Counts, initial: Counts, t: VoteType, reply: VoteReply): (r: Counts)
    ensures reply.Failed? ==> r == initial
    ensures reply.Replied? ==> r == ApplyAction(c, t, reply.action)
  {
    match reply
    case Replied(a) => ApplyAction(c, t, a)
    case Failed(_) => initial
  }

  /** A vote created and then removed with the same type leaves both counters as they were. */
  lemma CreateThenRemove(c: Counts, t: VoteType)
    ensures ApplyAction(ApplyAction(c, t, Created), t, Removed) == c
  {
  }

  // ---------------------------------------------------------------------
  // The backend's decision is not part of this program. The help text
  // promises "one vote per idea (up or down)"; Reconcile is that promise
  // written as a policy (no vote: create; same type: remove; other type:
  // switch), used to state what the counters mean.
  // ---------------------------------------------------------------------

  datatype Decision = Decision(action: VoteAction, vote: Option<VoteType>)

  /** The per-user vote policy behind "one vote per idea (up or down)". */
  function Reconcile(current: Option<VoteType>, requested: VoteType): (d: Decision)
    ensures d.action != Unrecognised
    ensures d.vote == if current == Some(requested) then None else Some(requested)
  {
    if current.None? then Decision(Created, Some(requested))
    else if current.value == requested then Decision(Removed, None)
    else Decision(Updated, Some(requested))
  }

  /** The user's own contribution to the counters. */
  function Contribution(v: Option<VoteType>): (c: Counts)
    ensures 0 <= c.up && 0 <= c.down && c.up + c.down <= 1
  {
    match v
    case None => Counts(0, 0)
    case Some(Upvote) => Counts(1, 0)
    case Some(Downvote) => Counts(0, 1)
  }

  /** Counters made of everybody else's votes plus this user's vote `v`. */
  function Tally(others: Counts, v: Option<VoteType>): Counts
  {
    Counts(others.up + Contribution(v).up, others.down + Contribution(v).down)
  }

  /** The UI's counter update agrees with the policy's new vote, for every current vote. */
  lemma ApplyMatchesPolicy(others: Counts, v: Option<VoteType>, t: VoteType)
    ensures ApplyAction(Tally(others, v), t, Reconcile(v, t).action) == Tally(others, Reconcile(v, t).vote)
  {
  }

  /** The user's vote after a run of confirmed requests. */
  function FinalVote(v: Option<VoteType>, requests: seq<VoteType>): Option<VoteType>
    decreases |requests|
  {
    if requests == [] then v else FinalVote(Reconcile(v, requests[0]).vote, requests[1..])
  }

  /** The counters after a run of confirmed requests, each answered by the policy. */
  function CountsAfter(c: Counts, v: Option<VoteType>, requests: seq<VoteType>): Counts
    decreases |requests|
  {
    if requests == [] then c
    else
      var d := Reconcile(v, requests[0]);
      CountsAfter(ApplyAction(c, requests[0], d.action), d.vote, requests[1..])
  }

  /**
   * However many confirmed requests the user makes, the counters equal the
   * others' votes plus exactly the user's current vote: never both an up and
   * a down vote, never a vote counted twice.
   */
  lemma {:induction false} CountsTrackOneVote(others: Counts, v: Option<VoteType>, requests: seq<VoteType>)
    ensures CountsAfter(Tally(others, v), v, requests) == Tally(others, FinalVote(v, requests))
    decreases |requests|
  {
    if requests != [] {
      ApplyMatchesPolicy(others, v, requests[0]);
      CountsTrackOneVote(others, Reconcile(v, requests[0]).vote, requests[1..]);
    }
  }

  /** Casting the same type twice from no vote creates and then removes it; a third cast creates it again. */
  lemma ToggleSequence(t: VoteType)
    ensures Reconcile(None, t).action == Created
    ensures Reconcile(Reconcile(None, t).vote, t).action == Removed
    ensures FinalVote(None, [t, t]) == None
    ensures FinalVote(None, [t, t, t]) == Some(t)
  {
    assert [t][1..] == [];
    assert [t, t][1..] == [t];
    assert [t, t, t][1..] == [t, t];
    assert FinalVote(None, [t]) == FinalVote(Some(t), []);
    assert FinalVote(Some(t), [t]) == FinalVote(None, []);
    assert FinalVote(Some(t), [t, t]) == FinalVote(None, [t]);
  }

  /** Up button highlighted: the up counter is above its initial value. */
  predicate UpHighlighted(c: Counts, initial: Counts)
  {
    c.up > initial.up
  }

  /** Down button highlighted: the down counter is above its initial value. */
  predicate DownHighlighted(c: Counts, initial: Counts)
  {
    c.down > initial.down
  }

  /**
   * When the page was rendered before this user voted, after any run of
   * confirmed requests the up button is highlighted exactly when the user's
   * vote is an upvote, and the down button exactly when it is a downvote.
   */
  lemma HighlightShowsOwnVote(initial: Counts, requests: seq<VoteType>)
    ensures UpHighlighted(CountsAfter(initial, None, requests), initial) <==> FinalVote(None, requests) == Some(Upvote)
    ensures DownHighlighted(CountsAfter(initial, None, requests), initial) <==> FinalVote(None, requests) == Some(Downvote)
  {
    CountsTrackOneVote(initial, None, requests);
  }

  /**
   * A failure resets to the initial counts, not to the counts before the
   * failed request: an upvote confirmed earlier disappears from the display
   * although the backend still holds it.
   */
  lemma FailureDiscardsConfirmedVotes(initial: Counts, message: string)
    ensures var afterUp := Settle(initial, initial, Upvote, Replied(Created));
            var afterFail := Settle(afterUp, initial, Downvote, Failed(message));
            afterUp == Tally(initial, Some(Upvote)) && afterFail == initial && afterFail != afterUp
  {
  }

  /** The component's state cells. */
  class VoteButtons {
    const initialUpvotes: int
    const initialDownvotes: int
    var upvotes: int
    var downvotes: int
    var isLoading: bool

    function Initial(): Counts
    {
      Counts(initialUpvotes, initialDownvotes)
    }

    function Current(): Counts
      reads this
    {
      Counts(upvotes, downvotes)
    }

    constructor (initialUp: int, initialDown: int)
      ensures Initial() == Counts(initialUp, initialDown)
      ensures Current() == Initial() && !isLoading
    {
      initialUpvotes, initialDownvotes := initialUp, initialDown;
      upvotes, downvotes := initialUp, initialDown;
      isLoading := false;
    }

    /** Both buttons are disabled while a request is in flight. */
    predicate Disabled()
      reads this
    {
      isLoading
    }

    /** `handleVote` up to the await: the request is in flight. */
    method BeginVote()
      modifies this
      ensures isLoading
      ensures Current() == old(Current())
    {
      isLoading := true;
    }

    /** `handleVote` after `submitVote` settles: update or reset, then clear the flag. */
    method SettleVote(t: VoteType, reply: VoteReply)
      modifies this
      ensures Current() == Settle(old(Current()), Initial(), t, reply)
      ensures !isLoading
    {
      match reply {
        case Replied(action) =>
          if action == Removed {
            if t == Upvote { upvotes := upvotes - 1; }
            if t == Downvote { downvotes := downvotes - 1; }
          } else if action == Updated {
            if t == Upvote {
              upvotes := upvotes + 1;
              downvotes := downvotes - 1;
            } else {
              upvotes := upvotes - 1;
              downvotes := downvotes + 1;
            }
          } else if action == Created {
            if t == Upvote { upvotes := upvotes + 1; } else { downvotes := downvotes + 1; }
          }
        case Failed(_) =>
          upvotes := initialUpvotes;
          downvotes := initialDownvotes;
      }
      isLoading := false;
    }
  }
}
