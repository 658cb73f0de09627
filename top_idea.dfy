/**
 * The "Top Voted Ideas" page: a stable sort of the fetched ideas by vote
 * count, highest first, cut to three, and the page's fetch state.
 */
module TopIdea {
  import opened Wrappers
  import opened Seqs

  /** The parts of an idea the ranking reads: its id, title and `_count.votes`. */
  datatype Idea = Idea(id: string, title: string, votes: int)

  /** Vote counts never increase along `s`. */
  predicate NonIncreasing(s: seq<Idea>)
  {
    forall i, j :: 0 <= i < j < |s| ==> s[i].votes >= s[j].votes
  }

  /**
   * Insert `x` in front of the first idea with no more votes than it, so
   * that `x`, which came earlier in the fetched list, stays ahead of ties.
   */
  function Insert(x: Idea, t: seq<Idea>): (r: seq<Idea>)
    ensures multiset(r) == multiset(t) + multiset{x}
    ensures |r| == |t| + 1
  {
    if t == [] || t[0].votes <= x.votes then [x] + t
    else
      assert t == [t[0]] + t[1..];
      [t[0]] + Insert(x, t[1..])
  }

  /** Inserting into a list sorted by votes keeps it sorted. */
  lemma {:induction false} InsertSorted(x: Idea, t: seq<Idea>)
    requires NonIncreasing(t)
    ensures NonIncreasing(Insert(x, t))
  {
    if t != [] && t[0].votes > x.votes {
      var rest := Insert(x, t[1..]);
      InsertSorted(x, t[1..]);
      forall j | 0 <= j < |rest|
        ensures t[0].votes >= rest[j].votes
      {
        assert rest[j] in multiset(rest);
        assert rest[j] == x || rest[j] in multiset(t[1..]);
        if rest[j] != x {
          var k :| 0 <= k < |t[1..]| && t[1..][k] == rest[j];
          assert t[k + 1] == rest[j];
        }
      }
    }
  }

  /**
   * `[...ideas].sort((a, b) => b._count.votes - a._count.votes)`. The
   * comparator is consistent and `Array.prototype.sort` is stable, so the
   * result is the unique stable ordering by votes, highest first.
   */
  function SortByVotes(s: seq<Idea>): (r: seq<Idea>)
    ensures multiset(r) == multiset(s)
    ensures |r| == |s|
    ensures NonIncreasing(r)
  {
    if s == [] then []
    else
      assert s == [s[0]] + s[1..];
      InsertSorted(s[0], SortByVotes(s[1..]));
      Insert(s[0], SortByVotes(s[1..]))
  }

  /** The ideas with exactly `v` votes, in their order in `s`. */
  function WithVotes(s: seq<Idea>, v: int): seq<Idea>
  {
    Filter(s, (x: Idea) => x.votes == v)
  }

  lemma {:induction false} InsertWithVotes(x: Idea, t: seq<Idea>, v: int)
    ensures WithVotes(Insert(x, t), v) == if x.votes == v then [x] + WithVotes(t, v) else WithVotes(t, v)
  {
    if t == [] || t[0].votes <= x.votes {
      assert ([x] + t)[1..] == t;
    } else {
      InsertWithVotes(x, t[1..], v);
      assert ([t[0]] + Insert(x, t[1..]))[1..] == Insert(x, t[1..]);
      if x.votes == v {
        assert t[0].votes != v;
      }
    }
  }

  /** Stability: ideas with equal votes keep their fetched order. */
  lemma {:induction false} SortIsStable(s: seq<Idea>, v: int)
    ensures WithVotes(SortByVotes(s), v) == WithVotes(s, v)
  {
    if s != [] {
      SortIsStable(s[1..], v);
      InsertWithVotes(s[0], SortByVotes(s[1..]), v);
    }
  }

  /** `.slice(0, 3)` of the sorted copy. */
  function TopThree(ideas: seq<Idea>): (top: seq<Idea>)
    ensures |top| == if |ideas| < 3 then |ideas| else 3
    ensures NonIncreasing(top)
    ensures multiset(top) <= multiset(ideas)
  {
    var sorted := SortByVotes(ideas);
    var k := if |sorted| < 3 then |sorted| else 3;
    assert sorted == sorted[..k] + sorted[k..];
    sorted[..k]
  }

  /**
   * What is left out has no more votes than anything chosen: the fetched
   * ideas split into the chosen three and a rest ranked below all of them.
   */
  lemma TopThreeBeatsRest(ideas: seq<Idea>)
    ensures var sorted := SortByVotes(ideas);
            var rest := sorted[|TopThree(ideas)|..];
            && multiset(TopThree(ideas)) + multiset(rest) == multiset(ideas)
            && forall i, j :: 0 <= i < |TopThree(ideas)| && 0 <= j < |rest| ==> TopThree(ideas)[i].votes >= rest[j].votes
  {
    var sorted := SortByVotes(ideas);
    var k := |TopThree(ideas)|;
    assert TopThree(ideas) == sorted[..k];
    SplitRanked(sorted, k);
  }

  /** A non-increasing list cut at `k`: the two parts make up the list, and the front outranks the back. */
  lemma SplitRanked(s: seq<Idea>, k: nat)
    requires NonIncreasing(s) && k <= |s|
    ensures multiset(s[..k]) + multiset(s[k..]) == multiset(s)
    ensures forall i, j :: 0 <= i < k && 0 <= j < |s| - k ==> s[..k][i].votes >= s[k..][j].votes
  {
    assert s == s[..k] + s[k..];
    forall i, j | 0 <= i < k && 0 <= j < |s| - k
      ensures s[..k][i].votes >= s[k..][j].votes
    {
      assert s[..k][i] == s[i] && s[k..][j] == s[k + j];
    }
  }


  /** With fewer than three ideas fetched, every one of them is shown. */
  lemma FewIdeasAllShown(ideas: seq<Idea>)
    requires |ideas| <= 3
    ensures multiset(TopThree(ideas)) == multiset(ideas)
  {
    var sorted := SortByVotes(ideas);
    assert sorted[..|sorted|] == sorted;
  }

  /** The page's fetch of `/idea`: an error thrown by `fetch` or the JSON, a non-OK status, or the parsed list. */
  datatype FetchReply = Threw(error: Option<string>) | NotOk | Fetched(ideas: seq<Idea>)

  /** What the page shows. */
  datatype View = Spinner | ErrorMessage(error: string) | NoTopIdeas | Cards(ideas: seq<Idea>)

  /** The component's state and its one effect. */
  class TopIdeaPage {
    var ideasData: Option<seq<Idea>>
    var topVoted: seq<Idea>
    var loading: bool
    var error: Option<string>

    /** The initial state: loading, nothing fetched, no error. */
    constructor()
      ensures ideasData.None? && topVoted == [] && loading && error.None?
    {
      ideasData := None;
      topVoted := [];
      loading := true;
      error := None;
    }

    /** The fetch effect settled with `reply`; `loading` is cleared on every path. */
    method FetchIdeas(reply: FetchReply)
      modifies this
      ensures !loading
      ensures reply.Fetched? ==> ideasData == Some(reply.ideas) && topVoted == TopThree(reply.ideas) && error == old(error)
      ensures reply.NotOk? ==> error == Some("Failed to fetch ideas")
      ensures reply.Threw? ==> error == Some(if reply.error.Some? then reply.error.value else "An error occurred")
      ensures !reply.Fetched? ==> ideasData == old(ideasData) && topVoted == old(topVoted)
    {
      loading := true;
      match reply {
        case Threw(e) =>
          error := Some(if e.Some? then e.value else "An error occurred");
        case NotOk =>
          error := Some("Failed to fetch ideas");
        case Fetched(ideas) =>
          ideasData := Some(ideas);
          topVoted := TopThree(ideas);
      }
      loading := false;
    }

    /** The render: spinner, then error, then the empty branch, then the cards. */
    function View(): (v: View)
      reads this
      ensures v.Cards? ==> !loading && (error.None? || error.value == "") && v.ideas == topVoted && topVoted != []
      ensures v == NoTopIdeas <==> !loading && (error.None? || error.value == "") && (ideasData.None? || topVoted == [])
    {
      if loading then Spinner
      else if error.Some? && error.value != "" then ErrorMessage(error.value)
      else if ideasData.None? || topVoted == [] then NoTopIdeas
      else Cards(topVoted)
    }
  }

  /** A successful fetch of an empty list shows the "No top voted ideas" branch. */
  lemma EmptyFetchShowsNothing(page: TopIdeaPage)
    requires !page.loading && page.error.None? && page.ideasData == Some([]) && page.topVoted == TopThree([])
    ensures page.View() == NoTopIdeas
  {
  }
}
