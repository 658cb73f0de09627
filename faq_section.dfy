/** The help-centre FAQ: the case-insensitive search over five categories. */
module FaqSection {
  import opened Text
  import opened Seqs

  datatype FaqItem = FaqItem(question: string, answer: string)

  /** `faqData`, one list per tab; the questions and answers themselves are a parameter here. */
  datatype FaqData = FaqData(
    general: seq<FaqItem>,
    ideas: seq<FaqItem>,
    voting: seq<FaqItem>,
    premium: seq<FaqItem>,
    moderation: seq<FaqItem>
  )

  /** The lower-cased query occurs in the lower-cased question or answer. */
  predicate Matches(query: string, item: FaqItem)
  {
    Contains(Lower(item.question), Lower(query)) || Contains(Lower(item.answer), Lower(query))
  }

  /** One category's `filter`. */
  function FilterItems(items: seq<FaqItem>, query: string): (r: seq<FaqItem>)
    ensures IsSubsequence(r, items)
    ensures forall i :: 0 <= i < |r| ==> Matches(query, r[i])
    ensures forall i :: 0 <= i < |items| && Matches(query, items[i]) ==> items[i] in r
  {
    FilterIsSubsequence(items, item => Matches(query, item));
    Filter(items, item => Matches(query, item))
  }

  /** `filteredFaqs`: every category filtered on its own, so no item changes tab. */
  function FilterFaqs(data: FaqData, query: string): (r: FaqData)
    ensures IsSubsequence(r.general, data.general) && IsSubsequence(r.ideas, data.ideas)
    ensures IsSubsequence(r.voting, data.voting) && IsSubsequence(r.premium, data.premium)
    ensures IsSubsequence(r.moderation, data.moderation)
  {
    FaqData(
      FilterItems(data.general, query),
      FilterItems(data.ideas, query),
      FilterItems(data.voting, query),
      FilterItems(data.premium, query),
      FilterItems(data.moderation, query))
  }

  /** `hasResults`: some category kept an item. */
  function HasResults(filtered: FaqData): (b: bool)
    ensures b <==> |filtered.general| + |filtered.ideas| + |filtered.voting| + |filtered.premium| + |filtered.moderation| > 0
  {
    |filtered.general| > 0 || |filtered.ideas| > 0 || |filtered.voting| > 0
    || |filtered.premium| > 0 || |filtered.moderation| > 0
  }

  /** An empty search keeps every item. */
  lemma EmptyQueryKeepsAll(data: FaqData)
    ensures FilterFaqs(data, "") == data
  {
    forall item: FaqItem
      ensures Matches("", item)
    {
      ContainsEmpty(Lower(item.question));
    }
    FilterAll(data.general, item => Matches("", item));
    FilterAll(data.ideas, item => Matches("", item));
    FilterAll(data.voting, item => Matches("", item));
    FilterAll(data.premium, item => Matches("", item));
    FilterAll(data.moderation, item => Matches("", item));
  }

  /** Two queries that differ only in letter case find the same items. */
  lemma CaseIndependent(data: FaqData, q1: string, q2: string)
    requires Lower(q1) == Lower(q2)
    ensures FilterFaqs(data, q1) == FilterFaqs(data, q2)
  {
    FilterCongruent(data.general, item => Matches(q1, item), item => Matches(q2, item));
    FilterCongruent(data.ideas, item => Matches(q1, item), item => Matches(q2, item));
    FilterCongruent(data.voting, item => Matches(q1, item), item => Matches(q2, item));
    FilterCongruent(data.premium, item => Matches(q1, item), item => Matches(q2, item));
    FilterCongruent(data.moderation, item => Matches(q1, item), item => Matches(q2, item));
  }

  /** In particular, searching with the lower-cased query changes nothing. */
  lemma LowerQuerySameResults(data: FaqData, query: string)
    ensures FilterFaqs(data, Lower(query)) == FilterFaqs(data, query)
  {
    LowerIdempotent(query);
    CaseIndependent(data, Lower(query), query);
  }

  /** With an empty search, there are results exactly when the FAQ has any item. */
  lemma EmptyQueryHasResults(data: FaqData)
    ensures HasResults(FilterFaqs(data, "")) <==> HasResults(data)
  {
    EmptyQueryKeepsAll(data);
  }
}
