# idea-hub front end: a Dafny model

This project models the decision logic of the idea-hub web client, a
Next.js front end for a sustainability idea marketplace. Members post
ideas, vote on them, buy premium ideas and read blogs. Administrators
moderate ideas. The model covers these parts of the client:

- **Voting** (`VoteButtons`). The up/down counters follow the action the
  backend reports (created, removed, updated) and reset to the rendered
  counts when a request fails. The backend's decision is not in the
  client, so it is an input. The app's "one vote per idea (up or down)"
  promise is stated as a reference policy (`Reconcile`). A lemma proves
  that the counters then always equal the other users' votes plus exactly
  this user's one vote.
- **Pagination** (`Pagination`). Whether the bar shows, the ceiling
  division for the page count, the "Showing a-b of n" range, the
  previous/next guards, and the URL update that changes only `page`.
- **Query strings** (`Query`). An ordered list of name/value pairs stands
  for `URLSearchParams`, with `append` and `set` as methods of a class.
- **Admin actions** (`AdminIdeaActions`). The conditional query of the
  admin idea list, the status-update body, and the error value
  `updateIdeaStatus` returns instead of throwing.
- **Moderation UI** (`StatusDropdown`, `RejectionModal`). REJECTED is held
  back behind the feedback dialog. Blank feedback is refused. Feedback is
  attached only to REJECTED. The modules also give the badge styles and
  labels.
- **Payment route** (`PaymentRoute`). The POST handler's ladder of
  401/400/500/502/200 answers and what it forwards to the backend.
- **Authentication options** (`AuthOptions`). The record merges of the
  `jwt` and `session` callbacks, the `authorize` result, and the cookie
  and session lifetimes.
- **Sidebar, top ideas, FAQ** (`AppSidebar`, `TopIdea`, `FaqSection`).
  These cover three things:
  - the role filter over the menu table;
  - the stable top-three-by-votes ranking and what the page shows;
  - the case-insensitive FAQ search.
- **Forms** (`CreateIdeaForm`, `CreateBlogForm`, `UpdateBlogForm`). The
  validation schemas and the category, image and tag list edits. Also the
  comma-separated tag parsing, its round trip with the `join(", ")`
  display, and the payloads the submit handlers send.

Shared pieces:
- `Wrappers`: `Option`/`Result`.
- `Seqs`: filtering and subsequences.
- `Text`: trimming, ASCII lower-casing, substring search, comma
  splitting, and number formatting.

React state cells become fields of a class. Each handler becomes a method
whose `ensures` gives the whole new state. The pure computations they use
are functions, and the properties are proved about those functions.
Network replies, uploads and thrown errors are datatypes passed in as
parameters.

Two behaviours are modelled as the code has them:
- `create-idea-form.tsx` line 119 destructures `status` from the form
  values. That shadows the status chosen by the submit button, so every
  button sends the form's own status.
- `updateIdeaStatus` never throws, so the status dropdown always shows
  its success toast.

## Model

| member | source | states |
|---|---|---|
| VoteButtons.ApplyAction | src/components/VoteButtons.tsx:30-44 | created raises only the requested counter, removed lowers only it, updated moves one vote to the requested side; the total changes by +1/-1/0; any other action changes nothing |
| VoteButtons.Settle | src/components/VoteButtons.tsx:26-54 | a reply applies its action to the current counts; a failure resets to the initial props |
| VoteButtons.CreateThenRemove | src/components/VoteButtons.tsx:30-44 | created followed by removed with the same vote type restores both counters |
| VoteButtons.Reconcile | src/components/FAQSection.tsx:46 | the one-vote-per-idea policy: never an unrecognised action; the new vote is none when the same type is repeated, otherwise the requested type |
| VoteButtons.Contribution | src/components/FAQSection.tsx:46 | one user adds at most one vote in total, never negative |
| VoteButtons.ApplyMatchesPolicy | src/components/VoteButtons.tsx:30-44 | the UI update for the policy's action equals the tally of the policy's new vote, from every current vote |
| VoteButtons.CountsTrackOneVote | src/components/VoteButtons.tsx:30-44 | after any run of confirmed requests the counters are the others' votes plus exactly the user's final vote |
| VoteButtons.ToggleSequence | src/components/VoteButtons.tsx:30-44 | the same vote cast twice is created then removed; a third cast creates it again |
| VoteButtons.HighlightShowsOwnVote | src/components/VoteButtons.tsx:62-67 | starting from no own vote, a button is highlighted iff the user's current vote is of its type |
| VoteButtons.FailureDiscardsConfirmedVotes | src/components/VoteButtons.tsx:53-54 | a failure after a confirmed upvote resets to the initial counts, losing the confirmed vote |
| VoteButtons.VoteButtons.constructor | src/components/VoteButtons.tsx:18-20 | counters start at the initial props, not loading |
| VoteButtons.VoteButtons.BeginVote | src/components/VoteButtons.tsx:23 | loading is set; counters unchanged |
| VoteButtons.VoteButtons.SettleVote | src/components/VoteButtons.tsx:26-57 | counters become `Settle` of the old counters; loading is cleared on every path |
| Pagination.TotalPages | src/components/pagination.tsx:22 | the ceiling of total/limit: (pages-1)*limit < total <= pages*limit |
| Pagination.VisibleHasTwoPages | src/components/pagination.tsx:19-22 | when the bar shows there are at least two pages |
| Pagination.RangeEnd | src/components/pagination.tsx:33 | the range end never exceeds the total |
| Pagination.RangeWithinTotal | src/components/pagination.tsx:33 | on every existing page 1 <= start <= end <= total and the range spans at most one page |
| Pagination.PreviousPage | src/components/pagination.tsx:36 | disabled iff page <= 1, otherwise requests page-1 |
| Pagination.NextPage | src/components/pagination.tsx:39 | disabled iff page >= totalPages, otherwise requests page+1 |
| Pagination.Render | src/components/pagination.tsx:19-41 | rendered iff meta is present and total > limit; then at least two pages, the total shown, the range end within it |
| Pagination.UpdatePage | src/components/pagination.tsx:24-27 | the target query has exactly one page value, the new one; every other key keeps its values and the other entries keep their order |
| Query.Without | src/components/pagination.tsx:25-26 | no remaining pair has the removed name |
| Query.ValuesOfAppend | src/components/actions/admin-idea-actions.ts:10-16 | the values of a key in a concatenation are the values in each part, in order |
| Query.ValuesOfWithout | src/components/pagination.tsx:26 | removing a key empties its values and keeps every other key's |
| Query.NoNameNoValues | src/components/pagination.tsx:26 | a key that is absent has no values, and removing it changes nothing |
| Query.ReplaceFirstFacts | src/components/pagination.tsx:26 | replacing a present key leaves one value for it and the other entries unchanged |
| Query.SetValueValues | src/components/pagination.tsx:26 | after `set`, the key has exactly the new value and other keys keep theirs |
| Query.SetValueKeepsOthers | src/components/pagination.tsx:26 | `set` leaves the entries of other keys in their order |
| Query.WithoutAppend | src/components/pagination.tsx:26 | removing a key distributes over concatenation |
| Query.ReplaceFirstAfter | src/components/pagination.tsx:26 | the replacement happens at the first occurrence; the prefix without the key is untouched |
| Query.SearchParams.constructor | src/components/pagination.tsx:25 | the copy holds the given pairs |
| Query.SearchParams.Append | src/components/actions/admin-idea-actions.ts:11-16 | one pair is added at the end |
| Query.SearchParams.Set | src/components/pagination.tsx:26 | the pairs become `SetValue` of the old pairs |
| AdminIdeaActions.BuildQuery | src/components/actions/admin-idea-actions.ts:10-16 | the appended query equals `QueryOf(filters)` and its keys are in the fixed order |
| AdminIdeaActions.QueryOfValues | src/components/actions/admin-idea-actions.ts:11-16 | page and limit appear iff truthy (not 0), search/category/status iff non-empty, isPaid iff defined as "true"/"false"; each at most once |
| AdminIdeaActions.QueryOfInKeyOrder | src/components/actions/admin-idea-actions.ts:11-16 | keys come in the order page, limit, search, category, status, isPaid, each at most once, and no other key |
| AdminIdeaActions.EntryInOrder | src/components/actions/admin-idea-actions.ts:11-16 | appending an optional key ranked after all present keys keeps the order |
| AdminIdeaActions.AdminIdeasResult | src/components/actions/admin-idea-actions.ts:18-26 | a non-OK reply fails with "Failed to fetch ideas"; a rejected `fetch` or an unparsable body fails with its own error; only an OK reply succeeds, with its JSON |
| AdminIdeaActions.StatusBody | src/components/actions/admin-idea-actions.ts:40-43 | the body always has `status` first and carries `rejectionFeedback` iff the status is REJECTED and feedback was given |
| AdminIdeaActions.UpdateIdeaStatus | src/components/actions/admin-idea-actions.ts:33-59 | succeeds iff the reply is OK and parses; a non-OK reply fails with the server's message or the default; network and parse errors become failure values |
| StatusDropdown.StatusDropdown.constructor | src/components/status-dropdown.tsx:19-20 | dialog closed, no selection |
| StatusDropdown.StatusDropdown.UpdateStatus | src/components/status-dropdown.tsx:32-42 | sends the status with feedback only for REJECTED and always shows the success toast; keeps "feedback only when rejected" |
| StatusDropdown.StatusDropdown.HandleStatusChange | src/components/status-dropdown.tsx:22-30 | REJECTED records the selection and opens the dialog, sending nothing; any other status is sent without feedback |
| StatusDropdown.StatusDropdown.HandleRejectionConfirm | src/components/status-dropdown.tsx:44-48 | with no (or an empty) selection nothing is sent; otherwise the selection is sent with the feedback and the success toast is shown |
| StatusDropdown.StatusDropdown.SetRejectionModalOpen | src/components/status-dropdown.tsx:19 | only the dialog flag changes |
| StatusDropdown.SentBodiesCarryFeedbackOnlyWhenRejected | src/components/status-dropdown.tsx:34 | every body the dropdown sent has its status, and carries feedback only for REJECTED |
| StatusDropdown.RejectThenConfirm | src/components/status-dropdown.tsx:44-47 | REJECTED confirmed with feedback sends exactly status and rejectionFeedback |
| StatusDropdown.StatusStyles | src/components/status-dropdown.tsx:50-62 | any status other than the four known ones gets the default style |
| StatusDropdown.StylesDistinct | src/components/status-dropdown.tsx:50-62 | the four known statuses and the default have five different styles |
| StatusDropdown.FirstIndex | src/components/status-dropdown.tsx:70 | the first position of the character, or the length when absent |
| StatusDropdown.ReplaceFirst | src/components/status-dropdown.tsx:70 | only the first occurrence of the character is replaced; length kept |
| StatusDropdown.StatusLabel | src/components/status-dropdown.tsx:70 | the label is the status lower-cased, with a blank at the first underscore only |
| StatusDropdown.LowerKeepsUnderscores | src/components/status-dropdown.tsx:70 | lower-casing leaves the first underscore where it was |
| StatusDropdown.LabelSplitsAtFirstUnderscore | src/components/status-dropdown.tsx:70 | the label is the lower-cased text before and after the first underscore, joined by a blank |
| StatusDropdown.UnderReviewLabel | src/components/status-dropdown.tsx:70 | UNDER_REVIEW reads "under review" |
| StatusDropdown.OnlyFirstUnderscore | src/components/status-dropdown.tsx:70 | a second underscore stays: A_B_C reads "a b_c" |
| RejectionModal.RejectionModal.constructor | src/components/rejection-modal.tsx:16-17 | empty feedback, not submitting |
| RejectionModal.RejectionModal.SubmitDisabled | src/components/rejection-modal.tsx:39 | submit is disabled iff the feedback is blank or a submission is in flight |
| RejectionModal.RejectionModal.SetFeedback | src/components/rejection-modal.tsx:34 | only the feedback text changes |
| RejectionModal.RejectionModal.HandleSubmit | src/components/rejection-modal.tsx:19-25 | blank feedback does nothing; otherwise the untrimmed text is confirmed; a resolved confirm clears submitting and closes, a rejected one leaves submitting set and the dialog open; no blank text is ever confirmed |
| RejectionModal.RejectionModal.Cancel | src/components/rejection-modal.tsx:36 | closes without confirming |
| PaymentRoute.Answer | src/app/api/payment/route.ts:39-43 | passed on unchanged iff success and data are present; otherwise 502 with the backend message or "Payment gateway error" |
| PaymentRoute.BackendAnswer | src/app/api/payment/route.ts:33-52 | a thrown fetch, a non-OK status ("Backend responded with N") or an unparsable body give 500; the answer is 500, 502 or the backend JSON |
| PaymentRoute.Post | src/app/api/payment/route.ts:5-54 | no session token gives 401; a malformed body 500; a missing or non-string id 400; the body is forwarded unchanged iff both checks pass, and then the answer comes from the backend reply |
| PaymentRoute.PostStatuses | src/app/api/payment/route.ts:11-52 | the status is one of 200/400/401/500/502, and 200 iff session, id and backend all succeed |
| PaymentRoute.RefusalIgnoresBackend | src/app/api/payment/route.ts:11-20 | a refused request does not depend on the backend at all |
| AuthOptions.Overlay | src/lib/authOptions.ts:85-91 | the four claims come from the second record; every other key is the first record's |
| AuthOptions.OverlayIdempotent | src/lib/authOptions.ts:85-91 | applying the same overlay twice changes nothing |
| AuthOptions.Jwt | src/lib/authOptions.ts:71-83 | without a user the token is returned unchanged; at sign-in the claims come from the user and every other token field is kept |
| AuthOptions.Session.constructor | src/lib/authOptions.ts:84 | the session holds the given user record |
| AuthOptions.SessionCallback | src/lib/authOptions.ts:84-93 | the same session is returned, its user overlaid with the token's claims |
| AuthOptions.SignInReachesSession | src/lib/authOptions.ts:71-93 | after sign-in the session shows the user's claims and keeps its other fields |
| AuthOptions.LaterJwtKeepsClaims | src/lib/authOptions.ts:82 | later `jwt` calls without a user keep the signed-in token |
| AuthOptions.Authorize | src/lib/authOptions.ts:12-38 | a record of the seven fields iff the login reply is OK with a user; the fields are copied from the reply; every failure gives null |
| AuthOptions.Lifetimes | src/lib/authOptions.ts:49-97 | the cookie lasts 2,592,000 s and the session 77,760,000 s, thirty times longer |
| AuthOptions.Cookies | src/lib/authOptions.ts:41-69 | three cookies, secure iff NODE_ENV is "production", lax and rooted at "/"; only the session token has a max age |
| AuthOptions.Debug | src/lib/authOptions.ts:103 | debug mode is never on in production |
| AppSidebar.MenuFor | src/components/app-sidebar.tsx:60-62 | the menu is the entries allowing the role, in table order, and every such entry |
| AppSidebar.AdminSeesAll | src/components/app-sidebar.tsx:8-51 | ADMIN sees the whole table |
| AppSidebar.MemberMenu | src/components/app-sidebar.tsx:8-51 | MEMBER sees Home, My Idea, My Purchases and Profile only |
| AppSidebar.UnknownRoleSeesNothing | src/components/app-sidebar.tsx:60-62 | a missing or unknown role gives an empty menu |
| AppSidebar.Sidebar | src/components/app-sidebar.tsx:56-62 | no session redirects to login; otherwise the role's menu |
| TopIdea.Insert | src/components/topIdea.tsx:62 | insertion keeps the ideas and adds one |
| TopIdea.InsertSorted | src/components/topIdea.tsx:62 | inserting into a vote-ranked list keeps it ranked |
| TopIdea.SortByVotes | src/components/topIdea.tsx:62 | the sort is a permutation of the copy, ranked by votes descending |
| TopIdea.InsertWithVotes | src/components/topIdea.tsx:62 | insertion places an idea ahead of others with the same votes that came later |
| TopIdea.SortIsStable | src/components/topIdea.tsx:62 | ideas with equal votes keep their fetched order |
| TopIdea.TopThree | src/components/topIdea.tsx:62 | min(3, n) ideas, ranked, drawn from the fetched list |
| TopIdea.TopThreeBeatsRest | src/components/topIdea.tsx:62 | the chosen ideas and the rest make up the fetched list, and no left-out idea has more votes than a chosen one |
| TopIdea.SplitRanked | src/components/topIdea.tsx:62 | a ranked list cut in two: the front outranks the back |
| TopIdea.FewIdeasAllShown | src/components/topIdea.tsx:62 | with at most three ideas every one is shown |
| TopIdea.TopIdeaPage.constructor | src/components/topIdea.tsx:45-48 | no data, no top ideas, loading, no error |
| TopIdea.TopIdeaPage.FetchIdeas | src/components/topIdea.tsx:50-72 | a fetched list is stored unreordered with its top three; a non-OK status or a thrown error sets the message; loading ends on every path |
| TopIdea.TopIdeaPage.View | src/components/topIdea.tsx:74-97 | cards only when loaded, error falsy and top ideas non-empty; the empty branch iff loaded, error falsy and no data or no top ideas |
| TopIdea.EmptyFetchShowsNothing | src/components/topIdea.tsx:95-96 | an empty fetched list shows "No top voted ideas" |
| FaqSection.FilterItems | src/components/FAQSection.tsx:90 | the kept items are the matching ones, in order, and every matching item is kept |
| FaqSection.FilterFaqs | src/components/FAQSection.tsx:89-95 | every category is filtered on its own |
| FaqSection.HasResults | src/components/FAQSection.tsx:97 | results iff some category kept an item |
| FaqSection.EmptyQueryKeepsAll | src/components/FAQSection.tsx:89-95 | an empty search keeps every item |
| FaqSection.CaseIndependent | src/components/FAQSection.tsx:89-95 | queries equal up to letter case find the same items |
| FaqSection.LowerQuerySameResults | src/components/FAQSection.tsx:89-95 | lower-casing the query changes nothing |
| FaqSection.EmptyQueryHasResults | src/components/FAQSection.tsx:97 | with an empty search there are results iff the FAQ has any item |
| CreateIdeaForm.Validate | src/components/forms/create-idea-form.tsx:27-40 | each rule fails iff its field is too short, empty, or a negative price |
| CreateIdeaForm.DefaultsInvalid | src/components/forms/create-idea-form.tsx:66-83 | the fresh form fails every rule except the price rule |
| CreateIdeaForm.PriceRule | src/components/forms/create-idea-form.tsx:34-37 | the price is valid iff null or non-negative, whether or not the idea is paid |
| CreateIdeaForm.AddCategory | src/components/forms/create-idea-form.tsx:289-292 | a chosen id is kept once; a new id is appended at the end |
| CreateIdeaForm.AddCategoryKeepsDistinct | src/components/forms/create-idea-form.tsx:290-291 | adding never creates a duplicate id |
| CreateIdeaForm.RemoveCategory | src/components/forms/create-idea-form.tsx:319 | every occurrence is removed and the rest keep their order |
| CreateIdeaForm.AddThenRemove | src/components/forms/create-idea-form.tsx:289-319 | removing a just-added id restores the list |
| CreateIdeaForm.DropIndex | src/components/forms/create-idea-form.tsx:225 | exactly position i is dropped, or nothing when i is out of range |
| CreateIdeaForm.SubmitRequest | src/components/forms/create-idea-form.tsx:114-124 | the status sent is the form's own, and the payload carries each of the other eight fields unchanged |
| CreateIdeaForm.RequestRebuildsValues | src/components/forms/create-idea-form.tsx:114-124 | the form values are recovered whole from the request they send |
| CreateIdeaForm.ButtonIgnored | src/components/forms/create-idea-form.tsx:114-119 | all submit buttons send the same request |
| CreateIdeaForm.CreateIdeaForm.constructor | src/components/forms/create-idea-form.tsx:62-83 | the default values, nothing sent, flags clear |
| CreateIdeaForm.CreateIdeaForm.SelectCategory | src/components/forms/create-idea-form.tsx:289-292 | the ids become `AddCategory` of the old ids |
| CreateIdeaForm.CreateIdeaForm.UnselectCategory | src/components/forms/create-idea-form.tsx:316-320 | the ids become `RemoveCategory` of the old ids |
| CreateIdeaForm.CreateIdeaForm.RemoveImage | src/components/forms/create-idea-form.tsx:222-226 | the images become `DropIndex` of the old images |
| CreateIdeaForm.CreateIdeaForm.HandleImageUpload | src/components/forms/create-idea-form.tsx:85-112 | an uploaded URL is appended; no file does nothing; uploading is cleared after any attempt |
| CreateIdeaForm.CreateIdeaForm.Submit | src/components/forms/create-idea-form.tsx:114-138 | only valid values are sent, as `SubmitRequest`; submitting is cleared afterwards; the status stays DRAFT |
| CreateBlogForm.Validate | src/components/forms/create-blog-form.tsx:17-26 | each rule fails iff its field is too short, empty, or not a URL |
| CreateBlogForm.Payload | src/components/forms/create-blog-form.tsx:77-88 | SEO fields nested under `seo`, the other six copied |
| CreateBlogForm.PayloadInjective | src/components/forms/create-blog-form.tsx:77-88 | nothing is lost in the nesting |
| CreateBlogForm.EmptyTagInputPasses | src/components/forms/create-blog-form.tsx:212 | an empty input parses to one empty tag, which passes the "at least one" rule |
| CreateBlogForm.BlogForm.constructor | src/components/forms/create-blog-form.tsx:30-45 | the default values, nothing sent, flags clear |
| CreateBlogForm.BlogForm.OnTagsInput | src/components/forms/create-blog-form.tsx:211-213 | the tags become the parsed input |
| CreateBlogForm.BlogForm.OnKeywordsInput | src/components/forms/create-blog-form.tsx:256-258 | the keywords become the parsed input |
| CreateBlogForm.BlogForm.HandleImageUpload | src/components/forms/create-blog-form.tsx:47-71 | an uploaded URL becomes the cover; uploading is cleared after any attempt |
| CreateBlogForm.BlogForm.Submit | src/components/forms/create-blog-form.tsx:73-101 | only valid values are sent, as `Payload`; submitting is cleared afterwards |
| UpdateBlogForm.FromBlog | src/components/forms/update-blog-form.tsx:63-72 | the loaded blog's SEO fields are flattened, the rest copied |
| UpdateBlogForm.LoadThenSubmit | src/components/forms/update-blog-form.tsx:63-131 | loading a blog and submitting it unchanged sends the same blog |
| UpdateBlogForm.SubmitThenLoad | src/components/forms/update-blog-form.tsx:63-131 | form values survive a trip through the payload |
| UpdateBlogForm.RetypeDisplayedTags | src/components/forms/update-blog-form.tsx:272-275 | re-entering the displayed tags gives back the tags when there is at least one and none has a comma or outer blanks |
| UpdateBlogForm.RetypeDisplayedKeywords | src/components/forms/update-blog-form.tsx:318-321 | the same for the keywords |
| UpdateBlogForm.CommaTagSplits | src/components/forms/update-blog-form.tsx:272-275 | a tag "a,b" comes back as two tags |
| UpdateBlogForm.RemovedImageFailsUrlRule | src/components/forms/update-blog-form.tsx:113-115 | a removed cover image fails the URL rule |
| UpdateBlogForm.UpdateBlogForm.constructor | src/components/forms/update-blog-form.tsx:33-49 | the default values, loading, nothing sent |
| UpdateBlogForm.UpdateBlogForm.LoadBlog | src/components/forms/update-blog-form.tsx:52-81 | a found blog resets the form to `FromBlog`; a missing one changes nothing; a thrown error leaves the page; loading ends on every path |
| UpdateBlogForm.UpdateBlogForm.OnTagsInput | src/components/forms/update-blog-form.tsx:271-273 | the tags become the parsed input |
| UpdateBlogForm.UpdateBlogForm.OnKeywordsInput | src/components/forms/update-blog-form.tsx:317-319 | the keywords become the parsed input |
| UpdateBlogForm.UpdateBlogForm.HandleImageUpload | src/components/forms/update-blog-form.tsx:86-111 | an uploaded URL becomes the cover; uploading is cleared after any attempt |
| UpdateBlogForm.UpdateBlogForm.RemoveImage | src/components/forms/update-blog-form.tsx:113-115 | the cover image becomes "" |
| UpdateBlogForm.UpdateBlogForm.Submit | src/components/forms/update-blog-form.tsx:117-141 | only valid values are sent, as `Payload`; submitting is cleared afterwards |
| Text.TrimStart | src/components/rejection-modal.tsx:20 | drops exactly the leading blanks |
| Text.TrimEnd | src/components/rejection-modal.tsx:20 | drops exactly the trailing blanks |
| Text.Trim | src/components/rejection-modal.tsx:20 | the result has no outer blanks |
| Text.LeadingBlanks | src/components/rejection-modal.tsx:20 | the count of leading characters `trim` drops: all white space, and the rest of the text is what `TrimStart` keeps |
| Text.TrimIsInfix | src/components/rejection-modal.tsx:20 | the trimmed text is the middle of the text, and everything dropped at either end is white space |
| Text.TrimTrimmed | src/components/forms/update-blog-form.tsx:272 | trimming a trimmed text changes nothing |
| Text.TrimLeadingBlank | src/components/forms/update-blog-form.tsx:272-275 | a leading blank does not change the trimmed text |
| Text.TrimEmptyIffBlank | src/components/rejection-modal.tsx:20 | the trimmed text is empty iff the text is all blanks |
| Text.LowerChar | src/components/FAQSection.tsx:90 | upper-case letters map to lower-case, everything else is kept |
| Text.Lower | src/components/FAQSection.tsx:90 | character-wise lower-casing |
| Text.LowerIdempotent | src/components/FAQSection.tsx:90 | lower-casing twice is lower-casing once |
| Text.ContainsAt | src/components/FAQSection.tsx:90 | `includes` holds iff the needle starts at some position |
| Text.ContainsEmpty | src/components/FAQSection.tsx:90 | every text includes the empty string |
| Text.Split | src/components/forms/create-blog-form.tsx:212 | one piece more than there are commas, none holding a comma |
| Text.JoinSplit | src/components/forms/create-blog-form.tsx:212 | joining the pieces with "," gives back the text |
| Text.SplitNoComma | src/components/forms/create-blog-form.tsx:212 | a comma-free text is one piece |
| Text.SplitAtComma | src/components/forms/create-blog-form.tsx:212 | the text up to the first comma is the first piece |
| Text.ParseList | src/components/forms/create-blog-form.tsx:212 | commas+1 pieces, each trimmed and comma-free |
| Text.SplitDisplay | src/components/forms/update-blog-form.tsx:272-275 | splitting the `join(", ")` text gives the first item, then each other item behind one blank |
| Text.DisplayParseRoundTrip | src/components/forms/update-blog-form.tsx:272-275 | parsing the displayed list gives it back when non-empty and clean |
| Text.ParseEmpty | src/components/forms/create-blog-form.tsx:212 | empty input parses to one empty piece |
| Text.NatToString | src/components/actions/admin-idea-actions.ts:11 | a non-empty string of decimal digits; `NatToStringValue` gives its value |
| Text.IntToString | src/components/pagination.tsx:26 | `toString()` of an integer: the digits of a non-negative number, or "-" then the digits of its magnitude |
| Text.NatToStringValue | src/components/actions/admin-idea-actions.ts:11-12 | the digits denote exactly n, with no leading zero |
| Text.IntToStringValue | src/app/api/payment/route.ts:34 | the numeral denotes n: its digits for n >= 0, a "-" and the digits of -n otherwise; it starts with 0 only for 0 |
| Text.IntToStringInjective | src/components/pagination.tsx:26 | distinct numbers are written differently, so the page sent identifies the page |
| Seqs.Filter | src/components/app-sidebar.tsx:62 | the kept elements are all kept by the predicate, and every kept-by-predicate element appears |
| Seqs.FilterIsSubsequence | src/components/app-sidebar.tsx:62 | filtering keeps the table order |
| Seqs.FilterAll | src/components/app-sidebar.tsx:62 | when everything passes, nothing is dropped |
| Seqs.FilterNone | src/components/app-sidebar.tsx:62 | when nothing passes, the result is empty |
| Seqs.FilterAppend | src/components/app-sidebar.tsx:62 | filtering distributes over concatenation |
| Seqs.FilterDropsMiddle | src/components/app-sidebar.tsx:62 | two passing runs with a failing run between filter to the two runs |
| Seqs.FilterCongruent | src/components/FAQSection.tsx:90 | predicates that agree filter alike |

## Left out

- Network calls, cookies, `router.push`/`router.refresh` (except the update-blog page's return to the blog list after a failed load, kept as `leftPage`), `revalidatePath`/`revalidateTag`, `console` logging and toast rendering are effects outside the model. Fetch results, uploads and thrown errors are parameters. Only the status dropdown's toast list is kept, because its content is a promised behaviour.
- TopIdea.TopIdeaPage.FetchIdeas: a body that parses but whose `data` is not a list is not modelled. The source stores that body with `setIdeasData` before the spread throws and sets the error, and `ideasData` here holds only a list of ideas.
- StatusDropdown.StatusDropdown.UpdateStatus: the error toast of the catch at status-dropdown.tsx:39-41 is not modelled. `updateIdeaStatus` resolves on every modelled path; only its `await cookies()` outside the try could reject, and cookies are outside the model.
- The session-token `Cookie` header that the admin actions and the payment route send is not modelled. It only carries the token on.
- The backend's vote decision (`src/components/actions/vote.ts`) is not part of this model. `VoteButtons.Reconcile` is a reference policy used to state what the counters mean, not a model of that server.
- Props that refresh after `router.refresh()` are not modelled. The initial vote counts are fixed for the component's lifetime.
- Pagination.Render: requires a positive `limit`. With `limit <= 0` JavaScript's division gives `Infinity` or `NaN`, and floating point is not modelled.
- Pagination.TotalPages: requires a positive `limit`, for the same reason.
- Numbers are whole numbers. The idea price is an integer, and `Math.ceil` on a float is exact ceiling division.
- `URLSearchParams.toString` (percent-encoding, `&`-joining) is not modelled. Queries are compared as ordered pair lists.
- Text handling is ASCII: `trim` removes space, tab, newline, vertical tab (U+000B), form feed (U+000C) and carriage return, and `toLowerCase` maps A-Z only. Unicode whitespace and case mapping are not modelled.
- zod's URL check is a parameter `isUrl` of the blog validators. Its grammar is not modelled.
- An upload reply without `secure_url` (which the source would add as `undefined`) is treated as a failed upload.
- The FAQ's question and answer texts are a parameter. The search is proved for any content.
- Plain text inputs bound directly to a field (title, content and so on) and the FAQ search box are assignment only, and are not modelled as methods.
- Rendering markup and class names other than the status badge styles are not modelled.
