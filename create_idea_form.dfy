/**
 * The create-idea form: its validation schema, the image and category
 * list edits, and the request its submit buttons send.
 */
module CreateIdeaForm {
  import opened Wrappers
  import opened Seqs

  datatype IdeaStatus = Draft | Pending | UnderReview | Approved | Rejected

  /** The form's values; the price is a whole number here (see the README). */
  datatype IdeaFormValues = IdeaFormValues(
    title: string,
    problemStatement: string,
    proposedSolution: string,
    description: string,
    images: seq<string>,
    isPaid: bool,
    price: Option<int>,
    categoryIds: seq<string>,
    status: IdeaStatus
  )

  /** The form's initial values. */
  const DefaultValues := IdeaFormValues("", "", "", "", [], false, None, [], Draft)

  /** One failed rule of `formSchema`. */
  datatype Issue =
    | TitleTooShort | ProblemTooShort | SolutionTooShort | DescriptionTooShort
    | NoImage | NegativePrice | NoCategory

  /** The rules `formSchema` checks, each violated rule reported. */
  function Validate(v: IdeaFormValues): (issues: set<Issue>)
    ensures TitleTooShort in issues <==> |v.title| < 5
    ensures ProblemTooShort in issues <==> |v.problemStatement| < 20
    ensures SolutionTooShort in issues <==> |v.proposedSolution| < 20
    ensures DescriptionTooShort in issues <==> |v.description| < 50
    ensures NoImage in issues <==> v.images == []
    ensures NegativePrice in issues <==> v.price.Some? && v.price.value < 0
    ensures NoCategory in issues <==> v.categoryIds == []
  {
    (if |v.title| < 5 then {TitleTooShort} else {})
    + (if |v.problemStatement| < 20 then {ProblemTooShort} else {})
    + (if |v.proposedSolution| < 20 then {SolutionTooShort} else {})
    + (if |v.description| < 50 then {DescriptionTooShort} else {})
    + (if v.images == [] then {NoImage} else {})
    + (if v.price.Some? && v.price.value < 0 then {NegativePrice} else {})
    + (if v.categoryIds == [] then {NoCategory} else {})
  }

  /** The fresh form fails every rule except the price rule, which `null` satisfies. */
  lemma DefaultsInvalid()
    ensures Validate(DefaultValues) == {TitleTooShort, ProblemTooShort, SolutionTooShort, DescriptionTooShort, NoImage, NoCategory}
  {
  }

  /** The price rule: `null` or not negative, whether or not the idea is paid. */
  lemma PriceRule(v: IdeaFormValues)
    ensures NegativePrice !in Validate(v) <==> v.price.None? || v.price.value >= 0
    ensures Validate(v.(isPaid := !v.isPaid)) == Validate(v)
  {
  }

  /** Selecting a category: appended at the end unless it is already chosen. */
  function AddCategory(ids: seq<string>, id: string): (r: seq<string>)
    ensures id in ids ==> r == ids
    ensures id !in ids ==> r == ids + [id]
    ensures id in r
  {
    if id in ids then ids else ids + [id]
  }

  /** Selections never hold the same category twice. */
  lemma AddCategoryKeepsDistinct(ids: seq<string>, id: string)
    requires Distinct(ids)
    ensures Distinct(AddCategory(ids, id))
  {
  }

  /** Removing a category: every occurrence goes, the rest keep their order. */
  function RemoveCategory(ids: seq<string>, id: string): (r: seq<string>)
    ensures id !in r
    ensures IsSubsequence(r, ids)
    ensures forall i :: 0 <= i < |ids| && ids[i] != id ==> ids[i] in r
  {
    FilterIsSubsequence(ids, x => x != id);
    Filter(ids, x => x != id)
  }

  /** Removing a category that was just added undoes the selection. */
  lemma AddThenRemove(ids: seq<string>, id: string)
    requires id !in ids
    ensures RemoveCategory(AddCategory(ids, id), id) == ids
  {
    FilterAppend(ids, [id], x => x != id);
    FilterAll(ids, x => x != id);
  }

  /** `images.filter((_, i) => i !== index)`, with `k` the index still to skip. */
  function DropIndex(s: seq<string>, k: int): (r: seq<string>)
    ensures 0 <= k < |s| ==> r == s[..k] + s[k + 1..]
    ensures !(0 <= k < |s|) ==> r == s
  {
    if s == [] then []
    else if k == 0 then DropIndex(s[1..], k - 1)
    else
      var rest := DropIndex(s[1..], k - 1);
      assert 0 < k < |s| ==> s[..k] + s[k + 1..] == [s[0]] + (s[1..][..k - 1] + s[1..][k..]);
      [s[0]] + rest
  }

  /** What `createIdea` receives: every field but the status, which goes as its own argument. */
  datatype IdeaPayload = IdeaPayload(
    title: string,
    problemStatement: string,
    proposedSolution: string,
    description: string,
    images: seq<string>,
    isPaid: bool,
    price: Option<int>,
    categoryIds: seq<string>
  )

  /**
   * `onSubmitWithStatus(button)(values)`: the destructured `status` shadows
   * the button's parameter, so the status sent is the form's own.
   */
  function SubmitRequest(values: IdeaFormValues, button: IdeaStatus): (request: (IdeaPayload, IdeaStatus))
    ensures request.1 == values.status
    ensures request.0.title == values.title && request.0.images == values.images
    ensures request.0.categoryIds == values.categoryIds && request.0.price == values.price
    ensures request.0.problemStatement == values.problemStatement
    ensures request.0.proposedSolution == values.proposedSolution
    ensures request.0.description == values.description && request.0.isPaid == values.isPaid
  {
    (IdeaPayload(values.title, values.problemStatement, values.proposedSolution, values.description,
                 values.images, values.isPaid, values.price, values.categoryIds),
     values.status)
  }

  /** Nothing of the form is lost: the values are rebuilt from the request they send. */
  lemma RequestRebuildsValues(values: IdeaFormValues, button: IdeaStatus)
    ensures var (p, status) := SubmitRequest(values, button);
      IdeaFormValues(p.title, p.problemStatement, p.proposedSolution, p.description,
                     p.images, p.isPaid, p.price, p.categoryIds, status) == values
  {
  }

  /** Both buttons send the very same request. */
  lemma ButtonIgnored(values: IdeaFormValues, b1: IdeaStatus, b2: IdeaStatus)
    ensures SubmitRequest(values, b1) == SubmitRequest(values, b2)
  {
  }

  /** How the Cloudinary upload went: no file chosen, a thrown error, or the returned `secure_url`. */
  datatype Upload = NoFile | UploadFailed | Uploaded(secureUrl: string)

  /** The form and its two flags, with the requests it sent. */
  class CreateIdeaForm {
    var values: IdeaFormValues
    var isSubmitting: bool
    var isUploading: bool
    var sent: seq<(IdeaPayload, IdeaStatus)>

    constructor()
      ensures values == DefaultValues && !isSubmitting && !isUploading && sent == []
      ensures StatusStaysDraft()
    {
      values := DefaultValues;
      isSubmitting := false;
      isUploading := false;
      sent := [];
    }

    /** No field of the form edits the status, so it stays DRAFT and every request carries it. */
    predicate StatusStaysDraft()
      reads this
    {
      values.status == Draft && forall i :: 0 <= i < |sent| ==> sent[i].1 == Draft
    }

    /** The category select's `onValueChange`. */
    method SelectCategory(id: string)
      modifies this
      ensures values == old(values).(categoryIds := AddCategory(old(values).categoryIds, id))
      ensures sent == old(sent) && isSubmitting == old(isSubmitting) && isUploading == old(isUploading)
      ensures old(StatusStaysDraft()) ==> StatusStaysDraft()
    {
      if id !in values.categoryIds {
        values := values.(categoryIds := values.categoryIds + [id]);
      }
    }

    /** A category chip's remove button. */
    method UnselectCategory(id: string)
      modifies this
      ensures values == old(values).(categoryIds := RemoveCategory(old(values).categoryIds, id))
      ensures sent == old(sent) && isSubmitting == old(isSubmitting) && isUploading == old(isUploading)
      ensures old(StatusStaysDraft()) ==> StatusStaysDraft()
    {
      values := values.(categoryIds := RemoveCategory(values.categoryIds, id));
    }

    /** An image preview's remove button. */
    method RemoveImage(index: int)
      modifies this
      ensures values == old(values).(images := DropIndex(old(values).images, index))
      ensures sent == old(sent) && isSubmitting == old(isSubmitting) && isUploading == old(isUploading)
      ensures old(StatusStaysDraft()) ==> StatusStaysDraft()
    {
      values := values.(images := DropIndex(values.images, index));
    }

    /** `handleImageUpload`: the returned URL is appended; `isUploading` is cleared on every path. */
    method HandleImageUpload(upload: Upload)
      modifies this
      ensures upload.Uploaded? ==> values == old(values).(images := old(values).images + [upload.secureUrl])
      ensures !upload.Uploaded? ==> values == old(values)
      ensures upload.NoFile? ==> isUploading == old(isUploading)
      ensures !upload.NoFile? ==> !isUploading
      ensures sent == old(sent) && isSubmitting == old(isSubmitting)
      ensures old(StatusStaysDraft()) ==> StatusStaysDraft()
    {
      if upload.NoFile? {
        return;
      }
      isUploading := true;
      if upload.Uploaded? {
        values := values.(images := values.images + [upload.secureUrl]);
      }
      isUploading := false;
    }

    /**
     * A submit button: `handleSubmit` runs the handler only on valid values;
     * the request is the same whatever the button, and `isSubmitting` is
     * cleared in its `finally`, whether `createIdea` resolved or threw.
     */
    method Submit(button: IdeaStatus)
      modifies this
      ensures Validate(old(values)) != {} ==> sent == old(sent) && isSubmitting == old(isSubmitting)
      ensures Validate(old(values)) == {} ==> sent == old(sent) + [SubmitRequest(old(values), button)] && !isSubmitting
      ensures values == old(values) && isUploading == old(isUploading)
      ensures old(StatusStaysDraft()) ==> StatusStaysDraft()
    {
      if Validate(values) != {} {
        return;
      }
      isSubmitting := true;
      sent := sent + [SubmitRequest(values, button)];
      isSubmitting := false;
    }
  }
}
