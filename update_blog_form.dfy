/**
 * The update-blog form: loading a stored blog into the flat form, editing
 * tags and keywords through their `join(", ")` display, removing the
 * cover image, and submitting the nested payload again.
 */
module UpdateBlogForm {
  import opened Text
  import opened CreateBlogForm

  /** `form.reset(...)` with a loaded blog: the `seo` fields are flattened, the rest copied. */
  function FromBlog(b: BlogPayload): (v: BlogFormValues)
    ensures v.seoDescription == b.seo.description && v.seoKeywords == b.seo.keywords
    ensures v.title == b.title && v.content == b.content && v.excerpt == b.excerpt
    ensures v.coverImage == b.coverImage && v.category == b.category && v.tags == b.tags
  {
    BlogFormValues(b.title, b.content, b.excerpt, b.coverImage, b.category, b.tags,
                   b.seo.description, b.seo.keywords)
  }

  /** Loading a blog and submitting it untouched sends the same blog back. */
  lemma LoadThenSubmit(b: BlogPayload)
    ensures Payload(FromBlog(b)) == b
  {
  }

  /** And the other way round: the form values survive a trip through the payload. */
  lemma SubmitThenLoad(v: BlogFormValues)
    ensures FromBlog(Payload(v)) == v
  {
  }

  /**
   * Re-entering the displayed tag text leaves the tags as they were, when
   * there is at least one tag and none holds a comma or surrounding blanks.
   */
  lemma RetypeDisplayedTags(v: BlogFormValues)
    requires v.tags != [] && Clean(v.tags)
    ensures v.(tags := ParseList(Display(v.tags))) == v
  {
    DisplayParseRoundTrip(v.tags);
  }

  /** The same for the keywords. */
  lemma RetypeDisplayedKeywords(v: BlogFormValues)
    requires v.seoKeywords != [] && Clean(v.seoKeywords)
    ensures v.(seoKeywords := ParseList(Display(v.seoKeywords))) == v
  {
    DisplayParseRoundTrip(v.seoKeywords);
  }

  /** A tag holding a comma does not survive: the display text reads back as two tags. */
  lemma CommaTagSplits()
    ensures ParseList(Display(["a,b"])) == ["a", "b"]
  {
    assert Display(["a,b"]) == "a,b";
    assert "a,b"[1..] == ",b" && ",b"[1..] == "b" && "b"[1..] == "";
    assert Split("") == [""];
    assert ['b'] + Split("")[0] == "b";
    assert Split("")[1..] == [];
    assert Split("b") == [['b'] + Split("")[0]] + Split("")[1..];
    assert Split("b") == ["b"];
    assert Split(",b") == ["", "b"];
    assert ['a'] + Split(",b")[0] == "a";
    assert Split(",b")[1..] == ["b"];
    assert Split("a,b") == [['a'] + Split(",b")[0]] + Split(",b")[1..];
    assert Split("a,b") == ["a", "b"];
    assert Trim("a") == "a" && Trim("b") == "b";
  }

  /** A cleared cover image fails the URL rule whenever "" is not a URL. */
  lemma RemovedImageFailsUrlRule(v: BlogFormValues, isUrl: string -> bool)
    requires !isUrl("")
    ensures InvalidCoverImage in Validate(v.(coverImage := ""), isUrl)
  {
  }

  /** What `getSingleBlog` gave: a blog, nothing, or a thrown error. */
  datatype BlogFetch = Found(blog: BlogPayload) | Missing | FetchThrew

  /** The form, its three flags, and the payloads it sent. */
  class UpdateBlogForm {
    var values: BlogFormValues
    var isSubmitting: bool
    var isUploading: bool
    var isLoading: bool
    /**
     * Set when a failed load sends the user back to the blog list. This is the
     * only navigation tracked: the push after a successful update is not.
     */
    var leftPage: bool
    var sent: seq<BlogPayload>

    constructor()
      ensures values == DefaultValues && !isSubmitting && !isUploading && isLoading && !leftPage && sent == []
    {
      values := DefaultValues;
      isSubmitting := false;
      isUploading := false;
      isLoading := true;
      leftPage := false;
      sent := [];
    }

    /** The fetch effect: a found blog resets the form; a thrown error leaves the page; loading ends on every path. */
    method LoadBlog(fetch: BlogFetch)
      modifies this
      ensures fetch.Found? ==> values == FromBlog(fetch.blog)
      ensures !fetch.Found? ==> values == old(values)
      ensures leftPage == (old(leftPage) || fetch.FetchThrew?)
      ensures !isLoading
      ensures isSubmitting == old(isSubmitting) && isUploading == old(isUploading) && sent == old(sent)
    {
      match fetch {
        case Found(blog) => values := FromBlog(blog);
        case Missing =>
        case FetchThrew => leftPage := true;
      }
      isLoading := false;
    }

    /** The tag input's `onChange`. */
    method OnTagsInput(text: string)
      modifies this
      ensures values == old(values).(tags := ParseList(text))
      ensures isSubmitting == old(isSubmitting) && isUploading == old(isUploading)
      ensures isLoading == old(isLoading) && leftPage == old(leftPage) && sent == old(sent)
    {
      values := values.(tags := ParseList(text));
    }

    /** The keyword input's `onChange`. */
    method OnKeywordsInput(text: string)
      modifies this
      ensures values == old(values).(seoKeywords := ParseList(text))
      ensures isSubmitting == old(isSubmitting) && isUploading == old(isUploading)
      ensures isLoading == old(isLoading) && leftPage == old(leftPage) && sent == old(sent)
    {
      values := values.(seoKeywords := ParseList(text));
    }

    /** `handleImageUpload`: the returned URL becomes the cover; `isUploading` is cleared on every path. */
    method HandleImageUpload(upload: Upload)
      modifies this
      ensures upload.Uploaded? ==> values == old(values).(coverImage := upload.secureUrl)
      ensures !upload.Uploaded? ==> values == old(values)
      ensures upload.NoFile? ==> isUploading == old(isUploading)
      ensures !upload.NoFile? ==> !isUploading
      ensures isSubmitting == old(isSubmitting) && isLoading == old(isLoading)
      ensures leftPage == old(leftPage) && sent == old(sent)
    {
      if upload.NoFile? {
        return;
      }
      isUploading := true;
      if upload.Uploaded? {
        values := values.(coverImage := upload.secureUrl);
      }
      isUploading := false;
    }

    /** `removeImage`: the cover image becomes "". */
    method RemoveImage()
      modifies this
      ensures values == old(values).(coverImage := "")
      ensures isSubmitting == old(isSubmitting) && isUploading == old(isUploading)
      ensures isLoading == old(isLoading) && leftPage == old(leftPage) && sent == old(sent)
    {
      values := values.(coverImage := "");
    }

    /** Submit: only valid values reach `onSubmit`, which sends the nested payload. */
    method Submit(isUrl: string -> bool)
      modifies this
      ensures Validate(old(values), isUrl) != {} ==> sent == old(sent) && isSubmitting == old(isSubmitting)
      ensures Validate(old(values), isUrl) == {} ==> sent == old(sent) + [Payload(old(values))] && !isSubmitting
      ensures values == old(values) && isUploading == old(isUploading)
      ensures isLoading == old(isLoading) && leftPage == old(leftPage)
    {
      if Validate(values, isUrl) != {} {
        return;
      }
      isSubmitting := true;
      sent := sent + [Payload(values)];
      isSubmitting := false;
    }
  }
}
