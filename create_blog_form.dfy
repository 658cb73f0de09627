/**
 * The create-blog form: its validation schema, comma-separated tag and
 * keyword parsing, and the nested payload it submits.
 */
module CreateBlogForm {
  import opened Text

  /** The flat form values. */
  datatype BlogFormValues = BlogFormValues(
    title: string,
    content: string,
    excerpt: string,
    coverImage: string,
    category: string,
    tags: seq<string>,
    seoDescription: string,
    seoKeywords: seq<string>
  )

  const DefaultValues := BlogFormValues("", "", "", "", "", [], "", [])

  /** The `seo` object of the payload. */
  datatype Seo = Seo(description: string, keywords: seq<string>)

  /** What `createBlog` (and `updateBlog`) receive. */
  datatype BlogPayload = BlogPayload(
    title: string,
    content: string,
    excerpt: string,
    coverImage: string,
    category: string,
    tags: seq<string>,
    seo: Seo
  )

  /** One failed rule of `formSchema`. */
  datatype Issue =
    | TitleTooShort | ContentTooShort | ExcerptTooShort | InvalidCoverImage
    | NoCategory | NoTags | SeoDescriptionTooShort | NoKeywords

  /**
   * The rules `formSchema` checks. zod's URL check is the parameter
   * `isUrl`; the update form's schema is the same.
   */
  function Validate(v: BlogFormValues, isUrl: string -> bool): (issues: set<Issue>)
    ensures TitleTooShort in issues <==> |v.title| < 5
    ensures ContentTooShort in issues <==> |v.content| < 50
    ensures ExcerptTooShort in issues <==> |v.excerpt| < 10
    ensures InvalidCoverImage in issues <==> !isUrl(v.coverImage)
    ensures NoCategory in issues <==> |v.category| < 1
    ensures NoTags in issues <==> v.tags == []
    ensures SeoDescriptionTooShort in issues <==> |v.seoDescription| < 10
    ensures NoKeywords in issues <==> v.seoKeywords == []
  {
    (if |v.title| < 5 then {TitleTooShort} else {})
    + (if |v.content| < 50 then {ContentTooShort} else {})
    + (if |v.excerpt| < 10 then {ExcerptTooShort} else {})
    + (if !isUrl(v.coverImage) then {InvalidCoverImage} else {})
    + (if |v.category| < 1 then {NoCategory} else {})
    + (if v.tags == [] then {NoTags} else {})
    + (if |v.seoDescription| < 10 then {SeoDescriptionTooShort} else {})
    + (if v.seoKeywords == [] then {NoKeywords} else {})
  }

  /** `onSubmit`'s `blogData`: the SEO fields move into `seo`, the rest is copied. */
  function Payload(v: BlogFormValues): (p: BlogPayload)
    ensures p.seo.description == v.seoDescription && p.seo.keywords == v.seoKeywords
    ensures p.title == v.title && p.content == v.content && p.excerpt == v.excerpt
    ensures p.coverImage == v.coverImage && p.category == v.category && p.tags == v.tags
  {
    BlogPayload(v.title, v.content, v.excerpt, v.coverImage, v.category, v.tags,
                Seo(v.seoDescription, v.seoKeywords))
  }

  /** Different form values never give the same payload: nothing is lost in the nesting. */
  lemma PayloadInjective(v1: BlogFormValues, v2: BlogFormValues)
    requires Payload(v1) == Payload(v2)
    ensures v1 == v2
  {
  }

  /** An empty tag input still yields one (empty) tag, which passes the "at least one tag" rule. */
  lemma EmptyTagInputPasses(v: BlogFormValues, isUrl: string -> bool)
    ensures NoTags !in Validate(v.(tags := ParseList("")), isUrl)
    ensures NoKeywords !in Validate(v.(seoKeywords := ParseList("")), isUrl)
  {
    ParseEmpty();
  }

  /** How the Cloudinary upload went: no file chosen, a thrown error, or the returned `secure_url`. */
  datatype Upload = NoFile | UploadFailed | Uploaded(secureUrl: string)

  /** The form, its two flags, and the payloads it sent. */
  class BlogForm {
    var values: BlogFormValues
    var isSubmitting: bool
    var isUploading: bool
    var sent: seq<BlogPayload>

    constructor()
      ensures values == DefaultValues && !isSubmitting && !isUploading && sent == []
    {
      values := DefaultValues;
      isSubmitting := false;
      isUploading := false;
      sent := [];
    }

    /** The tag input's `onChange`. */
    method OnTagsInput(text: string)
      modifies this
      ensures values == old(values).(tags := ParseList(text))
      ensures isSubmitting == old(isSubmitting) && isUploading == old(isUploading) && sent == old(sent)
    {
      values := values.(tags := ParseList(text));
    }

    /** The keyword input's `onChange`, by the same rule. */
    method OnKeywordsInput(text: string)
      modifies this
      ensures values == old(values).(seoKeywords := ParseList(text))
      ensures isSubmitting == old(isSubmitting) && isUploading == old(isUploading) && sent == old(sent)
    {
      values := values.(seoKeywords := ParseList(text));
    }

    /** `handleImageUpload`: the returned URL becomes the cover; `isUploading` is cleared on every path. */
    method HandleImageUpload(upload: Upload)
      modifies this
      ensures upload.Uploaded? ==> values == old(values).(coverImage := upload.secureUrl)
      ensures !upload.Uploaded? ==> values == old(values)
      ensures upload.NoFile? ==> isUploading == old(isUploading)
      ensures !upload.NoFile? ==> !isUploading
      ensures isSubmitting == old(isSubmitting) && sent == old(sent)
    {
      if upload.NoFile? {
        return;
      }
      isUploading := true;
      if upload.Uploaded? {
        values := values.(coverImage := upload.secureUrl);
      }
      isUploading := false;
    }

    /** Submit: `handleSubmit` calls `onSubmit` only on valid values; `isSubmitting` is cleared in its `finally`. */
    method Submit(isUrl: string -> bool)
      modifies this
      ensures Validate(old(values), isUrl) != {} ==> sent == old(sent) && isSubmitting == old(isSubmitting)
      ensures Validate(old(values), isUrl) == {} ==> sent == old(sent) + [Payload(old(values))] && !isSubmitting
      ensures values == old(values) && isUploading == old(isUploading)
    {
      if Validate(values, isUrl) != {} {
        return;
      }
      isSubmitting := true;
      sent := sent + [Payload(values)];
      isSubmitting := false;
    }
  }
}
