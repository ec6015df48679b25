/** The request-body schemas of src/validators/blogValidator.ts. Each schema
    is given twice: as the issues zod reports for a body (in the order of the
    schema's keys) and as a declarative acceptance predicate; a body parses
    exactly when it is accepted. */
module BlogValidator {
  import opened Common
  import opened Zod

  /** The data `createSchema` yields (unknown keys are stripped). */
  datatype CreateData = CreateData(
    slug: string,
    title: string,
    category: string,
    coverImage: Option<string>,
    content: seq<Record>)

  /** The data `updateSchema` yields: every key optional. */
  datatype UpdateData = UpdateData(
    coverImage: Option<string>,
    slug: Option<string>,
    title: Option<string>,
    category: Option<string>,
    content: Option<seq<Record>>)

  predicate SlugOk(v: Option<Json>) { IsStringWithin(v, 1, Some(64)) }
  predicate TitleOk(v: Option<Json>) { IsStringWithin(v, 1, Some(255)) }
  predicate CategoryOk(v: Option<Json>) { IsStringWithin(v, 1, Some(64)) }
  predicate CoverImageOk(v: Option<Json>) { v.None? || IsStringWithin(v, 0, None) }

  /** createSchema accepts the body. */
  predicate CreateSchema(body: Json) {
    && body.JObject?
    && SlugOk(Field(body.fields, "slug"))
    && TitleOk(Field(body.fields, "title"))
    && CategoryOk(Field(body.fields, "category"))
    && CoverImageOk(Field(body.fields, "coverImage"))
    && IsRecordArray(Field(body.fields, "content"))
  }

  function CreateIssues(body: Json): (r: seq<Issue>)
    ensures r == [] <==> CreateSchema(body)
  {
    if !body.JObject? then NotAnObject(body)
    else
      var f := body.fields;
      StringIssues(["slug"], Field(f, "slug"), 1, Some(64))
      + StringIssues(["title"], Field(f, "title"), 1, Some(255))
      + StringIssues(["category"], Field(f, "category"), 1, Some(64))
      + Optional(Field(f, "coverImage"), StringIssues(["coverImage"], Field(f, "coverImage"), 0, None))
      + RecordArrayIssues(["content"], Field(f, "content"))
  }

  /** The JSON array holds exactly these records, in this order. */
  predicate HoldsRecords(v: Option<Json>, content: seq<Record>) {
    && v.Some? && v.value.JArray? && |v.value.items| == |content|
    && forall i | 0 <= i < |content| :: v.value.items[i] == JObject(content[i])
  }

  /** `createSchema.spa(body)`. */
  function ParseCreate(body: Json): (r: Parsed<CreateData>)
    ensures r.Success? <==> CreateSchema(body)
    ensures r.Failure? ==> r.issues == CreateIssues(body) && r.issues != []
    ensures r.Success? ==>
      && 1 <= |r.data.slug| <= 64 && 1 <= |r.data.title| <= 255 && 1 <= |r.data.category| <= 64
      && Field(body.fields, "slug") == Some(JString(r.data.slug))
      && Field(body.fields, "title") == Some(JString(r.data.title))
      && Field(body.fields, "category") == Some(JString(r.data.category))
      && (r.data.coverImage.None? <==> "coverImage" !in body.fields)
      && (r.data.coverImage.Some? ==> Field(body.fields, "coverImage") == Some(JString(r.data.coverImage.value)))
      && HoldsRecords(Field(body.fields, "content"), r.data.content)
  {
    var issues := CreateIssues(body);
    if issues != [] then Failure(issues)
    else
      var f := body.fields;
      var cover := Field(f, "coverImage");
      var content := Records(Field(f, "content"));
      Success(CreateData(
        Field(f, "slug").value.s,
        Field(f, "title").value.s,
        Field(f, "category").value.s,
        if cover.None? then None else Some(cover.value.s),
        content))
  }

  /** updateSchema accepts the body: every key may be missing, a present key
      meets the same rule as in createSchema. */
  predicate UpdateSchema(body: Json) {
    && body.JObject?
    && CoverImageOk(Field(body.fields, "coverImage"))
    && (Field(body.fields, "slug").None? || SlugOk(Field(body.fields, "slug")))
    && (Field(body.fields, "title").None? || TitleOk(Field(body.fields, "title")))
    && (Field(body.fields, "category").None? || CategoryOk(Field(body.fields, "category")))
    && (Field(body.fields, "content").None? || IsRecordArray(Field(body.fields, "content")))
  }

  function UpdateIssues(body: Json): (r: seq<Issue>)
    ensures r == [] <==> UpdateSchema(body)
  {
    if !body.JObject? then NotAnObject(body)
    else
      var f := body.fields;
      Optional(Field(f, "coverImage"), StringIssues(["coverImage"], Field(f, "coverImage"), 0, None))
      + Optional(Field(f, "slug"), StringIssues(["slug"], Field(f, "slug"), 1, Some(64)))
      + Optional(Field(f, "title"), StringIssues(["title"], Field(f, "title"), 1, Some(255)))
      + Optional(Field(f, "category"), StringIssues(["category"], Field(f, "category"), 1, Some(64)))
      + Optional(Field(f, "content"), RecordArrayIssues(["content"], Field(f, "content")))
  }

  function OptionalString(v: Option<Json>): Option<string>
    requires v.None? || v.value.JString?
  {
    if v.None? then None else Some(v.value.s)
  }

  /** `updateSchema.spa(body)`. */
  function ParseUpdate(body: Json): (r: Parsed<UpdateData>)
    ensures r.Success? <==> UpdateSchema(body)
    ensures r.Failure? ==> r.issues == UpdateIssues(body) && r.issues != []
    ensures r.Success? && r.data.slug.Some? ==> 1 <= |r.data.slug.value| <= 64
    ensures r.Success? && r.data.title.Some? ==> 1 <= |r.data.title.value| <= 255
    ensures r.Success? && r.data.category.Some? ==> 1 <= |r.data.category.value| <= 64
    ensures r.Success? ==>
      && (r.data.coverImage.Some? <==> "coverImage" in body.fields)
      && (r.data.slug.Some? <==> "slug" in body.fields)
      && (r.data.title.Some? <==> "title" in body.fields)
      && (r.data.category.Some? <==> "category" in body.fields)
      && (r.data.content.Some? <==> "content" in body.fields)
    ensures r.Success? ==>
      && (r.data.coverImage.Some? ==> Field(body.fields, "coverImage") == Some(JString(r.data.coverImage.value)))
      && (r.data.slug.Some? ==> Field(body.fields, "slug") == Some(JString(r.data.slug.value)))
      && (r.data.title.Some? ==> Field(body.fields, "title") == Some(JString(r.data.title.value)))
      && (r.data.category.Some? ==> Field(body.fields, "category") == Some(JString(r.data.category.value)))
      && (r.data.content.Some? ==> HoldsRecords(Field(body.fields, "content"), r.data.content.value))
  {
    var issues := UpdateIssues(body);
    if issues != [] then Failure(issues)
    else
      var f := body.fields;
      var content := Field(f, "content");
      Success(UpdateData(
        OptionalString(Field(f, "coverImage")),
        OptionalString(Field(f, "slug")),
        OptionalString(Field(f, "title")),
        OptionalString(Field(f, "category")),
        if content.None? then None else Some(Records(content))))
  }

  /** An empty object is a valid update. */
  lemma UpdateAcceptsEmptyObject()
    ensures ParseUpdate(JObject(map[])) == Success(UpdateData(None, None, None, None, None))
  {
  }

  /** Every body createSchema accepts, updateSchema accepts too. */
  lemma CreateImpliesUpdate(body: Json)
    requires CreateSchema(body)
    ensures UpdateSchema(body)
  {
  }

  /** Dropping coverImage from an accepted create body keeps it accepted. */
  lemma {:induction false} CoverImageMayBeAbsent(body: Json)
    requires CreateSchema(body)
    ensures CreateSchema(JObject(body.fields - {"coverImage"}))
  {
    var f := body.fields;
    var g := f - {"coverImage"};
    assert Field(g, "slug") == Field(f, "slug");
    assert Field(g, "title") == Field(f, "title");
    assert Field(g, "category") == Field(f, "category");
    assert Field(g, "content") == Field(f, "content");
  }

  /** Dropping content from a create body makes it rejected. */
  lemma ContentIsRequired(body: Json)
    requires body.JObject?
    ensures !CreateSchema(JObject(body.fields - {"content"}))
  {
    assert Field(body.fields - {"content"}, "content") == None;
  }

  /** A slug longer than 64 characters is refused by both schemas. */
  lemma LongSlugRejected(body: Json)
    requires body.JObject? && Field(body.fields, "slug").Some?
    requires Field(body.fields, "slug").value.JString? && |Field(body.fields, "slug").value.s| > 64
    ensures ParseCreate(body).Failure? && ParseUpdate(body).Failure?
  {
  }
}
