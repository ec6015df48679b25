/** The handlers of src/api/route/blogRoute.ts. The public routes only read
    the collection and are functions of its documents in natural order
    (`BlogTable.Docs()`); the routes behind passport are methods on the table.
    Where a handler reports validation issues it uses the path-to-message map
    of getZodError (see the finding on its argument in the README). */
module BlogRoute {
  import opened Common
  import opened Zod
  import opened Records
  import opened Util
  import opened BlogValidator
  import opened BlogController
  import opened Http

  const CategoryRequired := "Category is required"
  const SlugRequired := "Slug is required"
  const SlugMissing := "slug is required"
  const SlugTaken := "Slug already taken"
  const SomethingWrong := "Something went wrong"
  const BlogNotFound := "Blog not found"

  /** GET /getAll: every blog, published or not; the parsed `limit` and `skip`
      are not used by getAllBlogs. */
  function GetAll(docs: seq<Blog>, limit: Option<int>, skip: Option<int>): (resp: Response)
    ensures resp.Response? && resp.status == 200 && resp.body.Blogs?
    ensures multiset(resp.body.blogs) == multiset(docs)
  {
    Response(200, Blogs(GetAllBlogs(docs)))
  }

  /** The route's limit: `parseInt(req.query.limit)` when the query has one,
      otherwise -1. `parseInt` enters as a function; None stands for NaN. */
  function PopularQueryLimit(query: Option<string>, parseInt: string -> Option<int>): (limit: Option<int>)
    ensures query.None? || query.value == "" ==> limit == Some(-1)
    ensures query.Some? && query.value != "" ==> limit == parseInt(query.value)
  {
    if query.Some? && query.value != "" then parseInt(query.value) else Some(-1)
  }

  /** GET /getPopular: the most viewed blogs first; without a usable limit the
      answer holds at most one blog. */
  function GetPopular(docs: seq<Blog>, query: Option<string>, parseInt: string -> Option<int>): (resp: Response)
    ensures resp.Response? && resp.status == 200 && resp.body.Blogs?
    ensures ViewsNonIncreasing(resp.body.blogs)
    ensures multiset(resp.body.blogs) <= multiset(docs)
    ensures query.None? || query.value == "" ==> |resp.body.blogs| <= 1
    ensures |resp.body.blogs| == 0 <==> |docs| == 0
    ensures var n := Abs(PopularLimit(PopularQueryLimit(query, parseInt)));
      |resp.body.blogs| == if |docs| < n then |docs| else n
    ensures forall i, j | 0 <= i < |resp.body.blogs| && 0 <= j < |docs| && docs[j] !in resp.body.blogs ::
      resp.body.blogs[i].views >= docs[j].views
  {
    var limit := PopularQueryLimit(query, parseInt);
    Response(200, Blogs(GetPopularBlogs(docs, limit)))
  }

  /** GET /category/:category: 401 without a category; otherwise the blogs are
      fetched and the answer is an empty object. */
  function Category(docs: seq<Blog>, category: string): (resp: Response)
    ensures category == "" <==> resp == Response(401, Message(CategoryRequired))
    ensures category != "" ==> resp == Response(200, EmptyObject)
  {
    if category == "" then Response(401, Message(CategoryRequired))
    else
      var blogs := GetBlogByCategory(docs, category, None);
      Response(200, EmptyObject)
  }

  /** GET /getAllCategory: each category in use, once. */
  function GetAllCategory(docs: seq<Blog>): (resp: Response)
    ensures resp.Response? && resp.status == 200 && resp.body.Categories?
    ensures NoDuplicates(resp.body.categories)
    ensures forall c :: c in resp.body.categories <==> HasCategory(docs, c)
  {
    Response(200, Categories(GetAllUniqueCategory(docs)))
  }

  /** GET /slug?query=: 401 without a slug; otherwise the first blog with that
      slug, published or not, or null. */
  function Slug(docs: seq<Blog>, query: Option<string>): (resp: Response)
    ensures query.None? || query.value == "" <==> resp == Response(401, Message(SlugRequired))
    ensures query.Some? && query.value != "" ==>
      && resp.Response? && resp.status == 200 && resp.body.OneBlog?
      && (resp.body.blog.None? <==> forall i | 0 <= i < |docs| :: docs[i].slug != query.value)
      && (resp.body.blog.Some? ==> resp.body.blog.value.slug == query.value)
      && (resp.body.blog.Some? ==>
            exists k | 0 <= k < |docs| :: docs[k] == resp.body.blog.value && forall j | 0 <= j < k :: docs[j].slug != query.value)
  {
    if query.None? || query.value == "" then Response(401, Message(SlugRequired))
    else Response(200, OneBlog(GetBlogBySlug(docs, query.value)))
  }

  /** The catch of /create and /update: a duplicate-key message means the slug
      is taken; anything else is reported generically. */
  function CreateOutcome(r: Result<Blog, StoreError>): (resp: Response)
    ensures r.Ok? ==> resp == Response(200, OneBlog(Some(r.value)))
    ensures r.Err? ==> resp.Response? && resp.status == 401
    ensures r.Err? ==> (resp.body == Message(SlugTaken) <==> StartsWith(r.error.message, "E11000"))
  {
    match r
    case Ok(blog) => Response(200, OneBlog(Some(blog)))
    case Err(e) =>
      if StartsWith(e.message, "E11000") then Response(401, Message(SlugTaken))
      else Response(401, Message(SomethingWrong))
  }

  /** The body of /create once the request has passed the gates: an invalid
      body is answered with its issues; a valid one reaches createBlog, whose
      document always fails the schema, so the answer is the generic 401. */
  method Create(table: BlogTable, auth: Option<Principal>, body: Json, now: Time, newId: Id)
    returns (resp: Response)
    requires table.Valid() && newId !in table.blogs
    modifies table
    ensures table.Valid() && table.blogs == old(table.blogs) && table.order == old(table.order)
    ensures Guard(auth, [LoggedInGate]).Some? ==> resp == Guard(auth, [LoggedInGate]).value
    ensures auth.Some? && !CreateSchema(body) ==> resp == Response(401, MessageMap(ErrorMap(CreateIssues(body))))
    ensures auth.Some? && CreateSchema(body) ==> resp == Response(401, Message(SomethingWrong))
  {
    var gate := Guard(auth, [LoggedInGate]);
    if gate.Some? {
      return gate.value;
    }
    var schema := ParseCreate(body);
    if schema.Failure? {
      var messages := GetZodError(schema.issues);
      return Response(401, MessageMap(messages));
    }
    var data := schema.data;
    var r := table.CreateBlog(data.title, data.slug, auth.value.id, data.category, data.content, now, newId);
    resp := CreateOutcome(r);
  }

  /** The key updateBlog receives: the parsed body object, which becomes the
      property name "[object Object]" — no path of the blog schema. */
  const ObjectKey := "[object Object]"

  /** POST /update/:slug. The handler calls `updateBlog(userId, schema.data)`:
      the blog looked up is the one whose id is the caller's id, and the only
      path the store sets on it is lastEditedAt. */
  method Update(table: BlogTable, auth: Option<Principal>, slug: string, body: Json, now: Time)
    returns (resp: Response)
    requires table.Valid()
    modifies table
    ensures table.Valid() && table.order == old(table.order)
    ensures Guard(auth, [LoggedInGate]).Some? ==> resp == Guard(auth, [LoggedInGate]).value && table.blogs == old(table.blogs)
    ensures auth.Some? && slug == "" ==> resp == Response(401, Message(SlugMissing)) && table.blogs == old(table.blogs)
    ensures auth.Some? && slug != "" && !UpdateSchema(body) ==>
      resp == Response(401, MessageMap(ErrorMap(UpdateIssues(body)))) && table.blogs == old(table.blogs)
    ensures auth.Some? && slug != "" && UpdateSchema(body) ==>
      var id := auth.value.id;
      && (id !in old(table.blogs) ==> resp == Response(200, OneBlog(None)) && table.blogs == old(table.blogs))
      && (id in old(table.blogs) ==>
            && resp == Response(200, OneBlog(Some(old(table.blogs)[id].(lastEditedAt := now))))
            && table.blogs == old(table.blogs)[id := old(table.blogs)[id].(lastEditedAt := now)])
  {
    var gate := Guard(auth, [LoggedInGate]);
    if gate.Some? {
      return gate.value;
    }
    if slug == "" {
      return Response(401, Message(SlugMissing));
    }
    var schema := ParseUpdate(body);
    if schema.Failure? {
      var messages := GetZodError(schema.issues);
      return Response(401, MessageMap(messages));
    }
    var blog := table.UpdateBlog(auth.value.id, SetUnknownPath(ObjectKey), now);
    resp := Response(200, OneBlog(blog));
  }

  /** POST /publish/:slug, for admins and managers. The slug is handed to
      publishBlog as an id, so only a blog whose id equals the slug is found. */
  method Publish(table: BlogTable, auth: Option<Principal>, slug: string) returns (resp: Response)
    requires table.Valid()
    modifies table
    ensures table.Valid() && table.order == old(table.order)
    ensures Guard(auth, [ManagerGate]).Some? ==> resp == Guard(auth, [ManagerGate]).value && table.blogs == old(table.blogs)
    ensures Guard(auth, [ManagerGate]).None? && slug == "" ==> resp == Response(401, Message(SlugMissing)) && table.blogs == old(table.blogs)
    ensures Guard(auth, [ManagerGate]).None? && slug != "" ==>
      && (slug !in old(table.blogs) ==> resp == Response(401, Message(BlogNotFound)) && table.blogs == old(table.blogs))
      && (slug in old(table.blogs) ==>
            resp == Response(200, PublishedFlag) && table.blogs == old(table.blogs)[slug := old(table.blogs)[slug].(isPublished := true)])
  {
    var gate := Guard(auth, [ManagerGate]);
    if gate.Some? {
      return gate.value;
    }
    if slug == "" {
      return Response(401, Message(SlugMissing));
    }
    var blog := table.PublishBlog(slug);
    if blog.None? {
      return Response(401, Message(BlogNotFound));
    }
    resp := Response(200, PublishedFlag);
  }

  /** DELETE /delete?slug=. The handler branches on the role, passing the
      caller's id only for a normal user, but deleteBlog takes the slug (as an
      id) alone: both branches delete the same blog, whoever owns it. */
  method Delete(table: BlogTable, auth: Option<Principal>, slug: Option<string>) returns (resp: Response)
    requires table.Valid()
    modifies table
    ensures table.Valid()
    ensures Guard(auth, [LoggedInGate]).Some? ==>
      resp == Guard(auth, [LoggedInGate]).value && table.blogs == old(table.blogs) && table.order == old(table.order)
    ensures auth.Some? && (slug.None? || slug.value == "") ==>
      resp == Response(401, Message(SlugMissing)) && table.blogs == old(table.blogs) && table.order == old(table.order)
    ensures auth.Some? && slug.Some? && slug.value != "" ==>
      && resp == Response(200, DeletedBlog(if slug.value in old(table.blogs) then Some(old(table.blogs)[slug.value]) else None))
      && table.blogs == old(table.blogs) - {slug.value}
      && table.order == Without(old(table.order), slug.value)
  {
    var gate := Guard(auth, [LoggedInGate]);
    if gate.Some? {
      return gate.value;
    }
    if slug.None? || slug.value == "" {
      return Response(401, Message(SlugMissing));
    }
    var deleted;
    if auth.value.role != Normal {
      deleted := table.DeleteBlog(slug.value);
    } else {
      deleted := table.DeleteBlog(slug.value);
    }
    resp := Response(200, DeletedBlog(deleted));
  }
}
