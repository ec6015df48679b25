/** src/controller/blogController.ts over the blog collection. The collection
    is a map from id to record together with the ids in insertion order, which
    is the order a query without a sort returns documents in. The queries are
    functions of that ordered view; the writes are methods of BlogTable. */
module BlogController {
  import opened Common
  import opened Zod
  import opened Records

  /** The `{[key]: value}` an updateBlog call sets. A key that is not one of
      the blog schema's paths is dropped by the store: `title`, which the
      schema does not declare, and any other name (`SetUnknownPath`). */
  datatype BlogEdit =
    | SetContent(content: seq<Record>)
    | SetTitle(title: string)
    | SetSlug(slug: string)
    | SetCoverImage(coverImage: string)
    | SetUnknownPath(path: string)

  /** The record after `$set: {[key]: value, lastEditedAt: now}` under the
      schema's strict mode: the declared path is set, lastEditedAt becomes
      `now`, and nothing else changes. */
  function ApplyEdit(b: Blog, e: BlogEdit, now: Time): (r: Blog)
    ensures r.lastEditedAt == now
    ensures r.id == b.id && r.name == b.name && r.title == b.title && r.author == b.author
    ensures r.isPublished == b.isPublished && r.views == b.views
    ensures r.category == b.category && r.description == b.description
    ensures r.content == if e.SetContent? then e.content else b.content
    ensures r.slug == if e.SetSlug? then e.slug else b.slug
    ensures r.coverImage == if e.SetCoverImage? then Some(e.coverImage) else b.coverImage
    ensures e.SetTitle? || e.SetUnknownPath? ==> r == b.(lastEditedAt := now)
  {
    var b' := b.(lastEditedAt := now);
    match e
    case SetContent(c) => b'.(content := c)
    case SetTitle(_) => b'
    case SetSlug(s) => b'.(slug := s)
    case SetCoverImage(c) => b'.(coverImage := Some(c))
    case SetUnknownPath(_) => b'
  }

  /** The document createBlog builds: the given paths, `isPublished` false,
      `views` from its default; `name`, `coverImage` and `description` unset. */
  function NewBlog(id: Id, title: string, slug: string, authorId: Id, category: string,
                   content: seq<Record>, now: Time): (b: Blog)
    ensures b.id == id && b.slug == slug && b.author == authorId && b.content == content
    ensures b.category == Some(category) && b.lastEditedAt == now
    ensures !b.isPublished && b.views == DefaultViews
    ensures b.name.None? && b.coverImage.None? && b.description.None?
  {
    Blog(id, None, title, slug, content, None, authorId, false, DefaultViews, Some(category), now, None)
  }

  /** The document createBlog builds never passes the schema: `name` is missing. */
  lemma NewBlogFailsSchema(id: Id, title: string, slug: string, authorId: Id, category: string,
                           content: seq<Record>, now: Time)
    ensures !BlogSchemaValid(NewBlog(id, title, slug, authorId, category, content, now))
    ensures "name: name is required" in BlogValidationFailures(NewBlog(id, title, slug, authorId, category, content, now))
    ensures "coverImage: coverImage is required" in BlogValidationFailures(NewBlog(id, title, slug, authorId, category, content, now))
  {
  }

  // ---------------------------------------------------------------------------
  // Queries over the documents in natural order

  /** No string occurs twice: distinct ids, or distinct categories. */
  predicate NoDuplicates(s: seq<string>) {
    forall i, j | 0 <= i < j < |s| :: s[i] != s[j]
  }

  /** The records of `blogs` in the order of `order`. */
  function InOrder(order: seq<Id>, blogs: map<Id, Blog>): (docs: seq<Blog>)
    requires forall i | 0 <= i < |order| :: order[i] in blogs
    ensures |docs| == |order| && forall i | 0 <= i < |order| :: docs[i] == blogs[order[i]]
  {
    seq(|order|, i requires 0 <= i < |order| => blogs[order[i]])
  }

  /** getAllBlogs: every stored blog, published or not, each once. */
  function GetAllBlogs(docs: seq<Blog>): (r: seq<Blog>)
    ensures multiset(r) == multiset(docs)
  {
    docs
  }

  function Abs(n: int): nat { if n < 0 then -n else n }

  /** A find's `limit` option as the MongoDB driver reads it: absent or 0 means
      every document; n > 0 the first n; n < 0 a single batch of the first -n. */
  function Limit(s: seq<Blog>, limit: Option<int>): (r: seq<Blog>)
    ensures r <= s
    ensures limit.None? || limit.value == 0 ==> r == s
    ensures limit.Some? && limit.value != 0 ==> |r| == if |s| < Abs(limit.value) then |s| else Abs(limit.value)
  {
    if limit.Some? && 0 < Abs(limit.value) < |s| then s[..Abs(limit.value)] else s
  }

  /** A prefix holds no record more often than the whole sequence. */
  lemma PrefixMultiset(r: seq<Blog>, s: seq<Blog>)
    requires r <= s
    ensures multiset(r) <= multiset(s)
  {
    assert s == r + s[|r|..];
  }

  /** The documents whose category equals `category`, in their order: each
      matching record as often as in `docs`, no other record. */
  function WithCategory(docs: seq<Blog>, category: string): (r: seq<Blog>)
    ensures forall i | 0 <= i < |r| :: r[i].category == Some(category)
    ensures forall b :: multiset(r)[b] == if b.category == Some(category) then multiset(docs)[b] else 0
    ensures multiset(r) <= multiset(docs)
  {
    if docs == [] then []
    else
      var rest := WithCategory(docs[1..], category);
      assert docs == [docs[0]] + docs[1..];
      if docs[0].category == Some(category) then [docs[0]] + rest else rest
  }

  /** getBlogByCategory: `find({category}, null, {limit})`. */
  function GetBlogByCategory(docs: seq<Blog>, category: string, limit: Option<int>): (r: seq<Blog>)
    ensures forall i | 0 <= i < |r| :: r[i].category == Some(category)
    ensures multiset(r) <= multiset(docs)
    ensures limit.Some? && limit.value != 0 ==> |r| <= Abs(limit.value)
    ensures limit.None? || limit.value == 0 ==>
      forall b :: multiset(r)[b] == if b.category == Some(category) then multiset(docs)[b] else 0
  {
    var all := WithCategory(docs, category);
    var r := Limit(all, limit);
    assert forall i | 0 <= i < |r| :: r[i] == all[i];
    PrefixMultiset(r, all);
    r
  }

  predicate ViewsNonIncreasing(s: seq<Blog>) {
    forall i, j | 0 <= i < j < |s| :: s[i].views >= s[j].views
  }

  /** Places `b` into a list sorted by views, before the first one with fewer. */
  function InsertByViews(b: Blog, sorted: seq<Blog>): (r: seq<Blog>)
    ensures |r| == |sorted| + 1
  {
    if sorted == [] then [b]
    else if sorted[0].views <= b.views then [b] + sorted
    else [sorted[0]] + InsertByViews(b, sorted[1..])
  }

  /** Insertion adds exactly `b` to the multiset of records. */
  lemma {:induction false} InsertByViewsPermutes(b: Blog, sorted: seq<Blog>)
    ensures multiset(InsertByViews(b, sorted)) == multiset(sorted) + multiset{b}
  {
    if sorted != [] && sorted[0].views > b.views {
      InsertByViewsPermutes(b, sorted[1..]);
      assert sorted == [sorted[0]] + sorted[1..];
    }
  }

  /** Insertion into a list sorted by views keeps it sorted. */
  lemma {:induction false} InsertByViewsSorted(b: Blog, sorted: seq<Blog>)
    requires ViewsNonIncreasing(sorted)
    ensures ViewsNonIncreasing(InsertByViews(b, sorted))
  {
    if sorted != [] && sorted[0].views > b.views {
      var rest := InsertByViews(b, sorted[1..]);
      InsertByViewsSorted(b, sorted[1..]);
      InsertByViewsPermutes(b, sorted[1..]);
      forall i | 0 <= i < |rest|
        ensures rest[i].views <= sorted[0].views
      {
        assert rest[i] in multiset(sorted[1..]) + multiset{b};
      }
    }
  }

  /** The documents sorted by `views`, highest first (`sort: {views: -1}`). */
  function SortByViews(docs: seq<Blog>): (r: seq<Blog>)
    ensures ViewsNonIncreasing(r)
    ensures multiset(r) == multiset(docs)
  {
    if docs == [] then []
    else
      var rest := SortByViews(docs[1..]);
      InsertByViewsSorted(docs[0], rest);
      InsertByViewsPermutes(docs[0], rest);
      assert docs == [docs[0]] + docs[1..];
      InsertByViews(docs[0], rest)
  }

  /** The limit getPopularBlogs passes on: `limit || -1`, where None stands
      for an undefined or NaN limit. */
  function PopularLimit(limit: Option<int>): (n: int)
    ensures n != 0
    ensures limit.Some? && limit.value != 0 ==> n == limit.value
  {
    if limit.None? || limit.value == 0 then -1 else limit.value
  }

  /** getPopularBlogs: the most viewed blogs first, cut by `limit || -1`; with
      no limit that is a single document. */
  function GetPopularBlogs(docs: seq<Blog>, limit: Option<int>): (r: seq<Blog>)
    ensures ViewsNonIncreasing(r)
    ensures multiset(r) <= multiset(docs)
    ensures |r| == if |docs| < Abs(PopularLimit(limit)) then |docs| else Abs(PopularLimit(limit))
    ensures limit.None? || limit.value == 0 ==> |r| <= 1
    ensures |r| == 0 <==> |docs| == 0
    ensures forall i, j | 0 <= i < |r| && 0 <= j < |docs| && docs[j] !in r :: r[i].views >= docs[j].views
  {
    var sorted := SortByViews(docs);
    var r := Limit(sorted, Some(PopularLimit(limit)));
    assert forall i | 0 <= i < |r| :: r[i] == sorted[i];
    PrefixMultiset(r, sorted);
    assert forall b | b in r :: b in multiset(sorted);
    assert |sorted| == |docs| by {
      assert |multiset(sorted)| == |multiset(docs)|;
    }
    var n := Abs(PopularLimit(limit));
    assert |r| == if |docs| < n then |docs| else n;
    PrefixHoldsTheMost(sorted, |r|);
    forall j | 0 <= j < |docs| && docs[j] !in r
      ensures exists k | |r| <= k < |sorted| :: sorted[k] == docs[j]
    {
      assert docs[j] in multiset(sorted);
      var k :| 0 <= k < |sorted| && sorted[k] == docs[j];
      assert r == sorted[..|r|];
    }
    r
  }

  /** In a list sorted by views, each of the first n has at least the views of
      any later one. */
  lemma PrefixHoldsTheMost(sorted: seq<Blog>, n: nat)
    requires ViewsNonIncreasing(sorted) && n <= |sorted|
    ensures forall i, k | 0 <= i < n <= k < |sorted| :: sorted[i].views >= sorted[k].views
  {
  }

  /** Position of the first document with this slug, or |docs| when none has it. */
  function SlugIndex(docs: seq<Blog>, slug: string): (k: nat)
    ensures k <= |docs|
    ensures forall j | 0 <= j < k :: docs[j].slug != slug
    ensures k < |docs| ==> docs[k].slug == slug
  {
    if docs == [] then 0
    else if docs[0].slug == slug then 0
    else 1 + SlugIndex(docs[1..], slug)
  }

  /** getBlogBySlug: `findOne({slug})`, the first document with the slug, or null. */
  function GetBlogBySlug(docs: seq<Blog>, slug: string): (r: Option<Blog>)
    ensures r.None? <==> forall i | 0 <= i < |docs| :: docs[i].slug != slug
    ensures r.Some? ==> r.value.slug == slug
    ensures r.Some? ==>
      exists k | 0 <= k < |docs| :: docs[k] == r.value && forall j | 0 <= j < k :: docs[j].slug != slug
  {
    var k := SlugIndex(docs, slug);
    if k < |docs| then Some(docs[k]) else None
  }

  predicate HasCategory(docs: seq<Blog>, c: string) {
    exists i | 0 <= i < |docs| :: docs[i].category == Some(c)
  }

  /** getAllUniqueCategory: `distinct('category')`, each stored category once. */
  function GetAllUniqueCategory(docs: seq<Blog>): (r: seq<string>)
    ensures NoDuplicates(r)
    ensures forall c :: c in r <==> HasCategory(docs, c)
  {
    if docs == [] then []
    else
      var front := docs[..|docs| - 1];
      var last := docs[|docs| - 1];
      var rest := GetAllUniqueCategory(front);
      assert forall c :: HasCategory(docs, c) <==> HasCategory(front, c) || last.category == Some(c) by {
        forall c ensures HasCategory(docs, c) <==> HasCategory(front, c) || last.category == Some(c) {
          if HasCategory(front, c) {
            var i :| 0 <= i < |front| && front[i].category == Some(c);
            assert docs[i] == front[i];
          }
        }
      }
      if last.category.None? || last.category.value in rest then rest else rest + [last.category.value]
  }

  // ---------------------------------------------------------------------------
  // The collection and its writes

  class BlogTable {
    var blogs: map<Id, Blog>
    /** The ids in insertion order. */
    var order: seq<Id>

    ghost predicate Valid()
      reads this
    {
      && (forall id | id in blogs :: blogs[id].id == id)
      && (forall i | 0 <= i < |order| :: order[i] in blogs)
      && (forall id | id in blogs :: id in order)
      && NoDuplicates(order)
    }

    /** The documents as a query without a sort returns them. */
    function Docs(): (docs: seq<Blog>)
      reads this
      requires Valid()
      ensures |docs| == |order|
    {
      InOrder(order, blogs)
    }

    constructor ()
      ensures Valid() && blogs == map[] && order == []
    {
      blogs := map[];
      order := [];
    }

    /** `doc.save()` for a new document: the schema's validators run first; a
        document that fails them is not written. */
    method Save(doc: Blog) returns (r: Result<Blog, StoreError>)
      requires Valid() && doc.id !in blogs
      modifies this
      ensures Valid()
      ensures r.Ok? <==> BlogSchemaValid(doc)
      ensures r.Ok? ==> r.value == doc && blogs == old(blogs)[doc.id := doc] && order == old(order) + [doc.id]
      ensures r.Err? ==> blogs == old(blogs) && order == old(order)
      ensures r.Err? ==> r.error == ValidationError("Blogs", BlogValidationFailures(doc))
    {
      var failures := BlogValidationFailures(doc);
      BlogValidationFailuresEmpty(doc);
      if failures != [] {
        r := Err(ValidationError("Blogs", failures));
      } else {
        blogs := blogs[doc.id := doc];
        order := order + [doc.id];
        r := Ok(doc);
      }
    }

    /** createBlog: builds the document and saves it. Since the document lacks
        the required `name` and `coverImage`, the save is always rejected with
        a validation error, and nothing is written. */
    method CreateBlog(title: string, slug: string, authorId: Id, category: string,
                      content: seq<Record>, now: Time, newId: Id)
      returns (r: Result<Blog, StoreError>)
      requires Valid() && newId !in blogs
      modifies this
      ensures Valid()
      ensures r.Err? && r.error.code == None && !StartsWith(r.error.message, "E11000")
      ensures r.error == ValidationError("Blogs", BlogValidationFailures(NewBlog(newId, title, slug, authorId, category, content, now)))
      ensures blogs == old(blogs) && order == old(order)
    {
      var doc := NewBlog(newId, title, slug, authorId, category, content, now);
      NewBlogFailsSchema(newId, title, slug, authorId, category, content, now);
      r := Save(doc);
      assert r.error.message[0] == 'B';
    }

    /** updateBlog: `findOneAndUpdate({_id}, {$set: {[key]: value, lastEditedAt}}, {new: true})`.
        Only a declared edited path and lastEditedAt change (see ApplyEdit);
        isPublished is left as it was. */
    method UpdateBlog(id: Id, edit: BlogEdit, now: Time) returns (r: Option<Blog>)
      requires Valid()
      modifies this
      ensures Valid() && order == old(order)
      ensures id !in old(blogs) ==> r == None && blogs == old(blogs)
      ensures id in old(blogs) ==>
        && r == Some(ApplyEdit(old(blogs)[id], edit, now))
        && blogs == old(blogs)[id := r.value]
        && r.value.isPublished == old(blogs)[id].isPublished
        && r.value.lastEditedAt == now
    {
      if id in blogs {
        var b := ApplyEdit(blogs[id], edit, now);
        blogs := blogs[id := b];
        r := Some(b);
      } else {
        r := None;
      }
    }

    /** deleteBlog: `findOneAndDelete({_id: id})`; the removed record, or null. */
    method DeleteBlog(id: Id) returns (r: Option<Blog>)
      requires Valid()
      modifies this
      ensures Valid()
      ensures id !in old(blogs) ==> r == None && blogs == old(blogs) && order == old(order)
      ensures id in old(blogs) ==> r == Some(old(blogs)[id])
      ensures blogs == old(blogs) - {id}
      ensures order == Without(old(order), id)
    {
      if id in blogs {
        r := Some(blogs[id]);
        blogs := blogs - {id};
        order := Without(order, id);
        assert forall i | 0 <= i < |order| :: order[i] in order;
      } else {
        r := None;
      }
    }

    /** publishBlog: sets isPublished and nothing else; the updated record, or null. */
    method PublishBlog(id: Id) returns (r: Option<Blog>)
      requires Valid()
      modifies this
      ensures Valid() && order == old(order)
      ensures id !in old(blogs) ==> r == None && blogs == old(blogs)
      ensures id in old(blogs) ==>
        && r == Some(old(blogs)[id].(isPublished := true))
        && blogs == old(blogs)[id := r.value]
      ensures id in old(blogs) && old(blogs)[id].isPublished ==> blogs == old(blogs)
    {
      if id in blogs {
        var b := blogs[id].(isPublished := true);
        blogs := blogs[id := b];
        r := Some(b);
      } else {
        r := None;
      }
    }

    /** getBlogById: reads the record, then increments its views by one; the
        answer is the record as read, before the increment. */
    method GetBlogById(id: Id) returns (r: Option<Blog>)
      requires Valid()
      modifies this
      ensures Valid() && order == old(order)
      ensures id !in old(blogs) ==> r == None && blogs == old(blogs)
      ensures id in old(blogs) ==>
        && r == Some(old(blogs)[id])
        && blogs == old(blogs)[id := old(blogs)[id].(views := old(blogs)[id].views + 1)]
    {
      if id in blogs {
        var blog := blogs[id];
        blogs := blogs[id := blog.(views := blog.views + 1)];
        r := Some(blog);
      } else {
        r := None;
      }
    }
  }

  /** The ids without `id`, order kept (see WithoutCutsOne). */
  function Without(order: seq<Id>, id: Id): (r: seq<Id>)
    ensures forall x :: x in r <==> x in order && x != id
    ensures NoDuplicates(order) ==> NoDuplicates(r)
    ensures id !in order ==> r == order
  {
    if order == [] then []
    else
      var rest := Without(order[1..], id);
      if order[0] == id then rest
      else
        assert NoDuplicates(order) ==> order[0] !in order[1..];
        [order[0]] + rest
  }

  /** For distinct ids, Without cuts the one position holding `id` out of the
      sequence and keeps the rest in order. */
  lemma {:induction false} WithoutCutsOne(order: seq<Id>, id: Id, k: int)
    requires NoDuplicates(order) && 0 <= k < |order| && order[k] == id
    ensures Without(order, id) == order[..k] + order[k + 1..]
  {
    if k == 0 {
      assert id !in order[1..];
    } else {
      assert NoDuplicates(order[1..]);
      assert order[1..][k - 1] == id;
      WithoutCutsOne(order[1..], id, k - 1);
      assert order[0] != id;
      assert [order[0]] + (order[1..][..k - 1] + order[1..][k..]) == order[..k] + order[k + 1..];
    }
  }
}
