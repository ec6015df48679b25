# JsonPressAPI core in Dafny

This project models the core of JsonPressAPI, an Express + Mongoose blog API.
It covers:

- the request-body schemas (zod) and the helper that folds validation issues into a path-to-message map;
- the two authorization middlewares;
- the stored users and blogs with the rules their Mongoose schemas add;
- the data-access functions of the two controllers;
- the route handlers of `/user` and `/blog`.

The model follows the code as written:

- **Blog creation always fails.** `createBlog` builds a document without `name` and `coverImage`, which the blog schema requires. Every save is rejected with a validation error, so `POST /blog/create` with a valid body always answers 401 "Something went wrong" (`BlogController.BlogTable.CreateBlog`, `BlogRoute.Create`).
- **Blog update edits the wrong blog.** `POST /blog/update/:slug` calls `updateBlog(userId, schema.data)`. The blog looked up is the one whose id equals the caller's id. The key is the parsed object, which becomes the property name `[object Object]`; that is no schema path, so the only change is `lastEditedAt`. `isPublished` is not reset.
- **Slugs are passed as ids.** `/blog/publish/:slug` and `/blog/delete` hand the slug to functions that match on `_id`. `deleteBlog` takes no owner argument, so the role branch of `/blog/delete` makes no difference: any logged-in user deletes whatever blog the id names.
- **Whole user records are returned.** `getUser` ignores the projection the routes pass. `GET /user/` and `GET /user/getUser/:id` therefore answer with the whole stored record, password hash included.
- **Updates answer with the old record.** `editUser` and `addSocialMedia` do not ask for the updated document, so they answer with the record as it was before the update. `addSocialMedia` asks for the projection `{name: true, socialMedia: true}`, so `/user/addSocial` answers with the old `_id`, `name` and `socialMedia` only.
- **A blog's `title` is never stored.** The blog schema declares no `title` path, and strict mode drops it from the document and from `$set`: `updateBlog(id, 'title', v)` changes only `lastEditedAt`.
- **`getPopularBlogs` may return a single blog.** It passes `limit || -1`, and the MongoDB driver reads a negative limit as a single batch of that many documents. Without a `limit` query, `/blog/getPopular` answers with at most one blog.
- **Route queries are narrower than their names suggest.**
  - `getBlogBySlug` neither filters on `isPublished` nor counts a view.
  - `/blog/category/:category` fetches the blogs but answers with an empty object.
  - `getAllBlogs` ignores the `limit` and `skip` it is given.

Where a handler reports validation issues, the model uses the intended path-to-message map (see Findings).

External collaborators enter as parameters:

- the authenticated principal (`Option<Principal>`);
- bcrypt's compare and hash (`matches`, `hash`);
- the JWT signer (`sign`);
- zod's e-mail and URL tests (`isEmail`, `isUrl`);
- `parseInt`;
- the clock (`now`);
- fresh ObjectIds (`newId`).

Modules, one per file:

| module | file | models |
|---|---|---|
| `Common` | common.dfy | Option, Result, Role, number rendering |
| `Zod` | zod.dfy | JSON bodies, zod issues and the schema primitives |
| `Util` | util.dfy | `getZodError`, `getRangeError` |
| `Authorized` | authorized.dfy | `isLoggedIn`, `isManager` |
| `Records` | records.dfy | User and Blog records, their schema validators and store errors |
| `BlogValidator` | blog_validator.dfy | the blog body schemas |
| `UserValidator` | user_validator.dfy | the user body schemas |
| `UserController` | user_controller.dfy | the user queries and the `UserTable` class |
| `BlogController` | blog_controller.dfy | the blog queries and the `BlogTable` class |
| `Http` | http.dfy | principal, responses, the passport-plus-gates chain |
| `BlogRoute` | blog_route.dfy | the blog handlers |
| `UserRoute` | user_route.dfy | the user handlers |

## Model

| member | source | states |
|---|---|---|
| Util.GetZodError | src/lib/util.ts:10-17 | the loop's map is the fold of the issues in order, each message filed under its path joined with '.'; no issues give the empty map |
| Util.ErrorMapKeys | src/lib/util.ts:13-16 | a key is in the map exactly when some issue's joined path equals it |
| Util.ErrorMapLastWins | src/lib/util.ts:13-14 | for a path several issues share, the message stored is that of the last of them |
| Util.ErrorMapSize | src/lib/util.ts:13-17 | the map has at most one entry per issue |
| Util.IssueArrayArgumentThrows | src/api/route/userRoute.ts:165 | as written, the call with `schema.error.issues` throws, where the ZodError itself would give the map |
| Util.ZodErrorOutcome | src/lib/util.ts:10-17 | getZodError on a ZodError gives a map whose keys are exactly the issues' joined paths; on a bare issue array (no `errors` property) it gives no map |
| Util.GetRangeError | src/lib/util.ts:19-21 | the message begins with the field name |
| Util.Render | src/lib/util.ts:20 | `${n}` of an undefined bound is "undefined"; of an integer, its decimal digits (value read back equal to \|n\|) with no leading zero except for 0 itself, after a minus sign exactly when negative; built on Common.NatToString and Common.IntToString |
| Util.RenderInjective | src/lib/util.ts:20 | distinct bounds (a number or undefined) render as distinct text |
| Util.RangeErrorDeterminesBounds | src/lib/util.ts:19-21 | for one field, equal messages mean equal min and equal max |
| Authorized.IsLoggedIn | src/middleware/authorized.ts:4-10 | proceeds iff the request is authenticated, else 401 "You are not logged in" |
| Authorized.IsManager | src/middleware/authorized.ts:12-23 | proceeds iff authenticated with role admin or manager, else 401 with the admin-or-manager message |
| Authorized.NormalOrAbsentRoleNeverManager | src/middleware/authorized.ts:14-15 | a normal user or one without a role is always rejected |
| Authorized.ManagerImpliesLoggedIn | src/middleware/authorized.ts:4-23 | what isManager admits, isLoggedIn admits |
| Zod.StringIssues | src/validators/blogValidator.ts:4-6 | no issue iff the value is a string within the bounds; every issue carries the key's path |
| Zod.Optional | src/validators/blogValidator.ts:7 | a missing key gives no issue, a present one the inner issues |
| Zod.ElementIssues | src/validators/blogValidator.ts:8 | no issue iff every array element from the index on is an object |
| Zod.RecordArrayIssues | src/validators/blogValidator.ts:8 | no issue iff the value is an array of objects |
| Zod.Records | src/validators/blogValidator.ts:8 | the parsed records are the array's objects, in order |
| Zod.EnumIssues | src/validators/userValidator.ts:20 | no issue iff the value is a string among the options |
| Zod.FormatIssues | src/validators/userValidator.ts:4 | no issue iff the value is a string the format test accepts |
| Zod.NotAnObject | src/validators/blogValidator.ts:3 | a non-object body gives exactly one issue, at the root |
| Records.NewUser | src/models/User.ts:19-32 | `new User({name, email, passwordHash})`: the three given paths and the id; role normal and socialMedia `{}` by default; no image |
| Records.UserValidationFailuresEmpty | src/models/User.ts:6-18 | a user passes validation iff name, email and password hash are non-empty |
| Records.BlogValidationFailuresEmpty | src/models/Blog.ts:6-21 | a blog passes validation iff name, coverImage and slug are present and non-empty |
| Records.ValidationError | src/models/Blog.ts:41 | a rejected save has no driver code and a message "<model> validation failed…" |
| Records.DuplicateKeyError | src/models/User.ts:10-14 | a unique-index violation carries code 11000 and a message starting "E11000" |
| BlogValidator.CreateSchema | src/validators/blogValidator.ts:3-9 | an object whose slug, title and category are strings of 1..64, 1..255 and 1..64 characters, whose coverImage is absent or a string, and whose content is an array of objects |
| BlogValidator.UpdateSchema | src/validators/blogValidator.ts:11-17 | an object each of whose keys is absent or meets the createSchema rule |
| BlogValidator.CreateIssues | src/validators/blogValidator.ts:3-9 | no issue iff the body is accepted by createSchema |
| BlogValidator.ParseCreate | src/validators/blogValidator.ts:3-9 | success iff accepted, else exactly the createSchema issues; the data are the body's own values within their bounds: slug, title, category and coverImage are the body's strings (coverImage absent iff the key is), content the body's array of objects |
| BlogValidator.UpdateIssues | src/validators/blogValidator.ts:11-17 | no issue iff the body is accepted by updateSchema |
| BlogValidator.ParseUpdate | src/validators/blogValidator.ts:11-17 | success iff accepted, else exactly the updateSchema issues; each datum is present iff its key is, and then is the body's value (content the body's array of objects), strings within their bounds |
| BlogValidator.UpdateAcceptsEmptyObject | src/validators/blogValidator.ts:11-17 | `{}` is a valid update with nothing set |
| BlogValidator.CreateImpliesUpdate | src/validators/blogValidator.ts:3-17 | every accepted create body is an accepted update body |
| BlogValidator.CoverImageMayBeAbsent | src/validators/blogValidator.ts:7 | dropping coverImage keeps a create body accepted |
| BlogValidator.ContentIsRequired | src/validators/blogValidator.ts:8 | a create body without content is rejected |
| BlogValidator.LongSlugRejected | src/validators/blogValidator.ts:4-13 | a slug over 64 characters fails both schemas |
| UserValidator.UserCreate | src/validators/userValidator.ts:3-7 | an object with an e-mail the format test accepts, a name of 3..100 and a password of 8..100 characters |
| UserValidator.UserCreateIssues | src/validators/userValidator.ts:3-7 | no issue iff the body is accepted by userCreate |
| UserValidator.ParseUserCreate | src/validators/userValidator.ts:3-7 | success iff accepted; e-mail passes the format, name 3..100, password 8..100 |
| UserValidator.UserPassSchema | src/validators/userValidator.ts:9-12 | an object with an old and a new password, each of 8..100 characters |
| UserValidator.UserPassIssues | src/validators/userValidator.ts:9-12 | no issue iff the body is accepted by userPassSchema |
| UserValidator.ParseUserPass | src/validators/userValidator.ts:9-12 | success iff accepted; both passwords 8..100 |
| UserValidator.UserLogin | src/validators/userValidator.ts:14-17 | an object with an e-mail the format test accepts and a password of 8..100 characters |
| UserValidator.UserLoginIssues | src/validators/userValidator.ts:14-17 | no issue iff the body is accepted by userLogin |
| UserValidator.ParseUserLogin | src/validators/userValidator.ts:14-17 | success iff accepted; the data are the body's e-mail and password |
| UserValidator.PlatformOf | src/validators/userValidator.ts:20 | an enum option maps to the platform of that name |
| UserValidator.UserSocialUpdate | src/validators/userValidator.ts:19-22 | an object whose `type` is website, twitter or instagram and whose `value` passes the URL test |
| UserValidator.UserSocialIssues | src/validators/userValidator.ts:19-22 | no issue iff the body is accepted by userSocialUpdate |
| UserValidator.ParseUserSocial | src/validators/userValidator.ts:19-22 | success iff accepted; the platform is the one named by `type`, the value passes the URL test |
| UserValidator.FacebookRejected | src/validators/userValidator.ts:20 | "facebook" is not an accepted type |
| UserValidator.PasswordBoundsAgree | src/validators/userValidator.ts:3-17 | the three schemas accept a password under the same rule |
| UserValidator.CreateBodyIsLoginBody | src/validators/userValidator.ts:3-17 | an accepted create body is an accepted login body |
| UserController.ApplyPatch | src/controller/userController.ts:14-24 | each path the patch gives takes its value, every other path and the id keep theirs; the empty patch changes nothing |
| UserController.View | src/controller/userController.ts:76-79 | the projection holds the record's `_id`, `name` and `socialMedia` |
| UserController.ViewHidesTheRest | src/controller/userController.ts:76-79 | records with equal id, name and links have equal projections, so the projection reveals no e-mail, image, hash or role |
| UserController.GetUserByEmail | src/controller/userController.ts:37-47 | a user is found iff one has the e-mail, and it is that stored user |
| UserController.GetUser | src/controller/userController.ts:49-59 | the stored record for the id, whole, or null iff none |
| UserController.UserTable.CreateUser | src/controller/userController.ts:5-12 | saved iff name, e-mail and hash are non-empty and the e-mail is unused; the new user has the defaults; a duplicate raises code 11000; a rejected save writes nothing |
| UserController.UserTable.EditUser | src/controller/userController.ts:14-24 | the patch is applied iff the id exists and the e-mail is not another user's; the answer is the old record |
| UserController.UserTable.DeleteUser | src/controller/userController.ts:26-35 | removes the id and answers with the removed record or null |
| UserController.UserTable.AddSocialMedia | src/controller/userController.ts:61-83 | sets the one platform link and nothing else; answers with the projection (id, name, links) of the old record, or null for an unknown id |
| UserController.AddSocialKeepsOtherPlatforms | src/controller/userController.ts:66-67 | other platforms and all other fields are unchanged |
| UserController.PatchKeepsEmailsUnique | src/controller/userController.ts:14-24 | a patch whose e-mail no other user has keeps e-mails unique |
| BlogController.NewBlog | src/controller/blogController.ts:14-22 | the built document has the given id, slug, author, content, category and time, is unpublished with the default views, and has no name, coverImage or description |
| BlogController.ApplyEdit | src/controller/blogController.ts:36-39 | lastEditedAt becomes the time; content, slug or coverImage takes the edit's value; a title or any unknown path changes nothing else; every other field is kept |
| BlogController.NewBlogFailsSchema | src/controller/blogController.ts:7-24 | the document createBlog builds never passes the blog schema |
| BlogController.GetAllBlogs | src/controller/blogController.ts:79-81 | every stored blog, each once |
| BlogController.Limit | src/controller/blogController.ts:98-121 | a prefix; all for no limit or 0, otherwise \|limit\| documents or all if fewer |
| BlogController.WithCategory | src/controller/blogController.ts:98-110 | every document of that category as often as it is stored, and no other |
| BlogController.GetBlogByCategory | src/controller/blogController.ts:98-110 | stored blogs of that category, none more often than stored; all of them when there is no limit, at most \|limit\| otherwise |
| BlogController.InsertByViewsPermutes | src/controller/blogController.ts:113-116 | insertion adds exactly the one record |
| BlogController.InsertByViewsSorted | src/controller/blogController.ts:113-116 | insertion keeps views non-increasing |
| BlogController.SortByViews | src/controller/blogController.ts:113-116 | views non-increasing and a permutation of the documents |
| BlogController.PopularLimit | src/controller/blogController.ts:117 | `limit \|\| -1`: never 0, a non-zero limit kept |
| BlogController.GetPopularBlogs | src/controller/blogController.ts:112-121 | sorted by views, stored blogs only and none more often than stored, no blog left out has more views than one returned; exactly min(\|docs\|, \|limit \|\| -1\|) blogs, so at most one without a limit; empty iff no blogs |
| BlogController.SlugIndex | src/controller/blogController.ts:123-135 | the first position holding the slug, or the length |
| BlogController.GetBlogBySlug | src/controller/blogController.ts:123-135 | null iff no blog has the slug, else the first that has it |
| BlogController.GetAllUniqueCategory | src/controller/blogController.ts:137-139 | each category in use exactly once, and nothing else |
| BlogController.Without | src/controller/blogController.ts:49-60 | the order without the deleted id, distinctness kept; unchanged when the id is absent |
| BlogController.WithoutCutsOne | src/controller/blogController.ts:49-60 | with distinct ids, the one position holding the id is cut out and the rest keeps its order |
| BlogController.BlogTable.Save | src/controller/blogController.ts:23 | written iff the schema accepts the document; otherwise a validation error and nothing written |
| BlogController.BlogTable.CreateBlog | src/controller/blogController.ts:7-24 | always a validation error whose message does not start with "E11000"; nothing written |
| BlogController.BlogTable.UpdateBlog | src/controller/blogController.ts:26-47 | replaces the blog with that id by ApplyEdit of it (a declared path and lastEditedAt; for title only lastEditedAt) and answers with the new record; null for an unknown id |
| BlogController.BlogTable.DeleteBlog | src/controller/blogController.ts:49-60 | removes the id, the natural order loses that id and nothing else; answers with the removed blog or null |
| BlogController.BlogTable.PublishBlog | src/controller/blogController.ts:61-77 | sets isPublished and nothing else; publishing a published blog changes nothing |
| BlogController.BlogTable.GetBlogById | src/controller/blogController.ts:83-96 | answers with the blog as read, then stores it with views + 1 |
| Http.Public | src/api/route/userRoute.ts:35-41 | the public fields are the user's role, name, image, e-mail and links |
| Http.RunGates | src/middleware/authorized.ts:4-23 | the gates pass iff a manager gate meets an admin or manager; a rejection is the isManager 401 |
| Http.Guard | src/api/route/blogRoute.ts:66-72 | no token: passport's 401; otherwise the handler runs iff the gates pass |
| Http.LoggedInGateNeverRejects | src/api/route/userRoute.ts:53-55 | behind passport, isLoggedIn never answers |
| Http.ManagerRouteAdmits | src/api/route/userRoute.ts:104 | a manager-only route runs exactly for admins and managers |
| BlogRoute.GetAll | src/api/route/blogRoute.ts:23-28 | 200 with every stored blog |
| BlogRoute.PopularQueryLimit | src/api/route/blogRoute.ts:31 | the parsed `limit` query when there is one, otherwise -1 |
| BlogRoute.GetPopular | src/api/route/blogRoute.ts:30-36 | 200 with stored blogs (none more often than stored) sorted by views, no omitted blog having more views than a returned one; exactly min(\|docs\|, \|limit\|) blogs for a parsed `limit` query other than 0, otherwise at most one; empty iff no blogs |
| BlogRoute.Category | src/api/route/blogRoute.ts:38-47 | 401 iff no category, otherwise 200 with an empty object |
| BlogRoute.GetAllCategory | src/api/route/blogRoute.ts:49-52 | 200 with each category in use once |
| BlogRoute.Slug | src/api/route/blogRoute.ts:54-64 | 401 iff no slug, else 200 with the blog at the first position having it, or null iff none has it |
| BlogRoute.CreateOutcome | src/api/route/blogRoute.ts:83-91 | 200 with the blog; an "E11000" error gives "Slug already taken", any other "Something went wrong", both 401 |
| BlogRoute.Create | src/api/route/blogRoute.ts:72-92 | passport's 401, the issue map with 401, or 401 "Something went wrong" for every valid body; nothing written |
| BlogRoute.Update | src/api/route/blogRoute.ts:94-118 | only the blog whose id is the caller's id changes, and only its lastEditedAt |
| BlogRoute.Publish | src/api/route/blogRoute.ts:120-132 | admins and managers only; the blog whose id is the slug is published, else 401 "Blog not found" |
| BlogRoute.Delete | src/api/route/blogRoute.ts:134-149 | 401 without a slug, nothing changed; otherwise the blog whose id is the slug is removed from the collection and from the natural order, whoever asks |
| UserRoute.Login | src/api/route/userRoute.ts:21-51 | 406 iff the body is rejected; 404 iff no user has the e-mail; token and public fields iff the password matches, else 401 |
| UserRoute.LoginRevealsNoHash | src/api/route/userRoute.ts:31-43 | a 200 answer carries a token and the public fields of the user whose hash the password matches |
| UserRoute.UserAnswer | src/api/route/userRoute.ts:57-66 | 404 iff no such user, else 200 with the whole record |
| UserRoute.Me | src/api/route/userRoute.ts:55-67 | the caller's whole record, or 404 |
| UserRoute.GetUserById | src/api/route/userRoute.ts:69-87 | 400 without an id; any caller gets any user's record, hash included, or 404 |
| UserRoute.GetRole | src/api/route/userRoute.ts:89-102 | the caller's stored role, or 404 |
| UserRoute.CreateOutcome | src/api/route/userRoute.ts:109-129 | 201 iff created; 400 iff code 11000; no response for any other error |
| UserRoute.Create | src/api/route/userRoute.ts:104-133 | admins and managers only; 406 for a rejected body; 400 for a used e-mail; else the new user is exactly NewUser of the body's name, the e-mail and the hashed password (normal role, no links, no image) and a 201 with its public fields |
| UserRoute.ChangePassword | src/api/route/userRoute.ts:135-168 | 400 with the issue map, 404, 401 for a wrong old password, else the hash of the new password is stored |
| UserRoute.SocialOutcome | src/api/route/userRoute.ts:211-220 | 500 iff no record came back, else 200 with `{udpated}` holding it |
| UserRoute.AddSocial | src/api/route/userRoute.ts:193-221 | 400 with the issue map, 404, else the link is set and the answer is the old record's id, name and links, with no hash |
| UserRoute.DeleteOutcome | src/api/route/userRoute.ts:237-245 | 200 iff one document was deleted, else 500 |
| UserRoute.Delete | src/api/route/userRoute.ts:223-246 | 400 without an id, 404 for an unknown user, else the caller's record is removed and 200 |

## Findings

| source | as written | input that shows it | evidently intended | confidence | as-written member | corrected member |
|---|---|---|---|---|---|---|
| src/api/route/userRoute.ts:165 | the routes pass `schema.error.issues`, an array, to `getZodError`, which iterates the argument's `errors` property; on an array that is undefined and the loop throws (the same call is at blogRoute.ts:76 and 103 and userRoute.ts:174 and 197) | any body the schema rejects, e.g. `{}` on POST /user/changePassword | answer with the path-to-message map of the issues | high; not executed | Util.IssueArrayArgumentThrows | Util.GetZodError |

## Left out

- Passport's JWT strategy (src/lib/passport.ts) and token verification are not modelled: a request arrives with the user passport would attach, or with none, which passport answers with 401 "Unauthorized".
- `generateJwtToken`, bcrypt's `compare` and `hash`, zod's e-mail and URL patterns, and `parseInt` are parameters. The salt randomness of bcrypt is not modelled.
- src/lib/connect.ts (the database connection) is not part of this model; each handler runs atomically, and interleavings of concurrent requests between awaits are not modelled.
- `populate('author', projection)`, `lean` and the timestamp paths (`createdAt`, `updatedAt`, `__v`) are not modelled; a blog's author is the author's id.
- JSON numbers are integers; zod measures string length in UTF-16 code units, the model in characters.
- The order in which `distinct` returns categories and the order of blogs with equal views are not specified; the contracts state only set membership, uniqueness, sortedness and permutation.
- A `find` or `findOne` without a sort returns documents in natural order, which MongoDB does not specify; the model takes it to be insertion order (`BlogTable.Docs`). BlogController.GetAllBlogs and BlogController.WithCategory state their results as multisets only; GetBlogBySlug's "first" is first in that order.
- BlogController.NewBlog: keeps `title`, which the blog schema does not declare and strict mode would drop; the document fails the schema in any case, so nothing with a title is ever stored.
- Util.GetRangeError: bounds are `Option<int>`. A JavaScript number may also be fractional, NaN, ±Infinity or at least 1e21 (rendered "1e+21"), and -0 renders as "0"; so Util.RenderInjective does not hold for 0 and -0 in JavaScript.
- UserRoute.GetUserById: an id that is not a valid ObjectId makes Mongoose throw a CastError and no response is sent; the model answers 404 for it, as for any unknown id.
- UserController.ApplyPatch: keeps `image`, which the user schema does not declare.
- BlogRoute.Publish: a slug that is not a valid ObjectId makes Mongoose throw a CastError; here it is a lookup that finds nothing.
- BlogRoute.Delete: the same CastError case is modelled as a lookup that finds nothing.
- UserRoute.AddSocial: `userExists` is imported but not defined in userController.ts; it is modelled as membership of the id.
- UserRoute.Delete: `userExists` is modelled as in AddSocial, and `User.deleteOne` through DeleteUser with a deleted count of 1 or 0.
- UserRoute.ChangePassword: the direct `findOneAndUpdate` on the hash is modelled by EditUser with a hash-only patch.
- The `/user/changeImage` and `/blog/all` routes are not modelled: `addImage`, `deleteAllBlogs` and `userImageUpdate` are imported by the routes but defined nowhere in the repository.
- `getBlogById` is used by no route; it is modelled in the controller only.
