/** The stored records: the shapes of src/typings/model.ts with the rules the
    Mongoose schemas of src/models/User.ts and src/models/Blog.ts add to them
    (required paths, defaults, the role enum, the unique email index), and the
    errors the store raises when a rule is broken. */
module Records {
  import opened Common
  import opened Zod

  /** The platforms the `socialMedia` sub-document declares. */
  datatype Platform = Twitter | Instagram | Website

  function PlatformName(p: Platform): string {
    match p
    case Twitter => "twitter"
    case Instagram => "instagram"
    case Website => "website"
  }

  /** `socialMedia`: a link per platform, each optional. */
  type SocialMedia = map<Platform, string>

  /** A stored user. `role` has the schema's enum as its type. */
  datatype User = User(
    id: Id,
    name: string,
    email: string,
    image: Option<string>,
    passwordHash: string,
    socialMedia: SocialMedia,
    role: Role)

  const DefaultRole := Normal
  const DefaultSocialMedia: SocialMedia := map[]

  /** The document `new User({name, email, passwordHash})` builds: the three
      given paths, everything else from the schema's defaults. */
  function NewUser(id: Id, name: string, email: string, passwordHash: string): (u: User)
    ensures u.id == id && u.name == name && u.email == email && u.passwordHash == passwordHash
    ensures u.role == Normal && u.socialMedia == map[] && u.image.None?
  {
    User(id, name, email, None, passwordHash, DefaultSocialMedia, DefaultRole)
  }

  /** The user schema's `required` validators (a required string must be non-empty). */
  function UserValidationFailures(u: User): seq<string> {
    (if u.name == "" then ["name: username is required"] else [])
    + (if u.email == "" then ["email: email is required"] else [])
    + (if u.passwordHash == "" then ["passwordHash: hashed password must be provided"] else [])
  }

  predicate UserSchemaValid(u: User) {
    u.name != "" && u.email != "" && u.passwordHash != ""
  }

  lemma UserValidationFailuresEmpty(u: User)
    ensures UserValidationFailures(u) == [] <==> UserSchemaValid(u)
  {
  }

  /** A stored blog. `name` and `coverImage` are optional here because the
      document createBlog builds leaves them out, though the schema requires them. */
  datatype Blog = Blog(
    id: Id,
    name: Option<string>,
    title: string,
    slug: string,
    content: seq<Record>,
    coverImage: Option<string>,
    author: Id,
    isPublished: bool,
    views: int,
    category: Option<string>,
    lastEditedAt: Time,
    description: Option<string>)

  const DefaultIsPublished := false
  const DefaultViews := 0

  predicate RequiredString(s: Option<string>) {
    s.Some? && s.value != ""
  }

  /** The blog schema's `required` validators, in path order. `content`,
      `author` and `lastEditedAt` are always present in this model's records. */
  function BlogValidationFailures(b: Blog): seq<string> {
    (if !RequiredString(b.name) then ["name: name is required"] else [])
    + (if !RequiredString(b.coverImage) then ["coverImage: coverImage is required"] else [])
    + (if b.slug == "" then ["slug: blog slug is required"] else [])
  }

  predicate BlogSchemaValid(b: Blog) {
    RequiredString(b.name) && RequiredString(b.coverImage) && b.slug != ""
  }

  lemma BlogValidationFailuresEmpty(b: Blog)
    ensures BlogValidationFailures(b) == [] <==> BlogSchemaValid(b)
  {
  }

  /** A rejected store call: the driver's numeric code, if any, and the message. */
  datatype StoreError = StoreError(code: Option<int>, message: string)

  const DuplicateKeyCode := 11000

  /** What `save()` rejects with when validation fails. */
  function ValidationError(model: string, failures: seq<string>): (e: StoreError)
    ensures e.code == None && StartsWith(e.message, model + " validation failed")
  {
    StoreError(None, model + " validation failed: " + Join(failures, ", "))
  }

  /** What the driver rejects with when a unique index is violated. */
  function DuplicateKeyError(index: string): (e: StoreError)
    ensures e.code == Some(DuplicateKeyCode) && StartsWith(e.message, "E11000")
  {
    StoreError(Some(DuplicateKeyCode), "E11000 duplicate key error index: " + index)
  }
}
