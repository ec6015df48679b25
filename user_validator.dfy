/** The request-body schemas of src/validators/userValidator.ts, given, as for
    the blog schemas, as zod's issue list and as an acceptance predicate. The
    e-mail and URL formats are zod's regular expressions and enter as the
    predicates `isEmail` and `isUrl`. */
module UserValidator {
  import opened Common
  import opened Zod
  import opened Records

  datatype CreateData = CreateData(email: string, name: string, password: string)
  datatype PassData = PassData(password: string, oldpassword: string)
  datatype LoginData = LoginData(email: string, password: string)
  datatype SocialData = SocialData(platform: Platform, value: string)

  /** `z.string().min(8).max(100)`, as written for each password key. */
  predicate PasswordOk(v: Option<Json>) { IsStringWithin(v, 8, Some(100)) }
  predicate NameOk(v: Option<Json>) { IsStringWithin(v, 3, Some(100)) }

  /** userCreate accepts the body. */
  predicate UserCreate(body: Json, isEmail: string -> bool) {
    && body.JObject?
    && IsFormatted(Field(body.fields, "email"), isEmail)
    && NameOk(Field(body.fields, "name"))
    && PasswordOk(Field(body.fields, "password"))
  }

  function UserCreateIssues(body: Json, isEmail: string -> bool): (r: seq<Issue>)
    ensures r == [] <==> UserCreate(body, isEmail)
  {
    if !body.JObject? then NotAnObject(body)
    else
      var f := body.fields;
      FormatIssues(["email"], Field(f, "email"), isEmail, "email")
      + StringIssues(["name"], Field(f, "name"), 3, Some(100))
      + StringIssues(["password"], Field(f, "password"), 8, Some(100))
  }

  function ParseUserCreate(body: Json, isEmail: string -> bool): (r: Parsed<CreateData>)
    ensures r.Success? <==> UserCreate(body, isEmail)
    ensures r.Failure? ==> r.issues == UserCreateIssues(body, isEmail) && r.issues != []
    ensures r.Success? ==>
      && isEmail(r.data.email) && 3 <= |r.data.name| <= 100 && 8 <= |r.data.password| <= 100
      && Field(body.fields, "email") == Some(JString(r.data.email))
      && Field(body.fields, "name") == Some(JString(r.data.name))
      && Field(body.fields, "password") == Some(JString(r.data.password))
  {
    var issues := UserCreateIssues(body, isEmail);
    if issues != [] then Failure(issues)
    else
      var f := body.fields;
      Success(CreateData(Field(f, "email").value.s, Field(f, "name").value.s, Field(f, "password").value.s))
  }

  /** userPassSchema accepts the body. */
  predicate UserPassSchema(body: Json) {
    && body.JObject?
    && PasswordOk(Field(body.fields, "password"))
    && PasswordOk(Field(body.fields, "oldpassword"))
  }

  function UserPassIssues(body: Json): (r: seq<Issue>)
    ensures r == [] <==> UserPassSchema(body)
  {
    if !body.JObject? then NotAnObject(body)
    else
      var f := body.fields;
      StringIssues(["password"], Field(f, "password"), 8, Some(100))
      + StringIssues(["oldpassword"], Field(f, "oldpassword"), 8, Some(100))
  }

  function ParseUserPass(body: Json): (r: Parsed<PassData>)
    ensures r.Success? <==> UserPassSchema(body)
    ensures r.Failure? ==> r.issues == UserPassIssues(body) && r.issues != []
    ensures r.Success? ==>
      && 8 <= |r.data.password| <= 100 && 8 <= |r.data.oldpassword| <= 100
      && Field(body.fields, "password") == Some(JString(r.data.password))
      && Field(body.fields, "oldpassword") == Some(JString(r.data.oldpassword))
  {
    var issues := UserPassIssues(body);
    if issues != [] then Failure(issues)
    else Success(PassData(Field(body.fields, "password").value.s, Field(body.fields, "oldpassword").value.s))
  }

  /** userLogin accepts the body. */
  predicate UserLogin(body: Json, isEmail: string -> bool) {
    && body.JObject?
    && IsFormatted(Field(body.fields, "email"), isEmail)
    && PasswordOk(Field(body.fields, "password"))
  }

  function UserLoginIssues(body: Json, isEmail: string -> bool): (r: seq<Issue>)
    ensures r == [] <==> UserLogin(body, isEmail)
  {
    if !body.JObject? then NotAnObject(body)
    else
      FormatIssues(["email"], Field(body.fields, "email"), isEmail, "email")
      + StringIssues(["password"], Field(body.fields, "password"), 8, Some(100))
  }

  function ParseUserLogin(body: Json, isEmail: string -> bool): (r: Parsed<LoginData>)
    ensures r.Success? <==> UserLogin(body, isEmail)
    ensures r.Failure? ==> r.issues == UserLoginIssues(body, isEmail) && r.issues != []
    ensures r.Success? ==>
      && isEmail(r.data.email) && 8 <= |r.data.password| <= 100
      && Field(body.fields, "email") == Some(JString(r.data.email))
      && Field(body.fields, "password") == Some(JString(r.data.password))
  {
    var issues := UserLoginIssues(body, isEmail);
    if issues != [] then Failure(issues)
    else Success(LoginData(Field(body.fields, "email").value.s, Field(body.fields, "password").value.s))
  }

  /** The options of the `type` enum, in declaration order. */
  const SocialTypes: seq<string> := ["twitter", "instagram", "website"]

  function PlatformOf(name: string): (p: Platform)
    requires name in SocialTypes
    ensures PlatformName(p) == name
  {
    if name == "twitter" then Twitter else if name == "instagram" then Instagram else Website
  }

  /** userSocialUpdate accepts the body. */
  predicate UserSocialUpdate(body: Json, isUrl: string -> bool) {
    && body.JObject?
    && IsEnumMember(Field(body.fields, "type"), SocialTypes)
    && IsFormatted(Field(body.fields, "value"), isUrl)
  }

  function UserSocialIssues(body: Json, isUrl: string -> bool): (r: seq<Issue>)
    ensures r == [] <==> UserSocialUpdate(body, isUrl)
  {
    if !body.JObject? then NotAnObject(body)
    else
      EnumIssues(["type"], Field(body.fields, "type"), SocialTypes)
      + FormatIssues(["value"], Field(body.fields, "value"), isUrl, "url")
  }

  function ParseUserSocial(body: Json, isUrl: string -> bool): (r: Parsed<SocialData>)
    ensures r.Success? <==> UserSocialUpdate(body, isUrl)
    ensures r.Failure? ==> r.issues == UserSocialIssues(body, isUrl) && r.issues != []
    ensures r.Success? ==>
      && isUrl(r.data.value)
      && Field(body.fields, "type") == Some(JString(PlatformName(r.data.platform)))
      && Field(body.fields, "value") == Some(JString(r.data.value))
  {
    var issues := UserSocialIssues(body, isUrl);
    if issues != [] then Failure(issues)
    else Success(SocialData(PlatformOf(Field(body.fields, "type").value.s), Field(body.fields, "value").value.s))
  }

  /** "facebook" is not one of the accepted social types. */
  lemma FacebookRejected(body: Json, isUrl: string -> bool)
    requires body.JObject? && Field(body.fields, "type") == Some(JString("facebook"))
    ensures !UserSocialUpdate(body, isUrl)
  {
    assert "facebook" != SocialTypes[0] && "facebook" != SocialTypes[1] && "facebook" != SocialTypes[2];
  }

  /** The password rule is the same in userCreate, userPassSchema (for both
      keys) and userLogin: a password value is accepted by one exactly when it
      is accepted by the others. */
  lemma PasswordBoundsAgree(isEmail: string -> bool, email: string, name: string, pw: string)
    requires isEmail(email) && 3 <= |name| <= 100
    ensures var create := JObject(map["email" := JString(email), "name" := JString(name), "password" := JString(pw)]);
            var change := JObject(map["password" := JString(pw), "oldpassword" := JString(pw)]);
            var login := JObject(map["email" := JString(email), "password" := JString(pw)]);
            && (UserCreate(create, isEmail) <==> 8 <= |pw| <= 100)
            && (UserPassSchema(change) <==> 8 <= |pw| <= 100)
            && (UserLogin(login, isEmail) <==> 8 <= |pw| <= 100)
  {
  }

  /** Every body userCreate accepts is also a body userLogin accepts. */
  lemma CreateBodyIsLoginBody(body: Json, isEmail: string -> bool)
    requires UserCreate(body, isEmail)
    ensures UserLogin(body, isEmail)
  {
  }
}
