/**
 * The records and enumerations of backend/models.py: the three closed enums,
 * the stored documents (users, posts, pages, plugins) and the request models
 * whose defaults and length bounds pydantic enforces.
 */
module Models {
  import opened Common
  import opened Values

  // ---------------------------------------------------------------------------
  // Enumerations (str-valued Enums)
  // ---------------------------------------------------------------------------

  datatype UserRole = Admin | Editor | Author

  function RoleValue(r: UserRole): string {
    match r
    case Admin => "admin"
    case Editor => "editor"
    case Author => "author"
  }

  /** UserRole(s): the member whose value is s, if any. */
  function ParseRole(s: string): (r: Option<UserRole>)
    ensures r.Some? <==> s == "admin" || s == "editor" || s == "author"
    ensures r.Some? ==> RoleValue(r.value) == s
  {
    if s == "admin" then Some(Admin)
    else if s == "editor" then Some(Editor)
    else if s == "author" then Some(Author)
    else None
  }

  datatype ContentStatus = Published | Draft | Private

  function StatusValue(s: ContentStatus): string {
    match s
    case Published => "published"
    case Draft => "draft"
    case Private => "private"
  }

  function ParseStatus(s: string): (r: Option<ContentStatus>)
    ensures r.Some? <==> s == "published" || s == "draft" || s == "private"
    ensures r.Some? ==> StatusValue(r.value) == s
  {
    if s == "published" then Some(Published)
    else if s == "draft" then Some(Draft)
    else if s == "private" then Some(Private)
    else None
  }

  datatype PluginStatus = Available | Installed | Active

  function PluginStatusValue(s: PluginStatus): string {
    match s
    case Available => "available"
    case Installed => "installed"
    case Active => "active"
  }

  function ParsePluginStatus(s: string): (r: Option<PluginStatus>)
    ensures r.Some? <==> s == "available" || s == "installed" || s == "active"
    ensures r.Some? ==> PluginStatusValue(r.value) == s
  {
    if s == "available" then Some(Available)
    else if s == "installed" then Some(Installed)
    else if s == "active" then Some(Active)
    else None
  }

  /** Each enum value is named by exactly one string, and parsing that string gives it back. */
  lemma EnumValuesRoundTrip(r: UserRole, c: ContentStatus, p: PluginStatus)
    ensures ParseRole(RoleValue(r)) == Some(r)
    ensures ParseStatus(StatusValue(c)) == Some(c)
    ensures ParsePluginStatus(PluginStatusValue(p)) == Some(p)
  {
    match r
    case Admin =>
    case Editor =>
    case Author =>
  }

  // ---------------------------------------------------------------------------
  // Stored documents
  // ---------------------------------------------------------------------------

  datatype User = User(
    id: string,
    name: string,
    email: string,
    passwordHash: string,
    role: UserRole,
    avatar: Option<string>,
    isActive: bool,
    createdAt: int,
    updatedAt: int)

  datatype Post = Post(
    id: string,
    title: string,
    content: string,
    excerpt: Option<string>,
    status: ContentStatus,
    authorId: string,
    featuredImage: Option<string>,
    tags: seq<string>,
    category: Option<string>,
    createdAt: int,
    updatedAt: int)

  datatype Page = Page(
    id: string,
    title: string,
    content: string,
    slug: string,
    status: ContentStatus,
    authorId: string,
    template: string,
    createdAt: int,
    updatedAt: int)

  /**
   * A document of the "plugins" collection. `hooks` maps each declared hook
   * name to its free-form configuration; `updatedAt` is absent on records
   * that were never written through update_document or insert_document.
   */
  datatype Plugin = Plugin(
    id: string,
    name: string,
    description: string,
    version: string,
    author: string,
    category: string,
    status: PluginStatus,
    price: string,
    features: seq<string>,
    dependencies: seq<string>,
    hooks: map<string, Value>,
    settingsSchema: map<string, Value>,
    settings: map<string, Value>,
    installPath: Option<string>,
    updatedAt: Option<int>)

  /** Plugin(...) with the model's defaults for every field left out. */
  function NewPlugin(id: string, name: string, description: string, version: string,
                     author: string, category: string, status: PluginStatus): (p: Plugin)
    ensures p.id == id && p.name == name && p.status == status
    ensures p.price == "Free"
    ensures p.hooks == map[] && p.settings == map[] && p.settingsSchema == map[]
    ensures p.dependencies == [] && p.features == []
    ensures p.installPath == None
  {
    Plugin(id, name, description, version, author, category, status,
           "Free", [], [], map[], map[], map[], None, None)
  }

  // ---------------------------------------------------------------------------
  // Request models: defaults and field constraints (a violation is HTTP 422)
  // ---------------------------------------------------------------------------

  const UnprocessableEntity := 422

  datatype UserCreate = UserCreate(name: string, email: string, password: string, role: UserRole)

  /** UserCreate(...): name of 2 to 100 characters, password of at least 6, role AUTHOR unless given. */
  function NewUserCreate(name: string, email: string, password: string, role: Option<UserRole>): (r: Result<UserCreate, HttpError>)
    ensures r.Ok? <==> 2 <= |name| <= 100 && 6 <= |password|
    ensures r.Err? ==> r.error.status == UnprocessableEntity
    ensures r.Ok? ==> r.value.name == name && r.value.email == email && r.value.password == password
    ensures r.Ok? ==> r.value.role == (if role.Some? then role.value else Author)
  {
    if !(2 <= |name| <= 100) then Err(HttpError(UnprocessableEntity, "name: ensure this value has between 2 and 100 characters"))
    else if |password| < 6 then Err(HttpError(UnprocessableEntity, "password: ensure this value has at least 6 characters"))
    else Ok(UserCreate(name, email, password, match role case Some(x) => x case None => Author))
  }

  datatype PostCreate = PostCreate(
    title: string,
    content: string,
    excerpt: Option<string>,
    status: ContentStatus,
    featuredImage: Option<string>,
    tags: seq<string>,
    category: Option<string>)

  /** PostCreate(...): title of 1 to 500 characters, status DRAFT and tags [] unless given. */
  function NewPostCreate(title: string, content: string, excerpt: Option<string>, status: Option<ContentStatus>,
                         featuredImage: Option<string>, tags: Option<seq<string>>, category: Option<string>): (r: Result<PostCreate, HttpError>)
    ensures r.Ok? <==> 1 <= |title| <= 500
    ensures r.Err? ==> r.error.status == UnprocessableEntity
    ensures r.Ok? ==> r.value.title == title && r.value.content == content && r.value.excerpt == excerpt
    ensures r.Ok? ==> r.value.status == (if status.Some? then status.value else Draft)
    ensures r.Ok? ==> r.value.tags == (if tags.Some? then tags.value else [])
  {
    if !(1 <= |title| <= 500) then Err(HttpError(UnprocessableEntity, "title: ensure this value has between 1 and 500 characters"))
    else Ok(PostCreate(title, content, excerpt,
                       match status case Some(s) => s case None => Draft,
                       featuredImage,
                       match tags case Some(t) => t case None => [],
                       category))
  }

  datatype PageCreate = PageCreate(
    title: string,
    content: string,
    slug: Option<string>,
    status: ContentStatus,
    template: string)

  /** PageCreate(...): title of 1 to 500 characters, status DRAFT and template "default" unless given. */
  function NewPageCreate(title: string, content: string, slug: Option<string>, status: Option<ContentStatus>,
                         template: Option<string>): (r: Result<PageCreate, HttpError>)
    ensures r.Ok? <==> 1 <= |title| <= 500
    ensures r.Err? ==> r.error.status == UnprocessableEntity
    ensures r.Ok? ==> r.value.slug == slug
    ensures r.Ok? ==> r.value.status == (if status.Some? then status.value else Draft)
    ensures r.Ok? ==> r.value.template == (if template.Some? then template.value else "default")
  {
    if !(1 <= |title| <= 500) then Err(HttpError(UnprocessableEntity, "title: ensure this value has between 1 and 500 characters"))
    else Ok(PageCreate(title, content, slug,
                       match status case Some(s) => s case None => Draft,
                       match template case Some(t) => t case None => "default"))
  }

  datatype PluginHookDefinition = PluginHookDefinition(name: string, kind: string, description: string, executionOrder: int)

  /** PluginHookDefinition(...): execution_order is 10 unless given. The dispatcher never reads it. */
  function NewHookDefinition(name: string, kind: string, description: string, executionOrder: Option<int>): (d: PluginHookDefinition)
    ensures d.name == name && d.kind == kind && d.description == description
    ensures executionOrder.None? ==> d.executionOrder == 10
    ensures executionOrder.Some? ==> d.executionOrder == executionOrder.value
  {
    PluginHookDefinition(name, kind, description, match executionOrder case Some(o) => o case None => 10)
  }

  // ---------------------------------------------------------------------------
  // DashboardStats(**data)
  // ---------------------------------------------------------------------------

  datatype DashboardStats = DashboardStats(
    totalPosts: int,
    totalPages: int,
    totalUsers: int,
    activePlugins: int,
    recentActivity: seq<map<string, Value>>)

  predicate AllDicts(items: seq<Value>) {
    forall i | 0 <= i < |items| :: items[i].Dict?
  }

  function Dicts(items: seq<Value>): (r: seq<map<string, Value>>)
    requires AllDicts(items)
    ensures |r| == |items|
    ensures forall i | 0 <= i < |items| :: items[i] == Dict(r[i])
  {
    seq(|items|, i requires 0 <= i < |items| => items[i].fields)
  }

  /** The integer strings an `int` field accepts here: an optional sign, then one or more ASCII digits. */
  predicate IsIntLiteral(s: string) {
    IsDigits(s) || (|s| > 0 && (s[0] == '-' || s[0] == '+') && IsDigits(s[1..]))
  }

  predicate IsDigits(s: string) {
    |s| > 0 && forall i | 0 <= i < |s| :: IsDigit(s[i])
  }

  /**
   * Pydantic's lax coercion into an `int` field: an int as it is, a bool as
   * 0 or 1, and an integer string as the number it spells; anything else
   * fails validation.
   */
  function CoerceInt(v: Value): (r: Option<int>)
    ensures v.Int? ==> r == Some(v.i)
    ensures v.Bool? ==> r == Some(if v.b then 1 else 0)
    ensures v.Str? ==> (r.Some? <==> IsIntLiteral(v.s))
    ensures !(v.Int? || v.Bool? || v.Str?) ==> r.None?
  {
    match v
    case Int(i) => Some(i)
    case Bool(b) => Some(if b then 1 else 0)
    case Str(s) =>
      if IsDigits(s) then Some(ParseDigits(s))
      else if IsIntLiteral(s) then Some(if s[0] == '-' then -(ParseDigits(s[1..]) as int) else ParseDigits(s[1..]))
      else None
    case _ => None
  }

  /** Every integer's decimal rendering, str(i), is coerced back to that integer. */
  lemma {:induction false} CoerceIntOfRendering(i: int)
    ensures CoerceInt(Str(IntToString(i))) == Some(i)
  {
    var m: nat := if i < 0 then -i else i;
    var t := NatToString(m);
    ParseNatToString(m);
    assert IsDigits(t);
    if i < 0 {
      assert IntToString(i) == "-" + t;
      CoerceNegativeDigits(t);
    } else {
      assert IntToString(i) == t;
      CoerceDigits(t);
    }
  }

  lemma CoerceDigits(t: string)
    requires IsDigits(t)
    ensures CoerceInt(Str(t)) == Some(ParseDigits(t))
  {
  }

  lemma CoerceNegativeDigits(t: string)
    requires IsDigits(t)
    ensures CoerceInt(Str("-" + t)) == Some(-(ParseDigits(t) as int))
  {
    var s := "-" + t;
    assert !IsDigit(s[0]) && s[1..] == t;
  }

  predicate IntField(d: map<string, Value>, key: string) {
    key in d && CoerceInt(d[key]).Some?
  }

  /**
   * DashboardStats(**data): the four counts must coerce to integers, recent_activity
   * defaults to [] and must otherwise be a list of dicts; other keys are
   * ignored. A payload that fails validation is a 422 error.
   */
  function ParseDashboardStats(d: map<string, Value>): (r: Result<DashboardStats, HttpError>)
    ensures r.Ok? <==>
      IntField(d, "total_posts") && IntField(d, "total_pages") && IntField(d, "total_users")
      && IntField(d, "active_plugins")
      && ("recent_activity" in d ==> d["recent_activity"].List? && AllDicts(d["recent_activity"].items))
    ensures r.Ok? ==>
      && CoerceInt(d["total_posts"]) == Some(r.value.totalPosts) && CoerceInt(d["total_pages"]) == Some(r.value.totalPages)
      && CoerceInt(d["total_users"]) == Some(r.value.totalUsers) && CoerceInt(d["active_plugins"]) == Some(r.value.activePlugins)
    ensures r.Ok? && "recent_activity" !in d ==> r.value.recentActivity == []
    ensures r.Ok? && "recent_activity" in d ==>
      && |r.value.recentActivity| == |d["recent_activity"].items|
      && forall i | 0 <= i < |r.value.recentActivity| :: d["recent_activity"].items[i] == Dict(r.value.recentActivity[i])
  {
    if !(IntField(d, "total_posts") && IntField(d, "total_pages") && IntField(d, "total_users") && IntField(d, "active_plugins")) then
      Err(HttpError(UnprocessableEntity, "DashboardStats: missing or non-integer count"))
    else if "recent_activity" in d && !(d["recent_activity"].List? && AllDicts(d["recent_activity"].items)) then
      Err(HttpError(UnprocessableEntity, "DashboardStats: recent_activity must be a list of dicts"))
    else
      var activity := if "recent_activity" in d then Dicts(d["recent_activity"].items) else [];
      Ok(DashboardStats(CoerceInt(d["total_posts"]).value, CoerceInt(d["total_pages"]).value,
                        CoerceInt(d["total_users"]).value, CoerceInt(d["active_plugins"]).value, activity))
  }

  /** A handler that answers the counts as a bool and as a numeric string still gets a 200 with 1 and 12. */
  lemma LaxCountsValidate()
    ensures ParseDashboardStats(map["total_posts" := Bool(true), "total_pages" := Str("12"),
                                    "total_users" := Int(3), "active_plugins" := Str("-0")])
         == Ok(DashboardStats(1, 12, 3, 0, []))
  {
    var d := map["total_posts" := Bool(true), "total_pages" := Str("12"),
                 "total_users" := Int(3), "active_plugins" := Str("-0")];
    assert IsDigits("12") && ParseDigits("12") == 12 by {
      assert "12"[..1] == "1";
    }
    assert !IsDigit("-0"[0]);
    assert "-0"[1..] == "0" && IsDigits("0");
  }
}
