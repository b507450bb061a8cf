/**
 * The application's router: its route table and the navigation guard that runs
 * before every navigation, first bringing the session store up with `init` and
 * then deciding, first match wins, whether to allow the navigation or redirect.
 */
module Router {
  import opened JsValues
  import opened Profiles
  import opened Auth

  /** The `meta` flags of a route; an absent flag is false. */
  datatype RouteMeta = RouteMeta(isPublic: bool, requiresAdmin: bool)

  /** A path pattern of the table: a fixed path, or a fixed prefix ending in `/`
      followed by one `:param` segment (`/retainers/:id` is
      `OneParam("/retainers/")`). These are the only two shapes the table uses. */
  datatype Pattern = Exact(text: string) | OneParam(prefix: string)

  /** A route record: its path pattern and its meta. */
  datatype RouteRecord = RouteRecord(pattern: Pattern, meta: RouteMeta)

  const PublicMeta: RouteMeta := RouteMeta(true, false)
  const AdminMeta: RouteMeta := RouteMeta(false, true)
  const NoMeta: RouteMeta := RouteMeta(false, false)

  /** The route table, with the two children of `/settings` given by their full
      paths (their meta is the parent's, which has none). */
  const Routes: seq<RouteRecord> := [
    RouteRecord(Exact("/"), PublicMeta),
    RouteRecord(Exact("/get-started"), PublicMeta),
    RouteRecord(Exact("/login"), PublicMeta),
    RouteRecord(Exact("/dashboard"), NoMeta),
    RouteRecord(Exact("/inbox"), NoMeta),
    RouteRecord(Exact("/retainers"), NoMeta),
    RouteRecord(OneParam("/retainers/"), NoMeta),
    RouteRecord(Exact("/users"), AdminMeta),
    RouteRecord(Exact("/settings"), NoMeta),
    RouteRecord(Exact("/settings/bpo-profile"), NoMeta)
  ]

  /** ASCII upper case to lower case; every other character is kept. */
  function LowerChar(c: char): char {
    if 'A' <= c <= 'Z' then (c as int + 32) as char else c
  }

  /** `s` with its ASCII letters in lower case. The router matches without
      regard to case; since every pattern of the table is ASCII and a
      case-insensitive JavaScript regular expression never equates a non-ASCII
      character with an ASCII one, comparing the ASCII-lowered path is exact. */
  function Lower(s: string): string {
    seq(|s|, i requires 0 <= i < |s| => LowerChar(s[i]))
  }

  /** A string without upper-case ASCII letters is its own lower case. */
  lemma LowerOfLowerCase(s: string)
    requires forall i :: 0 <= i < |s| ==> !('A' <= s[i] <= 'Z')
    ensures Lower(s) == s
  {
  }

  /** The text of a `:param` segment, with the one trailing `/` the default
      matching allows: non-empty, and a `/` only at its end. */
  predicate ParamSegment(r: string) {
    (r != "" && '/' !in r) || (|r| >= 2 && r[|r| - 1] == '/' && '/' !in r[..|r| - 1])
  }

  /** `s` without one trailing `/`, if it has one: the router's optional
      trailing slash. A lone `/` is kept, since it is the root path itself. */
  function DropTrailingSlash(s: string): string {
    if |s| >= 2 && s[|s| - 1] == '/' then s[..|s| - 1] else s
  }

  /** What a fixed path of the table is compared with: the path lower-cased and
      without its trailing `/`. */
  function RouteKey(path: string): string {
    DropTrailingSlash(Lower(path))
  }

  /** A fixed path matches `text` with or without one trailing `/`: `/users`
      matches `/users` and `/users/`, and `/` matches `/` and `//`. */
  lemma ExactMatchForms(text: string, p: string)
    requires text == "/" || (text != "" && text[|text| - 1] != '/')
    ensures DropTrailingSlash(p) == text <==> p == text || p == text + "/"
  {
  }

  /** Whether `path` matches `pattern` under the router's default matching: case
      does not matter, and one trailing `/` is allowed. */
  predicate Matches(pattern: Pattern, path: string) {
    match pattern
    case Exact(text) => RouteKey(path) == text
    case OneParam(prefix) =>
      var p := Lower(path);
      |prefix| < |p| && p[..|prefix|] == prefix && ParamSegment(p[|prefix|..])
  }

  /** The meta of the first record matching `path`, `NoMeta` when none does. */
  function FirstMatch(table: seq<RouteRecord>, path: string): RouteMeta
    decreases |table|
  {
    if table == [] then NoMeta
    else if Matches(table[0].pattern, path) then table[0].meta
    else FirstMatch(table[1..], path)
  }

  /** The first record that matches decides. */
  lemma {:induction false} FirstMatchAt(table: seq<RouteRecord>, path: string, k: nat)
    requires k < |table| && Matches(table[k].pattern, path)
    requires forall j :: 0 <= j < k ==> !Matches(table[j].pattern, path)
    ensures FirstMatch(table, path) == table[k].meta
    decreases k
  {
    if k > 0 {
      assert !Matches(table[0].pattern, path);
      forall j | 0 <= j < k - 1 ensures !Matches(table[1..][j].pattern, path) {
        assert table[1..][j] == table[j + 1];
      }
      FirstMatchAt(table[1..], path, k - 1);
    }
  }

  /** When no record matches, the route has no meta. */
  lemma {:induction false} FirstMatchNone(table: seq<RouteRecord>, path: string)
    requires forall j :: 0 <= j < |table| ==> !Matches(table[j].pattern, path)
    ensures FirstMatch(table, path) == NoMeta
    decreases |table|
  {
    if table != [] {
      assert !Matches(table[0].pattern, path);
      forall j | 0 <= j < |table| - 1 ensures !Matches(table[1..][j].pattern, path) {
        assert table[1..][j] == table[j + 1];
      }
      FirstMatchNone(table[1..], path);
    }
  }

  /** `to.meta` for a navigation to `path`. */
  function MetaOf(path: string): RouteMeta {
    FirstMatch(Routes, path)
  }

  /** The fixed path of each record of the table, in table order;
      `/retainers/:id` (index 6) has none. */
  const FixedKeys: seq<Option<string>> :=
    [Some("/"), Some("/get-started"), Some("/login"), Some("/dashboard"), Some("/inbox"),
     Some("/retainers"), None, Some("/users"), Some("/settings"), Some("/settings/bpo-profile")]

  /** A fixed path of the table matches exactly the paths whose route key is that
      path. */
  lemma FixedKeysAgree(path: string)
    ensures |FixedKeys| == |Routes|
    ensures forall j :: 0 <= j < |Routes| ==> (FixedKeys[j].Some? <==> Routes[j].pattern.Exact?)
    ensures forall j :: 0 <= j < |Routes| && FixedKeys[j].Some? ==>
      (Matches(Routes[j].pattern, path) <==> RouteKey(path) == FixedKeys[j].value)
  {
  }

  /** A path below `/retainers/` matches none of the fixed paths of the table. */
  lemma {:induction false} RetainerPathIsNotFixed(path: string)
    requires Matches(OneParam("/retainers/"), path)
    ensures forall j :: 0 <= j < |Routes| && Routes[j].pattern.Exact? ==> !Matches(Routes[j].pattern, path)
  {
    var p := Lower(path);
    assert p[1] == "/retainers/"[1] && |p| > 11;
    var q := RouteKey(path);
    assert |q| >= 11 && q[1] == 'r';
    assert forall j :: 0 <= j < |FixedKeys| && FixedKeys[j].Some? ==>
      |FixedKeys[j].value| < 11 || FixedKeys[j].value[1] != 'r';
    FixedKeysAgree(path);
  }

  /** No two fixed paths of the table share a key. */
  lemma FixedKeysDistinct()
    ensures forall i, j :: 0 <= i < j < |FixedKeys| && FixedKeys[i].Some? ==> FixedKeys[i] != FixedKeys[j]
  {
  }

  /** A path whose key is that of fixed path `k`, and that is not below
      `/retainers/` when that record comes first, resolves to record `k`. */
  lemma KeyedMatch(path: string, k: nat)
    requires k < |Routes| && FixedKeys[k] == Some(RouteKey(path))
    requires k > 6 ==> !Matches(OneParam("/retainers/"), path)
    ensures MetaOf(path) == Routes[k].meta
  {
    FixedKeysAgree(path);
    FixedKeysDistinct();
    FirstMatchAt(Routes, path, k);
  }

  /** The meta of every path: the three public routes, the admin route, and
      nothing for every other path, matched or not; case and one trailing `/`
      do not matter. */
  lemma {:induction false} MetaOfPath(path: string)
    ensures MetaOf(path) ==
      var q := RouteKey(path);
      if q == "/" || q == "/get-started" || q == "/login" then PublicMeta
      else if q == "/users" then AdminMeta
      else NoMeta
  {
    var q := RouteKey(path);
    if Matches(OneParam("/retainers/"), path) {
      RetainerPathIsNotFixed(path);
      FirstMatchAt(Routes, path, 6);
      assert q != "/" && q != "/get-started" && q != "/login" && q != "/users" by {
        FixedKeysAgree(path);
      }
    } else if k :| 0 <= k < |Routes| && FixedKeys[k] == Some(q) {
      KeyedMatch(path, k);
    } else {
      assert Some(q) != FixedKeys[0] && Some(q) != FixedKeys[1] && Some(q) != FixedKeys[2];
      assert Some(q) != FixedKeys[7];
      FixedKeysAgree(path);
      FirstMatchNone(Routes, path);
    }
  }

  /** Only `/`, `/get-started` and `/login` are public, in any case, with or
      without a trailing `/`. */
  lemma OnlyThreePublicRoutes(path: string)
    ensures MetaOf(path).isPublic <==>
      var p := Lower(path);
      p == "/" || p == "//" || p == "/get-started" || p == "/get-started/" || p == "/login" || p == "/login/"
  {
    MetaOfPath(path);
    ExactMatchForms("/", Lower(path));
    ExactMatchForms("/get-started", Lower(path));
    ExactMatchForms("/login", Lower(path));
  }

  /** Only `/users` requires an admin, in any case, with or without a trailing
      `/`. */
  lemma OnlyUsersRequiresAdmin(path: string)
    ensures MetaOf(path).requiresAdmin <==> Lower(path) == "/users" || Lower(path) == "/users/"
  {
    MetaOfPath(path);
    ExactMatchForms("/users", Lower(path));
  }

  /** The admin-only route cannot be reached by changing the case of its path or
      adding a trailing `/`. */
  lemma UsersVariantsRequireAdmin()
    ensures MetaOf("/users") == AdminMeta && MetaOf("/users/") == AdminMeta
    ensures MetaOf("/Users") == AdminMeta && MetaOf("/USERS/") == AdminMeta
  {
    LowerOfLowerCase("/users");
    LowerOfLowerCase("/users/");
    assert Lower("/Users") == "/users";
    assert Lower("/USERS/") == "/users/";
    MetaOfPath("/users");
    MetaOfPath("/users/");
    MetaOfPath("/Users");
    MetaOfPath("/USERS/");
  }

  /** The root record matches `/` and `//` (its pattern with the optional
      trailing `/`), and neither the empty path nor `///`. */
  lemma RootVariants()
    ensures MetaOf("/") == PublicMeta && MetaOf("//") == PublicMeta
    ensures MetaOf("") == NoMeta && MetaOf("///") == NoMeta
  {
    LowerOfLowerCase("/");
    LowerOfLowerCase("//");
    LowerOfLowerCase("");
    LowerOfLowerCase("///");
    MetaOfPath("/");
    MetaOfPath("//");
    MetaOfPath("");
    MetaOfPath("///");
  }

  /** The three paths the guard redirects to: the first two are public, the
      dashboard has no meta. */
  lemma RedirectTargets()
    ensures MetaOf("/get-started") == PublicMeta && MetaOf("/login") == PublicMeta
    ensures MetaOf("/dashboard") == NoMeta
  {
    LowerOfLowerCase("/get-started");
    LowerOfLowerCase("/login");
    LowerOfLowerCase("/dashboard");
    MetaOfPath("/get-started");
    MetaOfPath("/login");
    MetaOfPath("/dashboard");
  }

  /** The guard's verdict: let the navigation through, or send it elsewhere,
      optionally with the intended path as the `redirect` query parameter. */
  datatype Decision = Allow | Redirect(path: string, redirect: Option<string>)

  /** The target of a navigation: its path and its full path (query and hash
      included, taken as an opaque string). */
  datatype Location = Location(path: string, fullPath: string)

  /** `Boolean(auth.state.value.user)`. */
  predicate IsLoggedIn(s: AuthState) {
    s.user.Some?
  }

  /** `profile?.role === 'admin'`. */
  predicate IsAdmin(s: AuthState) {
    s.profile.Some? && s.profile.value.role == Str("admin")
  }

  /** `Boolean(profile?.is_super_admin)`. */
  predicate IsSuperAdmin(s: AuthState) {
    s.profile.Some? && Truthy(Some(s.profile.value.isSuperAdmin))
  }

  /** `isSuperAdmin || Boolean(profile?.center_id)`. */
  predicate HasCenter(s: AuthState) {
    IsSuperAdmin(s) || (s.profile.Some? && Truthy(Some(s.profile.value.centerId)))
  }

  /** The first-match decision chain of the guard. The ensures give each outcome
      by its own condition, independently of the order of the chain. */
  function Decide(s: AuthState, meta: RouteMeta, fullPath: string): (d: Decision)
    ensures d == Allow <==>
      meta.isPublic || (IsLoggedIn(s) && HasCenter(s) && (!meta.requiresAdmin || IsAdmin(s)))
    ensures d == Redirect("/get-started", Some(fullPath)) <==>
      !meta.isPublic && IsLoggedIn(s) && !HasCenter(s)
    ensures d == Redirect("/login", Some(fullPath)) <==>
      !meta.isPublic && !IsLoggedIn(s)
    ensures d == Redirect("/dashboard", None) <==>
      !meta.isPublic && IsLoggedIn(s) && HasCenter(s) && meta.requiresAdmin && !IsAdmin(s)
  {
    if meta.isPublic then Allow
    else if IsLoggedIn(s) && !HasCenter(s) then Redirect("/get-started", Some(fullPath))
    else if meta.requiresAdmin then
      if !IsLoggedIn(s) then Redirect("/login", Some(fullPath))
      else if !IsAdmin(s) then Redirect("/dashboard", None)
      else Allow
    else if IsLoggedIn(s) then Allow
    else Redirect("/login", Some(fullPath))
  }

  /** The guard's decision for a navigation to `to` in state `s`: one of four
      outcomes; the redirects to onboarding and to the login page carry `to`'s
      full path. */
  function Guard(s: AuthState, to: Location): (d: Decision)
    ensures d == Allow || d == Redirect("/get-started", Some(to.fullPath)) ||
            d == Redirect("/login", Some(to.fullPath)) || d == Redirect("/dashboard", None)
    ensures d == Allow <==>
      MetaOf(to.path).isPublic || (IsLoggedIn(s) && HasCenter(s) && (!MetaOf(to.path).requiresAdmin || IsAdmin(s)))
  {
    Decide(s, MetaOf(to.path), to.fullPath)
  }

  /** A public path is allowed in every state. */
  lemma PublicPathAllowed(s: AuthState, to: Location)
    requires Matches(Exact("/"), to.path) || Matches(Exact("/get-started"), to.path) || Matches(Exact("/login"), to.path)
    ensures Guard(s, to) == Allow
  {
    MetaOfPath(to.path);
  }

  /** The guard never loops: following any redirect it returns, in the same
      state, is allowed, whatever the full path of the redirected navigation. */
  lemma NoRedirectLoop(s: AuthState, to: Location, nextFullPath: string)
    requires Guard(s, to).Redirect?
    ensures Guard(s, Location(Guard(s, to).path, nextFullPath)) == Allow
  {
    MetaOfPath(to.path);
    RedirectTargets();
  }

  /** A super-admin without a center is not sent to onboarding. */
  lemma SuperAdminNeedsNoCenter(s: AuthState, to: Location)
    requires IsLoggedIn(s) && s.profile.Some?
    requires s.profile.value.isSuperAdmin == Bool(true) && s.profile.value.centerId == Null
    ensures Guard(s, to) != Redirect("/get-started", Some(to.fullPath))
  {
  }

  /** The onboarding check comes first: an admin without a center asking for
      `/users` is sent to `/get-started`, not let through. */
  lemma OnboardingBeforeAdminCheck(s: AuthState, to: Location)
    requires Matches(Exact("/users"), to.path)
    requires IsLoggedIn(s) && s.profile.Some?
    requires s.profile.value.role == Str("admin")
    requires !Truthy(Some(s.profile.value.isSuperAdmin)) && s.profile.value.centerId == Null
    ensures Guard(s, to) == Redirect("/get-started", Some(to.fullPath))
  {
    MetaOfPath(to.path);
  }

  /** On `/users`: an anonymous visitor goes to the login page, a non-admin with
      a center to the dashboard, an admin with a center is let through. */
  lemma AdminRouteOutcomes(s: AuthState, to: Location)
    requires Matches(Exact("/users"), to.path)
    ensures !IsLoggedIn(s) ==> Guard(s, to) == Redirect("/login", Some(to.fullPath))
    ensures IsLoggedIn(s) && HasCenter(s) && !IsAdmin(s) ==> Guard(s, to) == Redirect("/dashboard", None)
    ensures IsLoggedIn(s) && HasCenter(s) && IsAdmin(s) ==> Guard(s, to) == Allow
  {
    MetaOfPath(to.path);
  }

  /** After a successful sign-out every protected path sends to the login page
      with the intended path. */
  lemma SignedOutGoesToLogin(s: AuthState, to: Location)
    requires !MetaOf(to.path).isPublic
    ensures Guard(SignOutStep(s, None).state, to) == Redirect("/login", Some(to.fullPath))
  {
  }

  /** A signed-in user without a profile holds no center, so every protected
      path sends them to onboarding. */
  lemma MissingProfileMeansOnboarding(s: AuthState, to: Location)
    requires IsLoggedIn(s) && s.profile.None?
    requires !MetaOf(to.path).isPublic
    ensures Guard(s, to) == Redirect("/get-started", Some(to.fullPath))
  {
  }

  /** Each operation that signs a user in, when the profile lookup fails or finds
      no row, leaves the user on onboarding for every protected path: a first
      `init` that fetched a session, the auth-change listener given a session,
      and a successful sign-in. */
  lemma FailedLookupMeansOnboarding(s: AuthState, session: Session, user: User,
                                    lookup: ProfileLookup, to: Location)
    requires !lookup.RowFound?
    requires !MetaOf(to.path).isPublic
    ensures !s.ready ==>
      Guard(InitStep(s, SessionFetched(Some(session)), lookup).state, to) == Redirect("/get-started", Some(to.fullPath))
    ensures Guard(AuthChangeStep(s, Some(session), lookup), to) == Redirect("/get-started", Some(to.fullPath))
    ensures Guard(SignInStep(s, SignedIn(session, user), lookup).state, to) == Redirect("/get-started", Some(to.fullPath))
  {
    if !s.ready {
      MissingProfileMeansOnboarding(InitStep(s, SessionFetched(Some(session)), lookup).state, to);
    }
    MissingProfileMeansOnboarding(AuthChangeStep(s, Some(session), lookup), to);
    MissingProfileMeansOnboarding(SignInStep(s, SignedIn(session, user), lookup).state, to);
  }

  /** What a navigation ends in: the guard's decision, or the error `init`
      threw, which aborts the navigation. */
  datatype Navigation = Decided(decision: Decision) | Aborted(error: AuthError)

  /** The navigation that `init` followed by the guard yields from state `s`. */
  function NavigationFrom(o: Outcome, to: Location): Navigation {
    if o.error.Some? then Aborted(o.error.value) else Decided(Guard(o.state, to))
  }

  /** `router.beforeEach`: wait for `init`, then decide on the resulting state. */
  method BeforeEach(auth: AuthStore, to: Location, got: SessionResult, lookup: ProfileLookup)
    returns (nav: Navigation)
    requires auth.Valid()
    modifies auth
    ensures auth.Valid()
    ensures var o := InitStep(old(auth.State()), got, lookup);
      auth.State() == o.state && nav == NavigationFrom(o, to)
    ensures auth.subscriptions ==
      if !old(auth.ready) && InitStep(old(auth.State()), got, lookup).error.None? then 1
      else old(auth.subscriptions)
    ensures nav.Decided? ==> auth.ready
  {
    var error := auth.Init(got, lookup);
    if error.Some? {
      return Aborted(error.value);
    }
    nav := Decided(Guard(auth.State(), to));
  }

  /** The router following a redirect: the first navigation is that of
      `BeforeEach`, and the second runs the guard again and is allowed, whatever
      the backend would answer, since `init` is then a no-op that leaves the
      state as the first navigation left it. */
  method NavigateFollowingRedirect(auth: AuthStore, to: Location, got: SessionResult, lookup: ProfileLookup,
                                   nextFullPath: string, got': SessionResult, lookup': ProfileLookup)
    returns (first: Navigation, second: Option<Navigation>)
    requires auth.Valid()
    modifies auth
    ensures auth.Valid()
    ensures var o := InitStep(old(auth.State()), got, lookup);
      auth.State() == o.state && first == NavigationFrom(o, to)
    ensures auth.subscriptions ==
      if !old(auth.ready) && InitStep(old(auth.State()), got, lookup).error.None? then 1
      else old(auth.subscriptions)
    ensures second.Some? <==> first.Decided? && first.decision.Redirect?
    ensures second.Some? ==> second.value == Decided(Allow)
  {
    first := BeforeEach(auth, to, got, lookup);
    if first.Decided? && first.decision.Redirect? {
      var settled := auth.State();
      NoRedirectLoop(settled, to, nextFullPath);
      var next := BeforeEach(auth, Location(first.decision.path, nextFullPath), got', lookup');
      second := Some(next);
    } else {
      second := None;
    }
  }
}
