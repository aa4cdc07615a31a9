/**
 * The root layout's navigation guard: from whether auth has initialised,
 * the signed-in user, whether that user has saved preferences (unknown while
 * loading) and the current route segments, at most one redirect. Also the
 * render gate and the store calls made when the user changes.
 */
module RootLayout {

  import opened Wrappers

  datatype Route = Welcome | Onboarding | Feed

  /** The segments of each target route, as the router reports them once there. */
  function Segments(r: Route): seq<string>
  {
    match r
    case Welcome => ["(auth)", "welcome"]
    case Onboarding => ["(auth)", "onboarding"]
    case Feed => ["(app)", "feed"]
  }

  /** An absolute path from its segments: each one preceded by a slash. */
  function JoinPath(segments: seq<string>): string
  {
    if segments == [] then [] else "/" + segments[0] + JoinPath(segments[1..])
  }

  /** The path passed to `router.replace` for each target. */
  function Path(r: Route): string
  {
    match r
    case Welcome => "/(auth)/welcome"
    case Onboarding => "/(auth)/onboarding"
    case Feed => "/(app)/feed"
  }

  /** The segments of a path: its maximal slash-free pieces, `piece` being the one read so far. */
  function SplitPath(p: string, piece: string): seq<string>
    decreases |p|
  {
    if p == [] then (if piece == [] then [] else [piece])
    else if p[0] == '/' then (if piece == [] then [] else [piece]) + SplitPath(p[1..], [])
    else SplitPath(p[1..], piece + [p[0]])
  }

  predicate IsSegment(s: string) {
    s != [] && forall k :: 0 <= k < |s| ==> s[k] != '/'
  }

  lemma {:induction false} SplitPathPiece(s: string, rest: string, piece: string)
    requires forall k :: 0 <= k < |s| ==> s[k] != '/'
    ensures SplitPath(s + rest, piece) == SplitPath(rest, piece + s)
    decreases |s|
  {
    if s == [] {
      assert s + rest == rest && piece + s == piece;
    } else {
      assert (s + rest)[0] == s[0];
      assert (s + rest)[1..] == s[1..] + rest;
      SplitPathPiece(s[1..], rest, piece + [s[0]]);
      assert piece + [s[0]] + s[1..] == piece + s;
    }
  }

  /** Splitting a joined path gives back its segments. */
  lemma {:induction false} SplitJoinPath(segments: seq<string>, piece: string)
    requires forall i :: 0 <= i < |segments| ==> IsSegment(segments[i])
    ensures SplitPath(JoinPath(segments), piece) == (if piece == [] then [] else [piece]) + segments
    decreases |segments|
  {
    if segments != [] {
      var tail := JoinPath(segments[1..]);
      assert JoinPath(segments) == "/" + (segments[0] + tail);
      assert ("/" + (segments[0] + tail))[1..] == segments[0] + tail;
      SplitPathPiece(segments[0], tail, []);
      assert [] + segments[0] == segments[0];
      SplitJoinPath(segments[1..], segments[0]);
      assert segments == [segments[0]] + segments[1..];
    }
  }

  /** The router's segments of each target path are the ones the guard is checked against. */
  lemma PathSegments(r: Route)
    ensures SplitPath(Path(r), []) == Segments(r)
  {
    var segs := Segments(r);
    PathJoins(r);
    SplitTwo(segs[0], segs[1]);
  }

  lemma PathJoins(r: Route)
    ensures |Segments(r)| == 2 && Path(r) == "/" + Segments(r)[0] + "/" + Segments(r)[1]
    ensures IsSegment(Segments(r)[0]) && IsSegment(Segments(r)[1])
  {
    match r
    case Welcome => WelcomeJoins();
    case Onboarding => OnboardingJoins();
    case Feed => FeedJoins();
  }

  lemma WelcomeJoins()
    ensures Path(Welcome) == "/" + "(auth)" + "/" + "welcome" && IsSegment("(auth)") && IsSegment("welcome")
  {
  }

  lemma OnboardingJoins()
    ensures Path(Onboarding) == "/" + "(auth)" + "/" + "onboarding" && IsSegment("(auth)") && IsSegment("onboarding")
  {
  }

  lemma FeedJoins()
    ensures Path(Feed) == "/" + "(app)" + "/" + "feed" && IsSegment("(app)") && IsSegment("feed")
  {
  }

  lemma SplitTwo(a: string, b: string)
    requires IsSegment(a) && IsSegment(b)
    ensures SplitPath("/" + a + "/" + b, []) == [a, b]
  {
    assert [b][1..] == [];
    assert JoinPath([b]) == "/" + b + [];
    assert [a, b][1..] == [b];
    assert JoinPath([a, b]) == "/" + a + JoinPath([b]);
    assert JoinPath([a, b]) == "/" + a + "/" + b;
    assert forall i :: 0 <= i < |[a, b]| ==> IsSegment([a, b][i]);
    SplitJoinPath([a, b], []);
  }

  /** `segments[i]`, or `undefined` past the end. */
  function SegmentAt(segments: seq<string>, i: nat): Option<string>
  {
    if i < |segments| then Some(segments[i]) else None
  }

  predicate InAuthGroup(segments: seq<string>) {
    SegmentAt(segments, 0) == Some("(auth)")
  }

  predicate OnOnboarding(segments: seq<string>) {
    SegmentAt(segments, 1) == Some("onboarding")
  }

  /** The navigation effect: the route passed to `router.replace`, if any. */
  function Redirect(initialized: bool, user: Option<string>, hasPreferences: Option<bool>,
                    segments: seq<string>): Option<Route>
  {
    if !initialized || hasPreferences.None? then None
    else if user.None? && !InAuthGroup(segments) then Some(Welcome)
    else if user.Some? && !hasPreferences.value && !OnOnboarding(segments) then Some(Onboarding)
    else if user.Some? && hasPreferences.value && InAuthGroup(segments) && !OnOnboarding(segments) then Some(Feed)
    else None
  }

  /**
   * The rules in their order. Nothing happens before initialisation or while
   * preferences are unknown. Signed out, the guard sends anything outside the
   * auth group to the welcome screen. Signed in without preferences, it sends
   * anything but the onboarding screen there, whatever the group. Signed in
   * with preferences, it sends the auth group, except the onboarding screen,
   * to the feed. Nothing else redirects.
   */
  lemma RedirectRules(initialized: bool, user: Option<string>, hasPreferences: Option<bool>,
                      segments: seq<string>)
    ensures var r := Redirect(initialized, user, hasPreferences, segments);
      && (!initialized || hasPreferences.None? ==> r == None)
      && (initialized && hasPreferences.Some? && user.None? ==>
            (r == Some(Welcome) <==> !InAuthGroup(segments)) && r != Some(Onboarding) && r != Some(Feed))
      && (initialized && hasPreferences == Some(false) && user.Some? ==>
            (r == Some(Onboarding) <==> !OnOnboarding(segments)) && r != Some(Welcome) && r != Some(Feed))
      && (initialized && hasPreferences == Some(true) && user.Some? ==>
            (r == Some(Feed) <==> InAuthGroup(segments) && !OnOnboarding(segments))
            && r != Some(Welcome) && r != Some(Onboarding))
  {
  }

  /** Once on the route the guard chose, the guard is satisfied: it does not redirect again. */
  lemma RedirectSettles(initialized: bool, user: Option<string>, hasPreferences: Option<bool>,
                        segments: seq<string>)
    requires Redirect(initialized, user, hasPreferences, segments).Some?
    ensures var r := Redirect(initialized, user, hasPreferences, segments).value;
      Redirect(initialized, user, hasPreferences, Segments(r)) == None
  {
  }

  /** Nothing is rendered before initialisation, or while a signed-in user's preferences are unknown. */
  predicate Renders(initialized: bool, user: Option<string>, hasPreferences: Option<bool>) {
    !(!initialized || (user.Some? && hasPreferences.None?))
  }

  /**
   * The gate hides the screens before initialisation and while a signed-in
   * user's preferences are unknown; whenever the guard redirects, the screens
   * are shown, and a signed-out user always sees them once initialised.
   */
  lemma RenderGate(initialized: bool, user: Option<string>, hasPreferences: Option<bool>, segments: seq<string>)
    ensures !initialized ==> !Renders(initialized, user, hasPreferences)
    ensures user.Some? && hasPreferences.None? ==> !Renders(initialized, user, hasPreferences)
    ensures initialized && user.None? ==> Renders(initialized, user, hasPreferences)
    ensures Redirect(initialized, user, hasPreferences, segments).Some? ==> Renders(initialized, user, hasPreferences)
  {
  }

  // ---------------------------------------------------------------------------
  // Reaction to a change of user
  // ---------------------------------------------------------------------------

  /** The store actions the layout calls. */
  datatype StoreCall = FetchProfile(userId: string) | CheckPreferences(userId: string) | ClearProfile | ResetPreferences

  function OnUserChange(user: Option<string>): seq<StoreCall>
  {
    if user.Some? then [FetchProfile(user.value), CheckPreferences(user.value)]
    else [ClearProfile, ResetPreferences]
  }

  /** What the layout reads from the profile and preference stores. */
  datatype Stores = Stores(profileLoaded: bool, hasPreferences: Option<bool>)

  /**
   * The immediate effect of a store call. Clearing the profile and resetting
   * the preferences take effect at once; the two fetches are asynchronous
   * database reads whose results arrive later, so they change nothing yet.
   */
  function Apply(s: Stores, c: StoreCall): Stores
  {
    match c
    case ClearProfile => s.(profileLoaded := false)
    case ResetPreferences => s.(hasPreferences := None)
    case FetchProfile(_) => s
    case CheckPreferences(_) => s
  }

  function ApplyAll(s: Stores, cs: seq<StoreCall>): Stores
    decreases |cs|
  {
    if cs == [] then s else ApplyAll(Apply(s, cs[0]), cs[1..])
  }

  /**
   * Signing in fetches that user's profile and preferences; signing out
   * clears the profile and resets preferences to unknown, after which the
   * guard stays silent and the screens render.
   */
  lemma UserChangeEffects(user: Option<string>, s: Stores, initialized: bool, segments: seq<string>)
    ensures user.Some? ==> OnUserChange(user) == [FetchProfile(user.value), CheckPreferences(user.value)]
    ensures user.None? ==>
      var after := ApplyAll(s, OnUserChange(user));
      !after.profileLoaded && after.hasPreferences.None?
      && Redirect(initialized, user, after.hasPreferences, segments) == None
      && Renders(initialized, user, after.hasPreferences) == initialized
  {
    if user.None? {
      var cs := OnUserChange(user);
      assert cs[1..] == [ResetPreferences];
      assert cs[1..][1..] == [];
      assert ApplyAll(s, cs) == ApplyAll(Apply(Apply(s, ClearProfile), ResetPreferences), []);
    }
  }
}
