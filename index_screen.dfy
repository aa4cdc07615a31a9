/** The start screen's redirect, once authentication has initialised. */
module IndexScreen {

  import opened Wrappers
  import RootLayout

  function StartRedirect(initialized: bool, user: Option<string>): Option<RootLayout.Route>
  {
    if !initialized then None
    else if user.Some? then Some(RootLayout.Feed)
    else Some(RootLayout.Welcome)
  }

  /**
   * No redirect until initialised; then the feed for a signed-in user and
   * the welcome screen otherwise. Only whether there is a user matters.
   */
  lemma StartRedirectRule(initialized: bool, user: Option<string>, other: Option<string>)
    ensures StartRedirect(initialized, user) == None <==> !initialized
    ensures initialized && user.Some? ==> StartRedirect(initialized, user) == Some(RootLayout.Feed)
    ensures initialized && user.None? ==> StartRedirect(initialized, user) == Some(RootLayout.Welcome)
    ensures user.Some? == other.Some? ==> StartRedirect(initialized, user) == StartRedirect(initialized, other)
  {
  }

  /**
   * The start screen leaves the onboarding check to the layout: a signed-in
   * user without preferences who is sent to the feed is then sent on to
   * onboarding, and one with preferences stays on the feed.
   */
  lemma LayoutTakesOver(user: Option<string>, hasPreferences: bool)
    requires user.Some?
    ensures var target := StartRedirect(true, user).value;
      RootLayout.Redirect(true, user, Some(hasPreferences), RootLayout.Segments(target))
        == (if hasPreferences then None else Some(RootLayout.Onboarding))
  {
  }
}
