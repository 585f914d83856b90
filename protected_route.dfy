/** The route guard (src/components/ProtectedRoute.tsx): what a protected
    route shows for the current authentication state. */
module ProtectedRoute {
  import opened Common
  import Auth

  datatype View = Spinner | RedirectToAuth | RedirectToCoupleSetup | Children

  /** The guard; `requireCouple` is None when the prop is not passed. */
  function Guard(loading: bool, user: Option<Auth.User>, couple: Option<Auth.Couple>,
                 requireCouple: Option<bool>): (v: View)
    ensures v == Spinner <==> loading
    ensures v == RedirectToAuth <==> !loading && user.None?
    ensures v == RedirectToCoupleSetup <==> !loading && user.Some? && requireCouple == Some(true) && couple.None?
    ensures v == Children <==> !loading && user.Some? && (requireCouple != Some(true) || couple.Some?)
  {
    var needsCouple := if requireCouple.Some? then requireCouple.value else false;
    if loading then Spinner
    else if user.None? then RedirectToAuth
    else if needsCouple && couple.None? then RedirectToCoupleSetup
    else Children
  }

  /** Leaving the prop out is asking for no couple: a signed-in user without
      a couple gets the page. */
  lemma DefaultNeedsNoCouple(loading: bool, user: Option<Auth.User>, couple: Option<Auth.Couple>)
    ensures Guard(loading, user, couple, None) == Guard(loading, user, couple, Some(false))
    ensures !loading && user.Some? ==> Guard(loading, user, None, None) == Children
  {
  }

  /** Asking for a couple only ever turns the page into the couple-setup
      redirect, never into another view. */
  lemma RequireCoupleOnlyRedirects(loading: bool, user: Option<Auth.User>, couple: Option<Auth.Couple>)
    ensures Guard(loading, user, couple, Some(true)) == Guard(loading, user, couple, Some(false))
         || (Guard(loading, user, couple, Some(true)) == RedirectToCoupleSetup
             && Guard(loading, user, couple, Some(false)) == Children)
  {
  }
}
