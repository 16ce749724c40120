/**
 * The access gate of src/components/AuthGuard.tsx: the effect that redirects or fetches the
 * profile, the profile fetch, and the cascade that decides what is rendered. The signed-in user
 * and the auth loading flag come from the auth hook; the profile query's answer is a parameter.
 */
module AuthGuard {
  import opened Js

  /** The profile row: `status` and `role` as the database holds them. */
  datatype Profile = Profile(status: string, role: string)

  /** What the effect does on a run. */
  datatype EffectAction = NoAction | Navigate(path: string) | FetchProfile

  /** What the guard renders. */
  datatype GuardView = LoadingView | ProfileNotFound | Children | PendingApproval | AccountRejected

  /** The effect (lines 20-27): nothing while auth loads, the sign-in page without a user, else the fetch. */
  function EffectOf(user: Option<string>, authLoading: bool): (a: EffectAction)
    ensures a == NoAction <==> authLoading
    ensures a == Navigate("/auth") <==> !authLoading && user.None?
    ensures a == FetchProfile <==> !authLoading && user.Some?
  {
    if authLoading then NoAction
    else if user.None? then Navigate("/auth")
    else FetchProfile
  }

  /** The render cascade (lines 43-100). */
  function Decide(authLoading: bool, loading: bool, profile: Option<Profile>): (v: GuardView)
  {
    if authLoading || loading then LoadingView
    else if profile.None? then ProfileNotFound
    else if profile.value.role == "admin" then Children
    else if profile.value.status == "pending" then PendingApproval
    else if profile.value.status == "rejected" then AccountRejected
    else Children
  }

  /** While either loading flag is set only the loading view is rendered, and it is rendered only then. */
  lemma {:induction false} LoadingFirst(authLoading: bool, loading: bool, profile: Option<Profile>)
    ensures Decide(authLoading, loading, profile) == LoadingView <==> authLoading || loading
  {
  }

  /** Once loaded, a missing profile gives the not-found alert and an admin sees the children whatever the status. */
  lemma {:induction false} AdminsPass(profile: Option<Profile>)
    ensures profile.None? ==> Decide(false, false, profile) == ProfileNotFound
    ensures profile.Some? && profile.value.role == "admin" ==> Decide(false, false, profile) == Children
  {
  }

  /** For everyone else: pending and rejected get their alerts, any other status the children. */
  lemma {:induction false} NonAdminByStatus(p: Profile)
    requires p.role != "admin"
    ensures p.status == "pending" <==> Decide(false, false, Some(p)) == PendingApproval
    ensures p.status == "rejected" <==> Decide(false, false, Some(p)) == AccountRejected
    ensures Decide(false, false, Some(p)) == Children <==> p.status != "pending" && p.status != "rejected"
  {
  }

  /** The children are shown exactly to a loaded admin or to a loaded user who is neither pending nor rejected. */
  lemma {:induction false} WhoSeesTheChildren(authLoading: bool, loading: bool, profile: Option<Profile>)
    ensures Decide(authLoading, loading, profile) == Children <==>
      && !authLoading && !loading && profile.Some?
      && (profile.value.role == "admin" || (profile.value.status != "pending" && profile.value.status != "rejected"))
  {
  }

  class AuthGuardState {
    var profile: Option<Profile>
    var loading: bool
    /** The paths the guard has navigated to, oldest first. */
    var navigations: seq<string>
    var fetchesStarted: nat

    constructor()
      ensures profile == None && loading && navigations == [] && fetchesStarted == 0
    {
      profile, loading, navigations, fetchesStarted := None, true, [], 0;
    }

    /** One run of the effect: redirects, starts the profile fetch, or does nothing. */
    method RunEffect(user: Option<string>, authLoading: bool)
      modifies this`navigations, this`fetchesStarted
      ensures EffectOf(user, authLoading) == NoAction ==>
        navigations == old(navigations) && fetchesStarted == old(fetchesStarted)
      ensures EffectOf(user, authLoading) == Navigate("/auth") ==>
        navigations == old(navigations) + ["/auth"] && fetchesStarted == old(fetchesStarted)
      ensures EffectOf(user, authLoading) == FetchProfile ==>
        navigations == old(navigations) && fetchesStarted == old(fetchesStarted) + 1
    {
      if authLoading {
        return;
      }
      if user.None? {
        navigations := navigations + ["/auth"];
        return;
      }
      fetchesStarted := fetchesStarted + 1;
    }

    /**
     * `fetchProfile` once the query settles: the row becomes the profile; an error (returned or
     * thrown) leaves it as it was; loading ends either way.
     */
    method SettleProfile(answer: Result<Option<Profile>>)
      modifies this`profile, this`loading
      ensures answer.Ok? ==> profile == answer.value
      ensures answer.Throw? ==> profile == old(profile)
      ensures !loading
    {
      if answer.Ok? {
        profile := answer.value;
      }
      loading := false;
    }

    function View(authLoading: bool): GuardView
      reads this
    {
      Decide(authLoading, loading, profile)
    }
  }

  /**
   * A fresh guard whose user is signed in and whose profile query fails ends without a profile,
   * out of the loading state, showing the not-found alert; with auth finished and no user it
   * navigates to '/auth' and starts no fetch.
   */
  method FailedProfileFetch(user: string, e: Thrown) returns (view: GuardView, fetched: nat, redirectedOnNoUser: bool)
    ensures view == ProfileNotFound && fetched == 1 && redirectedOnNoUser
  {
    var g := new AuthGuardState();
    g.RunEffect(Some(user), false);
    g.SettleProfile(Throw(e));
    view := g.View(false);
    fetched := g.fetchesStarted;
    var h := new AuthGuardState();
    h.RunEffect(None, false);
    redirectedOnNoUser := h.navigations == ["/auth"] && h.fetchesStarted == 0;
  }
}
