/**
 * The guard around the dashboard: on mount it restores a stored session into the store, and it
 * renders nothing until then; afterwards it redirects to the sign-in page when neither the store
 * nor storage holds a token, and renders the dashboard otherwise.
 */
module Guard {
  import opened Optional
  import opened Auth

  /** What the guard renders. */
  datatype Render =
    | RenderNothing
    | RedirectTo(to: string, from: string)
    | RenderChildren

  const LoginPath: string := "/auth/login"

  /** The render decision: nothing before the effect has run, then a redirect or the children. */
  function Decide(hasHydrated: bool, token: Option<string>, cachedToken: Option<string>, pathname: string): (r: Render)
    ensures r.RenderNothing? <==> !hasHydrated
    ensures r.RedirectTo? <==> hasHydrated && !Present(token) && !Present(cachedToken)
    ensures r.RedirectTo? ==> r.to == LoginPath && r.from == pathname
  {
    if !hasHydrated then RenderNothing
    else if !Present(token) && !Present(cachedToken) then RedirectTo(LoginPath, pathname)
    else RenderChildren
  }

  /** What the effect does to the store: hydrate from storage when the store has no token and storage has one. */
  function EffectOnStore(s: AuthState, stored: Option<string>, storedUser: Option<StoredAuthUser>): (r: AuthState)
    ensures Present(s.token) || !Present(stored) ==> r == s
    ensures !Present(s.token) && Present(stored) ==> r == AuthState(stored, storedUser, Idle, None)
    ensures ErrorOnlyOnFailure(s) ==> ErrorOnlyOnFailure(r)
  {
    if !Present(s.token) && Present(stored) then Reduce(s, Hydrate(stored, storedUser)) else s
  }

  /** Once the effect has run, the guard redirects exactly when the store is not signed in. */
  lemma RedirectIffSignedOut(s: AuthState, stored: Option<string>, storedUser: Option<StoredAuthUser>, pathname: string)
    ensures var after := EffectOnStore(s, stored, storedUser);
            Decide(true, after.token, stored, pathname).RedirectTo? <==> !IsAuthenticatedOf(after)
  {
  }

  /** The effect signs the store in exactly when it was already signed in or storage holds a token. */
  lemma EffectSignsIn(s: AuthState, stored: Option<string>, storedUser: Option<StoredAuthUser>)
    ensures IsAuthenticatedOf(EffectOnStore(s, stored, storedUser)) <==> IsAuthenticatedOf(s) || Present(stored)
    ensures Present(s.token) ==> EffectOnStore(s, stored, storedUser) == s
  {
  }

  class AuthGuard {
    var hasHydrated: bool
    var cachedToken: Option<string>

    constructor ()
      ensures !hasHydrated && cachedToken == None
    {
      hasHydrated := false;
      cachedToken := None;
    }

    /** What the guard renders at `pathname` for the current store. */
    function View(store: AuthStore, pathname: string): Render
      reads this, store
    {
      Decide(hasHydrated, store.token, cachedToken, pathname)
    }

    /** The mount effect, given what storage holds. */
    method RunEffect(store: AuthStore, stored: Option<string>, storedUser: Option<StoredAuthUser>)
      requires store.Valid()
      modifies this, store
      ensures hasHydrated && cachedToken == stored
      ensures store.State() == EffectOnStore(old(store.State()), stored, storedUser)
      ensures store.Valid()
      ensures forall pathname :: View(store, pathname).RedirectTo? <==> !store.IsAuthenticated()
    {
      if !Present(store.token) && Present(stored) {
        store.Dispatch(Hydrate(stored, storedUser));
      }
      cachedToken := stored;
      hasHydrated := true;
      forall pathname ensures View(store, pathname).RedirectTo? <==> !store.IsAuthenticated() {
        RedirectIffSignedOut(old(store.State()), stored, storedUser, pathname);
      }
    }
  }
}
