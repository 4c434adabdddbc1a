/** The dashboard layout (src/pages/Dashboard/Dashboard.jsx): sidebar links
    highlighted by exact path match, a token guard on entry, and a logout that
    removes the token only. */
module Dashboard {
  import opened Browser
  import Nav
  import Connexion

  const ActiveClass := "bg-orange-500 text-white rounded-lg p-3 transition-all"
  const InactiveClass := "text-slate-300 hover:text-orange-400 hover:bg-slate-800 rounded-lg p-3 transition-all"

  /** The six sidebar destinations, in the order they are listed. */
  const SidebarPaths: seq<string> := [
    "/dashboard", "/dashboard/utilisateurs", "/dashboard/fiches/pre-demarrage",
    "/dashboard/depannages", "/dashboard/avertissements", "/dashboard/statistiques"]

  /** `isActive(path)`: the highlighted class iff the current path is `path`
      exactly (no prefix match). */
  function IsActive(pathname: string, path: string): (r: string)
    ensures r == ActiveClass <==> pathname == path
    ensures r == ActiveClass || r == InactiveClass
  {
    if pathname == path then ActiveClass else InactiveClass
  }

  /** Because matching is exact, at most one sidebar link is highlighted, and
      none on a path outside the sidebar. */
  lemma AtMostOneActive(pathname: string, i: nat, j: nat)
    requires i < |SidebarPaths| && j < |SidebarPaths|
    requires IsActive(pathname, SidebarPaths[i]) == ActiveClass
    requires IsActive(pathname, SidebarPaths[j]) == ActiveClass
    ensures i == j
  {
  }

  /** Storage after this layout's logout: the token slot only. */
  function LogoutItems(items: map<string, Stored>): map<string, Stored>
  {
    items - {"token"}
  }

  /** Where the guard effect leaves the router: unchanged with a token, the
      login page without one. */
  function GuardTarget(items: map<string, Stored>, current: string): (r: string)
    ensures HasToken(items) ==> r == current
    ensures !HasToken(items) ==> r == "/connexion"
  {
    if HasToken(items) then current else "/connexion"
  }

  /** This logout leaves the stored user behind, whereas the navigation bar's
      removes it; on every other slot the two agree. Either way the guard
      then sends the visitor to the login page. */
  lemma LogoutsDiffer(items: map<string, Stored>, current: string)
    ensures "user" in items ==> "user" in LogoutItems(items) && LogoutItems(items)["user"] == items["user"]
    ensures "user" !in Nav.LogoutItems(items)
    ensures Nav.LogoutItems(items) == LogoutItems(items) - {"user"}
    ensures GuardTarget(LogoutItems(items), current) == "/connexion"
    ensures GuardTarget(Nav.LogoutItems(items), current) == "/connexion"
  {
  }

  /** A login that stores a non-empty token lets the guard through, wherever
      the visitor is; an empty token is bounced to the login page. */
  lemma LoginPassesGuard(items: map<string, Stored>, reply: Connexion.LoginReply, current: string)
    ensures reply.token != "" ==> GuardTarget(Connexion.StoreSession(items, reply), current) == current
    ensures reply.token == "" ==> GuardTarget(Connexion.StoreSession(items, reply), current) == "/connexion"
  {
    Connexion.StoreSessionContents(items, reply);
  }

  class DashboardLayout {
    var showModal: bool

    constructor ()
      ensures !showModal
    {
      showModal := false;
    }

    /** The sidebar's logout button opens the confirmation modal. */
    method OpenModal()
      modifies this
      ensures showModal
    {
      showModal := true;
    }

    /** "Annuler" closes it; storage is not among what it may change. */
    method CancelModal()
      modifies this
      ensures !showModal
    {
      showModal := false;
    }

    /** `handleLogout`: removes 'token' (not 'user') and goes to the login page. */
    method HandleLogout(storage: SecureStorage, router: Router)
      modifies storage, router
      ensures storage.items == LogoutItems(old(storage.items))
      ensures router.pathname == "/connexion"
    {
      storage.RemoveItem("token");
      router.Navigate("/connexion");
    }

    /** The mount effect: redirect to the login page when no token is stored. */
    method GuardEffect(storage: SecureStorage, router: Router)
      modifies router
      ensures router.pathname == GuardTarget(storage.items, old(router.pathname))
    {
      if !HasToken(storage.items) {
        router.Navigate("/connexion");
      }
    }
  }
}
