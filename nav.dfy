/** The public navigation bar (src/components/Nav.jsx): links chosen by the
    presence of a session token, and a confirmed logout that clears the whole
    session. */
module Nav {
  import opened Browser

  /** The last item of the bar: a logout button or a link to the login page. */
  datatype AuthControl = LogoutButton | ConnexionLink

  /** Target of the "Dashboard" link. */
  function DashboardLinkTarget(items: map<string, Stored>): (r: string)
    ensures r == "/dashboard" <==> HasToken(items)
    ensures r == "/dashboard" || r == "/connexion"
  {
    if HasToken(items) then "/dashboard" else "/connexion"
  }

  /** The logout button is shown iff a token exists. */
  function AuthControlFor(items: map<string, Stored>): (r: AuthControl)
    ensures r == LogoutButton <==> HasToken(items)
  {
    if HasToken(items) then LogoutButton else ConnexionLink
  }

  /** Storage after this bar's logout: both session slots removed. */
  function LogoutItems(items: map<string, Stored>): map<string, Stored>
  {
    items - {"token", "user"}
  }

  /** This logout ends the session completely: no token, no user, every other
      slot kept, and the bar falls back to the login link on both counts. */
  lemma LogoutSignsOut(items: map<string, Stored>)
    ensures var after := LogoutItems(items);
      && !HasToken(after) && "user" !in after
      && after.Keys == items.Keys - {"token", "user"}
      && (forall k :: k in after ==> after[k] == items[k])
      && DashboardLinkTarget(after) == "/connexion"
      && AuthControlFor(after) == ConnexionLink
  {
  }

  class NavBar {
    var showLogoutModal: bool

    constructor ()
      ensures !showLogoutModal
    {
      showLogoutModal := false;
    }

    /** The logout button only opens the confirmation modal. */
    method OpenLogoutModal()
      modifies this
      ensures showLogoutModal
    {
      showLogoutModal := true;
    }

    /** "Annuler": hides the modal; storage is not among what it may change. */
    method CancelLogout()
      modifies this
      ensures !showLogoutModal
    {
      showLogoutModal := false;
    }

    /** `handleLogout`: removes 'token' then 'user', goes home, hides the modal. */
    method HandleLogout(storage: SecureStorage, router: Router)
      modifies this, storage, router
      ensures storage.items == LogoutItems(old(storage.items))
      ensures router.pathname == "/"
      ensures !showLogoutModal
    {
      storage.RemoveItem("token");
      storage.RemoveItem("user");
      router.Navigate("/");
      showLogoutModal := false;
    }
  }
}
