/** The dashboard shell (app/dashboard/layout.tsx): a session guard that runs
    whenever the path changes, a logout handler, and the choice of whether to
    draw the sidebar. Session storage is a map, navigation is a log of the
    paths pushed to the router. */
module DashboardLayout {
  import opened Http

  const HomePath := "/dashboard"
  const LoginPath := "/dashboard/login"
  const NameKey := "tenantName"
  const EmailKey := "tenantEmail"

  /** What one run of the guard does: push a route, adopt the stored tenant
      name, or nothing. */
  datatype GuardAction = Navigate(to: string) | ShowTenant(name: string) | NoAction

  /** The guard's decision from the path and the stored tenant name. */
  function Guard(pathname: string, stored: Option<string>): (a: GuardAction)
    // the login page: leave it for the home page when a session exists
    ensures pathname == LoginPath ==>
              a == (if Truthy(stored) then Navigate(HomePath) else NoAction)
    // every other page, the home page included: without a session go to
    // login, with one adopt the stored name
    ensures pathname != LoginPath ==>
              a == (if Truthy(stored) then ShowTenant(stored.value) else Navigate(LoginPath))
    ensures a.Navigate? ==> a.to in {HomePath, LoginPath}
  {
    if pathname == HomePath then
      if !Truthy(stored) then Navigate(LoginPath) else ShowTenant(stored.value)
    else if pathname == LoginPath then
      if Truthy(stored) then Navigate(HomePath) else NoAction
    else
      if !Truthy(stored) then Navigate(LoginPath) else ShowTenant(stored.value)
  }

  /** The guard never bounces: with the same session, arriving where it sent
      the user triggers no further navigation. */
  lemma GuardSettles(pathname: string, stored: Option<string>)
    ensures Guard(pathname, stored).Navigate? ==>
              !Guard(Guard(pathname, stored).to, stored).Navigate?
  {
  }

  /** The storage left by logout: exactly the two session keys removed. */
  function LoggedOut(storage: map<string, string>): (s: map<string, string>)
    ensures NameKey !in s && EmailKey !in s
    ensures forall k :: k != NameKey && k != EmailKey ==> (k in s <==> k in storage)
    ensures forall k :: k in s ==> s[k] == storage[k]
  {
    storage - {NameKey, EmailKey}
  }

  /** After logout every page but the login page sends the user to login. */
  lemma LoggedOutIsGuarded(storage: map<string, string>, pathname: string)
    requires pathname != LoginPath
    ensures Guard(pathname, Get(LoggedOut(storage), NameKey)) == Navigate(LoginPath)
  {
  }

  datatype ShellView = Bare | WithSidebar(tenantName: string)

  /** The login page renders its children alone; every other page gets the
      sidebar showing the current tenant name. */
  function Chrome(pathname: string, tenantName: string): (v: ShellView)
    ensures v.Bare? <==> pathname == LoginPath
    ensures v.WithSidebar? ==> v.tenantName == tenantName
  {
    if pathname == LoginPath then Bare else WithSidebar(tenantName)
  }

  class Shell {
    var pathname: string
    var storage: map<string, string>
    var tenantName: string
    var navigations: seq<string>

    constructor (pathname: string, storage: map<string, string>)
      ensures this.pathname == pathname && this.storage == storage
      ensures tenantName == "" && navigations == []
    {
      this.pathname := pathname;
      this.storage := storage;
      tenantName := "";
      navigations := [];
    }

    /** The effect: read the stored tenant name and act on `Guard`'s
        decision. Storage and the path are left alone. */
    method RunGuard()
      modifies this`tenantName, this`navigations
      ensures var a := Guard(pathname, Get(storage, NameKey));
              match a
              case Navigate(to) => navigations == old(navigations) + [to] && tenantName == old(tenantName)
              case ShowTenant(name) => tenantName == name && navigations == old(navigations)
              case NoAction => tenantName == old(tenantName) && navigations == old(navigations)
    {
      var stored := Get(storage, NameKey);
      if pathname == HomePath {
        if !Truthy(stored) {
          navigations := navigations + [LoginPath];
        } else {
          tenantName := stored.value;
        }
      } else if pathname == LoginPath {
        if Truthy(stored) {
          navigations := navigations + [HomePath];
        }
      } else {
        if !Truthy(stored) {
          navigations := navigations + [LoginPath];
        } else {
          tenantName := stored.value;
        }
      }
    }

    /** `handleLogout`: remove the two session keys and go to login. */
    method Logout()
      modifies this`storage, this`navigations
      ensures storage == LoggedOut(old(storage))
      ensures navigations == old(navigations) + [LoginPath]
    {
      storage := storage - {NameKey, EmailKey};
      navigations := navigations + [LoginPath];
    }
  }

  /** Off the login page, a guard run that does not redirect leaves the
      sidebar showing exactly the stored tenant name. */
  method GuardedVisit(pathname: string, storage: map<string, string>) returns (v: ShellView, pushed: seq<string>)
    requires pathname != LoginPath
    ensures pushed == [] <==> Truthy(Get(storage, NameKey))
    ensures pushed == [] ==> v == WithSidebar(storage[NameKey])
    ensures pushed != [] ==> pushed == [LoginPath] && v == WithSidebar("")
  {
    var shell := new Shell(pathname, storage);
    shell.RunGuard();
    v := Chrome(shell.pathname, shell.tenantName);
    pushed := shell.navigations;
  }
}
