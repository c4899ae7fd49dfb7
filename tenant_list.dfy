/** The tenant table (components/TenantList.tsx): one row per tenant, a
    single slot naming the tenant whose admin-user form is open, and the
    handlers that open, close and reset that slot. */
module TenantList {
  import opened Http

  const EmptyMessage := "No tenants found. Create your first tenant to get started."
  const DomainSuffix := ".traversium.com"

  datatype Tenant = Tenant(
    id: int,
    tenantId: string,
    name: string,
    description: Option<string>,
    domain: string,
    createdAt: string,
    adminEmail: Option<string>,
    isActive: bool)

  /** The last cell of a row: a note, or the button that toggles the form. */
  datatype RowAction = AdminExists | CreateAdminButton

  /** What one tenant row shows; `adminForm` says whether the admin-user
      form row follows it. The creation date's locale formatting is not
      modelled, the raw value is kept. */
  datatype Row = Row(
    name: string,
    description: Option<string>,
    domainLink: string,
    domainText: string,
    idText: string,
    adminEmail: string,
    createdAt: string,
    status: string,
    action: RowAction,
    adminForm: bool)

  datatype ListView = EmptyState(message: string) | Table(rows: seq<Row>)

  /** The display decisions for one tenant, given the open-form slot. */
  function RowFor(t: Tenant, open: Option<string>): (r: Row)
    ensures r.domainLink == "https://" + t.domain + DomainSuffix
    ensures r.adminEmail == (if Truthy(t.adminEmail) then t.adminEmail.value else "N/A")
    ensures r.status == (if t.isActive then "Active" else "Inactive")
    ensures r.action == (if Truthy(t.adminEmail) then AdminExists else CreateAdminButton)
    ensures r.adminForm <==> open == Some(t.tenantId)
    ensures r.description.Some? <==> Truthy(t.description)
  {
    Row(
      t.name,
      if Truthy(t.description) then t.description else None,
      "https://" + t.domain + DomainSuffix,
      t.domain + DomainSuffix,
      "ID: " + t.tenantId,
      Or(t.adminEmail, "N/A"),
      t.createdAt,
      if t.isActive then "Active" else "Inactive",
      if Truthy(t.adminEmail) then AdminExists else CreateAdminButton,
      open == Some(t.tenantId))
  }

  /** The whole list: the empty-state message alone for no tenants,
      otherwise one row per tenant in order. */
  function Render(tenants: seq<Tenant>, open: Option<string>): (v: ListView)
    ensures tenants == [] <==> v.EmptyState?
    ensures v.EmptyState? ==> v.message == EmptyMessage
    ensures v.Table? ==> |v.rows| == |tenants|
    ensures v.Table? ==> forall i :: 0 <= i < |tenants| ==> v.rows[i] == RowFor(tenants[i], open)
  {
    if |tenants| == 0 then EmptyState(EmptyMessage)
    else Table(seq(|tenants|, i requires 0 <= i < |tenants| => RowFor(tenants[i], open)))
  }

  predicate DistinctIds(tenants: seq<Tenant>) {
    forall i, j :: 0 <= i < j < |tenants| ==> tenants[i].tenantId != tenants[j].tenantId
  }

  /** An admin form follows a row only for the tenant the slot names, and
      when tenant identifiers are distinct at most one row has it. */
  lemma AtMostOneAdminForm(tenants: seq<Tenant>, open: Option<string>, i: nat, j: nat)
    requires i < |tenants| && j < |tenants|
    ensures var v := Render(tenants, open);
            v.rows[i].adminForm ==> open == Some(tenants[i].tenantId)
    ensures var v := Render(tenants, open);
            DistinctIds(tenants) && i != j ==> !(v.rows[i].adminForm && v.rows[j].adminForm)
  {
    var v := Render(tenants, open);
    assert v.rows[i] == RowFor(tenants[i], open) && v.rows[j] == RowFor(tenants[j], open);
    if DistinctIds(tenants) && i != j {
      if i < j {
        assert tenants[i].tenantId != tenants[j].tenantId;
      } else {
        assert tenants[j].tenantId != tenants[i].tenantId;
      }
    }
  }

  /** The Create Admin click: close the form if it is this tenant's,
      otherwise open this tenant's, replacing any other. */
  function Toggled(open: Option<string>, tenantId: string): (s: Option<string>)
    ensures open == Some(tenantId) ==> s == None
    ensures open != Some(tenantId) ==> s == Some(tenantId)
  {
    if open == Some(tenantId) then None else Some(tenantId)
  }

  /** Clicking the same tenant twice returns the slot to where it started
      for that tenant: open if its form was open, closed otherwise (any
      other tenant's form having been replaced); clicking another tenant
      hands the form over. */
  lemma ToggleTwice(open: Option<string>, t: string, u: string)
    ensures Toggled(Toggled(open, t), t) == (if open == Some(t) then Some(t) else None)
    ensures t != u ==> Toggled(Toggled(open, t), u) == Some(u)
  {
  }

  class TenantListState {
    var showAdminForm: Option<string>
    var refreshes: nat  // calls made to `onRefresh`

    constructor ()
      ensures showAdminForm == None && refreshes == 0
    {
      showAdminForm := None;
      refreshes := 0;
    }

    method ClickCreateAdmin(tenantId: string)
      modifies this`showAdminForm
      ensures showAdminForm == Toggled(old(showAdminForm), tenantId)
    {
      showAdminForm := if showAdminForm == Some(tenantId) then None else Some(tenantId);
    }

    /** The form's Cancel button. */
    method Cancel()
      modifies this`showAdminForm
      ensures showAdminForm == None
    {
      showAdminForm := None;
    }

    /** `handleAdminCreated`: close the form and ask the parent to reload. */
    method HandleAdminCreated()
      modifies this
      ensures showAdminForm == None
      ensures refreshes == old(refreshes) + 1
    {
      showAdminForm := None;
      refreshes := refreshes + 1;
    }

    /** The header's Refresh button: reload without touching the form. */
    method Refresh()
      modifies this`refreshes
      ensures refreshes == old(refreshes) + 1
    {
      refreshes := refreshes + 1;
    }
  }

  /** Opening one tenant's form and then another's leaves only the second
      open; creating its admin closes it and reloads once. */
  method OpenSwitchCreate(tenants: seq<Tenant>, a: string, b: string) returns (v: ListView, refreshes: nat)
    requires a != b
    ensures v == Render(tenants, None)
    ensures refreshes == 1
  {
    var list := new TenantListState();
    list.ClickCreateAdmin(a);
    list.ClickCreateAdmin(b);
    assert list.showAdminForm == Some(b);
    list.HandleAdminCreated();
    v := Render(tenants, list.showAdminForm);
    refreshes := list.refreshes;
  }
}
