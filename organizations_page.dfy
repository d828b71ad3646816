/** The superadmin console's organizations page: the loaded list, the search
    box, the status filter, and the delete and status-toggle actions. */
module OrganizationsPage {
  import opened Opt
  import opened Js
  import opened Seqs
  import opened Entities
  import opened MockApi
  import opened ListPage

  /** The search box looks at the name and the id. */
  const SearchFields: seq<string> := ["name", "id"]

  /** The page's state. */
  class Page {
    var organizations: seq<Obj>
    var searchTerm: string
    var statusFilter: string
    var loading: bool

    constructor ()
      ensures organizations == [] && searchTerm == "" && statusFilter == "all" && loading
    {
      organizations := [];
      searchTerm := "";
      statusFilter := "all";
      loading := true;
    }

    /** `filteredOrgs`: the rows the table shows. */
    function Filtered(): seq<Obj>
      reads this
    {
      Rows(organizations, searchTerm, statusFilter)
    }

    /** The effect on mount: load every organization, then stop loading. */
    method Load(api: Store)
      modifies this
      ensures organizations == api.organizations && !loading
      ensures searchTerm == old(searchTerm) && statusFilter == old(statusFilter)
    {
      var data := api.GetAllOrganizations();
      organizations := data;
      loading := false;
    }

    /** `handleDelete`: when the user confirms, delete in the store and drop the
        id from the list. */
    method HandleDelete(api: Store, id: string, confirmed: bool)
      modifies this, api
      ensures !confirmed ==> organizations == old(organizations) && api.organizations == old(api.organizations)
      ensures confirmed ==> organizations == RemoveById(old(organizations), id)
      ensures confirmed ==> api.organizations == DeleteFirst(old(api.organizations), id)
      ensures api.members == old(api.members) && api.messages == old(api.messages)
      ensures searchTerm == old(searchTerm) && statusFilter == old(statusFilter) && loading == old(loading)
    {
      if confirmed {
        var _ := api.DeleteOrganization(id);
        organizations := Filter(organizations, (o: Obj) => !HasId(o, id));
      }
    }

    /** `handleToggleStatus`: ask the store to flip the status; when it returns
        the updated record, put it in place of every row with that id. */
    method HandleToggleStatus(api: Store, org: Obj)
      requires Get(org, "id").Str?
      modifies this, api
      ensures var i := FirstIndexOf(old(api.organizations), Get(org, "id").s);
        if i == -1 then (organizations == old(organizations) && api.organizations == old(api.organizations))
        else (
          && api.organizations == old(api.organizations)[i := Spread(old(api.organizations)[i], map["status" := Str(ToggledStatus(Get(org, "status")))])]
          && organizations == ReplaceById(old(organizations), Get(org, "id"), api.organizations[i]))
      ensures api.members == old(api.members) && api.messages == old(api.messages)
      ensures searchTerm == old(searchTerm) && statusFilter == old(statusFilter) && loading == old(loading)
    {
      var newStatus := ToggledStatus(Get(org, "status"));
      var updated := api.UpdateOrganization(Get(org, "id").s, map["status" := Str(newStatus)]);
      if updated.Some? {
        organizations := ReplaceById(organizations, Get(org, "id"), updated.value);
      }
    }
  }

  /** A toggle on a conforming organization keeps its shape and flips its status. */
  lemma ToggleKeepsShape(org: Obj)
    requires Conforms(org, OrganizationSchema)
    ensures var t := Spread(org, map["status" := Str(ToggledStatus(Get(org, "status")))]);
      Conforms(t, OrganizationSchema) && t["status"] != org["status"]
  {
  }

  /** The rows shown for a search term and a status filter. */
  function Rows(s: seq<Obj>, term: string, statusFilter: string): seq<Obj> {
    VisibleRows(s, SearchFields, term, statusFilter)
  }

  /** Conforming organizations are each active or inactive, so the "active" and
      "inactive" views split the "all" view. */
  lemma StatusViewsSplit(s: seq<Obj>, term: string)
    requires forall i :: 0 <= i < |s| ==> Conforms(s[i], OrganizationSchema)
    ensures |Rows(s, term, "active")| + |Rows(s, term, "inactive")| == |Rows(s, term, "all")|
  {
    forall i | 0 <= i < |s| ensures Get(s[i], "status") in {Str("active"), Str("inactive")} {
      assert FitsField(s[i]["status"], OrganizationSchema["status"]);
    }
    StatusViewsPartition(s, SearchFields, term);
  }

  /** On the fixtures, an empty search with "all" shows all five organizations. */
  lemma FixtureShowsAll()
    ensures Rows(MockOrganizations, "", "all") == MockOrganizations
  {
    EmptySearchShowsAll(MockOrganizations, SearchFields);
  }
}
