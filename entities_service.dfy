/**
 * The entities service: the tenant's entity rows turned into list items.
 * The database query is an input: the rows arrive in the order the query
 * sorts them, and the tenant and status filters are predicates over them.
 */
module EntitiesService {
  import opened Wrappers
  import opened ListOps

  datatype EntityRow = EntityRow(
    id: string, tenantId: string, name: string, status: string, country: string,
    legalForm: Option<string>, createdAt: Option<string>, approvalStatus: Option<string>)

  datatype EntityListItem = EntityListItem(
    id: string, name: string, status: string, country: string,
    legalForm: Option<string>, createdAt: Option<string>, approvalStatus: Option<string>)

  /** An approval still waiting for the reviewer or for the applicant's changes. */
  predicate PendingApproval(e: EntityRow) {
    e.approvalStatus == Some("PENDING") || e.approvalStatus == Some("REQUIRES_CHANGES")
  }

  /** The status shown: a pending approval's status, otherwise the entity's own. */
  function DisplayStatus(e: EntityRow): (s: string)
    ensures PendingApproval(e) ==> s == e.approvalStatus.value
    ensures !PendingApproval(e) ==> s == e.status
    ensures s == e.status || (e.approvalStatus.Some? && s == e.approvalStatus.value)
  {
    if PendingApproval(e) then e.approvalStatus.value else e.status
  }

  /** `v || undefined` for an optional string: an empty string is dropped. */
  function NonEmpty(v: Option<string>): (r: Option<string>)
    ensures r.Some? <==> v.Some? && v.value != ""
    ensures r.Some? ==> r == v
  {
    if v.Some? && v.value != "" then v else None
  }

  /** One list item of `listAllEntities`. */
  function ToListItem(e: EntityRow): (item: EntityListItem)
    ensures item.id == e.id && item.name == e.name && item.country == e.country
    ensures item.status == DisplayStatus(e)
    ensures item.legalForm.Some? <==> e.legalForm.Some? && e.legalForm.value != ""
    ensures item.approvalStatus.Some? <==> e.approvalStatus.Some? && e.approvalStatus.value != ""
    ensures item.approvalStatus.Some? ==> item.approvalStatus == e.approvalStatus
    ensures item.createdAt == e.createdAt
  {
    EntityListItem(e.id, e.name, DisplayStatus(e), e.country,
      NonEmpty(e.legalForm), e.createdAt, NonEmpty(e.approvalStatus))
  }

  /** `rows.map(toListItem)`: one item per row, in order. */
  function ListItems(rows: seq<EntityRow>): (items: seq<EntityListItem>)
    ensures |items| == |rows|
    ensures forall i :: 0 <= i < |rows| ==>
      && items[i].id == rows[i].id && items[i].name == rows[i].name
      && items[i].country == rows[i].country && items[i].status == DisplayStatus(rows[i])
  {
    if rows == [] then [] else [ToListItem(rows[0])] + ListItems(rows[1..])
  }

  predicate OfTenant(tenantId: string, e: EntityRow) {
    e.tenantId == tenantId
  }

  /** `listAllEntities`: every entity of the tenant, pending ones included. */
  function ListAllEntities(rows: seq<EntityRow>, tenantId: string): (items: seq<EntityListItem>)
    ensures |items| <= |rows|
    ensures forall i :: 0 <= i < |items| ==> exists e :: e in rows && e.tenantId == tenantId && items[i] == ToListItem(e)
  {
    var mine := Filter(rows, e => OfTenant(tenantId, e));
    FilterIn(rows, e => OfTenant(tenantId, e));
    var items := ListItems(mine);
    assert forall i :: 0 <= i < |items| ==> items[i] == ToListItem(mine[i]) by {
      ListItemsAre(mine);
    }
    items
  }

  lemma {:induction false} ListItemsAre(rows: seq<EntityRow>)
    ensures forall i :: 0 <= i < |rows| ==> ListItems(rows)[i] == ToListItem(rows[i])
  {
    if rows != [] {
      ListItemsAre(rows[1..]);
      assert forall i :: 1 <= i < |rows| ==> ListItems(rows)[i] == ListItems(rows[1..])[i - 1];
    }
  }

  predicate IsActive(tenantId: string, e: EntityRow) {
    e.tenantId == tenantId && (e.status == "ACTIVE" || e.status == "VERIFIED")
  }

  /** The four selected columns of an active entity; the others are undefined. */
  function ActiveItem(e: EntityRow): (item: EntityListItem)
    ensures item.id == e.id && item.name == e.name && item.status == e.status && item.country == e.country
    ensures item.legalForm.None? && item.createdAt.None? && item.approvalStatus.None?
  {
    EntityListItem(e.id, e.name, e.status, e.country, None, None, None)
  }

  function ActiveItems(rows: seq<EntityRow>): (items: seq<EntityListItem>)
    ensures |items| == |rows|
    ensures forall i :: 0 <= i < |rows| ==> items[i] == ActiveItem(rows[i])
  {
    if rows == [] then [] else [ActiveItem(rows[0])] + ActiveItems(rows[1..])
  }

  /** `listActiveEntities`: only the tenant's ACTIVE or VERIFIED entities, raw status kept. */
  function ListActiveEntities(rows: seq<EntityRow>, tenantId: string): (items: seq<EntityListItem>)
    ensures |items| <= |rows|
    ensures forall i :: 0 <= i < |items| ==> items[i].status == "ACTIVE" || items[i].status == "VERIFIED"
    ensures forall i :: 0 <= i < |items| ==> items[i].approvalStatus.None?
    ensures forall i :: 0 <= i < |items| ==> exists e :: e in rows && IsActive(tenantId, e) && items[i] == ActiveItem(e)
  {
    var active := Filter(rows, e => IsActive(tenantId, e));
    FilterIn(rows, e => IsActive(tenantId, e));
    ActiveItems(active)
  }

  /** No entity of the tenant is missing from the full list. */
  lemma AllComplete(rows: seq<EntityRow>, tenantId: string, e: EntityRow)
    requires e in rows && e.tenantId == tenantId
    ensures ToListItem(e) in ListAllEntities(rows, tenantId)
  {
    var p := (x: EntityRow) => OfTenant(tenantId, x);
    var mine := Filter(rows, p);
    FilterCount(rows, p, e);
    assert e in multiset(mine);
    var i :| 0 <= i < |mine| && mine[i] == e;
    ListItemsAre(mine);
    assert ListAllEntities(rows, tenantId) == ListItems(mine);
    assert ListItems(mine)[i] == ToListItem(e);
  }

  /** No active entity of the tenant is missing from the active list. */
  lemma ActiveComplete(rows: seq<EntityRow>, tenantId: string, e: EntityRow)
    requires e in rows && IsActive(tenantId, e)
    ensures ActiveItem(e) in ListActiveEntities(rows, tenantId)
  {
    var p := (x: EntityRow) => IsActive(tenantId, x);
    var active := Filter(rows, p);
    FilterCount(rows, p, e);
    assert e in multiset(active);
    var i :| 0 <= i < |active| && active[i] == e;
    assert ActiveItems(active)[i] == ActiveItem(e);
  }

  /** An entity whose approval is pending shows that status in the full list, never its own. */
  lemma PendingShowsApproval(e: EntityRow)
    requires e.status == "ACTIVE" && e.approvalStatus == Some("REQUIRES_CHANGES")
    ensures ToListItem(e).status == "REQUIRES_CHANGES"
    ensures ToListItem(e).approvalStatus == Some("REQUIRES_CHANGES")
  {
  }
}
