/**
 * The stores active on this site, as synchronisation sees them, and the change-log filter that
 * keeps sync push to records of those stores.
 */
module ActiveStores {
  import opened Wrappers
  import opened Repository

  datatype StoreRow = StoreRow(id: string, siteId: int)

  datatype NameRow = NameRow(id: string)

  /** A store joined with its name. */
  datatype Store = Store(storeRow: StoreRow, nameRow: NameRow)

  datatype GetActiveStoresOnSiteError = DatabaseError(error: RepositoryError) | SiteIdNotSet

  /** The stores whose site is this site, in the order the store query loads them. */
  datatype ActiveStoresOnSite = ActiveStoresOnSite(stores: seq<Store>)
  {
    /** `name_ids`: the stores' name ids, store by store. */
    function NameIds(): (r: seq<string>)
      ensures |r| == |stores|
      ensures forall i :: 0 <= i < |r| ==> r[i] == stores[i].nameRow.id
    {
      seq(|stores|, (i: int) requires 0 <= i < |stores| => stores[i].nameRow.id)
    }

    /** `store_ids`: the stores' ids, store by store. */
    function StoreIds(): (r: seq<string>)
      ensures |r| == |stores|
      ensures forall i :: 0 <= i < |r| ==> r[i] == stores[i].storeRow.id
    {
      seq(|stores|, (i: int) requires 0 <= i < |stores| => stores[i].storeRow.id)
    }

    /** `get_store_id_for_name_id`: the id of the first store with that name. */
    function GetStoreIdForNameId(nameId: string): (r: Option<string>)
      ensures r.None? <==> forall i :: 0 <= i < |stores| ==> stores[i].nameRow.id != nameId
      ensures r.Some? ==> exists i :: FirstWithName(stores, nameId, i) && r.value == stores[i].storeRow.id
    {
      FindStoreIdForNameId(stores, nameId)
    }
  }

  /** Index `i` holds the first store whose name id is `nameId`. */
  predicate FirstWithName(stores: seq<Store>, nameId: string, i: int)
  {
    0 <= i < |stores| && stores[i].nameRow.id == nameId && forall j :: 0 <= j < i ==> stores[j].nameRow.id != nameId
  }

  /** The iterator `find` followed by `map` that `get_store_id_for_name_id` uses. */
  function FindStoreIdForNameId(stores: seq<Store>, nameId: string): (r: Option<string>)
    ensures r.None? <==> forall i :: 0 <= i < |stores| ==> stores[i].nameRow.id != nameId
    ensures r.Some? ==> exists i :: FirstWithName(stores, nameId, i) && r.value == stores[i].storeRow.id
    decreases |stores|
  {
    if stores == [] then None
    else if stores[0].nameRow.id == nameId then
      assert FirstWithName(stores, nameId, 0);
      Some(stores[0].storeRow.id)
    else
      var rest := FindStoreIdForNameId(stores[1..], nameId);
      if rest.Some? then
        var i :| FirstWithName(stores[1..], nameId, i) && rest.value == stores[1..][i].storeRow.id;
        assert FirstWithName(stores, nameId, i + 1);
        rest
      else rest
  }

  /**
   * The store found for a name is the store id at the position of the first occurrence of the
   * name among `name_ids`.
   */
  lemma StoreIdForNameIdAgreesWithIdLists(active: ActiveStoresOnSite, nameId: string)
    ensures active.GetStoreIdForNameId(nameId).None? <==> nameId !in active.NameIds()
    ensures active.GetStoreIdForNameId(nameId).Some? ==>
      exists i :: 0 <= i < |active.stores| && active.NameIds()[i] == nameId
        && nameId !in active.NameIds()[..i]
        && active.GetStoreIdForNameId(nameId).value == active.StoreIds()[i]
  {
    var names := active.NameIds();
    if nameId in names {
      var k :| 0 <= k < |names| && names[k] == nameId;
      assert active.stores[k].nameRow.id == nameId;
    }
    var r := active.GetStoreIdForNameId(nameId);
    if r.Some? {
      var i :| FirstWithName(active.stores, nameId, i) && r.value == active.stores[i].storeRow.id;
      assert forall j :: 0 <= j < i ==> names[..i][j] == names[j];
    }
  }

  /**
   * `ActiveStoresOnSite::get`: the stored site id (its read may fail or find nothing), then the
   * stores on that site in the order `allStores` holds them.
   */
  function Get(siteId: Result<Option<int>, RepositoryError>, allStores: seq<Store>)
    : (r: Result<ActiveStoresOnSite, GetActiveStoresOnSiteError>)
    ensures siteId.Err? ==> r == Err(DatabaseError(siteId.error))
    ensures siteId == Ok(None) <==> r == Err(SiteIdNotSet)
    ensures r.Ok? ==> siteId.Ok? && siteId.value.Some?
    ensures r.Ok? ==>
      (forall i :: 0 <= i < |r.value.stores| ==> r.value.stores[i] in allStores && r.value.stores[i].storeRow.siteId == siteId.value.value)
      && forall i :: 0 <= i < |allStores| && allStores[i].storeRow.siteId == siteId.value.value ==> allStores[i] in r.value.stores
  {
    match siteId
    case Err(e) => Err(DatabaseError(e))
    case Ok(None) => Err(SiteIdNotSet)
    case Ok(Some(id)) => Ok(ActiveStoresOnSite(StoresOnSite(allStores, id)))
  }

  /** The store query filtered by `site_id = id`. */
  function StoresOnSite(allStores: seq<Store>, id: int): (r: seq<Store>)
    ensures |r| <= |allStores|
    ensures forall i :: 0 <= i < |r| ==> r[i] in allStores && r[i].storeRow.siteId == id
    ensures forall i :: 0 <= i < |allStores| && allStores[i].storeRow.siteId == id ==> allStores[i] in r
    decreases |allStores|
  {
    if allStores == [] then []
    else
      var rest := StoresOnSite(allStores[1..], id);
      assert forall i :: 0 <= i < |rest| ==> rest[i] in allStores;
      assert forall i :: 1 <= i < |allStores| ==> allStores[i] == allStores[1..][i - 1];
      if allStores[0].storeRow.siteId == id then [allStores[0]] + rest else rest
  }

  /** The change-log columns the push filter constrains. */
  datatype ChangelogFilter = ChangelogFilter(storeId: EqualFilter<string>, isSyncUpdate: EqualFilter<bool>)

  /** A change-log entry: the store of its record (if any) and whether sync itself wrote it (if known). */
  datatype ChangelogRow = ChangelogRow(cursor: int, storeId: Option<string>, isSyncUpdate: Option<bool>)

  predicate ChangelogMatches(f: ChangelogFilter, row: ChangelogRow)
  {
    MatchesEqual(f.storeId, row.storeId) && MatchesEqual(f.isSyncUpdate, row.isSyncUpdate)
  }

  /** `get_sync_push_changelogs_filter`, given the active stores (or the error getting them). */
  function GetSyncPushChangelogsFilter(active: Result<ActiveStoresOnSite, GetActiveStoresOnSiteError>)
    : (r: Result<Option<ChangelogFilter>, GetActiveStoresOnSiteError>)
    ensures active.Err? ==> r == Err(active.error)
    ensures active.Ok? ==> r.Ok? && r.value.Some?
  {
    match active
    case Err(e) => Err(e)
    case Ok(stores) => Ok(Some(ChangelogFilter(EqualAnyOrNull(stores.StoreIds()), EqualOrNullBool(false))))
  }

  /**
   * Sync push keeps exactly the entries of a record with no store or of an active store, that
   * were not written by sync itself (or are not marked either way).
   */
  lemma PushFilterKeepsActiveStoreChanges(active: ActiveStoresOnSite, row: ChangelogRow)
    ensures var f := GetSyncPushChangelogsFilter(Ok(active)).value.value;
      ChangelogMatches(f, row) <==>
        (&& (row.storeId.None? || exists i :: 0 <= i < |active.stores| && active.stores[i].storeRow.id == row.storeId.value)
         && row.isSyncUpdate != Some(true))
  {
    var ids := active.StoreIds();
    var f := GetSyncPushChangelogsFilter(Ok(active)).value.value;
    assert f == ChangelogFilter(EqualAnyOrNull(ids), EqualOrNullBool(false));
    var active' := row.storeId.None? || exists i :: 0 <= i < |active.stores| && active.stores[i].storeRow.id == row.storeId.value;
    assert MatchesEqual(f.storeId, row.storeId) <==> active' by {
      if row.storeId.Some? {
        if row.storeId.value in ids {
          var i :| 0 <= i < |ids| && ids[i] == row.storeId.value;
          assert active.stores[i].storeRow.id == row.storeId.value;
        }
        if exists i :: 0 <= i < |active.stores| && active.stores[i].storeRow.id == row.storeId.value {
          var i :| 0 <= i < |active.stores| && active.stores[i].storeRow.id == row.storeId.value;
          assert ids[i] == row.storeId.value;
        }
      }
    }
    assert f.isSyncUpdate == EqualAnyOrNull([false]);
    assert MatchesEqual(f.isSyncUpdate, row.isSyncUpdate) <==> row.isSyncUpdate != Some(true) by {
      if row.isSyncUpdate.Some? {
        assert row.isSyncUpdate.value in [false] <==> !row.isSyncUpdate.value;
      }
    }
  }
}
