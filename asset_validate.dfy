/** Checks made when asset logs and asset locations are written. */
module AssetValidate {
  import opened Wrappers
  import opened Repository
  import opened Sequences

  datatype AssetLogStatus = NotInUse | Functioning | FunctioningButNeedsAttention | NotFunctioning | Decommissioned

  datatype AssetLogReasonRow = AssetLogReasonRow(id: string, assetLogStatus: AssetLogStatus, reason: string)

  datatype AssetInternalLocationRow = AssetInternalLocationRow(id: string, assetId: string, locationId: string)

  /**
   * `check_reason_matches_status`, with `findReason` answering the reason lookup: no reason always
   * matches; a reason needs a status, and a reason that is found with that same status.
   */
  function CheckReasonMatchesStatus(status: Option<AssetLogStatus>, reasonId: Option<string>,
                                    findReason: string -> Result<Option<AssetLogReasonRow>, RepositoryError>): (r: bool)
    ensures reasonId.None? ==> r
    ensures reasonId.Some? && status.None? ==> !r
    ensures reasonId.Some? && status.Some? ==>
      (r <==> findReason(reasonId.value).Ok? && findReason(reasonId.value).value.Some?
              && findReason(reasonId.value).value.value.assetLogStatus == status.value)
  {
    match reasonId
    case None => true
    case Some(id) =>
      match status
      case None => false
      case Some(s) =>
        match findReason(id)
        case Ok(Some(reason)) => reason.assetLogStatus == s
        case _ => false
  }

  /** The location query: a location in the list, assigned to another asset. */
  predicate AssignedElsewhere(locationIds: seq<string>, assetId: string, row: AssetInternalLocationRow)
  {
    MatchesEqual(EqualAny(locationIds), Some(row.locationId)) && MatchesEqual(NotEqualTo(assetId), Some(row.assetId))
  }

  /**
   * `check_locations_are_assigned` over the asset-location table `rows`: the assignments of the
   * listed locations to OTHER assets.
   */
  function CheckLocationsAreAssigned(rows: seq<AssetInternalLocationRow>, locationIds: seq<string>, assetId: string)
    : (r: seq<AssetInternalLocationRow>)
    ensures forall i :: 0 <= i < |r| ==> r[i] in rows && r[i].locationId in locationIds && r[i].assetId != assetId
    ensures forall i :: 0 <= i < |rows| && rows[i].locationId in locationIds && rows[i].assetId != assetId ==> rows[i] in r
  {
    Filter(rows, (row: AssetInternalLocationRow) => AssignedElsewhere(locationIds, assetId, row))
  }

  /** Assigning locations to an asset never conflicts with that asset's own assignments. */
  lemma OwnAssignmentsNeverConflict(rows: seq<AssetInternalLocationRow>, locationIds: seq<string>, assetId: string)
    requires forall i :: 0 <= i < |rows| ==> rows[i].assetId == assetId
    ensures CheckLocationsAreAssigned(rows, locationIds, assetId) == []
  {
    PopOfFilterIsLastMatch(rows, (row: AssetInternalLocationRow) => AssignedElsewhere(locationIds, assetId, row));
  }
}
