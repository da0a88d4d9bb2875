/**
 * Inserting a stocktake: in one transaction, check that the id is new and the store exists,
 * generate the row (with the store's next stocktake number and status New), store it and read
 * it back.
 */
module StocktakeInsert {
  import opened Wrappers
  import opened Repository

  datatype StocktakeStatus = New | Finalised

  /** The stocktake fields the insert sets; the others keep their defaults and are not modelled. */
  datatype StocktakeRow = StocktakeRow(
    id: string,
    storeId: string,
    stocktakeNumber: int,
    comment: Option<string>,
    description: Option<string>,
    createdDatetime: int,
    status: StocktakeStatus)

  datatype InsertStocktakeInput = InsertStocktakeInput(
    id: string, comment: Option<string>, description: Option<string>, createdDatetime: int)

  datatype InsertStocktakeError =
    | DatabaseError(error: RepositoryError)
    | InternalError(message: string)
    | StocktakeAlreadyExists
    | InvalidStore

  type Table = map<string, StocktakeRow>

  predicate KeyedById(t: Table)
  {
    forall k :: k in t ==> t[k].id == k
  }

  /** `check_stocktake_does_not_exist`: no stored stocktake has this id (its count is 0). */
  function CheckStocktakeDoesNotExist(t: Table, id: string): (r: bool)
    requires KeyedById(t)
    ensures r <==> forall k :: k in t ==> t[k].id != id
  {
    id !in t
  }

  /** `validate`: an existing id is reported before an unknown store. */
  function Validate(t: Table, storeIds: set<string>, storeId: string, input: InsertStocktakeInput)
    : (r: Result<(), InsertStocktakeError>)
    requires KeyedById(t)
    ensures r == Err(StocktakeAlreadyExists) <==> exists k :: k in t && t[k].id == input.id
    ensures r == Err(InvalidStore) <==> CheckStocktakeDoesNotExist(t, input.id) && storeId !in storeIds
    ensures r.Ok? <==> CheckStocktakeDoesNotExist(t, input.id) && storeId in storeIds
  {
    if !CheckStocktakeDoesNotExist(t, input.id) then Err(StocktakeAlreadyExists)
    else if storeId !in storeIds then Err(InvalidStore)
    else Ok(())
  }

  /**
   * `generate`: the input's id, comment, description and creation time, the given store, status
   * New, and the number `next_number` hands out for stocktakes of this store (`nextNumber`, not
   * part of this model).
   */
  function Generate(storeId: string, input: InsertStocktakeInput, nextNumber: string -> int): (row: StocktakeRow)
    ensures row.id == input.id && row.comment == input.comment && row.description == input.description
    ensures row.createdDatetime == input.createdDatetime
    ensures row.storeId == storeId && row.status == New
    ensures row.stocktakeNumber == nextNumber(storeId)
  {
    StocktakeRow(input.id, storeId, nextNumber(storeId), input.comment, input.description, input.createdDatetime, New)
  }

  /** `get_stocktake`'s read-back answer turned into the insert's result. */
  function ReadBack(found: Option<StocktakeRow>): (r: Result<StocktakeRow, InsertStocktakeError>)
    ensures found.None? <==> r == Err(InternalError("Failed to read the just inserted stocktake!"))
    ensures found.Some? ==> r == Ok(found.value)
  {
    if found.Some? then Ok(found.value) else Err(InternalError("Failed to read the just inserted stocktake!"))
  }

  class StocktakeDatabase {
    var stocktakes: Table
    const storeIds: set<string>

    ghost predicate Valid()
      reads this
    {
      KeyedById(stocktakes)
    }

    constructor (stocktakes: Table, storeIds: set<string>)
      requires KeyedById(stocktakes)
      ensures Valid() && this.stocktakes == stocktakes && this.storeIds == storeIds
    {
      this.stocktakes := stocktakes;
      this.storeIds := storeIds;
    }

    /** `insert_stocktake`: nothing is written unless validation passes; then the new row is stored and returned. */
    method InsertStocktake(storeId: string, input: InsertStocktakeInput, nextNumber: string -> int)
      returns (r: Result<StocktakeRow, InsertStocktakeError>)
      requires Valid()
      modifies this
      ensures Valid()
      ensures var v := Validate(old(stocktakes), storeIds, storeId, input);
        if v.Err? then r == Err(v.error) && stocktakes == old(stocktakes)
        else
          && r == Ok(Generate(storeId, input, nextNumber))
          && stocktakes == old(stocktakes)[input.id := Generate(storeId, input, nextNumber)]
    {
      var v := Validate(stocktakes, storeIds, storeId, input);
      if v.Err? {
        return Err(v.error);
      }
      var row := Generate(storeId, input, nextNumber);
      stocktakes := stocktakes[row.id := row];
      var found := if row.id in stocktakes then Some(stocktakes[row.id]) else None;
      r := ReadBack(found);
    }
  }

  /**
   * The service's test: an existing stocktake id in store A is refused, a new id in store
   * "invalid" is refused for the store, and a new id in store A passes.
   */
  lemma InsertStocktakeExamples(existing: StocktakeRow, now: int)
    requires existing.id == "stocktake_a"
    ensures var t := map[existing.id := existing];
      var stores := {"store_a"};
      && Validate(t, stores, "store_a", InsertStocktakeInput("stocktake_a", None, None, now)) == Err(StocktakeAlreadyExists)
      && Validate(t, stores, "invalid", InsertStocktakeInput("new_stocktake", None, None, now)) == Err(InvalidStore)
      && Validate(t, stores, "store_a", InsertStocktakeInput("new_stocktake", None, None, now)).Ok?
  {
  }
}
