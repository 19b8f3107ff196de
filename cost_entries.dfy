/** Creating a cost entry (`create_cost_entry`): the amount is taken as
    supplied, or derived from hours and rate, or from quantity and unit
    price, and the entry date defaults to today. */
module CostEntries {
  import opened Wrappers
  import opened Calendar
  import opened Records

  /** The request body of `POST /cost-entries`. */
  datatype EntryRequest = EntryRequest(
    projectId: string,
    phaseId: Option<string>,
    categoryId: string,
    description: string,
    hours: Option<real>,
    hourlyRate: Option<real>,
    quantity: Option<real>,
    unitPrice: Option<real>,
    totalAmount: Option<real>,
    entryDate: Option<Date>)

  const CannotCalculate := "Cannot calculate total amount"

  /** Python truthiness of an optional number: absent and zero are both false. */
  predicate Truthy(x: Option<real>) {
    x.Some? && x.value != 0.0
  }

  /** The amount a request yields. A supplied non-zero amount is kept whatever
      else is given; otherwise hours times rate when both are non-zero, which
      takes priority over quantity times unit price; otherwise the request is
      refused with a 400. The amount obtained is never zero. */
  function DeriveAmount(req: EntryRequest): (r: Result<real, ApiError>)
    ensures r.Ok? <==> Truthy(req.totalAmount)
                       || (Truthy(req.hours) && Truthy(req.hourlyRate))
                       || (Truthy(req.quantity) && Truthy(req.unitPrice))
    ensures r.Ok? ==> r.value != 0.0
    ensures Truthy(req.totalAmount) ==> r == Ok(req.totalAmount.value)
    ensures !Truthy(req.totalAmount) && Truthy(req.hours) && Truthy(req.hourlyRate)
            ==> r == Ok(req.hours.value * req.hourlyRate.value)
    ensures !Truthy(req.totalAmount) && !(Truthy(req.hours) && Truthy(req.hourlyRate))
            && Truthy(req.quantity) && Truthy(req.unitPrice)
            ==> r == Ok(req.quantity.value * req.unitPrice.value)
    ensures r.Err? ==> r.error == BadRequest(CannotCalculate) && r.error.StatusCode() == 400
  {
    if Truthy(req.totalAmount) then Ok(req.totalAmount.value)
    else if Truthy(req.hours) && Truthy(req.hourlyRate) then Ok(req.hours.value * req.hourlyRate.value)
    else if Truthy(req.quantity) && Truthy(req.unitPrice) then Ok(req.quantity.value * req.unitPrice.value)
    else Err(BadRequest(CannotCalculate))
  }

  /** The entry `create_cost_entry` stores once the category is found: the
      request's fields, the category's name, the derived amount and the entry
      date (today when none is given), with a fresh id and creation time. */
  function BuildEntry(req: EntryRequest, categoryName: string, id: string, today: Date, now: int)
    : (r: Result<CostEntry, ApiError>)
    ensures r.Ok? <==> DeriveAmount(req).Ok?
    ensures r.Err? ==> r.error == BadRequest(CannotCalculate)
    ensures r.Ok? ==> r.value.totalAmount == Some(DeriveAmount(req).value) && Truthy(r.value.totalAmount)
    ensures r.Ok? ==> r.value.entryDate == (if req.entryDate.Some? then req.entryDate.value else today)
    ensures r.Ok? ==> r.value.categoryName == Some(categoryName) && r.value.id == id && r.value.createdAt == now
    ensures r.Ok? ==> AsRequest(r.value) == req.(totalAmount := r.value.totalAmount, entryDate := Some(r.value.entryDate))
  {
    match DeriveAmount(req)
    case Err(e) => Err(e)
    case Ok(amount) =>
      var date := if req.entryDate.Some? then req.entryDate.value else today;
      Ok(CostEntry(id, req.projectId, req.phaseId, req.categoryId, Some(categoryName), req.description,
                   req.hours, req.hourlyRate, req.quantity, req.unitPrice, Some(amount), date, now))
  }

  /** The request that resubmits a stored entry as it stands. */
  function AsRequest(e: CostEntry): (req: EntryRequest) {
    EntryRequest(e.projectId, e.phaseId, e.categoryId, e.description, e.hours, e.hourlyRate,
                 e.quantity, e.unitPrice, e.totalAmount, Some(e.entryDate))
  }

  /** Resubmitting a created entry reproduces it: its stored amount is non-zero
      and so is kept, and its date is given and so is kept, whatever the day. */
  lemma ResubmitReproduces(req: EntryRequest, categoryName: string, id: string, today: Date, today': Date, now: int)
    requires BuildEntry(req, categoryName, id, today, now).Ok?
    ensures var e := BuildEntry(req, categoryName, id, today, now).value;
            BuildEntry(AsRequest(e), categoryName, id, today', now) == Ok(e)
  {
  }
}
