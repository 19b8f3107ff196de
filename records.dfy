/** The stored documents the route handlers read and write, and the HTTP
    errors they raise. A field the handlers read with `.get(key, default)`
    may be absent from a stored document and is an `Option`; the handlers'
    fallback for it is the document's accessor below. */
module Records {
  import opened Wrappers
  import opened Calendar

  datatype CostType = Hourly | Material | Fixed | Custom

  datatype PhaseStatus = NotStarted | InProgress | Completed | Delayed

  datatype Project = Project(
    id: string,
    name: string,
    description: string,
    totalBudget: real,
    startDate: Date,
    endDate: Date)

  datatype Phase = Phase(
    id: string,
    projectId: string,
    name: string,
    description: string,
    budgetAllocation: Option<real>,
    startDate: Date,
    endDate: Date,
    status: PhaseStatus)
  {
    /** `phase.get("budget_allocation", 0)` */
    function Budget(): (b: real) {
      budgetAllocation.GetOr(0.0)
    }
  }

  datatype Category = Category(
    id: string,
    name: string,
    kind: CostType,
    description: string,
    defaultRate: Option<real>)

  /** A stored cost entry; `createdAt` is the creation timestamp, an opaque
      ordered value supplied by the clock. */
  datatype CostEntry = CostEntry(
    id: string,
    projectId: string,
    phaseId: Option<string>,
    categoryId: string,
    categoryName: Option<string>,
    description: string,
    hours: Option<real>,
    hourlyRate: Option<real>,
    quantity: Option<real>,
    unitPrice: Option<real>,
    totalAmount: Option<real>,
    entryDate: Date,
    createdAt: int)
  {
    /** `entry.get("total_amount", 0)` */
    function Amount(): (a: real) {
      totalAmount.GetOr(0.0)
    }

    /** `entry.get("category_name", "Unknown")` */
    function CategoryKey(): (k: string) {
      categoryName.GetOr("Unknown")
    }
  }

  /** An `HTTPException` raised by a handler: status code and detail text. */
  datatype ApiError = BadRequest(detail: string) | NotFound(detail: string) {
    function StatusCode(): (code: nat) {
      if BadRequest? then 400 else 404
    }
  }
}
