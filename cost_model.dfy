/**
 * The cost document (models/Cost.js): a description, a category from a fixed
 * list, the owning user's id, an amount and a date that defaults to the
 * current time.
 */
module CostModel {
  import opened Wrappers
  import opened Calendar

  /** The category enumeration of the schema, in the order the monthly report uses. */
  const Categories: seq<string> := ["food", "health", "housing", "sport", "education"]

  /** A stored cost. Amounts are integers (the source stores JavaScript numbers). */
  datatype Cost = Cost(description: string, category: string, userid: int, sum: int, date: DateTime)

  /**
   * The fields of a cost as they arrive in a request body; `None` is an absent
   * field. For `date`, `None` stands for any falsy value (absent, `null`, `""`,
   * `0`), all of which `date || new Date()` replaces by the current time.
   */
  datatype CostInput = CostInput(description: Option<string>, category: Option<string>,
                                 userid: Option<int>, sum: Option<int>, date: Option<DateTime>)

  /** Why a cost document fails the schema's validation. */
  datatype CostError =
    | CostFieldMissing(path: string)
    | CategoryNotAllowed(value: string)
    | CostDateInvalid

  /** A cost the schema accepts: its category is one of the five and its date is a `Date` value. */
  predicate ValidCost(c: Cost) {
    c.category in Categories && Representable(c.date)
  }

  /** The date a new cost gets: the one given, or the current time when none is given. */
  function CostDate(input: CostInput, now: DateTime): DateTime {
    if input.date.Some? then input.date.value else now
  }

  /** Every required field is present. */
  predicate HasRequiredFields(input: CostInput) {
    input.description.Some? && input.category.Some? && input.userid.Some? && input.sum.Some?
  }

  /**
   * Builds and validates a cost document from a request body, as the
   * create-and-save step does: the required fields must be present, the
   * category must be in the enumeration and the date must be a `Date` value; an absent
   * date is replaced by `now`.
   */
  function NewCost(input: CostInput, now: DateTime): (r: Result<Cost, CostError>)
    requires Representable(now)
    ensures r.Ok? <==> HasRequiredFields(input) && input.category.value in Categories &&
                       (input.date.Some? ==> Representable(input.date.value))
    ensures r.Ok? ==> ValidCost(r.value)
    ensures r.Ok? ==> r.value == Cost(input.description.value, input.category.value,
                                      input.userid.value, input.sum.value, CostDate(input, now))
    ensures r.Err? && !HasRequiredFields(input) ==> r.error.CostFieldMissing?
  {
    if input.description.None? then Err(CostFieldMissing("description"))
    else if input.category.None? then Err(CostFieldMissing("category"))
    else if input.userid.None? then Err(CostFieldMissing("userid"))
    else if input.sum.None? then Err(CostFieldMissing("sum"))
    else if input.category.value !in Categories then Err(CategoryNotAllowed(input.category.value))
    else if !Representable(CostDate(input, now)) then Err(CostDateInvalid)
    else Ok(Cost(input.description.value, input.category.value, input.userid.value,
                 input.sum.value, CostDate(input, now)))
  }
}
