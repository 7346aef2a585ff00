/**
 * The user document (models/User.js): a unique numeric id, first and last
 * name, birthday and a marital status that is either single or married.
 */
module UserModel {
  import opened Wrappers
  import opened Calendar

  /** The marital-status enumeration of the schema. */
  const MaritalStatuses: seq<string> := ["single", "married"]

  datatype User = User(id: int, first_name: string, last_name: string,
                       birthday: DateTime, marital_status: string)

  /** The fields of a user as they arrive in a request body; `None` is an absent field. */
  datatype UserInput = UserInput(id: Option<int>, first_name: Option<string>, last_name: Option<string>,
                                 birthday: Option<DateTime>, marital_status: Option<string>)

  /** Why a user document fails the schema's validation. */
  datatype UserError =
    | UserFieldMissing(path: string)
    | MaritalStatusNotAllowed(value: string)
    | BirthdayInvalid

  /** A user the schema accepts. */
  predicate ValidUser(u: User) {
    u.marital_status in MaritalStatuses && Representable(u.birthday)
  }

  /** Every field of the schema is required. */
  predicate HasRequiredFields(input: UserInput) {
    input.id.Some? && input.first_name.Some? && input.last_name.Some? &&
    input.birthday.Some? && input.marital_status.Some?
  }

  /** The `unique` index on `id`: no two records of the table share an id. */
  ghost predicate UniqueIds(users: seq<User>) {
    forall i, j :: 0 <= i < j < |users| ==> users[i].id != users[j].id
  }

  /**
   * Validates a request body against the schema (the check that runs before
   * the document is inserted): every field present, the marital status in
   * the enumeration, the birthday a `Date` value.
   */
  function NewUser(input: UserInput): (r: Result<User, UserError>)
    ensures r.Ok? <==> HasRequiredFields(input) &&
                       input.marital_status.value in MaritalStatuses &&
                       Representable(input.birthday.value)
    ensures r.Ok? ==> ValidUser(r.value)
    ensures r.Ok? ==> r.value.marital_status == "single" || r.value.marital_status == "married"
    ensures r.Ok? ==> r.value == User(input.id.value, input.first_name.value, input.last_name.value,
                                      input.birthday.value, input.marital_status.value)
    ensures r.Err? && !HasRequiredFields(input) ==> r.error.UserFieldMissing?
  {
    if input.id.None? then Err(UserFieldMissing("id"))
    else if input.first_name.None? then Err(UserFieldMissing("first_name"))
    else if input.last_name.None? then Err(UserFieldMissing("last_name"))
    else if input.birthday.None? then Err(UserFieldMissing("birthday"))
    else if input.marital_status.None? then Err(UserFieldMissing("marital_status"))
    else if input.marital_status.value !in MaritalStatuses then
      Err(MaritalStatusNotAllowed(input.marital_status.value))
    else if !Representable(input.birthday.value) then Err(BirthdayInvalid)
    else Ok(User(input.id.value, input.first_name.value, input.last_name.value,
                 input.birthday.value, input.marital_status.value))
  }
}
