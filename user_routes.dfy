/**
 * The user endpoints (routes/userRoutes.js): `GET /users/:id`, which returns a
 * user's names with the total of all their costs, and `POST /users`, which
 * creates a user and reports a duplicate id apart from other failures.
 */
module UserRoutes {
  import opened Wrappers
  import opened UserModel
  import opened CostModel
  import opened Database

  // ------------------------------------------------------------ the total

  /** The sum of the amounts of `costs`: the reference definition of the total. */
  function Total(costs: seq<Cost>): int {
    if costs == [] then 0 else costs[0].sum + Total(costs[1..])
  }

  /** `costs.reduce((sum, item) => sum + item.sum, acc)`: a left fold from `acc`. */
  function Reduce(costs: seq<Cost>, acc: int): int {
    if costs == [] then acc else Reduce(costs[1..], acc + costs[0].sum)
  }

  /** The fold computes the sum: reducing from `acc` adds the total to `acc`. */
  lemma {:induction false} ReduceIsTotal(costs: seq<Cost>, acc: int)
    ensures Reduce(costs, acc) == acc + Total(costs)
  {
    if costs != [] {
      ReduceIsTotal(costs[1..], acc + costs[0].sum);
    }
  }

  /** The total is additive: one more cost adds exactly its amount. */
  lemma {:induction false} TotalAppend(costs: seq<Cost>, c: Cost)
    ensures Total(costs + [c]) == Total(costs) + c.sum
  {
    if costs != [] {
      assert (costs + [c])[1..] == costs[1..] + [c];
      TotalAppend(costs[1..], c);
    }
  }

  /** A user's total grows by the amount of a new cost of theirs, and not by anyone else's. */
  lemma TotalAfterNewCost(costs: seq<Cost>, c: Cost, id: int)
    ensures Total(CostsOf(costs + [c], id))
         == Total(CostsOf(costs, id)) + (if c.userid == id then c.sum else 0)
  {
    CostsOfAppend(costs, c, id);
    if c.userid == id {
      TotalAppend(CostsOf(costs, id), c);
    } else {
      assert CostsOf(costs, id) + [] == CostsOf(costs, id);
    }
  }

  // ------------------------------------------------------- GET /users/:id

  /** The answer of `GET /users/:id`. */
  datatype LookupResponse =
    | UserNotFound
    | UserTotal(id: int, first_name: string, last_name: string, total: int)
  {
    function Status(): int {
      if UserNotFound? then 404 else 200
    }
  }

  /**
   * `GET /users/:id`: not found when no stored user has the id; otherwise the
   * found user's id and names with the sum of all costs owned by that id,
   * whatever their dates.
   */
  method GetUser(db: Store, id: int) returns (r: LookupResponse)
    ensures r.UserNotFound? <==> (forall u :: u in db.users ==> u.id != id)
    ensures r.Status() == if exists u :: u in db.users && u.id == id then 200 else 404
    ensures r.UserTotal? ==>
              exists u :: u in db.users && u.id == id &&
                          r == UserTotal(u.id, u.first_name, u.last_name, Total(CostsOf(db.costs, id)))
    ensures r.UserTotal? ==> r == UserTotal(id, FindUser(db.users, id).value.first_name,
                                            FindUser(db.users, id).value.last_name,
                                            Total(CostsOf(db.costs, id)))
  {
    var user := FindUser(db.users, id);
    if user.None? {
      return UserNotFound;
    }
    var costs := CostsOf(db.costs, id);
    var total := Reduce(costs, 0);
    ReduceIsTotal(costs, 0);
    r := UserTotal(user.value.id, user.value.first_name, user.value.last_name, total);
  }

  // ----------------------------------------------------------- POST /users

  /** The answer of `POST /users`. Both failures have status 400, with different messages. */
  datatype CreateResponse =
    | Created(user: User)
    | DuplicateId
    | ValidationFailed(error: UserError)
  {
    function Status(): int {
      if Created? then 201 else 400
    }
  }

  /**
   * `POST /users`: the body is validated against the schema first; a valid
   * user whose id is taken is refused by the unique index; otherwise the user
   * is added to the table. Costs are never touched.
   */
  method CreateUser(db: Store, input: UserInput) returns (r: CreateResponse)
    requires db.Valid()
    modifies db
    ensures db.Valid() && db.costs == old(db.costs)
    ensures match NewUser(input)
            case Err(e) => r == ValidationFailed(e) && db.users == old(db.users)
            case Ok(u) =>
              if forall v :: v in old(db.users) ==> v.id != u.id
              then r == Created(u) && db.users == old(db.users) + [u]
              else r == DuplicateId && db.users == old(db.users)
    ensures r.Status() == 201 <==> db.users != old(db.users)
    ensures r.Status() == 201 || r.Status() == 400
  {
    var validated := NewUser(input);
    match validated
    case Err(e) =>
      r := ValidationFailed(e);
    case Ok(u) =>
      var inserted := db.InsertUser(u);
      r := if inserted then Created(u) else DuplicateId;
  }

  /** Created and then looked up, a fresh user answers with its names and a total of 0 when it owns no costs. */
  lemma CreatedUserLookup(users: seq<User>, costs: seq<Cost>, u: User)
    requires UniqueIds(users) && forall v :: v in users ==> v.id != u.id
    requires forall c :: c in costs ==> c.userid != u.id
    ensures FindUser(users + [u], u.id) == Some(u)
    ensures Total(CostsOf(costs, u.id)) == 0
  {
    assert UniqueIds(users + [u]);
    FindUserUnique(users + [u], u);
    NoCostsNoTotal(costs, u.id);
  }

  lemma {:induction false} NoCostsNoTotal(costs: seq<Cost>, id: int)
    requires forall c :: c in costs ==> c.userid != id
    ensures CostsOf(costs, id) == [] && Total(CostsOf(costs, id)) == 0
  {
    if costs != [] {
      NoCostsNoTotal(costs[1..], id);
    }
  }
}
