/**
 * The document store behind the routes, kept in memory: a Users collection
 * with a unique index on `id` and a Costs collection. Queries are functions
 * over the collections; inserts are methods of the store.
 */
module Database {
  import opened Wrappers
  import opened UserModel
  import opened CostModel

  /** `findOne({id})`: the first user of the table with that id, if any. */
  function FindUser(users: seq<User>, id: int): (r: Option<User>)
    ensures r.None? <==> (forall u :: u in users ==> u.id != id)
    ensures r.Some? ==> r.value in users && r.value.id == id
    ensures r.Some? ==> exists i :: 0 <= i < |users| && users[i] == r.value &&
                                   forall j :: 0 <= j < i ==> users[j].id != id
  {
    if users == [] then None
    else if users[0].id == id then Some(users[0])
    else FindUser(users[1..], id)
  }

  /** `find({userid: id})`: the costs owned by `id`, in table order. */
  function CostsOf(costs: seq<Cost>, id: int): (r: seq<Cost>)
    ensures |r| <= |costs|
    ensures forall c :: c in r <==> c in costs && c.userid == id
  {
    if costs == [] then []
    else (if costs[0].userid == id then [costs[0]] else []) + CostsOf(costs[1..], id)
  }

  /** Filtering distributes over appending one cost to the table. */
  lemma {:induction false} CostsOfAppend(costs: seq<Cost>, c: Cost, id: int)
    ensures CostsOf(costs + [c], id) == CostsOf(costs, id) + (if c.userid == id then [c] else [])
  {
    if costs != [] {
      assert (costs + [c])[1..] == costs[1..] + [c];
      CostsOfAppend(costs[1..], c, id);
    }
  }

  /** With unique ids, the user `findOne` returns is the only one with that id. */
  lemma {:induction false} FindUserUnique(users: seq<User>, u: User)
    requires UniqueIds(users)
    requires u in users
    ensures FindUser(users, u.id) == Some(u)
  {
    if users[0] != u {
      assert users[0].id != u.id by {
        var j :| 0 <= j < |users| && users[j] == u;
        assert j > 0;
      }
      assert UniqueIds(users[1..]) by {
        forall i, j | 0 <= i < j < |users[1..]| ensures users[1..][i].id != users[1..][j].id {
          assert users[1..][i] == users[i + 1] && users[1..][j] == users[j + 1];
        }
      }
      FindUserUnique(users[1..], u);
    }
  }

  class Store {
    var users: seq<User>
    var costs: seq<Cost>

    /** The collections' invariant: unique user ids and only schema-valid documents. */
    ghost predicate Valid()
      reads this
    {
      UniqueIds(users) &&
      (forall i :: 0 <= i < |users| ==> ValidUser(users[i])) &&
      (forall i :: 0 <= i < |costs| ==> ValidCost(costs[i]))
    }

    constructor ()
      ensures Valid() && users == [] && costs == []
    {
      users := [];
      costs := [];
    }

    /**
     * Inserts a validated user. The unique index refuses the insert (the
     * duplicate-key error) when a user with the same id is stored already.
     */
    method InsertUser(u: User) returns (inserted: bool)
      requires Valid() && ValidUser(u)
      modifies this
      ensures Valid()
      ensures inserted <==> (forall v :: v in old(users) ==> v.id != u.id)
      ensures users == if inserted then old(users) + [u] else old(users)
      ensures costs == old(costs)
    {
      inserted := FindUser(users, u.id).None?;
      if inserted {
        users := users + [u];
      }
    }

    /** Inserts a validated cost; costs carry no unique index. */
    method InsertCost(c: Cost)
      requires Valid() && ValidCost(c)
      modifies this
      ensures Valid()
      ensures costs == old(costs) + [c]
      ensures users == old(users)
    {
      costs := costs + [c];
    }
  }
}
