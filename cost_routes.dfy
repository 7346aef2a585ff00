/**
 * The cost endpoints (routes/costRoutes.js): `POST /add`, which saves a cost
 * with the current time as its default date, and `GET /report`, which groups
 * one user's costs of one calendar month into the five categories.
 */
module CostRoutes {
  import opened Wrappers
  import opened Calendar
  import opened CostModel
  import opened Database

  // ---------------------------------------------------------------- POST /add

  /** The answer of `POST /add`: the saved document, or the save error (status 500). */
  datatype AddResponse = Saved(cost: Cost) | SaveFailed(error: CostError)
  {
    function Status(): int {
      if Saved? then 200 else 500
    }
  }

  /**
   * `POST /add`: builds the document from the body, with `now` (the clock
   * reading) as the date when the body has none, and saves it. A document the
   * schema refuses is not stored.
   */
  method AddCost(db: Store, input: CostInput, now: DateTime) returns (r: AddResponse)
    requires db.Valid() && Representable(now)
    modifies db
    ensures db.Valid() && db.users == old(db.users)
    ensures match NewCost(input, now)
            case Ok(c) => r == Saved(c) && db.costs == old(db.costs) + [c]
            case Err(e) => r == SaveFailed(e) && db.costs == old(db.costs)
    ensures r.Status() == if NewCost(input, now).Ok? then 200 else 500
  {
    var built := NewCost(input, now);
    match built
    case Ok(c) =>
      db.InsertCost(c);
      r := Saved(c);
    case Err(e) =>
      r := SaveFailed(e);
  }

  // ------------------------------------------------------------- GET /report

  /**
   * The query string of `GET /report`. `None` is a parameter that is absent or
   * empty; a present parameter carries the number it denotes.
   */
  datatype Query = Query(id: Option<int>, year: Option<int>, month: Option<int>)

  /** One line of the report. */
  datatype Item = Item(sum: int, description: string, day: int)

  /** One category bucket of the report, `{[category]: items}`. */
  datatype Group = Group(category: string, items: seq<Item>)

  datatype ReportResponse =
    | MissingParameters
    | QueryFailed
    | Report(userid: int, year: int, month: int, costs: seq<Group>)
  {
    function Status(): int {
      if MissingParameters? then 400 else if QueryFailed? then 500 else 200
    }
  }

  /** `new Date(year, month - 1, 1)`: the first moment of the month. */
  function WindowStart(year: int, month: int): (s: DateTime)
    ensures Calendar.Valid(s) && s.day == 1
    ensures s.hour == 0 && s.minute == 0 && s.second == 0 && s.millisecond == 0
  {
    MakeDate(year, month - 1, 1, 0, 0, 0, 0)
  }

  /** `new Date(year, month, 0, 23, 59, 59, 999)`: day 0 of the next month, i.e. the last moment of the month. */
  function WindowEnd(year: int, month: int): (e: DateTime)
    ensures Calendar.Valid(e) && e.day == DaysInMonth(e.year, e.month)
    ensures e.hour == 23 && e.minute == 59 && e.second == 59 && e.millisecond == 999
  {
    MakeDateDayZero(year, month, 23, 59, 59, 999);
    MakeDate(year, month, 0, 23, 59, 59, 999)
  }

  /**
   * Both ends of the window are `Date` values. Otherwise one of them is an
   * Invalid Date, which the store cannot cast, and the query fails.
   */
  predicate Queryable(year: int, month: int) {
    InTimeRange(WindowStart(year, month)) && InTimeRange(WindowEnd(year, month))
  }

  /** The date range of the store query, inclusive at both ends. */
  predicate Between(d: DateTime, start: DateTime, end: DateTime) {
    AtOrBefore(start, d) && AtOrBefore(d, end)
  }

  /** `Cost.find({userid: id, date: {$gte: start, $lte: end}})`, in table order. */
  function CostsBetween(costs: seq<Cost>, id: int, start: DateTime, end: DateTime): (r: seq<Cost>)
    ensures |r| <= |costs|
    ensures forall c :: c in r <==> c in costs && c.userid == id && Between(c.date, start, end)
  {
    if costs == [] then []
    else (if costs[0].userid == id && Between(costs[0].date, start, end) then [costs[0]] else [])
         + CostsBetween(costs[1..], id, start, end)
  }

  /** `categories.indexOf(x)`: the first position of `x`, or -1 when it is absent. */
  function IndexOf(s: seq<string>, x: string): (i: int)
    ensures -1 <= i < |s|
    ensures i == -1 <==> x !in s
    ensures 0 <= i ==> s[i] == x && x !in s[..i]
  {
    if s == [] then -1
    else if s[0] == x then 0
    else
      var j := IndexOf(s[1..], x);
      assert j >= 0 ==> s[1..][..j] == s[1..j + 1];
      if j == -1 then -1 else j + 1
  }

  /** The report line of a cost: its amount, its description and its day of the month. */
  function ItemOf(c: Cost): Item {
    Item(c.sum, c.description, c.date.day)
  }

  /** The lines of the bucket of `category`: the costs of that category, in fetch order. */
  function Bucket(fetched: seq<Cost>, category: string): seq<Item> {
    if fetched == [] then []
    else (if fetched[0].category == category then [ItemOf(fetched[0])] else [])
         + Bucket(fetched[1..], category)
  }

  /** One bucket per category of `cats`, in the order of `cats`. */
  function GroupedBy(fetched: seq<Cost>, cats: seq<string>): (r: seq<Group>)
    ensures |r| == |cats|
  {
    if cats == [] then []
    else [Group(cats[0], Bucket(fetched, cats[0]))] + GroupedBy(fetched, cats[1..])
  }

  /** The `costs` part of the report built from the fetched costs. */
  function Grouped(fetched: seq<Cost>): seq<Group> {
    GroupedBy(fetched, Categories)
  }

  /** Total number of lines over all buckets. */
  function ItemCount(groups: seq<Group>): nat {
    if groups == [] then 0 else |groups[0].items| + ItemCount(groups[1..])
  }

  /** The fetched costs whose category is one of `cats`. */
  function KnownIn(fetched: seq<Cost>, cats: seq<string>): (r: seq<Cost>)
    ensures forall c :: c in r <==> c in fetched && c.category in cats
  {
    if fetched == [] then []
    else (if fetched[0].category in cats then [fetched[0]] else []) + KnownIn(fetched[1..], cats)
  }

  predicate Distinct(s: seq<string>) {
    forall i, j :: 0 <= i < j < |s| ==> s[i] != s[j]
  }

  /** Number of positions of `cats` that hold `x`. */
  function Occurrences(cats: seq<string>, x: string): nat {
    if cats == [] then 0 else (if cats[0] == x then 1 else 0) + Occurrences(cats[1..], x)
  }

  lemma CategoriesDistinct()
    ensures Distinct(Categories)
  {
    assert Categories[0] == "food" && Categories[1] == "health" && Categories[2] == "housing";
    assert Categories[3] == "sport" && Categories[4] == "education";
  }

  /** `groups` are the five buckets of the costs `fetched`, in category order. */
  ghost predicate BucketsOf(groups: seq<Group>, fetched: seq<Cost>) {
    |groups| == |Categories| &&
    forall k :: 0 <= k < |groups| ==> groups[k] == Group(Categories[k], Bucket(fetched, Categories[k]))
  }

  /**
   * The grouping step of `GET /report`: five buckets in category order, and
   * each fetched cost whose category is in the list appended, in fetch order,
   * to the bucket at that category's index; other costs are skipped.
   */
  method GroupCosts(fetched: seq<Cost>) returns (groups: seq<Group>)
    ensures groups == Grouped(fetched)
    ensures |groups| == |Categories|
    ensures forall k :: 0 <= k < |Categories| ==>
              groups[k].category == Categories[k] && groups[k].items == Bucket(fetched, Categories[k])
  {
    var grouped := new Group[|Categories|](k requires 0 <= k < |Categories| => Group(Categories[k], []));
    var i := 0;
    while i < |fetched|
      invariant 0 <= i <= |fetched|
      invariant BucketsOf(grouped[..], fetched[..i])
    {
      ghost var before := grouped[..];
      AddToBucket(grouped, fetched[i]);
      BucketsStep(before, fetched, i);
      i := i + 1;
    }
    groups := grouped[..];
    BucketsAreGrouped(groups, fetched);
  }

  /**
   * One iteration of the grouping loop: the line of `cost` is appended to the
   * bucket at its category's index, or nothing happens when the category is
   * not in the list.
   */
  method AddToBucket(grouped: array<Group>, cost: Cost)
    requires grouped.Length == |Categories|
    modifies grouped
    ensures grouped[..] == AddLine(old(grouped[..]), cost)
  {
    var day := cost.date.day;
    var categoryIndex := IndexOf(Categories, cost.category);
    if categoryIndex != -1 {
      var g := grouped[categoryIndex];
      grouped[categoryIndex] := g.(items := g.items + [Item(cost.sum, cost.description, day)]);
    }
  }

  /** The effect of one loop iteration on the buckets. */
  function AddLine(groups: seq<Group>, c: Cost): seq<Group>
    requires |groups| == |Categories|
  {
    var i := IndexOf(Categories, c.category);
    if i == -1 then groups
    else groups[i := groups[i].(items := groups[i].items + [ItemOf(c)])]
  }

  /** One iteration keeps the loop invariant: the buckets of the prefix become those of the longer prefix. */
  lemma BucketsStep(groups: seq<Group>, fetched: seq<Cost>, i: int)
    requires 0 <= i < |fetched| && BucketsOf(groups, fetched[..i])
    ensures BucketsOf(AddLine(groups, fetched[i]), fetched[..i + 1])
  {
    var prefix, c := fetched[..i], fetched[i];
    assert fetched[..i + 1] == prefix + [c];
    var after := AddLine(groups, c);
    forall k | 0 <= k < |Categories|
      ensures after[k] == Group(Categories[k], Bucket(prefix + [c], Categories[k]))
    {
      BucketStep(prefix, c, k);
    }
  }

  lemma BucketsAreGrouped(groups: seq<Group>, fetched: seq<Cost>)
    requires BucketsOf(groups, fetched[..|fetched|])
    ensures groups == Grouped(fetched) && BucketsOf(groups, fetched)
  {
    assert fetched[..|fetched|] == fetched;
    forall k | 0 <= k < |Categories|
      ensures Grouped(fetched)[k] == groups[k]
    {
      GroupedAt(fetched, Categories, k);
    }
  }

  /**
   * `GET /report`: the missing-parameter answer when `id`, `year` or `month`
   * is absent (nothing is queried then); the server error when an end of the
   * window lies outside the range of `Date`; otherwise the user's costs dated
   * within the month, grouped by category.
   */
  method MonthlyReport(db: Store, q: Query) returns (r: ReportResponse)
    ensures r.MissingParameters? <==> (q.id.None? || q.year.None? || q.month.None?)
    ensures r.QueryFailed? <==> (q.id.Some? && q.year.Some? && q.month.Some? &&
                                 !Queryable(q.year.value, q.month.value))
    ensures r.Report? ==> Queryable(r.year, r.month)
    ensures r.Status() == if q.id.None? || q.year.None? || q.month.None? then 400
                          else if !Queryable(q.year.value, q.month.value) then 500
                          else 200
    ensures r.Report? ==> r.userid == q.id.value && r.year == q.year.value && r.month == q.month.value
    ensures r.Report? ==> r.costs == Grouped(CostsBetween(db.costs, r.userid,
                                                          WindowStart(r.year, r.month),
                                                          WindowEnd(r.year, r.month)))
    ensures r.Report? ==> |r.costs| == |Categories| &&
                          forall k :: 0 <= k < |Categories| ==> r.costs[k].category == Categories[k]
  {
    if q.id.None? || q.year.None? || q.month.None? {
      return MissingParameters;
    }
    var id, year, month := q.id.value, q.year.value, q.month.value;
    var startDate := WindowStart(year, month);
    var endDate := WindowEnd(year, month);
    if !(InTimeRange(startDate) && InTimeRange(endDate)) {
      return QueryFailed;
    }
    var costs := CostsBetween(db.costs, id, startDate, endDate);
    var groupedCosts := GroupCosts(costs);
    r := Report(id, year, month, groupedCosts);
  }

  // ------------------------------------------------------ the month window

  /** The window starts on day 1 at 00:00:00.000 of the (rolled-over) month. */
  lemma WindowStartFirstDay(year: int, month: int)
    ensures var s := WindowStart(year, month);
            s == DateTime(FullYear(year) + (month - 1) / 12, (month - 1) % 12 + 1, 1, 0, 0, 0, 0)
    ensures 1 <= month <= 12 ==> WindowStart(year, month) == DateTime(FullYear(year), month, 1, 0, 0, 0, 0)
  {
    MakeDateFirstDay(year, month - 1, 0, 0, 0, 0);
  }

  /**
   * The window ends in the month it starts in, on that month's last day
   * (28, 29, 30 or 31 by month and leap year), at 23:59:59.999.
   */
  lemma WindowEndLastDay(year: int, month: int)
    ensures var s, e := WindowStart(year, month), WindowEnd(year, month);
            e.year == s.year && e.month == s.month && e.day == DaysInMonth(e.year, e.month) &&
            e.hour == 23 && e.minute == 59 && e.second == 59 && e.millisecond == 999
  {
    WindowStartFirstDay(year, month);
    MakeDateDayZero(year, month, 23, 59, 59, 999);
  }

  /** A date falls in the window exactly when it lies in the window's calendar month. */
  lemma WindowCoversMonth(year: int, month: int, d: DateTime)
    requires Calendar.Valid(d)
    ensures var s := WindowStart(year, month);
            Between(d, s, WindowEnd(year, month)) <==> d.year == s.year && d.month == s.month
  {
    WindowStartFirstDay(year, month);
    WindowEndLastDay(year, month);
  }

  /** For months 1..12: the window holds exactly the dates of (FullYear(year), month). */
  lemma WindowIsCalendarMonth(year: int, month: int, d: DateTime)
    requires 1 <= month <= 12 && Calendar.Valid(d)
    ensures Between(d, WindowStart(year, month), WindowEnd(year, month)) <==>
            d.year == FullYear(year) && d.month == month
  {
    WindowStartFirstDay(year, month);
    WindowCoversMonth(year, month, d);
  }

  /**
   * The last millisecond of the month is inside the window and the first
   * moment of the next month is outside it.
   */
  lemma WindowBoundaries(year: int, month: int)
    ensures Between(WindowEnd(year, month), WindowStart(year, month), WindowEnd(year, month))
    ensures !Between(WindowStart(year, month + 1), WindowStart(year, month), WindowEnd(year, month))
  {
    WindowStartFirstDay(year, month);
    WindowStartFirstDay(year, month + 1);
    WindowEndLastDay(year, month);
    PreviousMonthIndex(month);
  }

  /** For a month 1..12, every year from -271820 through 275759 can be queried. */
  lemma OrdinaryYearsQueryable(year: int, month: int)
    requires 1 <= month <= 12 && -271820 <= FullYear(year) <= 275759
    ensures Queryable(year, month)
  {
    WindowStartFirstDay(year, month);
    WindowEndLastDay(year, month);
  }

  /** January of year 275761 cannot be queried: its window starts after the last `Date`. */
  lemma YearBeyondDateRange()
    ensures !Queryable(275761, 1)
  {
    WindowStartFirstDay(275761, 1);
  }

  // --------------------------------------------------------- the grouping

  /** Appending a fetched cost extends exactly the bucket of its category. */
  lemma {:induction false} BucketAppend(fetched: seq<Cost>, c: Cost, category: string)
    ensures Bucket(fetched + [c], category)
         == Bucket(fetched, category) + (if c.category == category then [ItemOf(c)] else [])
  {
    if fetched != [] {
      assert (fetched + [c])[1..] == fetched[1..] + [c];
      BucketAppend(fetched[1..], c, category);
    }
  }

  /** The bucket at index `k` grows by a cost exactly when `indexOf` sends the cost's category to `k`. */
  lemma BucketStep(prefix: seq<Cost>, c: Cost, k: int)
    requires 0 <= k < |Categories|
    ensures Bucket(prefix + [c], Categories[k])
         == Bucket(prefix, Categories[k]) + (if IndexOf(Categories, c.category) == k then [ItemOf(c)] else [])
  {
    CategoriesDistinct();
    BucketAppend(prefix, c, Categories[k]);
    if c.category == Categories[k] {
      IndexOfDistinct(Categories, k);
    }
  }

  /** In a list without repetitions, `indexOf` finds each element at its own position. */
  lemma IndexOfDistinct(s: seq<string>, k: int)
    requires Distinct(s) && 0 <= k < |s|
    ensures IndexOf(s, s[k]) == k
  {
    assert s[k] !in s[..k];
  }

  /** Bucket `k` of the grouping belongs to the `k`th category. */
  lemma {:induction false} GroupedAt(fetched: seq<Cost>, cats: seq<string>, k: int)
    requires 0 <= k < |cats|
    ensures |GroupedBy(fetched, cats)| == |cats|
    ensures GroupedBy(fetched, cats)[k] == Group(cats[k], Bucket(fetched, cats[k]))
  {
    if k > 0 {
      GroupedAt(fetched, cats[1..], k - 1);
    } else if |cats| > 1 {
      GroupedAt(fetched, cats[1..], 0);
    }
  }

  /** A line is in a bucket exactly when some fetched cost of that category produced it. */
  lemma {:induction false} BucketMembers(fetched: seq<Cost>, category: string, item: Item)
    ensures item in Bucket(fetched, category) <==>
            exists c :: c in fetched && c.category == category && ItemOf(c) == item
  {
    if fetched != [] {
      BucketMembers(fetched[1..], category, item);
      assert forall c :: c in fetched <==> c == fetched[0] || c in fetched[1..];
    }
  }

  /** A cost of an unknown category leaves the whole report unchanged. */
  lemma UnknownCategoryDropped(fetched: seq<Cost>, c: Cost)
    requires c.category !in Categories
    ensures Grouped(fetched + [c]) == Grouped(fetched)
  {
    forall k | 0 <= k < |Categories|
      ensures Grouped(fetched + [c])[k] == Grouped(fetched)[k]
    {
      GroupedAt(fetched + [c], Categories, k);
      GroupedAt(fetched, Categories, k);
      BucketAppend(fetched, c, Categories[k]);
    }
    GroupedAt(fetched + [c], Categories, 0);
    GroupedAt(fetched, Categories, 0);
  }

  /** A cost of a known category adds one line to its own bucket and nothing elsewhere. */
  lemma KnownCategoryAppended(fetched: seq<Cost>, c: Cost, k: int)
    requires 0 <= k < |Categories| && c.category == Categories[k]
    ensures |Grouped(fetched + [c])| == |Grouped(fetched)| == |Categories|
    ensures Grouped(fetched + [c])[k].items == Grouped(fetched)[k].items + [ItemOf(c)]
    ensures forall j :: 0 <= j < |Categories| && j != k ==>
              Grouped(fetched + [c])[j] == Grouped(fetched)[j]
  {
    CategoriesDistinct();
    forall j | 0 <= j < |Categories|
      ensures Grouped(fetched + [c])[j].items
           == Grouped(fetched)[j].items + (if j == k then [ItemOf(c)] else [])
      ensures Grouped(fetched + [c])[j].category == Grouped(fetched)[j].category
    {
      GroupedAt(fetched + [c], Categories, j);
      GroupedAt(fetched, Categories, j);
      BucketAppend(fetched, c, Categories[j]);
    }
  }

  lemma {:induction false} OccurrencesDistinct(cats: seq<string>, x: string)
    requires Distinct(cats)
    ensures Occurrences(cats, x) == if x in cats then 1 else 0
  {
    if cats != [] {
      assert Distinct(cats[1..]) by {
        forall i, j | 0 <= i < j < |cats[1..]| ensures cats[1..][i] != cats[1..][j] {
          assert cats[1..][i] == cats[i + 1] && cats[1..][j] == cats[j + 1];
        }
      }
      OccurrencesDistinct(cats[1..], x);
      if cats[0] == x {
        assert x !in cats[1..] by {
          forall j | 0 <= j < |cats[1..]| ensures cats[1..][j] != x {
            assert cats[1..][j] == cats[j + 1];
          }
        }
      }
      assert x in cats <==> cats[0] == x || x in cats[1..];
    }
  }

  lemma {:induction false} ItemCountNone(cats: seq<string>)
    ensures ItemCount(GroupedBy([], cats)) == 0
  {
    if cats != [] {
      ItemCountNone(cats[1..]);
    }
  }

  lemma {:induction false} ItemCountCons(c: Cost, rest: seq<Cost>, cats: seq<string>)
    ensures ItemCount(GroupedBy([c] + rest, cats))
         == Occurrences(cats, c.category) + ItemCount(GroupedBy(rest, cats))
  {
    if cats != [] {
      assert ([c] + rest)[0] == c && ([c] + rest)[1..] == rest;
      ItemCountCons(c, rest, cats[1..]);
    }
  }

  /** With distinct categories, the lines of all buckets number the fetched costs of a known category. */
  lemma {:induction false} ItemCountIsKnown(fetched: seq<Cost>, cats: seq<string>)
    requires Distinct(cats)
    ensures ItemCount(GroupedBy(fetched, cats)) == |KnownIn(fetched, cats)|
  {
    if fetched == [] {
      ItemCountNone(cats);
    } else {
      assert fetched == [fetched[0]] + fetched[1..];
      ItemCountCons(fetched[0], fetched[1..], cats);
      OccurrencesDistinct(cats, fetched[0].category);
      ItemCountIsKnown(fetched[1..], cats);
    }
  }

  /** The report holds one line per fetched cost whose category is in the list. */
  lemma ReportItemCount(fetched: seq<Cost>)
    ensures ItemCount(Grouped(fetched)) == |KnownIn(fetched, Categories)|
  {
    CategoriesDistinct();
    ItemCountIsKnown(fetched, Categories);
  }

  lemma {:induction false} KnownInAll(fetched: seq<Cost>, cats: seq<string>)
    requires forall c :: c in fetched ==> c.category in cats
    ensures KnownIn(fetched, cats) == fetched
  {
    if fetched != [] {
      KnownInAll(fetched[1..], cats);
    }
  }

  /**
   * When every stored cost satisfies the schema, the unknown-category branch
   * never fires: every fetched cost has a category index and the report holds
   * one line per fetched cost.
   */
  lemma NothingDropped(costs: seq<Cost>, id: int, year: int, month: int)
    requires forall c :: c in costs ==> ValidCost(c)
    ensures var fetched := CostsBetween(costs, id, WindowStart(year, month), WindowEnd(year, month));
            (forall c :: c in fetched ==> IndexOf(Categories, c.category) != -1) &&
            ItemCount(Grouped(fetched)) == |fetched|
  {
    var fetched := CostsBetween(costs, id, WindowStart(year, month), WindowEnd(year, month));
    KnownInAll(fetched, Categories);
    ReportItemCount(fetched);
  }

  /**
   * Every line of a report for a month 1..12 comes from one of the user's
   * costs of that category dated in that month, and its day lies within the
   * month's length.
   */
  lemma ReportItemsInMonth(costs: seq<Cost>, id: int, year: int, month: int, k: int, item: Item)
    requires forall c :: c in costs ==> ValidCost(c)
    requires 1 <= month <= 12 && 0 <= k < |Categories|
    requires item in Grouped(CostsBetween(costs, id, WindowStart(year, month), WindowEnd(year, month)))[k].items
    ensures 1 <= item.day <= DaysInMonth(FullYear(year), month)
    ensures exists c :: c in costs && c.userid == id && c.category == Categories[k] &&
                        c.date.year == FullYear(year) && c.date.month == month && ItemOf(c) == item
  {
    var fetched := CostsBetween(costs, id, WindowStart(year, month), WindowEnd(year, month));
    GroupedAt(fetched, Categories, k);
    BucketMembers(fetched, Categories[k], item);
    var c :| c in fetched && c.category == Categories[k] && ItemOf(c) == item;
    WindowIsCalendarMonth(year, month, c.date);
  }

  /**
   * The converse: every valid cost of the user with category k and dated in
   * the month 1..12 appears as a line of bucket k.
   */
  lemma MonthCostsReported(costs: seq<Cost>, id: int, year: int, month: int, k: int, c: Cost)
    requires 1 <= month <= 12 && 0 <= k < |Categories|
    requires c in costs && ValidCost(c) && c.userid == id && c.category == Categories[k]
    requires c.date.year == FullYear(year) && c.date.month == month
    ensures ItemOf(c) in Grouped(CostsBetween(costs, id, WindowStart(year, month), WindowEnd(year, month)))[k].items
  {
    var fetched := CostsBetween(costs, id, WindowStart(year, month), WindowEnd(year, month));
    WindowIsCalendarMonth(year, month, c.date);
    BucketMembers(fetched, Categories[k], ItemOf(c));
    GroupedAt(fetched, Categories, k);
  }
}
