# Cost manager REST service: a Dafny model of its core

The service keeps users and their expenses ("costs"). Every cost has one of five
categories: food, health, housing, sport, education. The service answers six
requests: five under `/api/` (app.js:16-22) and `GET /` at the root (app.js:24). This
project models the four that hold logic:

- `POST /add` saves a cost. When the body gives no date, the cost is dated with the current time.
- `GET /report?id&year&month` returns one user's costs for one calendar month, grouped
  into five category buckets.
- `GET /users/:id` returns a user's names and the total of all that user's costs.
- `POST /users` creates a user. A duplicate id is refused with its own error.

The other two are `GET /` (app.js:24), which answers with a fixed text, and `GET /about`
(routes/aboutRoute.js:20), which returns a fixed team list. Neither is modelled.

Modules, following the source files:

- `Calendar`: the part of the JavaScript `Date` constructor the routes use. It covers
  leap years and month lengths. It also covers how the constructor normalises its
  arguments: a two-digit year means 19xx, a month index outside 0..11 rolls over into
  another year, and day 0 is the last day of the previous month.
- `CostModel` (models/Cost.js) and `UserModel` (models/User.js): the documents, their
  request-body forms, and schema validation returning a `Result`.
- `Database`: the document store held in memory. The class `Store` has a `users` and a
  `costs` field. Its invariant `Valid()` requires unique user ids and schema-valid
  documents. Queries are functions over the two sequences.
- `CostRoutes` (routes/costRoutes.js) and `UserRoutes` (routes/userRoutes.js): the handlers.
  The report's grouping loop is a method over a five-element array. Its invariant ties
  each bucket to the prefix of fetched costs already processed.
- `Scenarios`: one worked example across both route modules.

Dates are local civil date-times. Comparing two dates means comparing them field by
field, from year down to millisecond. For valid dates this gives the same order as
comparing timestamps. A `Date` holds only instants within 8.64e15 ms of 1970-01-01;
the model keeps that range, from -271821-04-20 to 275760-09-13. Amounts are integers.

`POST /add` (routes/costRoutes.js:25-45) saves a cost without checking that its user
exists. The handler in routes/userRoutes.js that made such a check is commented out.
The model follows the live code.

## Model

| member | source | states |
|---|---|---|
| `Calendar.DaysInMonth` | routes/costRoutes.js:67 | A month has 28 to 31 days. February has 29 exactly in a leap year and 28 otherwise. April, June, September and November have 30. |
| `Calendar.AtOrBefore` | routes/costRoutes.js:73 | Defines the order in which the `$gte`/`$lte` query compares dates: field by field, from year down to millisecond. `Calendar.AtOrBeforeIsTotalOrder` proves it is a total order. |
| `Calendar.AtOrBeforeIsTotalOrder` | routes/costRoutes.js:73 | The date order is reflexive, antisymmetric, transitive and total. |
| `Calendar.InTimeRange` | routes/costRoutes.js:66-67 | Defines the range a `Date` can hold: from -271821-04-20T00:00:00.000 to 275760-09-13T00:00:00.000, both included. It has no contract of its own; `CostRoutes.OrdinaryYearsQueryable` and `CostRoutes.YearBeyondDateRange` state what it admits. |
| `Calendar.Representable` | models/Cost.js:22 | Defines a value that a `Date` field can hold: an existing day and time within the `Date` range. |
| `Calendar.FullYear` | routes/costRoutes.js:66-67 | Defines the year that the `Date` constructor reads: 1900 + year for 0..99, any other year as given. It has no contract of its own; `Calendar.MakeDateFirstDay` and `CostRoutes.WindowIsCalendarMonth` use it. |
| `Calendar.NormalizeDay` | routes/costRoutes.js:66-67 | A day number carried across month boundaries always lands on an existing day. A day already inside the month stays unchanged. |
| `Calendar.MakeDate` | routes/costRoutes.js:66-67 | The calendar arithmetic of the `Date` constructor always lands on an existing civil date and keeps the time of day it was given. Whether that date is a `Date` value is `Calendar.InTimeRange`. |
| `Calendar.MakeDateFirstDay` | routes/costRoutes.js:66 | Day 1 gives the first day of the rolled-over month: year FullYear(year) + monthIndex div 12 (so a two-digit year means 19xx first), month monthIndex mod 12 + 1. |
| `Calendar.MakeDateDayZero` | routes/costRoutes.js:67 | Day 0 gives the last day (28/29/30/31) of the month before the month index. This is the "day 0 of next month" rule. |
| `CostModel.ValidCost` | models/Cost.js:17-23 | Defines a cost the schema admits: its category is one of the five and its date is an existing day within the `Date` range. `CostModel.NewCost` proves every built cost satisfies it. |
| `CostModel.CostDate` | routes/costRoutes.js:35 | Defines the default date (`date \|\| new Date()`): the date in the body when there is one, otherwise `now`. |
| `CostModel.NewCost` | models/Cost.js:17-23 | Building a cost succeeds exactly when description, category, userid and sum are present, the category is one of the five, and any given date exists within the `Date` range. A built cost is valid and carries the body's fields. An absent date becomes `now`. A missing field is reported as such. |
| `UserModel.ValidUser` | models/User.js:18-24 | Defines a user the schema admits: the marital status is single or married and the birthday is an existing day within the `Date` range. `UserModel.NewUser` proves every built user satisfies it. |
| `UserModel.UniqueIds` | models/User.js:19 | Defines the unique index on `id`: no two users of the table share an id. `Database.Store.InsertUser` keeps it. |
| `UserModel.NewUser` | models/User.js:18-24 | Validation succeeds exactly when all five fields are present, the marital status is single or married, and the birthday exists within the `Date` range. The user carries the body's fields. A missing field is reported as such. |
| `Database.FindUser` | routes/userRoutes.js:25 | Lookup by id returns nothing exactly when no user has the id. Otherwise it returns a stored user with that id, and no user before it in the table has that id. |
| `Database.CostsOf` | routes/userRoutes.js:30 | Returns exactly the stored costs whose owner is the given id, with no date filter. |
| `Database.CostsOfAppend` | routes/userRoutes.js:30 | Filtering the table with one cost appended extends the result by that cost exactly when it belongs to the id. |
| `Database.FindUserUnique` | models/User.js:19 | In a table with unique ids, looking up a stored user's id returns that user. |
| `Database.Store.Valid` | models/User.js:18-24 | Defines the store's invariant: user ids are unique, and every stored user and cost satisfies its schema (the cost schema is models/Cost.js:17-23). Every method of the store and every handler that writes keeps it. |
| `Database.Store.InsertUser` | models/User.js:19 | An insert succeeds exactly when no stored user has the id. On success the table gains exactly that user; otherwise it is unchanged. Uniqueness and validity are preserved, and the costs are untouched. |
| `Database.Store.InsertCost` | routes/costRoutes.js:38 | Saving appends exactly the cost, keeps the store valid and leaves the users unchanged. |
| `CostRoutes.AddCost` | routes/costRoutes.js:25-45 | A body the schema accepts is saved, with `now` as its date when none is given, and echoed back with status 200. A body it refuses yields the status-500 error, and nothing is stored. |
| `CostRoutes.WindowStart` | routes/costRoutes.js:66 | `new Date(year, month - 1, 1)` is an existing date on day 1 at 00:00:00.000. |
| `CostRoutes.WindowEnd` | routes/costRoutes.js:67 | `new Date(year, month, 0, 23, 59, 59, 999)` is an existing date on the last day of its month, at 23:59:59.999. |
| `CostRoutes.Between` | routes/costRoutes.js:73 | Defines the query's date condition: `$gte` start and `$lte` end, both ends included. |
| `CostRoutes.Queryable` | routes/costRoutes.js:66-74 | Defines when the store query can run: both window ends lie within the `Date` range. |
| `CostRoutes.CostsBetween` | routes/costRoutes.js:71-74 | The store query returns exactly the user's costs from `start` through `end`, both ends included. |
| `CostRoutes.IndexOf` | routes/costRoutes.js:82 | Returns -1 exactly when the category is not in the list. Otherwise it returns the first position that holds it. |
| `CostRoutes.CategoriesDistinct` | routes/costRoutes.js:76 | The five category names are pairwise distinct. |
| `CostRoutes.ItemOf` | routes/costRoutes.js:85-89 | Defines the report line of a cost: its amount, its description and its day of the month. |
| `CostRoutes.IndexOfDistinct` | routes/costRoutes.js:76-82 | Each category is found at its own index. |
| `CostRoutes.Bucket` | routes/costRoutes.js:80-90 | The reference definition of one bucket: the lines of the fetched costs of one category, in fetch order. It has no contract of its own; `CostRoutes.BucketAppend`, `CostRoutes.BucketStep` and `CostRoutes.BucketMembers` prove what it holds. |
| `CostRoutes.GroupedBy` | routes/costRoutes.js:76-91 | The reference definition of the grouped buckets for a list of categories: one labelled bucket per category, in list order, so there are as many buckets as categories. `CostRoutes.ItemCountIsKnown` proves its line count. |
| `CostRoutes.Grouped` | routes/costRoutes.js:97 | The reference definition of the report's `costs` array: `CostRoutes.GroupedBy` over the five categories. It has no contract of its own; `CostRoutes.GroupCosts` and `CostRoutes.MonthlyReport` are proved equal to it, and `CostRoutes.GroupedAt` states its shape. |
| `CostRoutes.KnownIn` | routes/costRoutes.js:84 | The fetched costs that pass `categoryIndex !== -1`: a cost is in the result exactly when it was fetched and its category is listed. `CostRoutes.ReportItemCount` counts the report's lines with it. |
| `CostRoutes.AddLine` | routes/costRoutes.js:81-90 | The reference definition of one pass of the `forEach` on the buckets as a value. It has no contract of its own; `CostRoutes.AddToBucket` is proved equal to it, and `CostRoutes.BucketsStep` and `CostRoutes.BucketStep` prove what it does. |
| `CostRoutes.GroupCosts` | routes/costRoutes.js:76-91 | The result has exactly five buckets in the order food, health, housing, sport, education. Bucket k holds, in fetch order, the lines of the fetched costs of category k. |
| `CostRoutes.AddToBucket` | routes/costRoutes.js:81-90 | One pass of the `forEach` appends the cost's line to the bucket at its category's index. It changes nothing when the category is not listed. |
| `CostRoutes.MonthlyReport` | routes/costRoutes.js:58-102 | The missing-parameter answer (400) comes exactly when id, year or month is absent. The server error (500) comes exactly when the parameters are present and an end of the window is outside the `Date` range. Otherwise the report echoes id, year and month, and its buckets group the user's costs that fall in the month window, with status 200. |
| `CostRoutes.WindowStartFirstDay` | routes/costRoutes.js:66 | The window starts at 00:00:00.000 on day 1 of (year, month), with the month rolled over if it is outside 1..12. |
| `CostRoutes.WindowEndLastDay` | routes/costRoutes.js:67 | The window ends in the month it starts in, on that month's last day, at 23:59:59.999. |
| `CostRoutes.WindowCoversMonth` | routes/costRoutes.js:66-74 | A valid date is in the window exactly when it lies in the window's calendar month. |
| `CostRoutes.WindowIsCalendarMonth` | routes/costRoutes.js:66-74 | For month 1..12, a valid date is in the window exactly when its year and month equal FullYear(year) and month. |
| `CostRoutes.WindowBoundaries` | routes/costRoutes.js:66-73 | The last millisecond of the month is included. The first moment of the next month is excluded. |
| `CostRoutes.OrdinaryYearsQueryable` | routes/costRoutes.js:66-74 | For month 1..12 and a full year from -271820 through 275759, both window ends are `Date` values, so the query runs. |
| `CostRoutes.YearBeyondDateRange` | routes/costRoutes.js:66-74 | For year 275761 and month 1 the window starts after the last `Date`, so the answer is the server error. |
| `CostRoutes.BucketAppend` | routes/costRoutes.js:80-91 | Processing one more cost appends its line to its own category's bucket and changes no other bucket. |
| `CostRoutes.BucketStep` | routes/costRoutes.js:82-90 | Bucket k grows by a line exactly when `indexOf` sends the cost's category to k. |
| `CostRoutes.BucketsStep` | routes/costRoutes.js:80-91 | One pass of the grouping loop keeps its invariant. If the buckets were those of the costs processed so far, they become those of the costs up to and including the current one. |
| `CostRoutes.GroupedAt` | routes/costRoutes.js:78 | The report has one bucket per category. Bucket k is labelled with the k-th category and holds that category's lines. |
| `CostRoutes.BucketMembers` | routes/costRoutes.js:85-89 | A line is in a bucket exactly when some fetched cost of that category has that `{sum, description, day}`. |
| `CostRoutes.UnknownCategoryDropped` | routes/costRoutes.js:82-84 | A cost whose category is not in the list leaves the whole report unchanged. |
| `CostRoutes.KnownCategoryAppended` | routes/costRoutes.js:84-90 | A cost of category k adds exactly its line at the end of bucket k and leaves every other bucket unchanged. |
| `CostRoutes.ItemCountIsKnown` | routes/costRoutes.js:80-91 | With distinct categories, the lines over all buckets are exactly as many as the fetched costs whose category is listed. |
| `CostRoutes.ReportItemCount` | routes/costRoutes.js:80-91 | The report has one line per fetched cost with a known category. |
| `CostRoutes.NothingDropped` | routes/costRoutes.js:82-84 | If every stored cost satisfies the schema, every fetched cost has a category index and the report has one line per fetched cost. |
| `CostRoutes.ReportItemsInMonth` | routes/costRoutes.js:81-89 | In a report for month 1..12 over valid costs, every line of bucket k comes from one of the user's category-k costs dated in that month. Its day is between 1 and the month's length. |
| `CostRoutes.MonthCostsReported` | routes/costRoutes.js:71-90 | The converse: in a report for month 1..12, every valid cost of the user with category k and dated in that month gives a line in bucket k. |
| `UserRoutes.Total` | routes/userRoutes.js:31 | The reference definition of the total: the sum of the amounts. It has no contract of its own; `UserRoutes.ReduceIsTotal` ties the `reduce` to it. |
| `UserRoutes.Reduce` | routes/userRoutes.js:31 | Defines `reduce((sum, item) => sum + item.sum, acc)` as a left fold. `UserRoutes.ReduceIsTotal` proves what it computes. |
| `UserRoutes.ReduceIsTotal` | routes/userRoutes.js:31 | `reduce` from acc yields acc plus the sum of the amounts, so from 0 it yields the total. |
| `UserRoutes.TotalAppend` | routes/userRoutes.js:31 | The total over costs followed by c is the total over costs plus c's amount. |
| `UserRoutes.TotalAfterNewCost` | routes/userRoutes.js:30-31 | Adding a cost raises its owner's total by its amount and leaves every other user's total unchanged. |
| `UserRoutes.NoCostsNoTotal` | routes/userRoutes.js:30-31 | A user who owns no costs has an empty cost list and a total of 0. |
| `UserRoutes.GetUser` | routes/userRoutes.js:20-42 | The answer is not-found (404) exactly when no user has the id. Otherwise, with status 200, it carries the found user's id and names, and the sum of all costs owned by the id. |
| `UserRoutes.CreateUser` | routes/userRoutes.js:56-69 | An invalid body gives the validation error with the table unchanged. A valid body with a taken id gives the distinct duplicate-id error with the table unchanged. Otherwise the answer is 201 and the table gains exactly that user. Status 201 comes exactly when the table changes; every other answer is 400. The store stays valid and costs are untouched. |
| `UserRoutes.CreatedUserLookup` | routes/userRoutes.js:25-31 | After a fresh id is inserted, lookup finds exactly the new user, and its total is 0 while it owns no costs. |
| `Scenarios.JuneWindow` | routes/costRoutes.js:66-67 | The window of June 2025 runs from June 1, 00:00:00.000 to June 30, 23:59:59.999. |
| `Scenarios.TwoFoodCostsInJune` | routes/costRoutes.js:71-91 | Costs of 10 and 15 on June 1 and 2, 2025 give a total of 25. They form a June report with both lines in the food bucket, days 1 and 2 in that order, and four empty buckets. |

## Left out

- Bootstrap and wiring are not modelled: the database connection, `dotenv`, the JSON body parser, router mounting and `app.listen`. These are I/O.
- `GET /about`, its static team list and `GET /` are not modelled. They return fixed content and hold no logic.
- The test file is not modelled. It only calls `/about` against a live database.
- The commented-out cost handler in routes/userRoutes.js is not modelled. It is dead code.
- Database failures are not modelled: a lost connection or a failed write never happens in the in-memory store. The model keeps one source of the 500 answer of `GET /report`: a window end outside the `Date` range, which Mongoose cannot cast.
- `GET /users/:id` with an id that is not a number is not modelled. `Number(id)` is then NaN, Mongoose cannot cast it, and the answer is 500. The model's id is always a number.
- The `Date` range is checked in UTC. The real bounds shift by the server's time-zone offset, which is not modelled.
- Query and path parameters are numbers in the model. `None` stands for an absent or empty parameter. Converting strings with `Number(...)` (including NaN) and comparing the string `id` with the numeric `userid` in the report query are not modelled; they depend on JavaScript and the store's coercion rules.
- The store's `find` returns matching documents in table (insertion) order in `CostRoutes.CostsBetween` and `Database.CostsOf`. MongoDB promises no order without a sort, and routes/costRoutes.js:71-74 gives none. Only the order of lines within a report bucket depends on this choice; the total and which lines appear in which bucket do not.
- The error bodies' message texts ("Missing required query parameters", "User not found", "User ID already exists", and Mongoose's own messages) are not modelled. The response constructors name the case, and each handler's contract states its status code.
- Amounts are integers. Floating-point addition in the total is not modelled.
- The clock is the parameter `now` of `CostRoutes.AddCost`. Time zones are not modelled: dates are local civil date-times.
- The `Date` constructor's normalisation of hours, minutes, seconds and milliseconds is not modelled. The routes only pass in-range constants for these.
- Documents carry no store-assigned `_id` or version field.
- Mongoose behaviour beyond the schema text is not modelled. Mongoose rejects an empty string in a required field; the model accepts it. Mongoose casts strings to numbers and dates; the model does not.
- The race between the duplicate check and the insert is not modelled. Requests run one at a time.
- CostModel.NewCost: Mongoose checks every field and reports all failing paths together. The model reports one failing field. It is the first missing required field in schema order, otherwise the enum failure, otherwise the date.
- UserModel.NewUser: Mongoose checks every field and reports all failing paths together. The model reports one failing field. It is the first missing required field in schema order, otherwise the enum failure, otherwise the date.
