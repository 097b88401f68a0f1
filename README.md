# Reviews microservice, modelled in Dafny

This project models the core of a small Flask/SQLAlchemy service. The service stores
two kinds of review: a review of a user (the host or guest of a booking) and a review
of a publication. The model covers these parts:

* the review tables and their schema rules. A score lies in 1..4, a `booking_id`
  occurs at most once per table, the columns other than `comment` are required, and
  the ids the table assigns are distinct;
* the `FilterParam` equality filter, and the list handler that combines every
  supplied filter into one conjunctive query;
* the create handler: 400 for a bad score, 409 when the commit fails, otherwise
  exactly one new row;
* the score handler: 204 when the subject has no reviews, otherwise the mean of the
  subject's scores;
* two helpers of the application module: the database-URL rewrite `fix_dialect` and
  the authentication gate `before_request`.

The two review tables differ only in the name of the subject column: `reviewee_id`
or `publication_id`. So there is one generic model:

* `Models.Kind` selects the table and its subject column.
* `Database.ReviewTable` is the mutable table. It holds its rows in insertion order,
  which is also primary-key order, and the next autoincrement id. Its invariant
  holds the schema rules above. `Database.Table` is that table's value, used in
  specifications.
* `Utils.Query` is a conjunction of conditions. `Utils.Execute` plays the part of
  `query.all()` and `Utils.First` the part of `query.first()`. Both scan the rows in
  the table's order; the queries have no `order_by`, so that order is the model's
  choice (see "Left out").
* `Utils.FilterParam` is a class. Its `val` field is rebound by `Call`, the way the
  parser's shared instances are rebound on every request.
* `Resources` holds the handlers shared by both tables:
  * `GetReviews` is the list fold, proved equal to the reference filter `Select`;
  * `Create` and `Post` are the create path;
  * `ScoreOf` is the score endpoint.
* `UsersReviews` and `PublicationsReviews` are the two namespaces. Each one fixes
  its table's kind and subject name.
* The mean score is given as a pair (sum of scores, number of scores), not as a float.

Three behaviours of the code are worth stating outright:

* A payload without a required field gets 409, not 400. The create parser's
  `nullable=False` and `choices` only document the endpoint, because `post` reads
  the raw payload. The ORM builds the object, the NOT NULL constraint fails at
  commit, and the handler turns that IntegrityError into 409.
* A filter value is stored as given. `FilterParam.__call__` does no conversion, so a
  malformed value is never refused with 400.
* The score endpoint makes two reads: an existence check, then the aggregate. The
  model evaluates both on the same table state.

## Model

| member | source | states |
|---|---|---|
| Models.ColumnNamed | reviews_microservice/utils.py:18 | `getattr(model, name)` resolves a name to the one column of the table that carries it, or to none |
| Models.ValidateScore | reviews_microservice/models.py:22-26 | a score in 1..4 comes back unchanged; any other score fails with "Score must be between 1 and 4" |
| Models.Construct | reviews_microservice/namespaces/users_reviews.py:111 | building the model object fails exactly when a score is given outside 1..4 (with the validator's message); otherwise the payload is kept as is |
| Database.Commit | reviews_microservice/models.py:10-20 | the commit fails exactly when a required column is missing (NOT NULL) or the booking already has a row (unique constraint); on success the row carries the payload, the next id and the commit time, and the table invariant (unique bookings, scores in range, increasing ids) still holds |
| Database.ReviewTable.constructor | reviews_microservice/models.py:9-20 | a new table is empty, counts ids from 1 and satisfies its invariant |
| Database.ReviewTable.AddAndCommit | reviews_microservice/namespaces/users_reviews.py:112-113 | `add` plus `commit`: the result is `Commit` on the old state; on failure the table is unchanged; on success one row is appended and the id counter advances, keeping the invariant |
| Utils.Query.Filter | reviews_microservice/utils.py:18 | `query.filter(c)` matches exactly the rows the query matched that also satisfy `c` |
| Utils.FilterMeaning | reviews_microservice/utils.py:18 | adding a condition to a query conjoins it with the query's conditions |
| Utils.MatchesConcat | reviews_microservice/namespaces/users_reviews.py:96-99 | a query built from two lists of conditions matches a row iff both parts do |
| Utils.Execute | reviews_microservice/namespaces/users_reviews.py:100 | `all()` returns only rows that satisfy the query, and never more rows than are stored |
| Utils.First | reviews_microservice/namespaces/users_reviews.py:128-131 | `first()` is None iff no row matches; otherwise it returns a stored row that matches |
| Utils.ExecuteMembership | reviews_microservice/namespaces/users_reviews.py:100 | `all()` returns a row iff it is stored and matches the query |
| Utils.ExecuteCongruent | reviews_microservice/namespaces/users_reviews.py:96-100 | two queries that match the same rows return the same list |
| Utils.ExecuteAllRows | reviews_microservice/namespaces/users_reviews.py:95-100 | the unfiltered query returns every stored row, in order |
| Utils.FilterParam.constructor | reviews_microservice/utils.py:7-11 | a fresh filter keeps its name and operator, has no bound value, and its schema records the name, location "query" and type "int" |
| Utils.FilterParam.Call | reviews_microservice/utils.py:13-15 | calling a filter binds the value and returns the same object, not a copy |
| Utils.FilterParam.Condition | reviews_microservice/utils.py:18 | the condition a filter contributes compares the column of that name, with its operator, to its bound value; there is none when the table has no such column |
| Utils.FilterParam.Apply | reviews_microservice/utils.py:17-18 | `apply` succeeds iff the table has the named column (otherwise an AttributeError naming it); the narrowed query matches exactly the rows the input query matched that also satisfy the filter's condition |
| Utils.FilterParam.Repr | reviews_microservice/utils.py:20-21 | the text is "filter ", the name, " by ", then the operator's text |
| Utils.FilterParam.Str | reviews_microservice/utils.py:23-24 | `str` equals `repr` |
| Utils.ApplyKeepsEqualRows | reviews_microservice/utils.py:17-18 | with equality, the narrowed query returns exactly the rows of the input query whose named field equals the bound value |
| Utils.ApplyNarrows | reviews_microservice/utils.py:18 | every row the narrowed query returns is returned by the input query |
| Utils.ApplyCommutes | reviews_microservice/utils.py:18 | applying two filters in either order returns the same rows |
| Utils.ReprInjective | reviews_microservice/utils.py:20-21 | two filters with the same operator and the same text filter the same field |
| Resources.ReviewParser.constructor | reviews_microservice/namespaces/users_reviews.py:66-84 | the list parser registers three distinct equality filters — `booking_id`, `reviewer_id` and the subject — none of them bound |
| Resources.ReviewParser.ParseArgs | reviews_microservice/namespaces/users_reviews.py:66-94 | `parse_args` with `store_missing=False` yields exactly the supplied filters, in registration order, each bound to its argument; an unsupplied filter is not rebound |
| Resources.ArgCondsMeaning | reviews_microservice/namespaces/users_reviews.py:96-99 | the conditions of the supplied arguments match a row iff the row agrees with every supplied argument |
| Resources.ExecuteIsSelect | reviews_microservice/namespaces/users_reviews.py:96-100 | a query that means "agrees with every supplied argument" returns exactly the reference selection |
| Resources.SelectMembership | reviews_microservice/namespaces/users_reviews.py:96-100 | a row is selected iff it is stored and agrees with every supplied filter |
| Resources.SelectUnfiltered | reviews_microservice/namespaces/users_reviews.py:94-100 | with no filter supplied, every stored row is selected |
| Resources.SelectNothingMatches | reviews_microservice/namespaces/users_reviews.py:100 | filters that match no row select an empty list, not an error |
| Resources.SelectAllMatch | reviews_microservice/namespaces/users_reviews.py:96-100 | when every row agrees with the filters, all rows are selected in order |
| Resources.SelectAppend | reviews_microservice/namespaces/users_reviews.py:100 | a new last row is selected at the end, or not at all, according to the filters |
| Resources.GetReviews | reviews_microservice/namespaces/users_reviews.py:94-100 | the list handler's loop over the parsed filters returns exactly the reference selection of the stored rows, whatever values the shared filters held before |
| Resources.Create | reviews_microservice/namespaces/users_reviews.py:110-118 | a bad score gives 400 "Score must be between 1 and 4"; a missing field or a taken booking gives 409 "Review has already been created"; both leave the table unchanged; success happens exactly when the payload is complete, in range and on a new booking; it appends one row carrying the given fields; it keeps the invariant and gives the new row an id above every old one |
| Resources.Post | reviews_microservice/namespaces/users_reviews.py:110-118 | the create handler's response and new table state are those of `Create` on the old state, keeping the invariant |
| Resources.BookingCountAppend | reviews_microservice/models.py:18-20 | appending a row counts one more row for its booking and no more for any other |
| Resources.BookingCountZero | reviews_microservice/models.py:18-20 | a booking that is not taken has no rows |
| Resources.DuplicateBookingConflicts | reviews_microservice/namespaces/users_reviews.py:110-116 | after a successful create, any second valid payload for the same booking gives 409 and changes nothing, and the booking has exactly one row |
| Resources.CreateThenListByBooking | reviews_microservice/namespaces/users_reviews.py:92-114 | after a successful create, listing by its booking returns exactly the new review |
| Resources.SumScoresBounds | reviews_microservice/namespaces/users_reviews.py:133-139 | for scores in 1..4 the sum lies between the count and four times the count |
| Resources.SubjectQueryIsSelect | reviews_microservice/namespaces/users_reviews.py:128-137 | the endpoint's filter on the subject column selects what the list handler would select for that subject |
| Resources.QueryScoreBounds | reviews_microservice/namespaces/users_reviews.py:133-139 | the rows any query returns from a table of valid scores sum to between their count and four times it |
| Resources.ScoreOf | reviews_microservice/namespaces/users_reviews.py:126-146 | 204 (no content) iff no stored row has the subject; otherwise the subject id, the sum and the number (at least one) of the subject's scores; kept scores in 1..4 put the mean in 1..4 |
| Resources.ScoreOfSingleSubject | reviews_microservice/namespaces/users_reviews.py:133-139 | when every row belongs to the subject, the score is their sum over their count |
| Resources.ScoreExample | reviews_microservice/namespaces/users_reviews.py:133-139 | scores 2, 3 and 4 give sum 9 over count 3, a mean of exactly 3 |
| App.Replace | reviews_microservice/app.py:22-23 | Python's `str.replace` without overlaps: a replacement at least as long as the pattern never shortens the text, and one no longer than it never lengthens it |
| App.UpgradeLegacy | reviews_microservice/app.py:21-22 | a URL starting with "postgres://" ends up starting with "postgresql://"; a URL without "postgres://", or one that already starts with "postgresql://", is unchanged |
| App.FixDialect | reviews_microservice/app.py:20-24 | a URL starting with "postgres://" or "postgresql://" ends up starting with "postgresql+psycopg2://"; no "postgresql://" is left anywhere; a URL containing neither scheme comes back unchanged |
| App.FixDialectFacts | reviews_microservice/app.py:20-24 | the rewrite (legacy prefix upgrade, then replace every plain scheme) has the four properties above |
| App.ReplaceAtStart | reviews_microservice/app.py:22 | replacing a pattern the text starts with makes the result start with the replacement |
| App.ReplaceAbsent | reviews_microservice/app.py:22-23 | replacing a pattern that does not occur changes nothing |
| App.NoPlainSchemeLeft | reviews_microservice/app.py:23 | after replacing every "postgresql://" by "postgresql+psycopg2://", no "postgresql://" occurs, not even one formed across a replacement |
| App.DefaultUrlUnchanged | reviews_microservice/app.py:62-64 | the default SQLite URL passes through the rewrite unchanged |
| App.EnvOrDefault | reviews_microservice/app.py:39 | the configured environment, or "DEV" when none is set |
| App.BeforeRequest | reviews_microservice/app.py:27-56 | the request proceeds iff the environment is DEV (the default when unset), the path is excluded, the method is OPTIONS, or a token is present and accepted; otherwise 401 "BookBNB token is missing" without a token and 401 "Invalid BookBNB token" for a refused one |
| App.BypassIgnoresToken | reviews_microservice/app.py:38-43 | a bypassed request proceeds whatever its token and whatever the verification service says |
| UsersReviews.NewUserReviewParser | reviews_microservice/namespaces/users_reviews.py:66-84 | the user list parser filters on `booking_id`, `reviewer_id` and `reviewee_id` |
| UsersReviews.ListUserReviews | reviews_microservice/namespaces/users_reviews.py:92-100 | the returned user reviews are exactly the stored ones that match every supplied `booking_id`, `reviewer_id` and `reviewee_id`, in the table's order, as `Select` gives them; with none supplied, all stored reviews |
| UsersReviews.CreateUserReview | reviews_microservice/namespaces/users_reviews.py:108-118 | the user create handler behaves as `Create` on the user table |
| UsersReviews.RevieweeScore | reviews_microservice/namespaces/users_reviews.py:126-146 | 204 for a reviewee without reviews; otherwise the reviewee and the sum and count of the reviewee's scores, with the mean in 1..4 |
| UsersReviews.OneBookingTrace | reviews_microservice/namespaces/users_reviews.py:108-146 | on table values: score 5 on an empty table gives 400 and no change; score 3 for booking 100 stores review id 1 with those fields; score 4 for booking 100 then gives 409 and no change; reviewee 2 scores 3 over 1 review |
| UsersReviews.RefuseThenStore | reviews_microservice/namespaces/users_reviews.py:108-118 | through the create handler on an empty user table: score 5 gives 400, then score 3 for booking 100 stores exactly review id 1 |
| UsersReviews.OneBookingScenario | reviews_microservice/namespaces/users_reviews.py:108-146 | through the handlers on a new user table: 400, then the stored review, then 409 for the same booking, then reviewee 2 scores 3 over 1 review |
| UsersReviews.SingleReviewScore | reviews_microservice/namespaces/users_reviews.py:133-139 | a reviewee with a single review scored 3 has mean 3 |
| PublicationsReviews.NewPublicationReviewParser | reviews_microservice/namespaces/publications_reviews.py:71-89 | the publication list parser filters on `booking_id`, `reviewer_id` and `publication_id` |
| PublicationsReviews.ListPublicationReviews | reviews_microservice/namespaces/publications_reviews.py:97-105 | the returned publication reviews are exactly the stored ones that match every supplied `booking_id`, `reviewer_id` and `publication_id`, in the table's order, as `Select` gives them; with none supplied, all stored reviews |
| PublicationsReviews.CreatePublicationReview | reviews_microservice/namespaces/publications_reviews.py:113-123 | the publication create handler behaves as `Create` on the publication table |
| PublicationsReviews.PublicationScore | reviews_microservice/namespaces/publications_reviews.py:131-153 | 204 for a publication without reviews; otherwise the publication and the sum and count of its scores, with the mean in 1..4 |
| PublicationsReviews.SameBookingBothTables | reviews_microservice/models.py:38-40 | the two tables are independent: one booking can be stored once in each |

## Left out

- Flask-RESTX scaffolding is not modelled: marshalling models, route decorators, `marshal` formatting and the generated documentation. Responses are the small datatypes `CreateResponse` and `ScoreResponse`.
- The create parsers with `choices=[1, 2, 3, 4]` are not modelled. `post` reads the raw payload, so they only document the endpoint.
- Session semantics are not modelled: rollback, flushing, the engine and the SQL type of `AVG`. A table is an in-memory sequence.
- Database.Commit does not advance the id counter after a failed insert. A PostgreSQL sequence may skip the id that a failed insert used. The model only promises that ids are distinct and increasing.
- Resources.ScoreOf returns the mean as a (sum, count) pair, not as the float that `AVG` yields.
- The server timestamp `func.now()` is the `now` parameter of the create path.
- The token-verification HTTP call in `before_request` is the `tokenAccepted` parameter. The configured environment is the `env` parameter. The service's own token and the verification URL are left out.
- `create_app` is not modelled: CORS, ProxyFix, Migrate and the registration of the database and the API. The only piece kept is the `fix_dialect` cast of the database URL (App.DefaultUrlUnchanged).
- The migrations are schema history; the model follows the current models.
- `api.py` is not part of this model: it registers namespaces and turns framework exceptions into an error envelope.
- `exceptions.py` is not part of this model: it only declares empty exception classes.
- Utils.Execute, Resources.Select and Resources.GetReviews return rows in the table's primary-key order, and Utils.ExecuteAllRows and Resources.SelectAllMatch state that order. The list queries have no `order_by`, so the database promises no order; the model fixes one. Membership (Utils.ExecuteMembership, Resources.SelectMembership) does not depend on it.
- Concurrency is not modelled. Creates are sequential, and the unique constraint is checked at insert time.
- Unknown payload keys make the ORM constructor raise `TypeError`, which gives a 500. The model's payload has only the five fields a client normally sends.
- Models.Payload leaves out the `id` and `timestamp` columns, which the constructor would also accept. A client-chosen `id` that is already stored would fail the primary-key constraint and give 409, so Resources.Create's "created exactly when accepted" holds only for payloads without an `id`. On PostgreSQL a client-chosen id also leaves the sequence behind, so a later automatic id can collide with it, and ids would no longer increase in insertion order as Database.Invariant states. A client-chosen `timestamp` would replace the commit time that Database.Commit promises.
- Models.Construct treats a `None` score as an absent key, which fails NOT NULL at commit and gives 409. An explicit JSON null score instead reaches `validate_score`, whose comparison raises `TypeError`, which gives a 500; the model does not distinguish that case.
- Payload values that are not integers are not modelled; every id and score is an integer.
- Resources.ReviewParser.ParseArgs takes filter values as integers. `reqparse` hands the raw query string to `FilterParam`, and the model does not capture how the database compares that string with an integer column.
- Resources.ReviewParser.ParseArgs does not model a repeated query argument. The arguments are a map, so each name appears at most once.
- The header lookup in `before_request` is case-insensitive in Werkzeug. The model takes the header's value, or its absence, as given.
- Utils.FilterParam.Apply models only the equality operator, the one the parsers use. `FilterParam` accepts any operator.
- Models.ColumnNamed: `comment` and `timestamp` are not filterable columns in the model, because no parser filters on them.
- App.FixDialect: the model's `Replace` requires a non-empty pattern. Python's `str.replace` with an empty pattern inserts the replacement between characters, but `fix_dialect` never uses an empty pattern.
