# Book routes of a FastAPI CRUD service

This project models the routing layer of a small FastAPI service that keeps book
records in an in-memory database: the seeded database contents, the validator that
turns a `{book_id}` path segment into an integer id, and the status and body each of
the five routes (create, list, get, update, delete) answers with.

The database's own operations (`add_book`, `get_books`, `get_book`, `update_book`,
`delete_book`) are defined in `api/db/schemas.py`, which is not part of this model.
They are therefore uninterpreted: each handler is a function of the raw request data
and of what the database answered, and its result (`Routes.Outcome`) names the
database call the handler makes (`Routes.StoreCall`, or none) together with the HTTP
response. This makes "a rejected path id never reaches the database" a statement about
a value.

Modules:

- `Wrappers` (`wrappers.dfy`): `Option` and `Result`.
- `Books` (`books.dfy`): `Genre`, `Book`, the three seed records and the `InMemoryDB`
  class holding the `map<int, Book>` the routes share.
- `BookId` (`book_id.dfy`): `validate_book_id` over ASCII digits, with the 4300-digit limit of Python's `int()`, the decimal value
  of a digit string, the canonical decimal rendering of a natural number, and the
  round-trip and leading-zero properties of the validator.
- `Routes` (`routes.dfy`): responses, database calls and the five handlers.

## Model

| member | source | states |
|---|---|---|
| `Books.Seed` | api/routes/books.py:12-34 | the seed maps exactly the keys 1, 2 and 3, every entry is filed under its own record's id, and gives each record's title, year, genre and author |
| `Books.InMemoryDB.Seeded` | api/routes/books.py:11-34 | the shared database starts out holding exactly the seed, whose keys match their records' ids |
| `BookId.ValidateBookId` | api/routes/books.py:39-42 | a path id is accepted if and only if it is a non-empty string of digits of at most 4300 characters; one that is not a digit string is rejected with 404 "Book not found", a longer digit string with the ValueError `int()` raises |
| `BookId.RejectsNonDigit` | api/routes/books.py:40-41 | a path id with a non-digit character at any position is rejected with 404 "Book not found" |
| `BookId.RejectsOverlong` | api/routes/books.py:42 | a digit string of more than 4300 characters (leading zeros included) passes the digit test and is refused by the conversion with ValueError |
| `BookId.RejectsEmpty` | api/routes/books.py:40-41 | the empty path id is rejected with 404 "Book not found" |
| `BookId.RejectsSigned` | api/routes/books.py:40-42 | a path id starting with `-` or `+` is rejected, so no accepted id is signed |
| `BookId.DecimalValueOfRender` | api/routes/books.py:42 | reading the decimal rendering of n as a number gives n |
| `BookId.ValidateRender` | api/routes/books.py:39-42 | round trip: validating the decimal rendering of a natural number n of at most 4300 digits accepts it with value n; a longer rendering raises ValueError |
| `BookId.DecimalValueLeadingZero` | api/routes/books.py:42 | one leading `0` does not change the value of a digit string |
| `BookId.DecimalValueLeadingZeros` | api/routes/books.py:42 | any number of leading zeros does not change the value of a digit string |
| `BookId.LeadingZerosIgnored` | api/routes/books.py:39-42 | a non-empty path id padded with leading zeros (`"007"`) validates exactly as without them (`"7"`), except that a digit string padded past 4300 characters raises ValueError |
| `BookId.RenderDecimalValue` | api/routes/books.py:42 | a digit string without leading zeros (or `"0"`) is the canonical rendering of its value |
| `BookId.AcceptedIsPaddedRendering` | api/routes/books.py:39-42 | every accepted path id is the canonical rendering of its value preceded by zeros only; with the two lemmas above this characterises the accepted ids |
| `Routes.ErrorResponse` | api/routes/books.py:41-42 | a raised HTTPException is answered with its status and its detail message; any other exception with 500 |
| `Routes.CreateBook` | api/routes/books.py:47-52 | create hands the submitted record to the database and answers 201 with exactly that record, whatever the database holds |
| `Routes.ListBooks` | api/routes/books.py:57-61 | list asks the database for its listing and answers 200 with it |
| `Routes.GetBookRoute` | api/routes/books.py:84-92 | get asks the database only for a validated id; 200 with the record when the lookup yields one, 404 "Book not found" when it yields none or the path id is not a digit string, 500 when the digit string is too long to convert |
| `Routes.UpdateBookRoute` | api/routes/books.py:66-71 | update asks the database only with a validated id, passes the submitted record unchanged (its id is not compared with the path id) and answers 200 with the record the database returns, 500 when it returns nothing; a path id that is not a digit string is 404, one too long to convert 500 |
| `Routes.DeleteBookRoute` | api/routes/books.py:76-79 | delete asks the database only with a validated id and answers 204 with no body; a path id that is not a digit string is 404, one too long to convert 500 |
| `Routes.ByIdRoutesUseValidatedId` | api/routes/books.py:66-92 | get, update and delete make no database call when the validator rejects the path id, and otherwise call with exactly the validated id |
| `Routes.OverlongIdNeverReachesStore` | api/routes/books.py:42 | a digit string over 4300 characters makes every by-id route answer 500 without calling the database |
| `Routes.PaddedIdSameOutcome` | api/routes/books.py:66-92 | padding a path id with leading zeros, up to 4300 characters in all, changes neither the database call nor the response of any by-id route |
| `Routes.GetRenderedId` | api/routes/books.py:84-86 | a GET of the canonical rendering of an id n of at most 4300 digits asks the database for exactly n; a longer one is answered 500 without a call |

## Left out

- The database operations `add_book`, `get_books`, `get_book`, `update_book` and `delete_book` (in `api/db/schemas.py`, not part of this model): their behaviour on a duplicate or missing id cannot be read from the routes, so they are not given semantics; the handlers take their answers as parameters and record which call they make.
- Exceptions raised by the database operations themselves are not modelled; each handler is modelled on the path where its database call returns. For update, that return is a record or nothing (`None`, whose serialisation raises AttributeError, answered 500); delete's return value is not used.
- ValidateBookId: the 4300-digit limit of `int()` is Python's default; changing it at run time (`sys.set_int_max_str_digits`, the `PYTHONINTMAXSTRDIGITS` environment variable) is not modelled.
- Unicode digits: Python's `str.isdigit` also accepts non-ASCII digit characters (and for some, such as superscripts, `int()` then raises). The validator here accepts the ASCII digits `'0'` to `'9'` only.
- The insertion order of the listing (an `OrderedDict`): `ListBooks` carries the listing as a `map`.
- FastAPI machinery (routing, `Depends`, `Path`, raising `HTTPException`, `JSONResponse`, the server-error handler): only its effect, a status and a body, is modelled; an exception other than `HTTPException` is answered 500 with the text "Internal Server Error". Pydantic validation of request bodies (422 answers) and `model_dump()` serialisation are left out; a record is its own JSON body.
- `get_book`'s `if book:` is modelled as "the lookup yielded a record": a Pydantic model instance is always truthy.
- The handlers are declared `async`; nothing depends on it, so they are plain functions.
- `Genre` members other than `SCI_FI` and `FANTASY`, and the module-global lifetime of `db`.
