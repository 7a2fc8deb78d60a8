/**
 * The route handlers of api/routes/books.py. Each handler is a function of the raw
 * request data and of what the database answered; its outcome is the database call
 * it makes (if any) and the HTTP response. What the database does with a call lives
 * in a file that is not part of this model, so its answer is a parameter here.
 */
module Routes {
  import opened Wrappers
  import opened Books
  import opened BookId

  const HttpOk: int := 200
  const HttpCreated: int := 201
  const HttpNoContent: int := 204

  /** A response body: a record, the whole listing, an error detail, plain text, or nothing. */
  datatype Body =
    | BookJson(book: Book)
    | Listing(books: map<int, Book>)
    | ErrorDetail(detail: string)
    | PlainText(text: string)
    | NoBody

  datatype Response = Response(status: int, body: Body)

  /** The answer to an exception that is not an HTTPException. */
  const InternalServerError: Response := Response(500, PlainText("Internal Server Error"))

  /** What a route answers when its path id is rejected with 404. */
  const NotFoundResponse: Response := Response(404, ErrorDetail("Book not found"))

  /** A call a handler makes on the shared database. */
  datatype StoreCall =
    | AddBook(book: Book)
    | GetBooks
    | GetBook(id: nat)
    | UpdateBook(id: nat, book: Book)
    | DeleteBook(id: nat)

  /** What a handler does: the database call it makes, if any, and the response it gives. */
  datatype Outcome = Outcome(call: Option<StoreCall>, response: Response)

  /**
   * The response FastAPI gives for a raised exception: an HTTPException is answered with
   * its status and {"detail": ...}; any other exception with 500.
   */
  function ErrorResponse(e: Raised): (r: Response)
    ensures e.HttpException? ==> r.status == e.status && r.body == ErrorDetail(e.detail)
    ensures e.Uncaught? ==> r.status == 500
  {
    match e
    case HttpException(status, detail) => Response(status, ErrorDetail(detail))
    case Uncaught(_) => InternalServerError
  }

  /** POST /: hands the submitted record to the database and answers 201 with that record. */
  function CreateBook(book: Book): (o: Outcome)
    ensures o.call == Some(AddBook(book))
    ensures o.response.status == HttpCreated && o.response.body == BookJson(book)
  {
    Outcome(Some(AddBook(book)), Response(HttpCreated, BookJson(book)))
  }

  /** GET /: answers 200 with whatever listing the database gives. */
  function ListBooks(listing: map<int, Book>): (o: Outcome)
    ensures o.call == Some(GetBooks)
    ensures o.response.status == HttpOk && o.response.body == Listing(listing)
  {
    Outcome(Some(GetBooks), Response(HttpOk, Listing(listing)))
  }

  /**
   * GET /{book_id}: a path id that is not a digit string is answered 404, and one too long
   * to convert 500, before the database is asked; otherwise the database is asked for that
   * id, and the answer is 200 with the record it gives or 404 when it gives none.
   */
  function GetBookRoute(rawId: string, found: Option<Book>): (o: Outcome)
    ensures o.call.Some? <==> IsBookId(rawId)
    ensures IsBookId(rawId) ==> o.call == Some(GetBook(DecimalValue(rawId)))
    ensures o.response.status == HttpOk <==> IsBookId(rawId) && found.Some?
    ensures o.response.status == HttpOk ==> o.response.body == BookJson(found.value)
    ensures !IsDigits(rawId) || (IsBookId(rawId) && found.None?) ==> o.response == NotFoundResponse
    ensures IsDigits(rawId) && !IsBookId(rawId) ==> o.response == InternalServerError
  {
    match ValidateBookId(rawId)
    case Failure(e) => Outcome(None, ErrorResponse(e))
    case Success(id) =>
      var response := if found.Some? then Response(HttpOk, BookJson(found.value)) else ErrorResponse(BookNotFound);
      Outcome(Some(GetBook(id)), response)
  }

  /**
   * PUT /{book_id}: a rejected path id is answered before the database is asked; otherwise
   * the database is asked to store the submitted record under the path id (its own id is
   * not compared with the path id). The record the database returns is answered with 200;
   * when it returns nothing, serialising it raises AttributeError and the answer is 500.
   */
  function UpdateBookRoute(rawId: string, book: Book, updated: Option<Book>): (o: Outcome)
    ensures o.call.Some? <==> IsBookId(rawId)
    ensures IsBookId(rawId) ==> o.call == Some(UpdateBook(DecimalValue(rawId), book))
    ensures IsBookId(rawId) && updated.Some? ==> o.response == Response(HttpOk, BookJson(updated.value))
    ensures IsBookId(rawId) && updated.None? ==> o.response == InternalServerError
    ensures !IsDigits(rawId) ==> o.response == NotFoundResponse
    ensures IsDigits(rawId) && !IsBookId(rawId) ==> o.response == InternalServerError
  {
    match ValidateBookId(rawId)
    case Failure(e) => Outcome(None, ErrorResponse(e))
    case Success(id) =>
      var response := match updated
        case Some(record) => Response(HttpOk, BookJson(record))
        case None => ErrorResponse(Uncaught("AttributeError"));
      Outcome(Some(UpdateBook(id, book)), response)
  }

  /**
   * DELETE /{book_id}: a rejected path id is answered before the database is asked;
   * otherwise the database is asked to delete that id and the answer is 204 with no body.
   */
  function DeleteBookRoute(rawId: string): (o: Outcome)
    ensures o.call.Some? <==> IsBookId(rawId)
    ensures IsBookId(rawId) ==> o.call == Some(DeleteBook(DecimalValue(rawId)))
    ensures IsBookId(rawId) ==> o.response == Response(HttpNoContent, NoBody)
    ensures !IsDigits(rawId) ==> o.response == NotFoundResponse
    ensures IsDigits(rawId) && !IsBookId(rawId) ==> o.response == InternalServerError
  {
    match ValidateBookId(rawId)
    case Failure(e) => Outcome(None, ErrorResponse(e))
    case Success(id) => Outcome(Some(DeleteBook(id)), Response(HttpNoContent, NoBody))
  }

  /** The id a by-id route's database call carries, if it makes one. */
  function CallId(call: StoreCall): Option<nat>
  {
    match call
    case GetBook(id) => Some(id)
    case UpdateBook(id, _) => Some(id)
    case DeleteBook(id) => Some(id)
    case _ => None
  }

  /**
   * Every by-id route reaches the database only with an id the validator produced:
   * when the validator rejects the path id no call is made, and when it accepts it the
   * call carries exactly the validated id.
   */
  lemma ByIdRoutesUseValidatedId(rawId: string, book: Book, found: Option<Book>, updated: Option<Book>)
    ensures var calls := [GetBookRoute(rawId, found).call, UpdateBookRoute(rawId, book, updated).call,
                          DeleteBookRoute(rawId).call];
            forall i :: 0 <= i < 3 ==>
              match ValidateBookId(rawId)
              case Failure(_) => calls[i] == None
              case Success(id) => calls[i].Some? && CallId(calls[i].value) == Some(id)
  {
  }

  /**
   * A digit string longer than the conversion's limit never reaches the database: every
   * by-id route answers it with 500, whatever the database would have said.
   */
  lemma OverlongIdNeverReachesStore(rawId: string, book: Book, found: Option<Book>, updated: Option<Book>)
    requires IsDigits(rawId) && |rawId| > MaxStrDigits
    ensures GetBookRoute(rawId, found) == Outcome(None, InternalServerError)
    ensures UpdateBookRoute(rawId, book, updated) == Outcome(None, InternalServerError)
    ensures DeleteBookRoute(rawId) == Outcome(None, InternalServerError)
  {
  }

  /**
   * Padding a path id with leading zeros ("007" against "7") changes nothing a by-id route
   * does, as long as the padded id stays within the conversion's 4300-digit limit.
   */
  lemma PaddedIdSameOutcome(k: nat, rawId: string, book: Book, found: Option<Book>, updated: Option<Book>)
    requires rawId != [] && k + |rawId| <= MaxStrDigits
    ensures GetBookRoute(Zeros(k) + rawId, found) == GetBookRoute(rawId, found)
    ensures UpdateBookRoute(Zeros(k) + rawId, book, updated) == UpdateBookRoute(rawId, book, updated)
    ensures DeleteBookRoute(Zeros(k) + rawId) == DeleteBookRoute(rawId)
  {
    LeadingZerosIgnored(k, rawId);
  }

  /**
   * GET of the canonical rendering of an id of at most 4300 digits asks the database for
   * exactly that id; a longer rendering is answered 500 without asking it.
   */
  lemma GetRenderedId(n: nat, found: Option<Book>)
    ensures |Render(n)| <= MaxStrDigits ==> GetBookRoute(Render(n), found).call == Some(GetBook(n))
    ensures |Render(n)| > MaxStrDigits ==> GetBookRoute(Render(n), found) == Outcome(None, InternalServerError)
  {
    ValidateRender(n);
  }
}
