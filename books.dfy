/**
 * The book record and the seeded in-memory database of api/routes/books.py.
 * The database's own operations (add, list, get, update, delete) are defined in a
 * file that is not part of this model; only the seeding is modelled here.
 */
module Books {

  /** The genres the seed uses; the enumeration has further members that are not modelled. */
  datatype Genre = SciFi | Fantasy

  datatype Book = Book(id: int, title: string, author: string, publicationYear: int, genre: Genre)

  /** Every entry is filed under its own record's id. */
  predicate KeysMatchIds(books: map<int, Book>)
  {
    forall k :: k in books ==> books[k].id == k
  }

  /** The three records the database is seeded with. */
  function Seed(): (m: map<int, Book>)
    ensures m.Keys == {1, 2, 3}
    ensures KeysMatchIds(m)
    ensures m[1].title == "The Hobbit" && m[1].publicationYear == 1937 && m[1].genre == SciFi
    ensures m[2].title == "The Lord of the Rings" && m[2].publicationYear == 1954 && m[2].genre == Fantasy
    ensures m[3].title == "The Return of the King" && m[3].publicationYear == 1955 && m[3].genre == Fantasy
    ensures forall k :: k in m ==> m[k].author == "J.R.R. Tolkien"
  {
    map[
      1 := Book(1, "The Hobbit", "J.R.R. Tolkien", 1937, SciFi),
      2 := Book(2, "The Lord of the Rings", "J.R.R. Tolkien", 1954, Fantasy),
      3 := Book(3, "The Return of the King", "J.R.R. Tolkien", 1955, Fantasy)
    ]
  }

  /** The shared database object the routes act on. */
  class InMemoryDB {
    var books: map<int, Book>

    /** Creating the database and then overwriting its mapping with the seed. */
    constructor Seeded()
      ensures books == Seed()
      ensures KeysMatchIds(books)
    {
      books := Seed();
    }
  }
}
