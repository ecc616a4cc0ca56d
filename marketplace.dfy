/** The marketplace page: every listing fetched from the backend is shown
    unless the search text or the selected category filters it out.
    The filter is re-evaluated on every keystroke against the fetched list;
    the fetch itself is a backend query and is not part of this model. */
module Marketplace {
  import opened Common
  import AddListing

  /** The sentinel category that imposes no constraint. */
  const AllCategories := "All"

  /** The category badges above the grid: the sentinel, then the categories
      a listing can be created with. */
  const Categories: seq<string> :=
    ["All", "Engineering", "Arts", "Science", "Commerce", "Competitive Exams", "Literature", "Other"]

  /** A listing as the marketplace fetches it, joined with its lister's
      username. The price stays abstract (`None` is a swap-only listing). */
  datatype Book = Book(
    id: string,
    title: string,
    author: string,
    price: Option<real>,
    isSwap: bool,
    condition: string,
    category: string,
    imageUrl: Option<string>,
    username: Option<string>)

  /** The lower-cased title or author contains the lower-cased search text. */
  predicate MatchesSearch(book: Book, search: string) {
    || Contains(Lower(book.title), Lower(search))
    || Contains(Lower(book.author), Lower(search))
  }

  predicate MatchesCategory(book: Book, category: string) {
    category == AllCategories || book.category == category
  }

  predicate Matches(book: Book, search: string, category: string) {
    MatchesSearch(book, search) && MatchesCategory(book, category)
  }

  /** The `filtered` list of the page: the books that pass both tests, in
      the order they were fetched. Sound (every result passes both tests
      and comes from the input) and complete (every input book that passes
      both tests is kept). */
  function Filter(books: seq<Book>, search: string, category: string): (r: seq<Book>)
    ensures |r| <= |books|
    ensures forall b :: b in r ==> b in books
    ensures forall b :: b in r ==> MatchesSearch(b, search)
    ensures category != AllCategories ==> forall b :: b in r ==> b.category == category
    ensures forall b :: b in books && Matches(b, search, category) ==> b in r
  {
    if books == [] then []
    else
      var rest := Filter(books[1..], search, category);
      if Matches(books[0], search, category) then [books[0]] + rest else rest
  }

  /** The result keeps the relative order of the input. */
  lemma {:induction false} FilterIsSubsequence(books: seq<Book>, search: string, category: string)
    ensures IsSubsequence(Filter(books, search, category), books)
  {
    if books != [] {
      FilterIsSubsequence(books[1..], search, category);
      var r := Filter(books, search, category);
      if Matches(books[0], search, category) {
        assert r[1..] == Filter(books[1..], search, category);
      }
    }
  }

  /** Filtering the result again with the same search and category changes
      nothing. */
  lemma {:induction false} FilterIdempotent(books: seq<Book>, search: string, category: string)
    ensures Filter(Filter(books, search, category), search, category) == Filter(books, search, category)
  {
    if books != [] {
      FilterIdempotent(books[1..], search, category);
      var rest := Filter(books[1..], search, category);
      if Matches(books[0], search, category) {
        assert ([books[0]] + rest)[1..] == rest;
      }
    }
  }

  /** The page's initial state (empty search, category "All") shows every
      fetched book, in order. */
  lemma {:induction false} FilterInitialShowsAll(books: seq<Book>)
    ensures Filter(books, "", AllCategories) == books
  {
    if books != [] {
      FilterInitialShowsAll(books[1..]);
      EmptyIsContained(Lower(books[0].title));
      assert Lower("") == "";
      assert [books[0]] + books[1..] == books;
    }
  }

  /** Searching depends only on the lower-cased search text. */
  lemma {:induction false} FilterSameFolding(books: seq<Book>, s1: string, s2: string, category: string)
    requires Lower(s1) == Lower(s2)
    ensures Filter(books, s1, category) == Filter(books, s2, category)
  {
    if books != [] {
      FilterSameFolding(books[1..], s1, s2, category);
    }
  }

  /** The letter case of the search text does not matter: upper-casing or
      lower-casing it gives the same listings. */
  lemma SearchIsCaseInsensitive(books: seq<Book>, search: string, category: string)
    ensures Filter(books, Upper(search), category) == Filter(books, search, category)
    ensures Filter(books, Lower(search), category) == Filter(books, search, category)
  {
    LowerForgetsCase(search);
    FilterSameFolding(books, Upper(search), search, category);
    FilterSameFolding(books, Lower(search), search, category);
  }

  /** The filter badges are the sentinel followed by exactly the categories
      offered when creating a listing, and the sentinel is not one of them. */
  lemma CategoriesExtendListingCategories()
    ensures Categories == [AllCategories] + AddListing.Categories
    ensures AllCategories !in AddListing.Categories
  {
  }
}
