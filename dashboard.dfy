/** The dashboard: the signed-in user's own listings and the transactions
    they take part in, with a delete button on each listing. */
module Dashboard {
  import opened Common

  const UnknownBook := "Unknown Book"
  const Completed := "completed"
  const Pending := "pending"

  datatype Book = Book(
    id: string,
    title: string,
    author: string,
    price: Option<real>,
    isSwap: bool,
    condition: string,
    category: string,
    imageUrl: Option<string>)

  /** The title and author of a transaction's book, when the join found it. */
  datatype BookRef = BookRef(title: string, author: string)

  datatype Transaction = Transaction(id: string, kind: string, status: string, createdAt: string, book: Option<BookRef>)

  // ------------------------------------------------------------- deletion

  /** `prev.filter(b => b.id !== bookId)`. */
  function RemoveById(books: seq<Book>, bookId: string): (r: seq<Book>)
    ensures |r| <= |books|
    ensures forall b :: b in r <==> b in books && b.id != bookId
  {
    if books == [] then []
    else
      var rest := RemoveById(books[1..], bookId);
      if books[0].id != bookId then [books[0]] + rest else rest
  }

  /** How many books in the list carry the id. */
  function CountId(books: seq<Book>, bookId: string): nat {
    if books == [] then 0
    else (if books[0].id == bookId then 1 else 0) + CountId(books[1..], bookId)
  }

  /** Deletion drops exactly the books with that id and keeps the others in
      their order. */
  lemma {:induction false} RemoveByIdKeepsOrder(books: seq<Book>, bookId: string)
    ensures IsSubsequence(RemoveById(books, bookId), books)
    ensures |RemoveById(books, bookId)| == |books| - CountId(books, bookId)
  {
    if books != [] {
      RemoveByIdKeepsOrder(books[1..], bookId);
      var r := RemoveById(books, bookId);
      if books[0].id != bookId {
        assert r[1..] == RemoveById(books[1..], bookId);
      }
    }
  }

  /** A list with no book of that id is left as it is. */
  lemma {:induction false} RemoveAbsentIsIdentity(books: seq<Book>, bookId: string)
    requires forall b :: b in books ==> b.id != bookId
    ensures RemoveById(books, bookId) == books
  {
    if books != [] {
      RemoveAbsentIsIdentity(books[1..], bookId);
      assert [books[0]] + books[1..] == books;
    }
  }

  // -------------------------------------------------------------- display

  /** The joined book title, or the placeholder when the book is gone. */
  function DisplayTitle(tx: Transaction): (title: string)
    ensures tx.book.Some? ==> title == tx.book.value.title
    ensures tx.book.None? ==> title == UnknownBook
  {
    match tx.book
    case Some(b) => b.title
    case None => UnknownBook
  }

  /** The colour family of a status pill. */
  datatype Badge = Success | Accent | Muted

  /** Completed orders are green, pending ones accented, and every other
      string, recognised or not, muted. */
  function StatusBadge(status: string): (badge: Badge)
    ensures badge == Success <==> status == Completed
    ensures badge == Accent <==> status == Pending
    ensures badge == Muted <==> status != Completed && status != Pending
  {
    if status == Completed then Success
    else if status == Pending then Accent
    else Muted
  }

  /** The effect run whenever the user or the auth loading flag changes. */
  datatype Effect = RedirectToAuth | FetchData | Wait

  function OnAuthState(authLoading: bool, user: Option<string>): (e: Effect)
    ensures e == RedirectToAuth <==> !authLoading && user.None?
    ensures e == FetchData <==> user.Some?
  {
    if !authLoading && user.None? then RedirectToAuth
    else if user.Some? then FetchData
    else Wait
  }

  /** What the page renders: the loading text, or the two tabs with their
      counts. */
  datatype View = Loading | Tabs(listings: nat, history: nat)

  // ----------------------------------------------------------------- page

  datatype Call = DeleteBookRow(bookId: string)

  class DashboardState {
    var myBooks: seq<Book>
    var transactions: seq<Transaction>
    var loading: bool

    constructor ()
      ensures myBooks == [] && transactions == [] && loading
    {
      myBooks := [];
      transactions := [];
      loading := true;
    }

    /** The end of `fetchData`: each list is replaced when its query
        returned data, and loading ends either way. */
    method ReceiveData(booksData: Option<seq<Book>>, txData: Option<seq<Transaction>>)
      modifies this
      ensures myBooks == if booksData.Some? then booksData.value else old(myBooks)
      ensures transactions == if txData.Some? then txData.value else old(transactions)
      ensures !loading
    {
      if booksData.Some? {
        myBooks := booksData.value;
      }
      if txData.Some? {
        transactions := txData.value;
      }
      loading := false;
    }

    /** `deleteBook`: one delete call; on success the books with that id
        leave the local list, on failure the list is unchanged. */
    method DeleteBook(bookId: string, reply: Reply<()>) returns (calls: seq<Call>)
      modifies this`myBooks
      ensures calls == [DeleteBookRow(bookId)]
      ensures reply.Ok? ==> myBooks == RemoveById(old(myBooks), bookId)
      ensures reply.Ok? ==> forall b :: b in myBooks ==> b.id != bookId
      ensures reply.Err? ==> myBooks == old(myBooks)
    {
      calls := [DeleteBookRow(bookId)];
      if reply.Ok? {
        myBooks := RemoveById(myBooks, bookId);
      }
    }

    /** The loading text while auth or data is loading; otherwise the tabs,
        labelled with the sizes of the two lists. */
    function Render(authLoading: bool): (v: View)
      reads this
      ensures v == Loading <==> authLoading || loading
      ensures v.Tabs? ==> v.listings == |myBooks| && v.history == |transactions|
    {
      if authLoading || loading then Loading else Tabs(|myBooks|, |transactions|)
    }
  }
}
