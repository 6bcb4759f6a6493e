/** The session cart: a dictionary from book id to quantity kept in one
    session slot, created on first use, grown by AddBookToCart and resolved
    against the book table by get_books. */
module Carts {

  type BookId = nat

  /** A row of the book table, as far as the cart views use it. */
  datatype Book = Book(id: BookId, slug: string)

  /** The book table, keyed by primary key. */
  predicate WellKeyed(books: map<BookId, Book>) {
    forall id :: id in books ==> books[id].id == id
  }

  /** The stored quantity of `book`, or 0 when the cart has no entry. */
  function QuantityOf(items: map<BookId, int>, book: BookId): int {
    if book in items then items[book] else 0
  }

  /** The cart after adding `quantity` copies of `book`: an existing entry
      is incremented, a missing one is inserted, nothing else changes. */
  function Added(items: map<BookId, int>, book: BookId, quantity: int): (r: map<BookId, int>)
    ensures r.Keys == items.Keys + {book}
    ensures r[book] == QuantityOf(items, book) + quantity
    ensures book !in items ==> r[book] == quantity
    ensures forall k :: k in items && k != book ==> r[k] == items[k]
  {
    items[book := QuantityOf(items, book) + quantity]
  }

  /** Two successive adds of the same book accumulate: they amount to one
      add of the sum. */
  lemma AddedTwice(items: map<BookId, int>, book: BookId, q1: int, q2: int)
    ensures Added(Added(items, book, q1), book, q2) == Added(items, book, q1 + q2)
    ensures Added(Added(items, book, q1), book, q2)[book] == QuantityOf(items, book) + q1 + q2
  {
  }

  /** get_books: the books of the table whose id is a key of the cart. */
  function BooksInCart(books: map<BookId, Book>, items: map<BookId, int>): (r: set<Book>)
    requires WellKeyed(books)
    ensures forall b :: b in r <==> b in books.Values && b.id in items
    ensures forall id :: id in items && id !in books ==> forall b :: b in r ==> b.id != id
  {
    set id | id in items && id in books :: books[id]
  }

  /** An id with no book behind it stays invisible to get_books, whatever
      quantity the cart records for it. */
  lemma UnknownBookNotResolved(books: map<BookId, Book>, items: map<BookId, int>, book: BookId, quantity: int)
    requires WellKeyed(books) && book !in books
    ensures BooksInCart(books, Added(items, book, quantity)) == BooksInCart(books, items)
  {
  }

  /** The dictionary stored in the session under the cart slot. */
  class Cart {
    var items: map<BookId, int>

    constructor ()
      ensures items == map[]
    {
      items := map[];
    }

    /** The body of AddBookToCart.form_valid's cart update. The stored value
        is tested for truthiness, so a stored 0 takes the assignment branch;
        both branches agree with Added. */
    method Add(book: BookId, quantity: int)
      modifies this
      ensures items == Added(old(items), book, quantity)
    {
      var exist := book in items && items[book] != 0;
      if exist {
        items := items[book := items[book] + quantity];
      } else {
        items := items[book := quantity];
      }
    }
  }

  /** The caller's session, reduced to its cart slot; null means the slot
      is absent. */
  class Session {
    var cart: Cart?

    constructor ()
      ensures cart == null
    {
      cart := null;
    }
  }

  /** The cart contents a session holds, empty when the slot is absent. */
  function CartItems(session: Session): map<BookId, int>
    reads session, session.cart
  {
    if session.cart == null then map[] else session.cart.items
  }

  /** utils.get_cart: the existing cart unchanged, or a fresh empty one
      installed in the slot. Either way the slot then holds the result. */
  method GetCart(session: Session) returns (cart: Cart)
    modifies session
    ensures session.cart == cart
    ensures old(session.cart) != null ==> cart == old(session.cart) && cart.items == old(cart.items)
    ensures old(session.cart) == null ==> fresh(cart) && cart.items == map[]
    ensures cart.items == old(CartItems(session))
  {
    if session.cart == null {
      var empty := new Cart();
      session.cart := empty;
    }
    cart := session.cart;
  }

  /** Two calls of get_cart return the same cart, and the second changes
      nothing. */
  method GetCartTwice(session: Session) returns (first: Cart, second: Cart)
    modifies session
    ensures first == second && session.cart == first
    ensures first.items == old(CartItems(session))
  {
    first := GetCart(session);
    second := GetCart(session);
  }

  /** What AddBookToCart sends back. */
  datatype Response = Redirect(pk: BookId, slug: string) | NotFound

  /** AddBookToCart.form_valid: the cart is updated first, then the book is
      looked up; an unknown id is still recorded before the 404. */
  method AddBookToCart(session: Session, books: map<BookId, Book>, book: BookId, quantity: int)
    returns (resp: Response)
    modifies session, session.cart
    ensures session.cart != null
    ensures old(session.cart) != null ==> session.cart == old(session.cart)
    ensures session.cart.items == Added(old(CartItems(session)), book, quantity)
    ensures resp.NotFound? <==> book !in books
    ensures resp.Redirect? ==> resp.pk == book && resp.slug == books[book].slug
  {
    var cart := GetCart(session);
    cart.Add(book, quantity);
    if book !in books {
      return NotFound;
    }
    resp := Redirect(book, books[book].slug);
  }

  /** utils.get_books: the cart's books; only the lazy creation of the cart
      touches the session. */
  method GetBooks(session: Session, books: map<BookId, Book>) returns (r: set<Book>)
    requires WellKeyed(books)
    modifies session
    ensures session.cart != null && session.cart.items == old(CartItems(session))
    ensures r == BooksInCart(books, session.cart.items)
  {
    var cart := GetCart(session);
    r := BooksInCart(books, cart.items);
  }
}
