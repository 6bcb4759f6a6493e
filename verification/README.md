# Book-request workflow and session cart of the brs bookstore

This project models the customer-side parts of the brs bookstore/review web
application that carry logic of their own:

- **Requested books** (`apps/requestbooks/views.py`). A customer creates a
  request for a new book. The customer lists their own requests, newest first.
  The customer may cancel or edit a request they own unless an administrator
  has already approved or disapproved it. A `RequestedBook` is a datatype. The
  handlers are pure functions (`Cancel`, `Update`, `Create`, `MyRequests`). The
  `RequestTable` class holds the stored rows. Its GET and POST methods do what
  the views do: look the row up (404 when it is missing), check the owner,
  check the status, and write the changed row back. Each method is proved
  against the corresponding function.
- **Session cart** (`apps/carts/utils.py`, `apps/carts/views.py`). A `Cart`
  object holds a map from book id to quantity. A `Session` object holds the
  cart slot, where null means the slot is absent. `GetCart` creates the cart
  lazily. `AddBookToCart` increments an existing entry or inserts a new one,
  and only then looks the book up. `GetBooks` filters the book table by the
  cart's keys.

Framework collaborators are parameters: the current user's profile id, the
book table (`map<BookId, Book>`), the request table, the current time, and the
model's default status.

The code behaves as follows in places that are easy to misread:

- CANCELED is not terminal. An owner can cancel a cancelled request again,
  which succeeds and changes nothing, and can still edit it.
- The ownership failure and the APPROVED/DISAPPROVED failure are one and the
  same `PermissionDenied`.
- Creating a request sets no status itself. The status is whatever the
  model's default is. That default is a parameter (`initial`).
- No rule requires a quantity of at least 1. An unknown book id is still
  written into the cart before the 404 is returned.

## Model

| member | source | states |
|---|---|---|
| RequestBooks.Cancel | apps/requestbooks/views.py:88-104 | refused exactly when the caller is not the owner or the status is APPROVED or DISAPPROVED; otherwise the status becomes CANCELED and key, owner, time, title, description and categories are kept |
| RequestBooks.Update | apps/requestbooks/views.py:116-140 | refused exactly under the same guard as cancel; an invalid form changes nothing; a saved update carries the form's title, description and categories and keeps status, key, owner and time |
| RequestBooks.Create | apps/requestbooks/views.py:42-60 | the new request is owned by the current profile and only title, description and categories come from the form |
| RequestBooks.OwnedBy | apps/requestbooks/views.py:24-25 | each record occurs as often as in the table if the user owns it, and never otherwise |
| RequestBooks.Insert | apps/requestbooks/views.py:26 | inserting into a newest-first list keeps it newest first and adds exactly the one record |
| RequestBooks.SortNewestFirst | apps/requestbooks/views.py:26 | the result is ordered by requested time, non-increasing, and is a permutation of the input |
| RequestBooks.MyRequests | apps/requestbooks/views.py:23-26 | the list holds exactly the current user's requests, with their multiplicities, ordered by requested time non-increasing |
| RequestBooks.CancelIdempotent | apps/requestbooks/views.py:97-104 | cancelling a request that was just cancelled succeeds again with the same record |
| RequestBooks.CanceledIsStillOpen | apps/requestbooks/views.py:97-140 | a CANCELED request can be cancelled again by its owner without change, and its owner can still edit it |
| RequestBooks.UpdateKeepsCancelGuard | apps/requestbooks/views.py:135-140 | after a saved update, any profile may cancel the record exactly when it could before |
| RequestBooks.CreatedBelongsToCreator | apps/requestbooks/views.py:23-60 | a new request is in its creator's list and in no one else's, and no one else may cancel or edit it |
| RequestBooks.RequestTable.ShowOwned | apps/requestbooks/views.py:88-95 | the GET paths give 404 for a missing row, 403 for a non-owner, and otherwise render, whatever the status; they never write |
| RequestBooks.RequestTable.CancelPost | apps/requestbooks/views.py:97-105 | a missing row gives 404; otherwise the stored row becomes the result of Cancel, or 403 leaves the table unchanged |
| RequestBooks.RequestTable.UpdatePost | apps/requestbooks/views.py:135-140 | a missing row gives 404; otherwise the stored row becomes the result of Update, or the table is unchanged on 403 and on an invalid form |
| RequestBooks.RequestTable.CreatePost | apps/requestbooks/views.py:58-60 | appends the created request under a fresh key |
| Carts.Added | apps/carts/views.py:25-29 | the key set grows by the book; the book's quantity becomes the old quantity (0 when absent) plus the added one; every other entry is unchanged |
| Carts.AddedTwice | apps/carts/views.py:25-29 | two adds of the same book accumulate to one add of the sum |
| Carts.Cart.Add | apps/carts/views.py:25-29 | the truthiness test on the stored value, stored 0 included, leaves the cart equal to Added |
| Carts.BooksInCart | apps/carts/utils.py:16-19 | exactly the table's books whose id is a key of the cart; ids with no book are omitted |
| Carts.UnknownBookNotResolved | apps/carts/utils.py:16-19 | adding an id that has no book does not change what get_books returns |
| Carts.GetCart | apps/carts/utils.py:6-14 | returns the session's cart unchanged when the slot is present; otherwise installs a fresh empty cart; the slot then holds the returned cart |
| Carts.GetCartTwice | apps/carts/utils.py:10-14 | a second get_cart returns the same cart and changes nothing |
| Carts.AddBookToCart | apps/carts/views.py:21-33 | the cart is updated per Added whether or not the book exists; the response is 404 exactly when the book is missing, else a redirect to its id and slug |
| Carts.GetBooks | apps/carts/utils.py:16-19 | leaves the cart contents unchanged, apart from the lazy creation of the slot, and returns BooksInCart |

## Left out

- The administrative views in `apps/admin/views.py` are not part of this model. They are generic list, create, update and delete views. The admin update can set any status without a guard. So the model claims only that the customer-side cancel and update refuse APPROVED and DISAPPROVED records. It does not claim such records never change.
- The ORM, templates, URL reversing and HTTP responses are reduced to a stored table, a session slot and a small `Response` datatype.
- Login (`LoginRequiredMixin`) and authentication are not modelled. The caller's profile id is given.
- Form validation is not modelled, because the form classes are not part of this model. An update form comes in already cleaned or rejected (`Submission`). A create form reaches `form_valid` only when it is valid. Cart quantities are arbitrary integers.
- RequestBooks.Create: takes the initial status as a parameter and does not say it is PENDING, because the default lives in the model file. That file is not part of this model.
- RequestBooks.Cancel: assumes `requested_time` is set once, at creation (as with `auto_now_add`), and kept by the save. The field is declared in the model file, which is not part of this model. With `auto_now` every cancel and update would restamp it and move the row to the top of the newest-first list. The same assumption underlies RequestBooks.Update and the timestamp part of `SameIdentity`.
- RequestBooks.MyRequests: fixes no order among requests with equal requested times, because the database does not fix one either. The insertion sort puts them in one particular order.
- Carts.BooksInCart: returns a set. The order of the queryset, which is the book model's default ordering, is not modelled.
- The missing imports in `apps/carts/views.py` (`TemplateView`, `FormView`, `Book`) are taken as intended. `Book` is the book table.
- Whether the session layer persists an in-place change to the stored dictionary is not modelled. The type changes of keys on serialisation are not modelled either. The cart is one object shared by the session slot and the handler.
- Concurrent requests racing on the same session or row are not modelled.
