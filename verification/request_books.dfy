/** The customer-side "request a new book" views: create, list newest first,
    and the owner-guarded cancel and update handlers. */
module RequestBooks {

  type ProfileId = nat
  type CategoryId = nat
  type RequestId = nat

  datatype Status = Pending | Approved | Disapproved | Canceled

  /** One row of the requested-book table. */
  datatype RequestedBook = RequestedBook(
    pk: RequestId,
    title: string,
    description: string,
    owner: ProfileId,
    status: Status,
    categories: set<CategoryId>,
    requestedTime: int)

  /** The three fields the customer-side create and update forms expose. */
  datatype RequestForm = RequestForm(title: string, description: string, categories: set<CategoryId>)

  /** What form validation made of a submitted update form. */
  datatype Submission = Cleaned(data: RequestForm) | Rejected

  /** The result of a POST handler applied to a loaded record. */
  datatype Outcome = Saved(book: RequestedBook) | FormInvalid | PermissionDenied

  /** Statuses in which the customer-side handlers refuse to touch a record.
      CANCELED is deliberately not among them. */
  predicate Decided(s: Status) {
    s == Approved || s == Disapproved
  }

  /** The check of handle_owner_permission. */
  predicate IsOwner(r: RequestedBook, actor: ProfileId) {
    r.owner == actor
  }

  /** Key, owner and timestamp agree. */
  predicate SameIdentity(a: RequestedBook, b: RequestedBook) {
    a.pk == b.pk && a.owner == b.owner && a.requestedTime == b.requestedTime
  }

  /** The form-editable fields agree. */
  predicate SameContent(a: RequestedBook, b: RequestedBook) {
    a.title == b.title && a.description == b.description && a.categories == b.categories
  }

  /** The editable fields of `r` hold what `f` says. */
  predicate Carries(r: RequestedBook, f: RequestForm) {
    r.title == f.title && r.description == f.description && r.categories == f.categories
  }

  /** CancelRequestView.post: ownership check, then the APPROVED/DISAPPROVED
      guard, then the status becomes CANCELED. */
  function Cancel(r: RequestedBook, actor: ProfileId): (o: Outcome)
    ensures !o.FormInvalid?
    ensures o.PermissionDenied? <==> !IsOwner(r, actor) || Decided(r.status)
    ensures o.Saved? ==> o.book.status == Canceled && SameIdentity(o.book, r) && SameContent(o.book, r)
  {
    if !IsOwner(r, actor) then PermissionDenied
    else if Decided(r.status) then PermissionDenied
    else Saved(r.(status := Canceled))
  }

  /** UpdateRequestView.post: the same two guards, then the form is saved
      over title, description and categories. */
  function Update(r: RequestedBook, actor: ProfileId, sub: Submission): (o: Outcome)
    ensures o.PermissionDenied? <==> !IsOwner(r, actor) || Decided(r.status)
    ensures o.FormInvalid? <==> !o.PermissionDenied? && sub.Rejected?
    ensures o.Saved? ==> sub.Cleaned? && Carries(o.book, sub.data)
    ensures o.Saved? ==> o.book.status == r.status && SameIdentity(o.book, r)
  {
    if !IsOwner(r, actor) then PermissionDenied
    else if Decided(r.status) then PermissionDenied
    else match sub
      case Rejected => FormInvalid
      case Cleaned(f) => Saved(r.(title := f.title, description := f.description, categories := f.categories))
  }

  /** CreateRequestView.form_valid: the form supplies only the three editable
      fields; the owner is the current profile. The key, the timestamp and
      the initial status are supplied by the database and the model default. */
  function Create(user: ProfileId, form: RequestForm, pk: RequestId, now: int, initial: Status): (r: RequestedBook)
    ensures IsOwner(r, user) && Carries(r, form)
    ensures r.pk == pk && r.requestedTime == now && r.status == initial
  {
    RequestedBook(pk, form.title, form.description, user, initial, form.categories, now)
  }

  // ----- Listing: filter by owner, order by requested time descending -----

  predicate NewestFirst(s: seq<RequestedBook>) {
    forall i, j :: 0 <= i < j < |s| ==> s[i].requestedTime >= s[j].requestedTime
  }

  /** The rows owned by `user`, in table order. */
  function OwnedBy(rows: seq<RequestedBook>, user: ProfileId): (r: seq<RequestedBook>)
    ensures forall x :: multiset(r)[x] == if x.owner == user then multiset(rows)[x] else 0
  {
    if rows == [] then []
    else
      assert rows == [rows[0]] + rows[1..];
      (if rows[0].owner == user then [rows[0]] else []) + OwnedBy(rows[1..], user)
  }

  /** Inserts `x` before the first element that is not newer than it. */
  function Insert(x: RequestedBook, s: seq<RequestedBook>): (r: seq<RequestedBook>)
    requires NewestFirst(s)
    ensures NewestFirst(r)
    ensures multiset(r) == multiset(s) + multiset{x}
  {
    if s == [] || x.requestedTime >= s[0].requestedTime then [x] + s
    else
      var t := Insert(x, s[1..]);
      NotNewerThanHead(x, s, t);
      PrependNewest(s[0], t);
      assert s == [s[0]] + s[1..];
      [s[0]] + t
  }

  /** Everything in the insertion into the tail is no newer than the head. */
  lemma NotNewerThanHead(x: RequestedBook, s: seq<RequestedBook>, t: seq<RequestedBook>)
    requires NewestFirst(s) && s != [] && x.requestedTime < s[0].requestedTime
    requires multiset(t) == multiset(s[1..]) + multiset{x}
    ensures forall k :: 0 <= k < |t| ==> t[k].requestedTime <= s[0].requestedTime
  {
    forall k | 0 <= k < |t| ensures t[k].requestedTime <= s[0].requestedTime {
      assert multiset(t)[t[k]] > 0;
      if t[k] != x {
        assert t[k] in s[1..];
      }
    }
  }

  /** Prepending an element at least as new as the rest keeps the order. */
  lemma PrependNewest(h: RequestedBook, t: seq<RequestedBook>)
    requires NewestFirst(t)
    requires forall k :: 0 <= k < |t| ==> t[k].requestedTime <= h.requestedTime
    ensures NewestFirst([h] + t)
  {
  }

  /** Insertion sort, newest first. */
  function SortNewestFirst(s: seq<RequestedBook>): (r: seq<RequestedBook>)
    ensures NewestFirst(r)
    ensures multiset(r) == multiset(s)
  {
    if s == [] then []
    else
      assert s == [s[0]] + s[1..];
      Insert(s[0], SortNewestFirst(s[1..]))
  }

  /** ListRequestsView.get_queryset: exactly the current profile's requests,
      each as often as in the table, newest first. */
  function MyRequests(rows: seq<RequestedBook>, user: ProfileId): (r: seq<RequestedBook>)
    ensures NewestFirst(r)
    ensures forall x :: multiset(r)[x] == if x.owner == user then multiset(rows)[x] else 0
    ensures forall x :: x in r <==> x in rows && x.owner == user
  {
    var s := SortNewestFirst(OwnedBy(rows, user));
    assert forall x :: x in s <==> multiset(s)[x] > 0;
    s
  }

  // ----- Properties relating several handlers -----

  /** Cancelling an already-cancelled request succeeds again and changes
      nothing: the second cancel is an idempotent success. */
  lemma CancelIdempotent(r: RequestedBook, actor: ProfileId)
    requires Cancel(r, actor).Saved?
    ensures Cancel(Cancel(r, actor).book, actor) == Cancel(r, actor)
  {
  }

  /** A CANCELED record is not terminal: its owner may cancel it again (no
      change) and may still edit it. */
  lemma CanceledIsStillOpen(r: RequestedBook, f: RequestForm)
    requires r.status == Canceled
    ensures Cancel(r, r.owner) == Saved(r)
    ensures Update(r, r.owner, Cleaned(f)).Saved?
    ensures Update(r, r.owner, Cleaned(f)).book.status == Canceled
  {
  }

  /** A permitted update does not change whether the record can be cancelled
      later, nor by whom. */
  lemma UpdateKeepsCancelGuard(r: RequestedBook, actor: ProfileId, sub: Submission, other: ProfileId)
    requires Update(r, actor, sub).Saved?
    ensures Cancel(Update(r, actor, sub).book, other).Saved? <==> Cancel(r, other).Saved?
  {
  }

  /** A freshly created request appears in its creator's list and in no
      one else's, and no one else may cancel or edit it. */
  lemma CreatedBelongsToCreator(rows: seq<RequestedBook>, user: ProfileId, form: RequestForm,
                                now: int, initial: Status, other: ProfileId, sub: Submission)
    requires other != user
    ensures var c := Create(user, form, |rows|, now, initial);
      && c in MyRequests(rows + [c], user)
      && c !in MyRequests(rows + [c], other)
      && Cancel(c, other) == PermissionDenied
      && Update(c, other, sub) == PermissionDenied
  {
    var c := Create(user, form, |rows|, now, initial);
    assert c in rows + [c];
  }

  // ----- The views over the stored table -----

  /** What a view sends back. */
  datatype Response = Rendered | Redirect | Forbidden | NotFound

  /** The requested-book table; a row's key is its position. */
  class RequestTable {
    var rows: seq<RequestedBook>

    ghost predicate Valid()
      reads this
    {
      forall i :: 0 <= i < |rows| ==> rows[i].pk == i
    }

    constructor ()
      ensures Valid() && rows == []
    {
      rows := [];
    }

    /** CancelRequestView.get and UpdateRequestView.get: look the record up
        and check ownership only; the record is never written. */
    method ShowOwned(pk: RequestId, actor: ProfileId) returns (resp: Response)
      requires Valid()
      ensures resp == NotFound <==> pk >= |rows|
      ensures resp == Forbidden <==> pk < |rows| && !IsOwner(rows[pk], actor)
      ensures resp == Rendered <==> pk < |rows| && IsOwner(rows[pk], actor)
    {
      if pk >= |rows| {
        return NotFound;
      }
      var obj := rows[pk];
      if obj.owner != actor {
        return Forbidden;
      }
      resp := Rendered;
    }

    /** CancelRequestView.post. */
    method CancelPost(pk: RequestId, actor: ProfileId) returns (resp: Response)
      requires Valid()
      modifies this
      ensures Valid()
      ensures pk >= |old(rows)| ==> resp == NotFound && rows == old(rows)
      ensures pk < |old(rows)| ==>
        match Cancel(old(rows)[pk], actor)
        case Saved(b) => resp == Redirect && rows == old(rows)[pk := b]
        case _ => resp == Forbidden && rows == old(rows)
    {
      if pk >= |rows| {
        return NotFound;
      }
      var obj := rows[pk];
      if obj.owner != actor {
        return Forbidden;
      }
      if obj.status == Approved || obj.status == Disapproved {
        return Forbidden;
      }
      obj := obj.(status := Canceled);
      rows := rows[pk := obj];
      resp := Redirect;
    }

    /** UpdateRequestView.post; an invalid form re-renders the page. */
    method UpdatePost(pk: RequestId, actor: ProfileId, sub: Submission) returns (resp: Response)
      requires Valid()
      modifies this
      ensures Valid()
      ensures pk >= |old(rows)| ==> resp == NotFound && rows == old(rows)
      ensures pk < |old(rows)| ==>
        match Update(old(rows)[pk], actor, sub)
        case Saved(b) => resp == Redirect && rows == old(rows)[pk := b]
        case FormInvalid => resp == Rendered && rows == old(rows)
        case PermissionDenied => resp == Forbidden && rows == old(rows)
    {
      if pk >= |rows| {
        return NotFound;
      }
      var obj := rows[pk];
      if obj.owner != actor {
        return Forbidden;
      }
      if obj.status == Approved || obj.status == Disapproved {
        return Forbidden;
      }
      match sub {
        case Rejected =>
          resp := Rendered;
        case Cleaned(f) =>
          obj := obj.(title := f.title, description := f.description, categories := f.categories);
          rows := rows[pk := obj];
          resp := Redirect;
      }
    }

    /** CreateRequestView.form_valid followed by the save: a new row keyed
        after the existing ones. */
    method CreatePost(user: ProfileId, form: RequestForm, now: int, initial: Status) returns (pk: RequestId)
      requires Valid()
      modifies this
      ensures Valid()
      ensures pk == |old(rows)|
      ensures rows == old(rows) + [Create(user, form, pk, now, initial)]
    {
      pk := |rows|;
      var obj := RequestedBook(pk, form.title, form.description, user, initial, form.categories, now);
      rows := rows + [obj];
    }
  }
}
