/** Quick-sell listings (controller/quickSell.js): a peer-to-peer store in
    which every user may hold at most one unsold listing.  Selling, updating
    and deleting are open to the listing's owner only. */
module QuickSellListings {
  import opened Common
  import opened Entities
  import opened Store
  import opened QuickSellSchema

  type Listings = map<Id, QuickSell>

  /** The ids of `user`'s unsold listings: `find({ user, sold: false })`. */
  function ActiveListingsOf(ls: Listings, user: Id): (r: set<Id>)
    ensures forall id :: id in r <==> id in ls && ls[id].user == user && !ls[id].sold
  {
    set id | id in ls && ls[id].user == user && !ls[id].sold
  }

  /** The store invariant: no user has two unsold listings. */
  ghost predicate OneActivePerUser(ls: Listings)
  {
    forall a, b :: a in ls && b in ls && a != b && ls[a].user == ls[b].user ==> ls[a].sold || ls[b].sold
  }

  /** Every stored listing passed schema validation. */
  ghost predicate AllWellFormed(ls: Listings)
  {
    forall id :: id in ls ==> WellFormed(ls[id])
  }

  /** Under the invariant a user has at most one active listing. */
  lemma AtMostOneActive(ls: Listings, user: Id)
    requires OneActivePerUser(ls)
    ensures |ActiveListingsOf(ls, user)| <= 1
  {
    var active := ActiveListingsOf(ls, user);
    if active != {} {
      var a :| a in active;
      assert active == {a};
    }
  }

  // ---------------------------------------------------------------------
  // The state changes, as functions of the store
  // ---------------------------------------------------------------------

  /** `quickSellProduct.sold = true`. */
  function MarkSold(ls: Listings, id: Id): (r: Listings)
    requires id in ls
  {
    ls[id := ls[id].(sold := true)]
  }

  /** The document an update saves: the new fields on the loaded listing;
      owner, `sold` and creation time stay. */
  function RevisedDraft(q: QuickSell, images: seq<ImageInput>, input: ListingInput): Draft
  {
    Draft(q.user, images, input.name, input.price, input.category, input.condition, q.sold, q.createdAt)
  }

  /** The image entries built from uploading each file. */
  function Uploaded(upload: string -> Image, files: seq<string>): (r: seq<ImageInput>)
    ensures |r| == |files|
    ensures forall i :: 0 <= i < |r| ==> r[i] == ImageInput(Some(upload(files[i]).publicId), Some(upload(files[i]).url))
  {
    seq(|files|, i requires 0 <= i < |files| => ImageInput(Some(upload(files[i]).publicId), Some(upload(files[i]).url)))
  }

  /** Creating a listing for a user without an active one keeps the invariant. */
  lemma CreatePreserves(ls: Listings, id: Id, q: QuickSell)
    requires OneActivePerUser(ls)
    requires id !in ls && ActiveListingsOf(ls, q.user) == {}
    ensures OneActivePerUser(ls[id := q])
  {
    var ls' := ls[id := q];
    forall a, b | a in ls' && b in ls' && a != b && ls'[a].user == ls'[b].user
      ensures ls'[a].sold || ls'[b].sold
    {
      if a == id {
        assert b !in ActiveListingsOf(ls, q.user);
      } else if b == id {
        assert a !in ActiveListingsOf(ls, q.user);
      }
    }
  }

  /** Selling keeps the invariant. */
  lemma SellPreserves(ls: Listings, id: Id)
    requires OneActivePerUser(ls) && id in ls
    ensures OneActivePerUser(MarkSold(ls, id))
  {
  }

  /** Selling twice is selling once. */
  lemma SellIdempotent(ls: Listings, id: Id)
    requires id in ls
    ensures MarkSold(MarkSold(ls, id), id) == MarkSold(ls, id)
  {
  }

  /** Replacing a listing by one with the same owner and `sold` flag keeps
      the invariant. */
  lemma ReplacePreserves(ls: Listings, id: Id, q: QuickSell)
    requires OneActivePerUser(ls) && id in ls
    requires q.user == ls[id].user && q.sold == ls[id].sold
    ensures OneActivePerUser(ls[id := q])
  {
    var ls' := ls[id := q];
    forall a, b | a in ls' && b in ls' && a != b && ls'[a].user == ls'[b].user
      ensures ls'[a].sold || ls'[b].sold
    {
      assert ls[a].user == ls[b].user;
    }
  }

  /** Deleting keeps the invariant. */
  lemma DeletePreserves(ls: Listings, id: Id)
    requires OneActivePerUser(ls)
    ensures OneActivePerUser(ls - {id})
  {
  }

  /** Once a user's active listing is sold, the user has none, so a new
      create passes the one-active-listing check. */
  lemma CreateAfterSell(ls: Listings, id: Id)
    requires OneActivePerUser(ls) && id in ls && !ls[id].sold
    ensures ActiveListingsOf(MarkSold(ls, id), ls[id].user) == {}
  {
  }

  // ---------------------------------------------------------------------
  // Handlers
  // ---------------------------------------------------------------------

  /** `/create-product` by `caller`.  404 for an unknown user; 400 when the
      caller already has an unsold listing; a listing that fails schema
      validation is not saved (500); otherwise one new listing, owned by
      the caller, unsold, stamped `now`. */
  method CreateListing(db: Db, caller: Id, input: ListingInput, now: int) returns (code: int, id: Id)
    modifies db`listings
    ensures caller !in db.users ==> code == NOT_FOUND && db.listings == old(db.listings)
    ensures caller in db.users && ActiveListingsOf(old(db.listings), caller) != {} ==>
      code == BAD_REQUEST && db.listings == old(db.listings)
    ensures caller in db.users && ActiveListingsOf(old(db.listings), caller) == {} ==>
      var draft := NewDraft(caller, input, now);
      if IsValid(draft) then
        code == CREATED && id !in old(db.listings) && db.listings == old(db.listings)[id := Validate(draft).value]
      else
        code == SERVER_ERROR && db.listings == old(db.listings)
    ensures OneActivePerUser(old(db.listings)) ==> OneActivePerUser(db.listings)
    ensures AllWellFormed(old(db.listings)) ==> AllWellFormed(db.listings)
  {
    id := 0;
    if caller !in db.users {
      return NOT_FOUND, id;
    }
    if ActiveListingsOf(db.listings, caller) != {} {
      return BAD_REQUEST, id;
    }
    var newQuickSell := NewDraft(caller, input, now);
    var saved := Validate(newQuickSell);
    if saved.None? {
      return SERVER_ERROR, id;
    }
    FreshIdExists(db.listings.Keys);
    id :| id !in db.listings;
    if OneActivePerUser(db.listings) {
      CreatePreserves(db.listings, id, saved.value);
    }
    ValidatedIsWellFormed(newQuickSell);
    db.listings := db.listings[id := saved.value];
    code := CREATED;
  }

  /** `/get-all-products-user`: the caller's unsold listings; an unknown
      user fails with 500.  Nothing changes. */
  method GetActiveListings(db: Db, caller: Id) returns (code: int, ids: set<Id>)
    ensures caller !in db.users ==> code == SERVER_ERROR && ids == {}
    ensures caller in db.users ==> code == OK && ids == ActiveListingsOf(db.listings, caller)
    ensures OneActivePerUser(db.listings) ==> |ids| <= 1
  {
    if caller !in db.users {
      return SERVER_ERROR, {};
    }
    ids := set id | id in db.listings && db.listings[id].user == caller && !db.listings[id].sold;
    if OneActivePerUser(db.listings) {
      AtMostOneActive(db.listings, caller);
    }
    code := OK;
  }

  /** `/sell-product/:id` (the first of the two identical routes).  404 for
      an unknown listing, 403 for a caller who does not own it; otherwise
      the listing is marked sold.  A stored listing always passes
      validation again, so the save cannot fail. */
  method SellListing(db: Db, caller: Id, id: Id) returns (code: int)
    modifies db`listings
    ensures id !in old(db.listings) ==> code == NOT_FOUND && db.listings == old(db.listings)
    ensures id in old(db.listings) && old(db.listings)[id].user != caller ==>
      code == FORBIDDEN && db.listings == old(db.listings)
    ensures id in old(db.listings) && old(db.listings)[id].user == caller ==>
      code == OK && db.listings == MarkSold(old(db.listings), id)
    ensures OneActivePerUser(old(db.listings)) ==> OneActivePerUser(db.listings)
    ensures AllWellFormed(old(db.listings)) ==> AllWellFormed(db.listings)
  {
    if id !in db.listings {
      return NOT_FOUND;
    }
    var quickSellProduct := db.listings[id];
    if quickSellProduct.user != caller {
      return FORBIDDEN;
    }
    quickSellProduct := quickSellProduct.(sold := true);
    if OneActivePerUser(db.listings) {
      SellPreserves(db.listings, id);
    }
    db.listings := db.listings[id := quickSellProduct];
    code := OK;
  }

  /** `/update-product/:id`.  404 for an unknown listing; an unknown caller
      fails with 500 at the ownership check; 403 for a caller who does not
      own it; a request without an image list fails with 500.  Otherwise
      each file is uploaded in turn and images, name, price, category and
      condition are replaced; owner and `sold` stay.  A result that fails
      schema validation is not saved (500). */
  method UpdateListing(db: Db, caller: Id, id: Id, files: Option<seq<string>>, input: ListingInput,
                       upload: string -> Image) returns (code: int)
    modifies db`listings
    ensures id !in old(db.listings) ==> code == NOT_FOUND && db.listings == old(db.listings)
    ensures id in old(db.listings) && caller !in db.users ==>
      code == SERVER_ERROR && db.listings == old(db.listings)
    ensures id in old(db.listings) && caller in db.users && old(db.listings)[id].user != caller ==>
      code == FORBIDDEN && db.listings == old(db.listings)
    ensures id in old(db.listings) && caller in db.users && old(db.listings)[id].user == caller ==>
      if files.None? then
        code == SERVER_ERROR && db.listings == old(db.listings)
      else
        var draft := RevisedDraft(old(db.listings)[id], Uploaded(upload, files.value), input);
        if IsValid(draft) then
          code == OK && db.listings == old(db.listings)[id := Validate(draft).value]
          && db.listings[id].user == caller && db.listings[id].sold == old(db.listings)[id].sold
        else
          code == SERVER_ERROR && db.listings == old(db.listings)
    ensures OneActivePerUser(old(db.listings)) ==> OneActivePerUser(db.listings)
    ensures AllWellFormed(old(db.listings)) ==> AllWellFormed(db.listings)
  {
    if id !in db.listings {
      return NOT_FOUND;
    }
    var quickSellProduct := db.listings[id];
    if caller !in db.users {
      return SERVER_ERROR;
    }
    if quickSellProduct.user != caller {
      return FORBIDDEN;
    }
    if files.None? {
      return SERVER_ERROR;
    }
    var images := files.value;
    var imagesLinks: seq<ImageInput> := [];
    for i := 0 to |images|
      invariant imagesLinks == Uploaded(upload, images[..i])
    {
      var result := upload(images[i]);
      imagesLinks := imagesLinks + [ImageInput(Some(result.publicId), Some(result.url))];
    }
    assert images[..|images|] == images;
    var draft := RevisedDraft(quickSellProduct, imagesLinks, input);
    var saved := Validate(draft);
    if saved.None? {
      return SERVER_ERROR;
    }
    if OneActivePerUser(db.listings) {
      ReplacePreserves(db.listings, id, saved.value);
    }
    ValidatedIsWellFormed(draft);
    db.listings := db.listings[id := saved.value];
    code := OK;
  }

  /** `/delete-product/:id`.  404 for an unknown listing; an unknown caller
      fails with 500; 403 for a caller who does not own it; otherwise only
      that listing is removed. */
  method DeleteListing(db: Db, caller: Id, id: Id) returns (code: int)
    modifies db`listings
    ensures id !in old(db.listings) ==> code == NOT_FOUND && db.listings == old(db.listings)
    ensures id in old(db.listings) && caller !in db.users ==>
      code == SERVER_ERROR && db.listings == old(db.listings)
    ensures id in old(db.listings) && caller in db.users && old(db.listings)[id].user != caller ==>
      code == FORBIDDEN && db.listings == old(db.listings)
    ensures id in old(db.listings) && caller in db.users && old(db.listings)[id].user == caller ==>
      code == OK && db.listings == old(db.listings) - {id}
    ensures OneActivePerUser(old(db.listings)) ==> OneActivePerUser(db.listings)
    ensures AllWellFormed(old(db.listings)) ==> AllWellFormed(db.listings)
  {
    if id !in db.listings {
      return NOT_FOUND;
    }
    var quickSellProduct := db.listings[id];
    if caller !in db.users {
      return SERVER_ERROR;
    }
    if quickSellProduct.user != caller {
      return FORBIDDEN;
    }
    db.listings := db.listings - {id};
    code := OK;
  }
}
