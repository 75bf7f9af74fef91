/** The QuickSell listing schema (model/quickSell.js): a peer-to-peer
    listing with required fields, a `sold` flag that defaults to false and
    a creation time that defaults to "now".  Saving a document that misses
    a required field fails validation. */
module QuickSellSchema {
  import opened Common
  import opened Entities

  /** A stored, validated listing. */
  datatype QuickSell = QuickSell(
    user: Id,
    images: seq<Image>,
    name: string,
    price: int,
    category: string,
    condition: string,
    sold: bool,
    createdAt: int)

  /** An image entry as it stands in a document before validation. */
  datatype ImageInput = ImageInput(publicId: Option<string>, url: Option<string>)

  /** The fields a client supplies; any of them may be missing. */
  datatype ListingInput = ListingInput(
    images: seq<ImageInput>,
    name: Option<string>,
    price: Option<int>,
    category: Option<string>,
    condition: Option<string>)

  /** A document about to be saved. */
  datatype Draft = Draft(
    user: Id,
    images: seq<ImageInput>,
    name: Option<string>,
    price: Option<int>,
    category: Option<string>,
    condition: Option<string>,
    sold: bool,
    createdAt: int)

  /** Mongoose's `required` on a String rejects a missing value and the empty string. */
  predicate RequiredString(s: Option<string>)
  {
    s.Some? && s.value != ""
  }

  predicate ValidImage(img: ImageInput)
  {
    RequiredString(img.publicId) && RequiredString(img.url)
  }

  predicate IsValid(d: Draft)
  {
    && (forall i :: 0 <= i < |d.images| ==> ValidImage(d.images[i]))
    && RequiredString(d.name)
    && d.price.Some?
    && RequiredString(d.category)
    && RequiredString(d.condition)
  }

  function ToImages(imgs: seq<ImageInput>): (r: seq<Image>)
    requires forall i :: 0 <= i < |imgs| ==> ValidImage(imgs[i])
    ensures |r| == |imgs|
    ensures forall i :: 0 <= i < |r| ==>
      ValidImage(imgs[i]) && r[i] == Image(imgs[i].publicId.value, imgs[i].url.value)
  {
    if imgs == [] then []
    else
      assert ValidImage(imgs[0]);
      [Image(imgs[0].publicId.value, imgs[0].url.value)] + ToImages(imgs[1..])
  }

  /** Schema validation on save: the stored listing, or None when a
      required field is missing or empty. */
  function Validate(d: Draft): (r: Option<QuickSell>)
    ensures r.Some? <==> IsValid(d)
    ensures r.Some? ==>
      && r.value.user == d.user
      && r.value.sold == d.sold
      && r.value.createdAt == d.createdAt
      && Some(r.value.name) == d.name
      && Some(r.value.price) == d.price
      && Some(r.value.category) == d.category
      && Some(r.value.condition) == d.condition
      && |r.value.images| == |d.images|
      && (forall i :: 0 <= i < |d.images| ==>
            Some(r.value.images[i].publicId) == d.images[i].publicId
            && Some(r.value.images[i].url) == d.images[i].url)
  {
    if IsValid(d) then
      Some(QuickSell(d.user, ToImages(d.images), d.name.value, d.price.value,
                     d.category.value, d.condition.value, d.sold, d.createdAt))
    else
      None
  }

  /** `new QuickSell({...})`: the client's fields plus the schema defaults. */
  function NewDraft(user: Id, input: ListingInput, now: int): (d: Draft)
    ensures !d.sold && d.createdAt == now && d.user == user
  {
    Draft(user, input.images, input.name, input.price, input.category, input.condition, false, now)
  }

  /** The document a stored listing is loaded back as. */
  function DraftOf(q: QuickSell): (d: Draft)
  {
    Draft(q.user, seq(|q.images|, i requires 0 <= i < |q.images| =>
                        ImageInput(Some(q.images[i].publicId), Some(q.images[i].url))),
          Some(q.name), Some(q.price), Some(q.category), Some(q.condition), q.sold, q.createdAt)
  }

  /** A listing whose required strings are non-empty. */
  predicate WellFormed(q: QuickSell)
  {
    && (forall i :: 0 <= i < |q.images| ==> q.images[i].publicId != "" && q.images[i].url != "")
    && q.name != "" && q.category != "" && q.condition != ""
  }

  /** Saving a well-formed stored listing unchanged validates to itself. */
  lemma StoredListingRevalidates(q: QuickSell)
    requires WellFormed(q)
    ensures Validate(DraftOf(q)) == Some(q)
  {
    var r := Validate(DraftOf(q));
    assert r.Some?;
    assert r.value.images == q.images;
  }

  /** Every listing validation lets through is well formed. */
  lemma ValidatedIsWellFormed(d: Draft)
    requires IsValid(d)
    ensures Validate(d).Some? && WellFormed(Validate(d).value)
  {
    var q := Validate(d).value;
    forall i | 0 <= i < |q.images|
      ensures q.images[i].publicId != "" && q.images[i].url != ""
    {
      assert ValidImage(d.images[i]);
    }
  }
}
