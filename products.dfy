/** Product catalogue handlers (controller/product.js): creation with its
    colour variants and images, the key-copying update followed by a sort
    of the colour list, the stock update, deletion and the review upsert. */
module Products {
  import opened Common
  import opened Entities
  import opened Store

  // ---------------------------------------------------------------------
  // Creation
  // ---------------------------------------------------------------------

  /** A colour variant as the client sends it: the files to upload. */
  datatype ColorInput = ColorInput(color: string, stock: int, images: seq<string>, index: int)

  /** The body of `/create-product`; an absent colour list is empty. */
  datatype ProductInput = ProductInput(
    name: string,
    description: string,
    category: string,
    shopId: Id,
    originalPrice: int,
    discountPrice: int,
    stock: int,
    colorList: seq<ColorInput>)

  /** The images the image service returns for `files`, in order. */
  function UploadAll(upload: string -> Image, files: seq<string>): (r: seq<Image>)
    ensures |r| == |files|
    ensures forall i :: 0 <= i < |r| ==> r[i] == upload(files[i])
  {
    seq(|files|, i requires 0 <= i < |files| => upload(files[i]))
  }

  /** The stored variant: colour, stock and index kept, one image per file. */
  function BuildColorList(upload: string -> Image, cs: seq<ColorInput>): (r: seq<ColorEntry>)
    ensures |r| == |cs|
    ensures forall h :: 0 <= h < |r| ==>
      r[h] == ColorEntry(cs[h].color, cs[h].stock, UploadAll(upload, cs[h].images), cs[h].index)
  {
    seq(|cs|, h requires 0 <= h < |cs| =>
      ColorEntry(cs[h].color, cs[h].stock, UploadAll(upload, cs[h].images), cs[h].index))
  }

  /** The variants' images, one variant after the other. */
  function ImagesOfColors(es: seq<ColorEntry>): seq<Image>
  {
    if es == [] then [] else ImagesOfColors(es[..|es| - 1]) + es[|es| - 1].images
  }

  /** Number of files over all variants of a request. */
  function FileCount(cs: seq<ColorInput>): nat
  {
    if cs == [] then 0 else FileCount(cs[..|cs| - 1]) + |cs[|cs| - 1].images|
  }

  /** One product image per uploaded file. */
  lemma {:induction false} ImageCount(upload: string -> Image, cs: seq<ColorInput>)
    ensures |ImagesOfColors(BuildColorList(upload, cs))| == FileCount(cs)
  {
    if cs != [] {
      var built := BuildColorList(upload, cs);
      assert built[..|built| - 1] == BuildColorList(upload, cs[..|cs| - 1]);
      ImageCount(upload, cs[..|cs| - 1]);
    }
  }

  /** The product `/create-product` stores for a valid request. */
  function NewProduct(input: ProductInput, upload: string -> Image, now: int): (p: Product)
    ensures p.colorList == BuildColorList(upload, input.colorList)
    ensures p.images == if input.colorList == [] then [DEFAULT_IMAGE] else ImagesOfColors(p.colorList)
  {
    var colors := BuildColorList(upload, input.colorList);
    Product(input.name, input.description, input.category, input.shopId,
            input.originalPrice, input.discountPrice, input.stock, 0,
            colors, if input.colorList == [] then [DEFAULT_IMAGE] else ImagesOfColors(colors),
            [], Rating(0, 0), now)
  }

  /** `/create-product`.  A body rejected by the request validator, or one
      naming an unknown shop, is a 400 with nothing stored.  Otherwise every
      file of every variant is uploaded in turn; each upload goes both into
      its variant and into the product's image list. */
  method CreateProduct(db: Db, input: ProductInput, bodyValid: bool, upload: string -> Image, now: int)
    returns (code: int, id: Id)
    modifies db`products
    ensures !bodyValid ==> code == BAD_REQUEST && db.products == old(db.products)
    ensures bodyValid && input.shopId !in db.shops ==> code == BAD_REQUEST && db.products == old(db.products)
    ensures bodyValid && input.shopId in db.shops ==>
      code == CREATED && id !in old(db.products)
      && db.products == old(db.products)[id := NewProduct(input, upload, now)]
  {
    id := 0;
    if !bodyValid || input.shopId !in db.shops {
      return BAD_REQUEST, id;
    }
    var newColorListData: seq<ColorEntry> := [];
    var imagesLinks: seq<Image> := [];
    if |input.colorList| > 0 {
      for h := 0 to |input.colorList|
        invariant newColorListData == BuildColorList(upload, input.colorList[..h])
        invariant imagesLinks == ImagesOfColors(newColorListData)
      {
        var c := input.colorList[h];
        var colorImagesLinks: seq<Image> := [];
        for i := 0 to |c.images|
          invariant colorImagesLinks == UploadAll(upload, c.images[..i])
          invariant imagesLinks == ImagesOfColors(newColorListData) + colorImagesLinks
        {
          var result := upload(c.images[i]);
          imagesLinks := imagesLinks + [result];
          colorImagesLinks := colorImagesLinks + [result];
        }
        assert c.images[..|c.images|] == c.images;
        var entry := ColorEntry(c.color, c.stock, colorImagesLinks, c.index);
        assert (newColorListData + [entry])[..|newColorListData|] == newColorListData;
        newColorListData := newColorListData + [entry];
      }
      assert input.colorList[..|input.colorList|] == input.colorList;
    } else {
      imagesLinks := [DEFAULT_IMAGE];
    }
    FreshIdExists(db.products.Keys);
    id :| id !in db.products;
    var product := Product(input.name, input.description, input.category, input.shopId,
                           input.originalPrice, input.discountPrice, input.stock, 0,
                           newColorListData, imagesLinks, [], Rating(0, 0), now);
    db.products := db.products[id := product];
    code := CREATED;
  }

  // ---------------------------------------------------------------------
  // Update
  // ---------------------------------------------------------------------

  /** One key of the update body with its value.  `_id` and `createdAt` are
      refused by the handler; keys the product record does not have are
      dropped on save. */
  datatype FieldUpdate =
    | SetName(name: string)
    | SetDescription(description: string)
    | SetCategory(category: string)
    | SetShopId(shopId: Id)
    | SetOriginalPrice(originalPrice: int)
    | SetDiscountPrice(discountPrice: int)
    | SetStock(stock: int)
    | SetSoldOut(soldOut: int)
    | SetColorList(colorList: seq<ColorEntry>)
    | SetImages(images: seq<Image>)
    | SetReviews(reviews: seq<Review>)
    | SetRatings(ratings: Rating)
    | SetObjectId(objectId: Id)
    | SetCreatedAt(createdAt: int)
    | Unmodelled(key: string)

  /** The body key an update stands for. */
  function Key(u: FieldUpdate): string
  {
    match u
    case SetName(_) => "name"
    case SetDescription(_) => "description"
    case SetCategory(_) => "category"
    case SetShopId(_) => "shopId"
    case SetOriginalPrice(_) => "originalPrice"
    case SetDiscountPrice(_) => "discountPrice"
    case SetStock(_) => "stock"
    case SetSoldOut(_) => "sold_out"
    case SetColorList(_) => "colorList"
    case SetImages(_) => "images"
    case SetReviews(_) => "reviews"
    case SetRatings(_) => "ratings"
    case SetObjectId(_) => "_id"
    case SetCreatedAt(_) => "createdAt"
    case Unmodelled(k) => k
  }

  /** The keys the handler refuses to copy. */
  predicate IsProtected(u: FieldUpdate)
  {
    Key(u) == "_id" || Key(u) == "createdAt"
  }

  /** `product[key] = updateData[key]`. */
  function SetField(p: Product, u: FieldUpdate): Product
  {
    match u
    case SetName(v) => p.(name := v)
    case SetDescription(v) => p.(description := v)
    case SetCategory(v) => p.(category := v)
    case SetShopId(v) => p.(shopId := v)
    case SetOriginalPrice(v) => p.(originalPrice := v)
    case SetDiscountPrice(v) => p.(discountPrice := v)
    case SetStock(v) => p.(stock := v)
    case SetSoldOut(v) => p.(soldOut := v)
    case SetColorList(v) => p.(colorList := v)
    case SetImages(v) => p.(images := v)
    case SetReviews(v) => p.(reviews := v)
    case SetRatings(v) => p.(ratings := v)
    case SetObjectId(_) => p
    case SetCreatedAt(_) => p
    case Unmodelled(_) => p
  }

  /** The copy loop over the body's keys, in order. */
  function ApplyUpdates(p: Product, us: seq<FieldUpdate>): Product
  {
    if us == [] then p
    else
      var q := ApplyUpdates(p, us[..|us| - 1]);
      if IsProtected(us[|us| - 1]) then q else SetField(q, us[|us| - 1])
  }

  /** `p` carries the value `u` supplies (always true for a key the product
      does not take). */
  predicate Carries(p: Product, u: FieldUpdate)
  {
    match u
    case SetName(v) => p.name == v
    case SetDescription(v) => p.description == v
    case SetCategory(v) => p.category == v
    case SetShopId(v) => p.shopId == v
    case SetOriginalPrice(v) => p.originalPrice == v
    case SetDiscountPrice(v) => p.discountPrice == v
    case SetStock(v) => p.stock == v
    case SetSoldOut(v) => p.soldOut == v
    case SetColorList(v) => p.colorList == v
    case SetImages(v) => p.images == v
    case SetReviews(v) => p.reviews == v
    case SetRatings(v) => p.ratings == v
    case SetObjectId(_) => true
    case SetCreatedAt(_) => true
    case Unmodelled(_) => true
  }

  /** Setting one key leaves what another key carries. */
  lemma SetFieldOtherKey(p: Product, u: FieldUpdate, w: FieldUpdate)
    requires Key(u) != Key(w) && Carries(p, w)
    ensures Carries(SetField(p, u), w)
  {
  }

  /** A JSON body names every key at most once. */
  predicate DistinctKeys(us: seq<FieldUpdate>)
  {
    forall i, j :: 0 <= i < j < |us| ==> Key(us[i]) != Key(us[j])
  }

  /** Every supplied key is copied onto the product. */
  lemma {:induction false} UpdateCopiesEveryKey(p: Product, us: seq<FieldUpdate>)
    requires DistinctKeys(us)
    ensures forall i :: 0 <= i < |us| ==> Carries(ApplyUpdates(p, us), us[i])
  {
    if us != [] {
      var init, last := us[..|us| - 1], us[|us| - 1];
      assert DistinctKeys(init);
      UpdateCopiesEveryKey(p, init);
      var q := ApplyUpdates(p, init);
      forall i | 0 <= i < |us|
        ensures Carries(ApplyUpdates(p, us), us[i])
      {
        if i < |us| - 1 {
          assert us[i] == init[i];
          if !IsProtected(last) {
            SetFieldOtherKey(q, last, us[i]);
          }
        }
      }
    }
  }

  /** A key the body does not name keeps its value. */
  lemma {:induction false} UpdateLeavesOtherKeys(p: Product, us: seq<FieldUpdate>, w: FieldUpdate)
    requires Carries(p, w)
    requires forall i :: 0 <= i < |us| ==> Key(us[i]) != Key(w)
    ensures Carries(ApplyUpdates(p, us), w)
  {
    if us != [] {
      UpdateLeavesOtherKeys(p, us[..|us| - 1], w);
      if !IsProtected(us[|us| - 1]) {
        SetFieldOtherKey(ApplyUpdates(p, us[..|us| - 1]), us[|us| - 1], w);
      }
    }
  }

  /** The update never changes the creation time, even when the body names
      `createdAt`. */
  lemma {:induction false} UpdateKeepsCreatedAt(p: Product, us: seq<FieldUpdate>)
    ensures ApplyUpdates(p, us).createdAt == p.createdAt
  {
    if us != [] {
      UpdateKeepsCreatedAt(p, us[..|us| - 1]);
    }
  }

  /** Variants ordered by stock, largest first. */
  ghost predicate StockNonIncreasing(s: seq<ColorEntry>)
  {
    forall i, j :: 0 <= i < j < |s| ==> s[i].stock >= s[j].stock
  }

  /** `colorList.sort((a, b) => b.stock - a.stock)`, in place: insertion by
      adjacent swaps, which keeps equal stocks in their order. */
  method SortByStockDescending(a: array<ColorEntry>)
    modifies a
    ensures StockNonIncreasing(a[..])
    ensures multiset(a[..]) == multiset(old(a[..]))
  {
    var i := 0;
    while i < a.Length
      invariant 0 <= i <= a.Length
      invariant StockNonIncreasing(a[..i])
      invariant multiset(a[..]) == multiset(old(a[..]))
    {
      InsertByStock(a, i);
      i := i + 1;
    }
    assert a[..a.Length] == a[..];
  }

  /** Mid-insertion: the prefix up to `i` is ordered except around the
      moving entry at `j`, which is no smaller than anything after it. */
  ghost predicate Inserting(s: seq<ColorEntry>, i: nat, j: nat)
    requires j <= i < |s|
  {
    && (forall k, l :: 0 <= k < l <= i && k != j && l != j ==> s[k].stock >= s[l].stock)
    && (forall l :: j < l <= i ==> s[j].stock >= s[l].stock)
  }

  function Swap(s: seq<ColorEntry>, k: nat, l: nat): (t: seq<ColorEntry>)
    requires k < |s| && l < |s|
    ensures |t| == |s| && t[k] == s[l] && t[l] == s[k]
    ensures forall m :: 0 <= m < |s| && m != k && m != l ==> t[m] == s[m]
    ensures multiset(t) == multiset(s)
  {
    s[k := s[l]][l := s[k]]
  }

  /** Swapping the moving entry with a smaller left neighbour keeps the
      insertion state one place further left. */
  lemma SwapKeepsInserting(s: seq<ColorEntry>, i: nat, j: nat)
    requires 0 < j <= i < |s| && Inserting(s, i, j) && s[j - 1].stock < s[j].stock
    ensures Inserting(Swap(s, j - 1, j), i, j - 1)
  {
    var t := Swap(s, j - 1, j);
    forall k, l | 0 <= k < l <= i && k != j - 1 && l != j - 1
      ensures t[k].stock >= t[l].stock
    {
      if k == j {
        assert t[k] == s[j - 1];
      } else if l == j {
        assert t[l] == s[j - 1];
        assert k < j - 1 && s[k].stock >= s[j - 1].stock;
      }
    }
  }

  /** The insertion is over when the moving entry reached the front or its
      left neighbour is no smaller. */
  lemma InsertingDone(s: seq<ColorEntry>, i: nat, j: nat)
    requires j <= i < |s| && Inserting(s, i, j)
    requires j == 0 || s[j - 1].stock >= s[j].stock
    ensures StockNonIncreasing(s[..i + 1])
  {
    var t := s[..i + 1];
    forall k, l | 0 <= k < l < |t|
      ensures t[k].stock >= t[l].stock
    {
      if l == j {
        assert s[k].stock >= s[j - 1].stock;
      }
    }
  }

  /** Moves `a[i]` left past every smaller stock, so the prefix up to `i`
      stays ordered. */
  method InsertByStock(a: array<ColorEntry>, i: nat)
    requires i < a.Length
    requires StockNonIncreasing(a[..i])
    modifies a
    ensures StockNonIncreasing(a[..i + 1])
    ensures multiset(a[..]) == multiset(old(a[..]))
  {
    var j := i;
    assert Inserting(a[..], i, j);
    while j > 0 && a[j - 1].stock < a[j].stock
      invariant 0 <= j <= i
      invariant Inserting(a[..], i, j)
      invariant multiset(a[..]) == multiset(old(a[..]))
    {
      ghost var s := a[..];
      a[j - 1], a[j] := a[j], a[j - 1];
      assert a[..] == Swap(s, j - 1, j);
      SwapKeepsInserting(s, i, j);
      j := j - 1;
    }
    InsertingDone(a[..], i, j);
  }

  /** `/update-product/:id`.  404 for an unknown product.  Otherwise every
      supplied key but `_id` and `createdAt` is copied onto the product, in
      body order, and the colour list is then sorted by stock, largest first. */
  method UpdateProduct(db: Db, productId: Id, updates: seq<FieldUpdate>) returns (code: int)
    modifies db`products
    ensures productId !in old(db.products) ==> code == NOT_FOUND && db.products == old(db.products)
    ensures productId in old(db.products) ==>
      var updated := ApplyUpdates(old(db.products)[productId], updates);
      && code == OK && productId in db.products
      && db.products == old(db.products)[productId := updated.(colorList := db.products[productId].colorList)]
      && StockNonIncreasing(db.products[productId].colorList)
      && multiset(db.products[productId].colorList) == multiset(updated.colorList)
  {
    if productId !in db.products {
      return NOT_FOUND;
    }
    var product := db.products[productId];
    for k := 0 to |updates|
      invariant product == ApplyUpdates(old(db.products)[productId], updates[..k])
    {
      assert updates[..k + 1][..k] == updates[..k];
      if !IsProtected(updates[k]) {
        product := SetField(product, updates[k]);
      }
    }
    assert updates[..|updates|] == updates;
    var colors := new ColorEntry[|product.colorList|](i requires 0 <= i < |product.colorList| => product.colorList[i]);
    assert colors[..] == product.colorList;
    SortByStockDescending(colors);
    product := product.(colorList := colors[..]);
    db.products := db.products[productId := product];
    code := OK;
  }

  // ---------------------------------------------------------------------
  // Stock and deletion
  // ---------------------------------------------------------------------

  /** The `stock` of the request body. */
  datatype StockInput = Missing | NotANumber | Number(value: int)

  /** The handler's guard: defined, a number, not negative. */
  predicate ValidStock(s: StockInput)
  {
    s.Number? && s.value >= 0
  }

  /** `/update-product-stock/:id`.  An invalid stock is a 400 before any
      lookup; an unknown product is a 404; otherwise only `stock` changes. */
  method UpdateProductStock(db: Db, productId: Id, stock: StockInput) returns (code: int)
    modifies db`products
    ensures !ValidStock(stock) ==> code == BAD_REQUEST && db.products == old(db.products)
    ensures ValidStock(stock) && productId !in old(db.products) ==>
      code == NOT_FOUND && db.products == old(db.products)
    ensures ValidStock(stock) && productId in old(db.products) ==>
      code == OK && db.products == old(db.products)[productId := old(db.products)[productId].(stock := stock.value)]
  {
    if stock.Missing? || stock.NotANumber? || stock.value < 0 {
      return BAD_REQUEST;
    }
    if productId !in db.products {
      return NOT_FOUND;
    }
    var product := db.products[productId];
    product := product.(stock := stock.value);
    db.products := db.products[productId := product];
    code := OK;
  }

  /** `/delete-shop-product/:id`.  404 for an unknown product; otherwise
      exactly that product is removed (the handler answers 201). */
  method DeleteProduct(db: Db, productId: Id) returns (code: int)
    modifies db`products
    ensures productId !in old(db.products) ==> code == NOT_FOUND && db.products == old(db.products)
    ensures productId in old(db.products) ==> code == CREATED && db.products == old(db.products) - {productId}
  {
    if productId !in db.products {
      return NOT_FOUND;
    }
    db.products := db.products - {productId};
    code := CREATED;
  }

  // ---------------------------------------------------------------------
  // Reviews
  // ---------------------------------------------------------------------

  /** Whether `caller` has already reviewed: `reviews.find(...)`. */
  predicate HasReviewBy(reviews: seq<Review>, caller: Id)
  {
    exists i :: 0 <= i < |reviews| && reviews[i].user == caller
  }

  /** A review of `caller` rewritten with the new rating, comment and user. */
  function Rewritten(rev: Review, caller: Id, review: Review): Review
  {
    if rev.user == caller then rev.(rating := review.rating, comment := review.comment, user := review.user) else rev
  }

  /** Reference definition of the review upsert: rewrite every review of
      `caller` when there is one, else append the new review. */
  function Upsert(reviews: seq<Review>, caller: Id, review: Review): seq<Review>
  {
    if HasReviewBy(reviews, caller) then
      seq(|reviews|, i requires 0 <= i < |reviews| => Rewritten(reviews[i], caller, review))
    else
      reviews + [review]
  }

  /** The review count grows by one exactly when the caller had none. */
  lemma UpsertCount(reviews: seq<Review>, caller: Id, review: Review)
    ensures |Upsert(reviews, caller, review)| == |reviews| + (if HasReviewBy(reviews, caller) then 0 else 1)
  {
  }

  /** After the upsert the new rating and comment stand under the new
      user, and every review by someone else is kept in place. */
  lemma UpsertRecords(reviews: seq<Review>, caller: Id, review: Review)
    ensures var r := Upsert(reviews, caller, review);
      exists i :: 0 <= i < |r| && r[i].user == review.user && r[i].rating == review.rating && r[i].comment == review.comment
    ensures forall i :: 0 <= i < |reviews| && reviews[i].user != caller ==>
      Upsert(reviews, caller, review)[i] == reviews[i]
  {
    var r := Upsert(reviews, caller, review);
    if HasReviewBy(reviews, caller) {
      var i :| 0 <= i < |reviews| && reviews[i].user == caller;
      assert r[i].user == review.user;
    } else {
      assert r[|reviews|] == review;
    }
  }

  /** Reviewing twice as the same user with the same review is reviewing once. */
  lemma UpsertIdempotent(reviews: seq<Review>, caller: Id, review: Review)
    requires review.user == caller
    ensures Upsert(Upsert(reviews, caller, review), caller, review) == Upsert(reviews, caller, review)
  {
    var once := Upsert(reviews, caller, review);
    if HasReviewBy(reviews, caller) {
      var i :| 0 <= i < |reviews| && reviews[i].user == caller;
      assert once[i].user == caller;
    } else {
      assert once[|reviews|].user == caller;
    }
    var twice := Upsert(once, caller, review);
    assert |twice| == |once|;
    forall i | 0 <= i < |once|
      ensures twice[i] == once[i]
    {
    }
  }

  /** Sum of the review ratings, the numerator of the average. */
  function SumRatings(reviews: seq<Review>): int
  {
    if reviews == [] then 0 else SumRatings(reviews[..|reviews| - 1]) + reviews[|reviews| - 1].rating
  }

  /** `cart.$[elem].isReviewed = true` for every line of the product. */
  function MarkReviewed(o: Order, productId: Id): (r: Order)
    ensures r == o.(cart := r.cart) && |r.cart| == |o.cart|
    ensures forall i :: 0 <= i < |r.cart| ==>
      r.cart[i] == if o.cart[i].productId == productId then o.cart[i].(isReviewed := true) else o.cart[i]
  {
    o.(cart := seq(|o.cart|, i requires 0 <= i < |o.cart| =>
      if o.cart[i].productId == productId then o.cart[i].(isReviewed := true) else o.cart[i]))
  }

  /** `/create-new-review` by the signed-in `caller` with body user
      `reviewer`.  An unknown product fails (400) with nothing changed.
      Otherwise the review is upserted, the rating becomes the mean over
      all reviews, and the product's lines in order `orderId`, when that
      order exists, are marked reviewed. */
  method CreateReview(db: Db, caller: Id, reviewer: Id, rating: int, comment: string,
                      productId: Id, orderId: Id) returns (code: int)
    modifies db`products, db`orders
    ensures productId !in old(db.products) ==>
      code == BAD_REQUEST && db.products == old(db.products) && db.orders == old(db.orders)
    ensures productId in old(db.products) ==>
      var p := old(db.products)[productId];
      var reviews := Upsert(p.reviews, caller, Review(reviewer, rating, comment, productId));
      && code == OK
      && db.products == old(db.products)[productId := p.(reviews := reviews, ratings := Rating(SumRatings(reviews), |reviews|))]
      && db.orders == if orderId in old(db.orders)
                      then old(db.orders)[orderId := MarkReviewed(old(db.orders)[orderId], productId)]
                      else old(db.orders)
  {
    if productId !in db.products {
      return BAD_REQUEST;
    }
    var product := db.products[productId];
    var review := Review(reviewer, rating, comment, productId);
    var reviews := product.reviews;
    if HasReviewBy(reviews, caller) {
      var i := 0;
      while i < |reviews|
        invariant 0 <= i <= |reviews| == |product.reviews|
        invariant forall j :: 0 <= j < i ==> reviews[j] == Rewritten(product.reviews[j], caller, review)
        invariant forall j :: i <= j < |reviews| ==> reviews[j] == product.reviews[j]
      {
        if reviews[i].user == caller {
          reviews := reviews[i := reviews[i].(rating := rating, comment := comment, user := reviewer)];
        }
        i := i + 1;
      }
      assert reviews == Upsert(product.reviews, caller, review);
    } else {
      reviews := reviews + [review];
    }
    var avg := 0;
    for i := 0 to |reviews|
      invariant avg == SumRatings(reviews[..i])
    {
      assert reviews[..i + 1][..i] == reviews[..i];
      avg := avg + reviews[i].rating;
    }
    assert reviews[..|reviews|] == reviews;
    product := product.(reviews := reviews, ratings := Rating(avg, |reviews|));
    db.products := db.products[productId := product];
    if orderId in db.orders {
      db.orders := db.orders[orderId := MarkReviewed(db.orders[orderId], productId)];
    }
    code := OK;
  }
}
