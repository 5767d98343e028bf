/** src/stores/vendorStore.ts: the vendor directory and its reviews.

    A vendor's `rating` and `total_reviews` are derived data: every review
    added or deleted recomputes them for the reviewed vendor from all of its
    reviews (the mean rounded to one decimal, and the count). Ratings are
    reals; the rounding of `Math.round(avg * 10) / 10` is exact here. */
module VendorStore {
  import opened Optional
  import opened Arrays
  import opened Storage

  const VendorsKey := "atmos_vendors"
  const ReviewsKey := "atmos_vendor_reviews"

  datatype VendorCategory = Accommodation | Transport | Catering | Equipment | Venue | Other
  datatype PriceRange = Budget | Moderate | Premium

  datatype Vendor = Vendor(
    id: string,
    name: string,
    category: VendorCategory,
    description: Option<string>,
    contactName: Option<string>,
    contactPhone: Option<string>,
    contactEmail: Option<string>,
    address: Option<string>,
    rating: real,
    totalReviews: int,
    priceRange: Option<PriceRange>,
    createdAt: int)

  /** `Omit<Vendor, 'id' | 'created_at'>`, as addVendor takes it; its
      `rating` and `total_reviews` are overridden. */
  datatype VendorDraft = VendorDraft(
    name: string,
    category: VendorCategory,
    description: Option<string>,
    contactName: Option<string>,
    contactPhone: Option<string>,
    contactEmail: Option<string>,
    address: Option<string>,
    rating: real,
    totalReviews: int,
    priceRange: Option<PriceRange>)

  /** `Partial<Vendor>`, as updateVendor takes it. */
  datatype VendorPatch = VendorPatch(
    id: Patch<string>,
    name: Patch<string>,
    category: Patch<VendorCategory>,
    description: Patch<Option<string>>,
    contactName: Patch<Option<string>>,
    contactPhone: Patch<Option<string>>,
    contactEmail: Patch<Option<string>>,
    address: Patch<Option<string>>,
    rating: Patch<real>,
    totalReviews: Patch<int>,
    priceRange: Patch<Option<PriceRange>>,
    createdAt: Patch<int>)

  datatype VendorReview = VendorReview(
    id: string,
    vendorId: string,
    bookingId: string,
    userId: string,
    rating: int,
    review: Option<string>,
    createdAt: int)

  // ---------------------------------------------------------------------
  // Ratings
  // ---------------------------------------------------------------------

  function ReviewOf(vendorId: string): VendorReview -> bool {
    (r: VendorReview) => r.vendorId == vendorId
  }

  function ReviewNotOf(vendorId: string): VendorReview -> bool {
    (r: VendorReview) => r.vendorId != vendorId
  }

  function SumRatings(reviews: seq<VendorReview>): int {
    if reviews == [] then 0 else reviews[0].rating + SumRatings(reviews[1..])
  }

  /** The mean rating, 0 for no reviews. */
  function Mean(reviews: seq<VendorReview>): (r: real)
    ensures |reviews| == 0 ==> r == 0.0
    ensures |reviews| > 0 ==> r * (|reviews| as real) == SumRatings(reviews) as real
  {
    if |reviews| > 0 then
      var s, n := SumRatings(reviews) as real, |reviews| as real;
      assert (s / n) * n == s;
      s / n
    else 0.0
  }

  /** `Math.round(x * 10) / 10`: to the nearest tenth, halves rounded up. */
  function RoundTenth(x: real): (r: real)
    ensures x - 0.05 < r <= x + 0.05
    ensures (r * 10.0).Floor as real == r * 10.0
  {
    ((x * 10.0 + 0.5).Floor as real) / 10.0
  }

  /** Rounding keeps a value inside whole-number bounds such as 1 to 5. */
  lemma RoundTenthWithin(x: real, lo: int, hi: int)
    requires lo as real <= x <= hi as real
    ensures lo as real <= RoundTenth(x) <= hi as real
  {
    var y := x * 10.0 + 0.5;
    var k := y.Floor;
    assert k as real <= y < k as real + 1.0;
    assert (lo * 10) as real <= y < (hi * 10 + 1) as real;
    assert lo * 10 <= k <= hi * 10;
    assert RoundTenth(x) == k as real / 10.0;
  }

  /** The star range of a review. */
  const MinRating := 1
  const MaxRating := 5

  predicate InStarRange(reviews: seq<VendorReview>) {
    forall r :: r in reviews ==> MinRating <= r.rating <= MaxRating
  }

  lemma {:induction false} SumRatingsWithin(reviews: seq<VendorReview>)
    requires InStarRange(reviews)
    ensures MinRating * |reviews| <= SumRatings(reviews) <= MaxRating * |reviews|
  {
    if reviews != [] {
      assert reviews[0] in reviews;
      assert forall r :: r in reviews[1..] ==> r in reviews;
      SumRatingsWithin(reviews[1..]);
    }
  }

  /** `lo * n <= s <= hi * n` gives `lo <= s / n <= hi` for positive `n`. */
  lemma DivideBounds(s: real, n: real, lo: real, hi: real)
    requires n > 0.0 && lo * n <= s <= hi * n
    ensures lo <= s / n <= hi
  {
  }

  /** With every rating in the star range, the mean and the rounded rating
      stay in it too. */
  lemma MeanWithin(reviews: seq<VendorReview>)
    requires |reviews| > 0 && InStarRange(reviews)
    ensures MinRating as real <= Mean(reviews) <= MaxRating as real
    ensures MinRating as real <= RoundTenth(Mean(reviews)) <= MaxRating as real
  {
    SumRatingsWithin(reviews);
    DivideBounds(SumRatings(reviews) as real, |reviews| as real, MinRating as real, MaxRating as real);
    RoundTenthWithin(Mean(reviews), MinRating, MaxRating);
  }

  /** A vendor's stored rating and count agree with the reviews. */
  ghost predicate VendorRated(v: Vendor, reviews: seq<VendorReview>) {
    var mine := Filter(reviews, ReviewOf(v.id));
    v.totalReviews == |mine| && v.rating == RoundTenth(Mean(mine))
  }

  ghost predicate RatingsConsistent(vendors: seq<Vendor>, reviews: seq<VendorReview>) {
    forall v :: v in vendors ==> VendorRated(v, reviews)
  }

  function VendorIs(id: string): Vendor -> bool {
    (v: Vendor) => v.id == id
  }

  function VendorIsNot(id: string): Vendor -> bool {
    (v: Vendor) => v.id != id
  }

  /** addReview's and deleteReview's map: the vendors with that id get the
      rating and count of its reviews in `reviews`; nothing else changes. */
  function Rerated(vendors: seq<Vendor>, vendorId: string, reviews: seq<VendorReview>): (r: seq<Vendor>)
    ensures |r| == |vendors|
    ensures forall i :: 0 <= i < |vendors| && vendors[i].id != vendorId ==> r[i] == vendors[i]
    ensures forall i :: 0 <= i < |vendors| ==>
              r[i].(rating := vendors[i].rating, totalReviews := vendors[i].totalReviews) == vendors[i]
    ensures forall i :: 0 <= i < |vendors| && vendors[i].id == vendorId ==> VendorRated(r[i], reviews)
  {
    var mine := Filter(reviews, ReviewOf(vendorId));
    MapIf(vendors, VendorIs(vendorId),
          (v: Vendor) => v.(rating := RoundTenth(Mean(mine)), totalReviews := |mine|))
  }

  /** Re-rating one vendor after a change that touched only its reviews
      keeps every vendor consistent. */
  lemma ReratedConsistent(vendors: seq<Vendor>, vendorId: string, before: seq<VendorReview>, after: seq<VendorReview>)
    requires RatingsConsistent(vendors, before)
    requires forall v :: v in vendors && v.id != vendorId ==>
               Filter(after, ReviewOf(v.id)) == Filter(before, ReviewOf(v.id))
    ensures RatingsConsistent(Rerated(vendors, vendorId, after), after)
  {
    var r := Rerated(vendors, vendorId, after);
    forall w | w in r ensures VendorRated(w, after) {
      var i :| 0 <= i < |r| && r[i] == w;
      assert vendors[i] in vendors;
    }
  }

  // ---------------------------------------------------------------------
  // Vendors and reviews
  // ---------------------------------------------------------------------

  /** addVendor's record: the draft's rating and count are replaced by 0. */
  function NewVendor(d: VendorDraft, freshId: string, now: int): (v: Vendor)
    ensures v.rating == 0.0 && v.totalReviews == 0
  {
    Vendor(freshId, d.name, d.category, d.description, d.contactName, d.contactPhone, d.contactEmail,
           d.address, 0.0, 0, d.priceRange, now)
  }

  function PatchedVendor(v: Vendor, p: VendorPatch): Vendor {
    Vendor(Apply(p.id, v.id), Apply(p.name, v.name), Apply(p.category, v.category),
           Apply(p.description, v.description), Apply(p.contactName, v.contactName),
           Apply(p.contactPhone, v.contactPhone), Apply(p.contactEmail, v.contactEmail),
           Apply(p.address, v.address), Apply(p.rating, v.rating), Apply(p.totalReviews, v.totalReviews),
           Apply(p.priceRange, v.priceRange), Apply(p.createdAt, v.createdAt))
  }

  /** updateVendor's map. */
  function VendorsUpdated(vendors: seq<Vendor>, id: string, p: VendorPatch): (r: seq<Vendor>)
    ensures |r| == |vendors|
    ensures forall i :: 0 <= i < |vendors| && vendors[i].id != id ==> r[i] == vendors[i]
    ensures forall i :: 0 <= i < |vendors| && vendors[i].id == id ==> r[i] == PatchedVendor(vendors[i], p)
  {
    MapIf(vendors, VendorIs(id), (v: Vendor) => PatchedVendor(v, p))
  }

  /** An update that leaves `id`, `rating` and `total_reviews` alone keeps
      the ratings consistent (an update that sets them need not). */
  lemma UpdateVendorKeepsRatings(vendors: seq<Vendor>, reviews: seq<VendorReview>, id: string, p: VendorPatch)
    requires RatingsConsistent(vendors, reviews)
    requires p.id == Keep && p.rating == Keep && p.totalReviews == Keep
    ensures RatingsConsistent(VendorsUpdated(vendors, id, p), reviews)
  {
    var r := VendorsUpdated(vendors, id, p);
    forall w | w in r ensures VendorRated(w, reviews) {
      var i :| 0 <= i < |r| && r[i] == w;
      assert vendors[i] in vendors;
    }
  }

  /** A new vendor under an id no review names is consistent: 0 reviews,
      rating 0. */
  lemma AddVendorKeepsRatings(vendors: seq<Vendor>, reviews: seq<VendorReview>, d: VendorDraft, freshId: string, now: int)
    requires RatingsConsistent(vendors, reviews)
    requires forall r :: r in reviews ==> r.vendorId != freshId
    ensures RatingsConsistent(vendors + [NewVendor(d, freshId, now)], reviews)
  {
    FilterKeepsNone(reviews, ReviewOf(freshId));
  }

  datatype Directory = Directory(vendors: seq<Vendor>, reviews: seq<VendorReview>)

  /** deleteVendor's cascade: the vendor and all its reviews go. */
  function VendorDeleted(dir: Directory, id: string): (r: Directory)
    ensures forall v :: v in r.vendors <==> v in dir.vendors && v.id != id
    ensures forall x :: x in r.reviews <==> x in dir.reviews && x.vendorId != id
    ensures forall v :: multiset(r.vendors)[v] == if v.id != id then multiset(dir.vendors)[v] else 0
    ensures forall x :: multiset(r.reviews)[x] == if x.vendorId != id then multiset(dir.reviews)[x] else 0
  {
    FilterMultiset(dir.vendors, VendorIsNot(id));
    FilterMultiset(dir.reviews, ReviewNotOf(id));
    Directory(Filter(dir.vendors, VendorIsNot(id)), Filter(dir.reviews, ReviewNotOf(id)))
  }

  lemma DeleteVendorKeepsRatings(dir: Directory, id: string)
    requires RatingsConsistent(dir.vendors, dir.reviews)
    ensures var r := VendorDeleted(dir, id); RatingsConsistent(r.vendors, r.reviews)
  {
    var r := VendorDeleted(dir, id);
    forall v | v in r.vendors ensures VendorRated(v, r.reviews) {
      FilterFilter(dir.reviews, ReviewNotOf(id), ReviewOf(v.id));
    }
  }

  function NewReview(vendorId: string, bookingId: string, userId: string, rating: int, text: Option<string>,
                     freshId: string, now: int): VendorReview {
    VendorReview(freshId, vendorId, bookingId, userId, rating, text, now)
  }

  /** addReview: append the review, re-rate its vendor. */
  function ReviewAdded(dir: Directory, review: VendorReview): (r: Directory)
    ensures r.reviews == dir.reviews + [review]
    ensures r.vendors == Rerated(dir.vendors, review.vendorId, r.reviews)
    ensures forall v :: v in r.vendors && v.id == review.vendorId ==> VendorRated(v, r.reviews)
  {
    var reviews := dir.reviews + [review];
    Directory(Rerated(dir.vendors, review.vendorId, reviews), reviews)
  }

  lemma AddReviewKeepsRatings(dir: Directory, review: VendorReview)
    requires RatingsConsistent(dir.vendors, dir.reviews)
    ensures var r := ReviewAdded(dir, review); RatingsConsistent(r.vendors, r.reviews)
  {
    forall v | v in dir.vendors && v.id != review.vendorId
      ensures Filter(dir.reviews + [review], ReviewOf(v.id)) == Filter(dir.reviews, ReviewOf(v.id))
    {
      FilterOutAppended(Filter(dir.reviews, ReviewOf(v.id)), review, ReviewOf(v.id));
      FilterAppend(dir.reviews, [review], ReviewOf(v.id));
      assert Filter([review], ReviewOf(v.id)) == [];
      assert Filter(dir.reviews, ReviewOf(v.id)) + [] == Filter(dir.reviews, ReviewOf(v.id));
    }
    ReratedConsistent(dir.vendors, review.vendorId, dir.reviews, dir.reviews + [review]);
  }

  function ReviewIs(id: string): VendorReview -> bool {
    (r: VendorReview) => r.id == id
  }

  function ReviewIsNot(id: string): VendorReview -> bool {
    (r: VendorReview) => r.id != id
  }

  /** deleteReview: an unknown id changes nothing; otherwise every review
      with that id goes and the first one's vendor is re-rated. */
  function ReviewDeleted(dir: Directory, reviewId: string): (r: Directory)
    ensures Find(dir.reviews, ReviewIs(reviewId)).None? ==> r == dir
    ensures forall x :: x in r.reviews <==> x in dir.reviews && x.id != reviewId
    ensures forall x :: multiset(r.reviews)[x] == if x.id != reviewId then multiset(dir.reviews)[x] else 0
    ensures match Find(dir.reviews, ReviewIs(reviewId))
            case None => true
            case Some(gone) => forall v :: v in r.vendors && v.id == gone.vendorId ==> VendorRated(v, r.reviews)
    ensures match Find(dir.reviews, ReviewIs(reviewId))
            case None => true
            case Some(gone) => r.vendors == Rerated(dir.vendors, gone.vendorId, r.reviews)
  {
    FilterMultiset(dir.reviews, ReviewIsNot(reviewId));
    match Find(dir.reviews, ReviewIs(reviewId))
    case None =>
      FilterKeepsAll(dir.reviews, ReviewIsNot(reviewId));
      dir
    case Some(gone) =>
      var reviews := Filter(dir.reviews, ReviewIsNot(reviewId));
      Directory(Rerated(dir.vendors, gone.vendorId, reviews), reviews)
  }

  /** All reviews carrying the id belong to one vendor (true when review
      ids are unique). */
  ghost predicate IdOnOneVendor(reviews: seq<VendorReview>, reviewId: string) {
    forall x, y :: x in reviews && y in reviews && x.id == reviewId && y.id == reviewId ==> x.vendorId == y.vendorId
  }

  lemma DeleteReviewKeepsRatings(dir: Directory, reviewId: string)
    requires RatingsConsistent(dir.vendors, dir.reviews)
    requires IdOnOneVendor(dir.reviews, reviewId)
    ensures var r := ReviewDeleted(dir, reviewId); RatingsConsistent(r.vendors, r.reviews)
  {
    match Find(dir.reviews, ReviewIs(reviewId))
    case None =>
    case Some(gone) =>
      var reviews := Filter(dir.reviews, ReviewIsNot(reviewId));
      forall v | v in dir.vendors && v.id != gone.vendorId
        ensures Filter(reviews, ReviewOf(v.id)) == Filter(dir.reviews, ReviewOf(v.id))
      {
        FilterFilter(dir.reviews, ReviewIsNot(reviewId), ReviewOf(v.id));
      }
      ReratedConsistent(dir.vendors, gone.vendorId, dir.reviews, reviews);
  }

  /** A review appended under a fresh id is the first with that id, and
      filtering that id out again gives back the earlier reviews. */
  lemma AppendedReviewComesOut(reviews: seq<VendorReview>, review: VendorReview)
    requires forall x :: x in reviews ==> x.id != review.id
    ensures Find(reviews + [review], ReviewIs(review.id)) == Some(review)
    ensures Filter(reviews + [review], ReviewIsNot(review.id)) == reviews
  {
    FindAppend(reviews, [review], ReviewIs(review.id));
    FilterKeepsNone(reviews, ReviewIs(review.id));
    assert Find(reviews, ReviewIs(review.id)) == None;
    assert Find([review], ReviewIs(review.id)) == Some(review);
    FilterOutAppended(reviews, review, ReviewIsNot(review.id));
  }

  /** Deleting a review just added under a fresh id restores a consistent
      directory exactly. */
  lemma AddThenDeleteReview(dir: Directory, review: VendorReview)
    requires RatingsConsistent(dir.vendors, dir.reviews)
    requires forall x :: x in dir.reviews ==> x.id != review.id
    ensures ReviewDeleted(ReviewAdded(dir, review), review.id) == dir
  {
    var added := ReviewAdded(dir, review);
    AppendedReviewComesOut(dir.reviews, review);
    var r := Rerated(added.vendors, review.vendorId, dir.reviews);
    assert ReviewDeleted(added, review.id) == Directory(r, dir.reviews);
    forall i | 0 <= i < |dir.vendors| ensures r[i] == dir.vendors[i] {
      assert dir.vendors[i] in dir.vendors;
    }
  }


  /** getAverageRating: the unrounded mean of the vendor's reviews; under
      the invariant a vendor's stored rating is within 0.05 of it. */
  function AverageRating(reviews: seq<VendorReview>, vendorId: string): (r: real)
    ensures Filter(reviews, ReviewOf(vendorId)) == [] ==> r == 0.0
    ensures var mine := Filter(reviews, ReviewOf(vendorId));
            mine != [] ==> r * (|mine| as real) == SumRatings(mine) as real
  {
    Mean(Filter(reviews, ReviewOf(vendorId)))
  }

  lemma StoredRatingNearAverage(vendors: seq<Vendor>, reviews: seq<VendorReview>, v: Vendor)
    requires RatingsConsistent(vendors, reviews) && v in vendors
    ensures AverageRating(reviews, v.id) - 0.05 < v.rating <= AverageRating(reviews, v.id) + 0.05
    ensures v.totalReviews == 0 <==> AverageRating(reviews, v.id) == 0.0 && Filter(reviews, ReviewOf(v.id)) == []
  {
    assert VendorRated(v, reviews);
    var mine := Filter(reviews, ReviewOf(v.id));
    if |mine| > 0 {
      assert mine[0] in mine;
    }
  }

  function InCategory(category: VendorCategory): Vendor -> bool {
    (v: Vendor) => v.category == category
  }

  // ---------------------------------------------------------------------
  // The store
  // ---------------------------------------------------------------------

  class VendorState {
    var vendors: seq<Vendor>
    var reviews: seq<VendorReview>
    var vendorStore: Store<Vendor>
    var reviewStore: Store<VendorReview>

    ghost predicate Synced() reads this {
      Load(vendorStore, VendorsKey) == vendors && Load(reviewStore, ReviewsKey) == reviews
    }

    /** Every vendor's rating and count agree with the reviews. */
    ghost predicate Rated() reads this {
      RatingsConsistent(vendors, reviews)
    }

    constructor (vendorStore0: Store<Vendor>, reviewStore0: Store<VendorReview>)
      ensures vendorStore == vendorStore0 && reviewStore == reviewStore0 && Synced()
    {
      vendorStore, reviewStore := vendorStore0, reviewStore0;
      vendors := Load(vendorStore0, VendorsKey);
      reviews := Load(reviewStore0, ReviewsKey);
    }

    method SetVendors(newVendors: seq<Vendor>)
      modifies this`vendors, this`vendorStore
      ensures vendors == newVendors && vendorStore == Save(old(vendorStore), VendorsKey, newVendors)
      ensures old(Synced()) ==> Synced()
    {
      vendors := newVendors;
      vendorStore := Save(vendorStore, VendorsKey, newVendors);
    }

    method AddVendor(d: VendorDraft, freshId: string, now: int) returns (vendor: Vendor)
      modifies this`vendors, this`vendorStore
      ensures vendor == NewVendor(d, freshId, now)
      ensures vendors == old(vendors) + [vendor] && vendorStore == Save(old(vendorStore), VendorsKey, vendors)
      ensures old(Synced()) ==> Synced()
      ensures old(Rated()) && (forall r :: r in reviews ==> r.vendorId != freshId) ==> Rated()
    {
      vendor := NewVendor(d, freshId, now);
      if Rated() && (forall r :: r in reviews ==> r.vendorId != freshId) {
        AddVendorKeepsRatings(vendors, reviews, d, freshId, now);
      }
      vendors := vendors + [vendor];
      vendorStore := Save(vendorStore, VendorsKey, vendors);
    }

    method UpdateVendor(id: string, p: VendorPatch)
      modifies this`vendors, this`vendorStore
      ensures vendors == VendorsUpdated(old(vendors), id, p)
      ensures vendorStore == Save(old(vendorStore), VendorsKey, vendors)
      ensures old(Synced()) ==> Synced()
      ensures old(Rated()) && p.id == Keep && p.rating == Keep && p.totalReviews == Keep ==> Rated()
    {
      if Rated() && p.id == Keep && p.rating == Keep && p.totalReviews == Keep {
        UpdateVendorKeepsRatings(vendors, reviews, id, p);
      }
      vendors := VendorsUpdated(vendors, id, p);
      vendorStore := Save(vendorStore, VendorsKey, vendors);
    }

    method DeleteVendor(id: string)
      modifies this
      ensures Directory(vendors, reviews) == VendorDeleted(old(Directory(vendors, reviews)), id)
      ensures vendorStore == Save(old(vendorStore), VendorsKey, vendors)
      ensures reviewStore == Save(old(reviewStore), ReviewsKey, reviews)
      ensures Synced()
      ensures old(Rated()) ==> Rated()
    {
      var dir := Directory(vendors, reviews);
      if Rated() {
        DeleteVendorKeepsRatings(dir, id);
      }
      var r := VendorDeleted(dir, id);
      vendors, reviews := r.vendors, r.reviews;
      vendorStore := Save(vendorStore, VendorsKey, vendors);
      reviewStore := Save(reviewStore, ReviewsKey, reviews);
    }

    /** `getVendorsByCategory`: exactly the vendors of the category. */
    function VendorsByCategory(category: VendorCategory): (r: seq<Vendor>) reads this
      ensures forall v :: v in r <==> v in vendors && v.category == category
      ensures forall v :: multiset(r)[v] == if v.category == category then multiset(vendors)[v] else 0
    {
      FilterMultiset(vendors, InCategory(category));
      Filter(vendors, InCategory(category))
    }

    method AddReview(vendorId: string, bookingId: string, userId: string, rating: int, text: Option<string>,
                     freshId: string, now: int) returns (review: VendorReview)
      modifies this
      ensures review == NewReview(vendorId, bookingId, userId, rating, text, freshId, now)
      ensures Directory(vendors, reviews) == ReviewAdded(old(Directory(vendors, reviews)), review)
      ensures vendorStore == Save(old(vendorStore), VendorsKey, vendors)
      ensures reviewStore == Save(old(reviewStore), ReviewsKey, reviews)
      ensures Synced()
      ensures old(Rated()) ==> Rated()
    {
      review := NewReview(vendorId, bookingId, userId, rating, text, freshId, now);
      var dir := Directory(vendors, reviews);
      if Rated() {
        AddReviewKeepsRatings(dir, review);
      }
      var r := ReviewAdded(dir, review);
      vendors, reviews := r.vendors, r.reviews;
      reviewStore := Save(reviewStore, ReviewsKey, reviews);
      vendorStore := Save(vendorStore, VendorsKey, vendors);
    }

    /** `deleteReview`: returns early, writing nothing, for an unknown id. */
    method DeleteReview(reviewId: string)
      modifies this
      ensures Directory(vendors, reviews) == ReviewDeleted(old(Directory(vendors, reviews)), reviewId)
      ensures Find(old(reviews), ReviewIs(reviewId)).None? ==>
                vendorStore == old(vendorStore) && reviewStore == old(reviewStore)
      ensures Find(old(reviews), ReviewIs(reviewId)).Some? ==>
                && vendorStore == Save(old(vendorStore), VendorsKey, vendors)
                && reviewStore == Save(old(reviewStore), ReviewsKey, reviews)
      ensures old(Synced()) ==> Synced()
      ensures old(Rated()) && IdOnOneVendor(old(reviews), reviewId) ==> Rated()
    {
      var dir := Directory(vendors, reviews);
      var found := Find(reviews, ReviewIs(reviewId));
      if found.None? {
        return;
      }
      if Rated() && IdOnOneVendor(reviews, reviewId) {
        DeleteReviewKeepsRatings(dir, reviewId);
      }
      var r := ReviewDeleted(dir, reviewId);
      vendors, reviews := r.vendors, r.reviews;
      reviewStore := Save(reviewStore, ReviewsKey, reviews);
      vendorStore := Save(vendorStore, VendorsKey, vendors);
    }

    /** `getVendorReviews`: exactly the vendor's reviews, in stored order. */
    function VendorReviews(vendorId: string): (r: seq<VendorReview>) reads this
      ensures forall x :: x in r <==> x in reviews && x.vendorId == vendorId
      ensures forall x :: multiset(r)[x] == if x.vendorId == vendorId then multiset(reviews)[x] else 0
      ensures IsSubsequence(r, reviews)
    {
      FilterMultiset(reviews, ReviewOf(vendorId));
      FilterIsSubsequence(reviews, ReviewOf(vendorId));
      Filter(reviews, ReviewOf(vendorId))
    }

    /** `getAverageRating`: with the ratings consistent, every listed vendor
        with that id stores this average rounded to a tenth. */
    function GetAverageRating(vendorId: string): (r: real) reads this
      ensures Rated() ==> forall v :: v in vendors && v.id == vendorId ==> r - 0.05 < v.rating <= r + 0.05
    {
      assert Rated() ==> forall v :: v in vendors && v.id == vendorId ==>
        AverageRating(reviews, vendorId) - 0.05 < v.rating <= AverageRating(reviews, vendorId) + 0.05 by {
        if Rated() {
          forall v | v in vendors && v.id == vendorId
            ensures AverageRating(reviews, vendorId) - 0.05 < v.rating <= AverageRating(reviews, vendorId) + 0.05
          {
            StoredRatingNearAverage(vendors, reviews, v);
          }
        }
      }
      AverageRating(reviews, vendorId)
    }

    method LoadFromStorage()
      modifies this`vendors, this`reviews
      ensures Synced()
    {
      vendors := Load(vendorStore, VendorsKey);
      reviews := Load(reviewStore, ReviewsKey);
    }

    method SaveToStorage()
      modifies this`vendorStore, this`reviewStore
      ensures vendorStore == Save(old(vendorStore), VendorsKey, vendors)
      ensures reviewStore == Save(old(reviewStore), ReviewsKey, reviews)
      ensures Synced()
    {
      vendorStore := Save(vendorStore, VendorsKey, vendors);
      reviewStore := Save(reviewStore, ReviewsKey, reviews);
    }
  }
}
