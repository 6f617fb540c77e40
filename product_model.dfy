/** The product document, its validators and the pre-save hook that derives
    `ratings` and `numReviews` from the reviews. Prices are whole minor units;
    `ratings` is kept in tenths of a star (0..50 for the schema's 0..5). */
module ProductModel {
  import opened Common

  datatype Review = Review(user: Id, rating: int, comment: string)

  datatype Image = Image(url: string, publicId: string)

  /** A description entry or an FAQ answer: a title and its bullet points. */
  datatype Section = Section(title: string, points: seq<string>)

  datatype Faq = Faq(question: string, answer: seq<Section>)

  datatype Product = Product(
    name: string,
    price: int,
    category: string,
    brand: string,
    stock: int,
    description: seq<Section>,
    faqs: seq<Faq>,
    images: seq<Image>,
    ratings: int,
    numReviews: int,
    reviews: seq<Review>,
    createdUser: Id)

  predicate SectionValid(s: Section)
  {
    s.title != "" && forall i :: 0 <= i < |s.points| ==> s.points[i] != ""
  }

  predicate FaqValid(f: Faq)
  {
    f.question != "" && forall i :: 0 <= i < |f.answer| ==> SectionValid(f.answer[i])
  }

  predicate ReviewValid(r: Review) { r.user != "" && r.comment != "" }

  /** The schema validators: required strings are non-empty, price and stock are
      not negative, ratings lie in 0..5 stars. */
  predicate ProductValid(p: Product)
  {
    p.name != "" && p.category != "" && p.brand != "" && p.createdUser != ""
    && p.price >= 0 && p.stock >= 0
    && 0 <= p.ratings <= 50
    && (forall i :: 0 <= i < |p.description| ==> SectionValid(p.description[i]))
    && (forall i :: 0 <= i < |p.faqs| ==> FaqValid(p.faqs[i]))
    && (forall i :: 0 <= i < |p.images| ==> p.images[i].url != "" && p.images[i].publicId != "")
    && (forall i :: 0 <= i < |p.reviews| ==> ReviewValid(p.reviews[i]))
  }

  function RatingSum(reviews: seq<Review>): int
  {
    if reviews == [] then 0 else RatingSum(reviews[..|reviews| - 1]) + reviews[|reviews| - 1].rating
  }

  /** `calculateAverageRating` in tenths: 0 without reviews, otherwise the mean
      rating rounded to the nearest tenth with halves rounded up (`Math.round`). */
  function AverageRatingTenths(reviews: seq<Review>): (r: int)
    ensures reviews == [] ==> r == 0
    ensures reviews != [] ==>
      var n := |reviews|;
      2 * n * r <= 20 * RatingSum(reviews) + n < 2 * n * r + 2 * n
  {
    if reviews == [] then 0
    else
      var n := |reviews|;
      var r := (20 * RatingSum(reviews) + n) / (2 * n);
      DivBounds(20 * RatingSum(reviews) + n, 2 * n);
      r
  }

  lemma DivBounds(a: int, b: int)
    requires b > 0
    ensures b * (a / b) <= a < b * (a / b) + b
  {
  }

  predicate RatingsInRange(reviews: seq<Review>)
  {
    forall i :: 0 <= i < |reviews| ==> 1 <= reviews[i].rating <= 5
  }

  lemma {:induction false} RatingSumBounds(reviews: seq<Review>)
    requires RatingsInRange(reviews)
    ensures |reviews| <= RatingSum(reviews) <= 5 * |reviews|
    decreases |reviews|
  {
    if reviews != [] {
      RatingSumBounds(reviews[..|reviews| - 1]);
    }
  }

  lemma MulMonotone(n: int, a: int, b: int)
    requires n > 0 && a <= b
    ensures n * a <= n * b
  {
  }

  /** With every rating between 1 and 5 stars the average lies between 1 and 5
      stars, inside the range the schema allows for `ratings`. */
  lemma AverageInRange(reviews: seq<Review>)
    requires reviews != [] && RatingsInRange(reviews)
    ensures 10 <= AverageRatingTenths(reviews) <= 50
  {
    var n := |reviews|;
    var r := AverageRatingTenths(reviews);
    RatingSumBounds(reviews);
    if r < 10 {
      MulMonotone(2 * n, r + 1, 10);
      assert false;
    }
    if r > 50 {
      MulMonotone(2 * n, 51, r);
      assert false;
    }
  }

  /** The pre-save hook: when the reviews changed, `ratings` and `numReviews` are
      recomputed from them; otherwise the document is left as it is. */
  function PreSave(p: Product, reviewsModified: bool): (q: Product)
    ensures reviewsModified ==> q.numReviews == |p.reviews| && q.ratings == AverageRatingTenths(p.reviews)
    ensures !reviewsModified ==> q == p
    ensures q.reviews == p.reviews && q.price == p.price && q.stock == p.stock && q.name == p.name
  {
    if reviewsModified then p.(ratings := AverageRatingTenths(p.reviews), numReviews := |p.reviews|)
    else p
  }

  /** `save()`: the validators run on the document as it is, then the pre-save
      hook; a document that fails validation is not saved (None). */
  function Save(p: Product, reviewsModified: bool): (r: Option<Product>)
    ensures r.Some? <==> ProductValid(p)
  {
    if ProductValid(p) then Some(PreSave(p, reviewsModified)) else None
  }

  /** A save that does not touch the reviews stores the document as it is. */
  lemma SaveAsIs(p: Product, q: Product)
    requires Save(p, false) == Some(q)
    ensures q == p && ProductValid(q)
  {
  }

  /** A valid product whose ratings are all 1..5 stays valid through the hook. */
  lemma PreSaveKeepsValid(p: Product, reviewsModified: bool)
    requires ProductValid(p) && RatingsInRange(p.reviews)
    ensures ProductValid(PreSave(p, reviewsModified))
  {
    if reviewsModified && p.reviews != [] {
      AverageInRange(p.reviews);
    }
  }
}
