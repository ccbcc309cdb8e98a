/** `add_review`: a signed-in customer rates a product, with at most one
    review per customer and product. */
module Reviews {
  import opened Basics
  import opened Text
  import opened Forms
  import opened CatalogModels

  /** A `Review` row. */
  datatype Review = Review(id: int, productId: int, userId: int, rating: int, title: string, body: string)

  /** No customer has two reviews of one product (`unique_together`). */
  predicate OnePerCustomer(reviews: seq<Review>)
  {
    forall i, j :: 0 <= i < j < |reviews| ==>
      !(reviews[i].userId == reviews[j].userId && reviews[i].productId == reviews[j].productId)
  }

  /** True of `userId`'s review of `productId`. */
  function ByAuthor(userId: int, productId: int): Review -> bool
  {
    (r: Review) => r.userId == userId && r.productId == productId
  }

  datatype ReviewReply =
    | ProductNotFound          // 404
    | ServerError              // 500: a rating that is not an integer, or several rows
    | BackToProduct(slug: string)
    | InvalidRating(slug: string)
    | Submitted(slug: string)

  /** `update_or_create(user, product, defaults=...)`: the author's review
      takes the new values, or a new review is added; several matching rows
      raise (`None`). Only the author's review changes or is added: every
      other review keeps its place. */
  function Upsert(reviews: seq<Review>, userId: int, productId: int, rating: int, title: string, body: string, newId: int): (r: Option<seq<Review>>)
    ensures r.None? <==> FindOne(reviews, ByAuthor(userId, productId)).Many?
    ensures r.Some? ==> |r.value| == |reviews| || r.value == reviews + [Review(newId, productId, userId, rating, title, body)]
    ensures r.Some? ==> forall j :: 0 <= j < |reviews| && !ByAuthor(userId, productId)(reviews[j]) ==> r.value[j] == reviews[j]
  {
    match FindOne(reviews, ByAuthor(userId, productId))
    case One(k) => Some(reviews[k := reviews[k].(rating := rating, title := title, body := body)])
    case Missing => Some(reviews + [Review(newId, productId, userId, rating, title, body)])
    case Many => None
  }

  /** `add_review(product_id)`.  `newId` is the id a created review gets. */
  function AddReview(isPost: bool, products: seq<Product>, reviews: seq<Review>, productId: int, userId: int,
                     form: map<string, string>, newId: int): (r: (ReviewReply, seq<Review>))
    ensures !r.0.Submitted? ==> r.1 == reviews
    ensures !isPost ==> !r.0.Submitted?
    ensures r.0.Submitted? ==>
              IntParam(form, "rating", 0).Some? && 1 <= IntParam(form, "rating", 0).value <= 5
              && Upsert(reviews, userId, productId, IntParam(form, "rating", 0).value,
                        Posted(form, "title"), Posted(form, "body"), newId) == Some(r.1)
    ensures r.0.InvalidRating? ==>
              isPost && IntParam(form, "rating", 0).Some?
              && !(1 <= IntParam(form, "rating", 0).value <= 5)
    ensures var found := LookupBy(products, (q: Product) => q.id == productId);
            var rating := IntParam(form, "rating", 0);
            isPost && found.One? && rating.Some? && 1 <= rating.value <= 5
            && !FindOne(reviews, ByAuthor(userId, productId)).Many? ==>
              r.0 == Submitted(found.row.slug)
              && Some(r.1) == Upsert(reviews, userId, productId, rating.value, Posted(form, "title"), Posted(form, "body"), newId)
  {
    match LookupBy(products, (p: Product) => p.id == productId)
    case Missing => (ProductNotFound, reviews)
    case Many => (ServerError, reviews)
    case One(p) =>
      if !isPost then (BackToProduct(p.slug), reviews)
      else match IntParam(form, "rating", 0)
        case None => (ServerError, reviews)
        case Some(rating) =>
          if rating < 1 || rating > 5 then (InvalidRating(p.slug), reviews)
          else match Upsert(reviews, userId, productId, rating, Posted(form, "title"), Posted(form, "body"), newId)
            case None => (ServerError, reviews)
            case Some(after) => (Submitted(p.slug), after)
  }

  /** A missing rating counts as 0 and is rejected. */
  lemma MissingRatingRejected(products: seq<Product>, reviews: seq<Review>, productId: int, userId: int,
                              form: map<string, string>, newId: int, p: Product)
    requires "rating" !in form
    requires LookupBy(products, (q: Product) => q.id == productId) == One(p)
    ensures AddReview(true, products, reviews, productId, userId, form, newId) == (InvalidRating(p.slug), reviews)
  {
  }

  /** After an upsert the author has exactly one review of the product,
      holding the submitted rating, title and body; every other review is
      as it was; and no customer gains a second review of a product. */
  lemma UpsertMeaning(reviews: seq<Review>, userId: int, productId: int, rating: int, title: string, body: string, newId: int)
    requires Upsert(reviews, userId, productId, rating, title, body, newId).Some?
    ensures var after := Upsert(reviews, userId, productId, rating, title, body, newId).value;
            var found := FindOne(after, ByAuthor(userId, productId));
            found.One?
            && after[found.row].rating == rating && after[found.row].title == title && after[found.row].body == body
            && (forall x :: x in reviews && !ByAuthor(userId, productId)(x) ==> x in after)
            && (forall x :: x in after && !ByAuthor(userId, productId)(x) ==> x in reviews)
            && (OnePerCustomer(reviews) ==> OnePerCustomer(after))
  {
    var after := Upsert(reviews, userId, productId, rating, title, body, newId).value;
    var p := ByAuthor(userId, productId);
    match FindOne(reviews, p)
    case One(k) =>
      assert forall j :: 0 <= j < |after| && j != k ==> after[j] == reviews[j];
      assert p(after[k]);
      FindOneUnique(after, p, k);
      forall x | x in reviews && !p(x) ensures x in after
      {
        var j :| 0 <= j < |reviews| && reviews[j] == x;
        assert after[j] == x;
      }
      forall x | x in after && !p(x) ensures x in reviews
      {
        var j :| 0 <= j < |after| && after[j] == x;
        assert reviews[j] == x;
      }
      if OnePerCustomer(reviews) {
        forall i, j | 0 <= i < j < |after|
          ensures !(after[i].userId == after[j].userId && after[i].productId == after[j].productId)
        {
          assert after[i].userId == reviews[i].userId && after[i].productId == reviews[i].productId;
          assert after[j].userId == reviews[j].userId && after[j].productId == reviews[j].productId;
        }
      }
    case Missing =>
      assert after == reviews + [Review(newId, productId, userId, rating, title, body)];
      assert forall j :: 0 <= j < |reviews| ==> after[j] == reviews[j] && !p(after[j]);
      FindOneUnique(after, p, |reviews|);
      forall x | x in after && !p(x) ensures x in reviews
      {
        var j :| 0 <= j < |after| && after[j] == x;
        assert j < |reviews| && reviews[j] == x;
      }
  }

  /** An index that alone satisfies `p` is what `FindOne` finds. */
  lemma FindOneUnique(s: seq<Review>, p: Review -> bool, k: nat)
    requires k < |s| && p(s[k])
    requires forall j :: 0 <= j < |s| && j != k ==> !p(s[j])
    ensures FindOne(s, p) == One(k)
  {
  }

  /** Submitting the same form twice leaves the reviews as one submission
      left them. */
  lemma ResubmitIdempotent(products: seq<Product>, reviews: seq<Review>, productId: int, userId: int,
                           form: map<string, string>, newId: int, newId2: int)
    requires AddReview(true, products, reviews, productId, userId, form, newId).0.Submitted?
    ensures var once := AddReview(true, products, reviews, productId, userId, form, newId).1;
            AddReview(true, products, once, productId, userId, form, newId2) == AddReview(true, products, reviews, productId, userId, form, newId)
  {
    var once := AddReview(true, products, reviews, productId, userId, form, newId).1;
    var rating := IntParam(form, "rating", 0).value;
    UpsertMeaning(reviews, userId, productId, rating, Posted(form, "title"), Posted(form, "body"), newId);
    var k := FindOne(once, ByAuthor(userId, productId)).row;
    assert once[k := once[k].(rating := rating, title := Posted(form, "title"), body := Posted(form, "body"))] == once;
  }
}
