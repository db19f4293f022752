/** The JSON-file review store behind src/app/api/reviews/route.ts and
    src/app/api/admin/reviews/route.ts, as one in-memory database: the
    review list and the per-plan statistics. Request bodies arrive parsed;
    a field the body lacks is `None`. Time stamps are milliseconds given by
    the caller, and ids and user hashes are fresh values passed in. */
module Reviews {
  import opened Common
  import opened Sorting

  datatype Reply = Reply(content: string, respondedAt: int)

  datatype Review = Review(
    id: string, planId: string, userId: string, userName: string,
    rating: int, title: string, content: string,
    helpful: int, unhelpful: int, status: string,
    createdAt: int, updatedAt: int,
    vendorReply: Option<Reply>, publishedAt: Option<int>,
    rejectionReason: Option<string>, adminNotes: Option<string>)

  /** `ratingDistribution` is the five counts for ratings 1 to 5, in order. */
  datatype Stats = Stats(planId: string, totalReviews: nat, averageRating: real,
                         ratingDistribution: seq<nat>, lastReviewAt: Option<int>)

  const Published := "published"

  /** The published reviews of a plan, in stored order. */
  function PlanReviews(planId: string, reviews: seq<Review>): (r: seq<Review>)
    ensures forall i :: 0 <= i < |r| ==> r[i].planId == planId && r[i].status == Published
  {
    Filter((x: Review) => x.planId == planId && x.status == Published, reviews)
  }

  function RatingSum(rs: seq<Review>): int {
    if rs == [] then 0 else RatingSum(rs[..|rs| - 1]) + rs[|rs| - 1].rating
  }

  /** How many of the reviews have rating `k`. */
  function Rated(rs: seq<Review>, k: int): nat {
    Count((x: Review) => x.rating == k, rs)
  }

  function Distribution(rs: seq<Review>): (d: seq<nat>)
    ensures |d| == 5 && forall k :: 0 <= k < 5 ==> d[k] == Rated(rs, k + 1)
  {
    [Rated(rs, 1), Rated(rs, 2), Rated(rs, 3), Rated(rs, 4), Rated(rs, 5)]
  }

  /** `calculateStats(planId, reviews)`. Its `lastReviewAt` is the first
      published review in stored order. */
  function StatsOf(planId: string, reviews: seq<Review>): (s: Stats)
    ensures s.planId == planId && s.totalReviews == |PlanReviews(planId, reviews)|
    ensures s.totalReviews == 0 ==> s.averageRating == 0.0 && s.ratingDistribution == [0, 0, 0, 0, 0] && s.lastReviewAt == None
  {
    var pr := PlanReviews(planId, reviews);
    if |pr| == 0 then Stats(planId, 0, 0.0, [0, 0, 0, 0, 0], None)
    else Stats(planId, |pr|, RatingSum(pr) as real / |pr| as real, Distribution(pr), Some(pr[0].createdAt))
  }

  /** One more review raises the count of its own rating by one. */
  lemma Rated_Step(rs: seq<Review>, i: nat, k: int)
    requires i < |rs|
    ensures Rated(rs[..i + 1], k) == Rated(rs[..i], k) + (if rs[i].rating == k then 1 else 0)
  {
    assert rs[..i + 1] == rs[..i] + [rs[i]];
    Count_Append((x: Review) => x.rating == k, rs[..i], [rs[i]]);
  }

  /** `calculateStats`: one pass over the plan's published reviews,
      counting each rating and adding it to the total. A rating outside 1 to
      5 is added to the total but to no count. */
  method CalculateStats(planId: string, reviews: seq<Review>) returns (s: Stats)
    ensures s == StatsOf(planId, reviews)
  {
    var planReviews := PlanReviews(planId, reviews);
    if |planReviews| == 0 {
      return Stats(planId, 0, 0.0, [0, 0, 0, 0, 0], None);
    }
    var dist: seq<nat> := [0, 0, 0, 0, 0];
    var totalRating := 0;
    for i := 0 to |planReviews|
      invariant |dist| == 5
      invariant forall k :: 0 <= k < 5 ==> dist[k] == Rated(planReviews[..i], k + 1)
      invariant totalRating == RatingSum(planReviews[..i])
    {
      var review := planReviews[i];
      forall k | 1 <= k <= 5
        ensures Rated(planReviews[..i + 1], k) == Rated(planReviews[..i], k) + (if review.rating == k then 1 else 0)
      {
        Rated_Step(planReviews, i, k);
      }
      assert planReviews[..i + 1][..i] == planReviews[..i];
      if 1 <= review.rating <= 5 {
        dist := dist[review.rating - 1 := dist[review.rating - 1] + 1];
      }
      totalRating := totalRating + review.rating;
    }
    assert planReviews[..|planReviews|] == planReviews;
    assert dist == Distribution(planReviews);
    s := Stats(planId, |planReviews|, totalRating as real / |planReviews| as real, dist, Some(planReviews[0].createdAt));
  }

  /** With every rating from 1 to 5 the five counts add up to the number of
      reviews. */
  lemma {:induction false} Distribution_Sum(rs: seq<Review>)
    requires forall i :: 0 <= i < |rs| ==> 1 <= rs[i].rating <= 5
    ensures Rated(rs, 1) + Rated(rs, 2) + Rated(rs, 3) + Rated(rs, 4) + Rated(rs, 5) == |rs|
  {
    if rs != [] {
      var init := rs[..|rs| - 1];
      var last := rs[|rs| - 1];
      assert rs == init + [last];
      Distribution_Sum(init);
      Count_Append((x: Review) => x.rating == 1, init, [last]);
      Count_Append((x: Review) => x.rating == 2, init, [last]);
      Count_Append((x: Review) => x.rating == 3, init, [last]);
      Count_Append((x: Review) => x.rating == 4, init, [last]);
      Count_Append((x: Review) => x.rating == 5, init, [last]);
    }
  }

  lemma {:induction false} RatingSum_Bounds(rs: seq<Review>)
    requires forall i :: 0 <= i < |rs| ==> 1 <= rs[i].rating <= 5
    ensures |rs| <= RatingSum(rs) <= 5 * |rs|
  {
    if rs != [] {
      RatingSum_Bounds(rs[..|rs| - 1]);
    }
  }

  /** With ratings from 1 to 5 the distribution sums to the review count
      and a non-empty average lies between 1 and 5. */
  lemma StatsOf_Consistent(planId: string, reviews: seq<Review>)
    requires forall i :: 0 <= i < |reviews| ==> 1 <= reviews[i].rating <= 5
    ensures var d := StatsOf(planId, reviews).ratingDistribution;
      d[0] + d[1] + d[2] + d[3] + d[4] == StatsOf(planId, reviews).totalReviews
    ensures StatsOf(planId, reviews).totalReviews > 0 ==> 1.0 <= StatsOf(planId, reviews).averageRating <= 5.0
  {
    var pr := PlanReviews(planId, reviews);
    PlanReviews_Ratings(planId, reviews);
    if |pr| > 0 {
      Distribution_Sum(pr);
      RatingSum_Bounds(pr);
      Mean_Between(RatingSum(pr) as real, |pr| as real);
    }
  }

  lemma PlanReviews_Ratings(planId: string, reviews: seq<Review>)
    requires forall i :: 0 <= i < |reviews| ==> 1 <= reviews[i].rating <= 5
    ensures forall i :: 0 <= i < |PlanReviews(planId, reviews)| ==> 1 <= PlanReviews(planId, reviews)[i].rating <= 5
  {
    var pr := PlanReviews(planId, reviews);
    forall i | 0 <= i < |pr| ensures 1 <= pr[i].rating <= 5 {
      Filter_Mem((x: Review) => x.planId == planId && x.status == Published, reviews, pr[i]);
    }
  }

  lemma Mean_Between(t: real, n: real)
    requires n >= 1.0 && n <= t <= 5.0 * n
    ensures 1.0 <= t / n <= 5.0
  {
    assert t / n * n == t;
  }

  // -------------------------------------------------------- review lookups

  /** `reviews.findIndex(r => r.id === id)`, or `None` for -1. */
  function FindIndex(reviews: seq<Review>, id: string): (r: Option<nat>)
    ensures r.Some? ==> r.value < |reviews| && reviews[r.value].id == id
    ensures r.Some? ==> forall j :: 0 <= j < r.value ==> reviews[j].id != id
    ensures r.None? ==> forall j :: 0 <= j < |reviews| ==> reviews[j].id != id
  {
    if reviews == [] then None
    else if reviews[0].id == id then Some(0)
    else
      var rest := FindIndex(reviews[1..], id);
      if rest.Some? then Some(rest.value + 1) else None
  }

  /** The order `sort` asks for, as a key sorted from high to low:
      `helpful`, `rating_high`, `rating_low`, else newest first. */
  function SortKey(sort: string): Review -> real {
    if sort == "helpful" then (r: Review) => r.helpful as real
    else if sort == "rating_high" then (r: Review) => r.rating as real
    else if sort == "rating_low" then (r: Review) => -r.rating as real
    else (r: Review) => r.createdAt as real
  }

  datatype Page = Page(reviews: seq<Review>, total: nat, limit: int, offset: int, hasMore: bool)

  /** A page of a sorted list: `slice(offset, offset + limit)`. */
  function PageOf(sorted: seq<Review>, limit: int, offset: int): (p: Page)
    ensures p.total == |sorted| && p.hasMore == (offset + limit < |sorted|)
    ensures 0 <= offset && 0 <= limit ==> |p.reviews| <= limit
    ensures forall r :: r in p.reviews ==> r in sorted
  {
    var page := JsSlice(sorted, offset, offset + limit);
    assert forall r :: r in page ==> r in sorted by {
      var a := if offset < 0 then Max(|sorted| + offset, 0) else Min(offset, |sorted|);
      var b := if offset + limit < 0 then Max(|sorted| + offset + limit, 0) else Min(offset + limit, |sorted|);
      if a < b {
        assert page == sorted[a..b];
        forall r | r in page ensures r in sorted {
          var i :| 0 <= i < |page| && page[i] == r;
          assert sorted[a + i] == r;
        }
      }
    }
    Page(page, |sorted|, limit, offset, offset + limit < |sorted|)
  }

  /** What `GET /api/reviews` answers. */
  datatype Listing = AllStats(all: map<string, Stats>) | PlanListing(page: Page, planStats: Stats)

  /** The answer of a PATCH or POST: a status and the review it concerns. */
  datatype Answer = Answer(status: int, review: Option<Review>)

  /** A PATCH on the public route: counters or a vendor reply. */
  function Feedback(r: Review, action: string, vendorReply: Option<string>, now: int): (u: Review)
    ensures action == "helpful" ==> u == r.(helpful := r.helpful + 1, updatedAt := now)
    ensures action == "unhelpful" ==> u == r.(unhelpful := r.unhelpful + 1, updatedAt := now)
    ensures action == "reply" && Present(vendorReply) ==> u == r.(vendorReply := Some(Reply(vendorReply.value, now)), updatedAt := now)
    ensures action != "helpful" && action != "unhelpful" && !(action == "reply" && Present(vendorReply)) ==> u == r.(updatedAt := now)
  {
    if action == "helpful" then r.(helpful := r.helpful + 1, updatedAt := now)
    else if action == "unhelpful" then r.(unhelpful := r.unhelpful + 1, updatedAt := now)
    else if action == "reply" && Present(vendorReply) then r.(vendorReply := Some(Reply(vendorReply.value, now)), updatedAt := now)
    else r.(updatedAt := now)
  }

  /** The admin decision on a review. */
  function Decide(r: Review, approve: bool, adminNotes: Option<string>, now: int): (u: Review)
    ensures u.id == r.id && u.planId == r.planId && u.rating == r.rating && u.updatedAt == now && u.adminNotes == adminNotes
    ensures approve ==> u.status == Published && u.publishedAt == Some(now) && u.rejectionReason == r.rejectionReason
    ensures !approve ==> u.status == "rejected" && u.publishedAt == r.publishedAt
    ensures !approve ==> u.rejectionReason == Some(if Present(adminNotes) then adminNotes.value else "審核未通過")
  {
    var decided := if approve then r.(status := Published, publishedAt := Some(now))
      else r.(status := "rejected", rejectionReason := Some(if Present(adminNotes) then adminNotes.value else "審核未通過"));
    decided.(adminNotes := adminNotes, updatedAt := now)
  }

  /** Deleting the review at `i`: the others stay, in order. */
  function RemoveAt(reviews: seq<Review>, i: nat): (r: seq<Review>)
    requires i < |reviews|
    ensures |r| == |reviews| - 1
    ensures forall j :: 0 <= j < i ==> r[j] == reviews[j]
    ensures forall j :: i <= j < |r| ==> r[j] == reviews[j + 1]
  {
    reviews[..i] + reviews[i + 1..]
  }

  /** A new review as `POST` builds it. */
  function NewReview(id: string, planId: string, userHash: string, userName: Option<string>, rating: int,
                     title: string, content: string, now: int): (r: Review)
    ensures r.helpful == 0 && r.unhelpful == 0 && r.status == Published
    ensures r.planId == planId && r.rating == rating && r.title == title && r.content == content
    ensures r.userName == if Present(userName) then userName.value else "用户_" + Take(userHash, 8)
  {
    Review(id, planId, userHash, if Present(userName) then userName.value else "用户_" + Take(userHash, 8),
           rating, title, content, 0, 0, Published, now, now, None, None, None, None)
  }

  class ReviewDb {
    var reviews: seq<Review>
    var stats: map<string, Stats>

    constructor ()
      ensures reviews == [] && stats == map[]
    {
      reviews := [];
      stats := map[];
    }

    /** `POST /api/reviews`. A rating of 0 counts as missing. */
    method Post(planId: Option<string>, userName: Option<string>, rating: Option<int>,
                title: Option<string>, content: Option<string>, id: string, userHash: string, now: int)
      returns (a: Answer)
      modifies this
      ensures var missing := !Present(planId) || rating.None? || rating.value == 0 || !Present(title) || !Present(content);
        a.status == (if missing || rating.value < 1 || rating.value > 5 then 400 else 201)
      ensures a.status == 400 ==> a.review.None? && reviews == old(reviews) && stats == old(stats)
      ensures a.status == 201 ==>
        a.review == Some(NewReview(id, planId.value, userHash, userName, rating.value, title.value, content.value, now))
        && reviews == old(reviews) + [a.review.value]
        && stats == old(stats)[planId.value := StatsOf(planId.value, reviews)]
    {
      if !Present(planId) || rating.None? || rating.value == 0 || !Present(title) || !Present(content) {
        return Answer(400, None);
      }
      if rating.value < 1 || rating.value > 5 {
        return Answer(400, None);
      }
      var review := NewReview(id, planId.value, userHash, userName, rating.value, title.value, content.value, now);
      reviews := reviews + [review];
      var s := CalculateStats(planId.value, reviews);
      stats := stats[planId.value := s];
      return Answer(201, Some(review));
    }

    /** `GET /api/reviews`: every plan's stored statistics without a plan
        id; else a page of the plan's published reviews in the requested
        order, with its stored statistics or freshly computed ones. */
    method Get(planId: Option<string>, sort: Option<string>, limit: int, offset: int) returns (l: Listing)
      ensures !Present(planId) ==> l == AllStats(stats)
      ensures Present(planId) ==> l.PlanListing?
      ensures Present(planId) && l.PlanListing? ==>
        l.page == PageOf(SortDesc(PlanReviews(planId.value, reviews), SortKey(if Present(sort) then sort.value else "recent")), limit, offset)
      ensures Present(planId) && l.PlanListing? ==>
        l.planStats == (if planId.value in stats then stats[planId.value] else StatsOf(planId.value, reviews))
    {
      if !Present(planId) {
        return AllStats(stats);
      }
      var key := SortKey(if Present(sort) then sort.value else "recent");
      var sorted := SortDesc(PlanReviews(planId.value, reviews), key);
      var s;
      if planId.value in stats {
        s := stats[planId.value];
      } else {
        s := CalculateStats(planId.value, reviews);
      }
      return PlanListing(PageOf(sorted, limit, offset), s);
    }

    /** `PATCH /api/reviews`. */
    method Patch(reviewId: Option<string>, action: Option<string>, vendorReply: Option<string>, now: int)
      returns (a: Answer)
      modifies this
      ensures stats == old(stats)
      ensures !Present(reviewId) || !Present(action) ==> a == Answer(400, None) && reviews == old(reviews)
      ensures Present(reviewId) && Present(action) && FindIndex(old(reviews), reviewId.value).None? ==>
        a == Answer(404, None) && reviews == old(reviews)
      ensures Present(reviewId) && Present(action) && FindIndex(old(reviews), reviewId.value).Some? ==>
        var i := FindIndex(old(reviews), reviewId.value).value;
        a.status == 200 && reviews == old(reviews)[i := Feedback(old(reviews)[i], action.value, vendorReply, now)]
        && a.review == Some(reviews[i])
    {
      if !Present(reviewId) || !Present(action) {
        return Answer(400, None);
      }
      var found := FindIndex(reviews, reviewId.value);
      if found.None? {
        return Answer(404, None);
      }
      var i := found.value;
      reviews := reviews[i := Feedback(reviews[i], action.value, vendorReply, now)];
      return Answer(200, Some(reviews[i]));
    }

    /** `GET /api/admin/reviews`: the reviews of a status (default
        `pending`), newest first, one page. */
    method AdminGet(status: Option<string>, limit: Option<int>, offset: Option<int>) returns (p: Page)
      ensures var st := if Present(status) then status.value else "pending";
        p == PageOf(SortDesc(Filter((r: Review) => r.status == st, reviews), SortKey("recent")), limit.GetOr(50), offset.GetOr(0))
    {
      var st := if Present(status) then status.value else "pending";
      var matching := Filter((r: Review) => r.status == st, reviews);
      var sorted := SortDesc(matching, SortKey("recent"));
      p := PageOf(sorted, limit.GetOr(50), offset.GetOr(0));
    }

    /** `PATCH /api/admin/reviews`: approve or reject. Statistics are
        recomputed only on approval. */
    method AdminPatch(reviewId: Option<string>, action: Option<string>, adminNotes: Option<string>, now: int)
      returns (a: Answer)
      modifies this
      ensures !Present(reviewId) || !Present(action) || action.value !in {"approve", "reject"} ==>
        a == Answer(400, None) && reviews == old(reviews) && stats == old(stats)
      ensures Present(reviewId) && Present(action) && action.value in {"approve", "reject"} && FindIndex(old(reviews), reviewId.value).None? ==>
        a == Answer(404, None) && reviews == old(reviews) && stats == old(stats)
      ensures Present(reviewId) && Present(action) && action.value in {"approve", "reject"} && FindIndex(old(reviews), reviewId.value).Some? ==>
        var i := FindIndex(old(reviews), reviewId.value).value;
        var planId := old(reviews)[i].planId;
        a.status == 200
        && reviews == old(reviews)[i := Decide(old(reviews)[i], action.value == "approve", adminNotes, now)]
        && a.review == Some(reviews[i])
        && stats == if action.value == "approve" then old(stats)[planId := StatsOf(planId, reviews)] else old(stats)
    {
      if !Present(reviewId) || !Present(action) {
        return Answer(400, None);
      }
      if action.value !in {"approve", "reject"} {
        return Answer(400, None);
      }
      var found := FindIndex(reviews, reviewId.value);
      if found.None? {
        return Answer(404, None);
      }
      var i := found.value;
      var approve := action.value == "approve";
      reviews := reviews[i := Decide(reviews[i], approve, adminNotes, now)];
      if approve {
        var planId := reviews[i].planId;
        var s := CalculateStats(planId, reviews);
        stats := stats[planId := s];
      }
      return Answer(200, Some(reviews[i]));
    }

    /** `DELETE /api/admin/reviews?id=`. */
    method AdminDelete(reviewId: Option<string>) returns (a: Answer)
      modifies this
      ensures stats == old(stats)
      ensures !Present(reviewId) ==> a == Answer(400, None) && reviews == old(reviews)
      ensures Present(reviewId) && FindIndex(old(reviews), reviewId.value).None? ==> a == Answer(404, None) && reviews == old(reviews)
      ensures Present(reviewId) && FindIndex(old(reviews), reviewId.value).Some? ==>
        var i := FindIndex(old(reviews), reviewId.value).value;
        a == Answer(200, Some(old(reviews)[i])) && reviews == RemoveAt(old(reviews), i)
    {
      if !Present(reviewId) {
        return Answer(400, None);
      }
      var found := FindIndex(reviews, reviewId.value);
      if found.None? {
        return Answer(404, None);
      }
      var deleted := reviews[found.value];
      reviews := RemoveAt(reviews, found.value);
      return Answer(200, Some(deleted));
    }
  }

  /** Every review of a plan listing is a stored, published review of that
      plan. */
  lemma Listing_Sound(planId: string, reviews: seq<Review>, sort: string, limit: int, offset: int, r: Review)
    requires r in PageOf(SortDesc(PlanReviews(planId, reviews), SortKey(sort)), limit, offset).reviews
    ensures r in reviews && r.planId == planId && r.status == Published
  {
    var pr := PlanReviews(planId, reviews);
    SortDesc_Mem(pr, SortKey(sort), r);
    Filter_Mem((x: Review) => x.planId == planId && x.status == Published, reviews, r);
  }

  /** A helpful vote raises exactly that review's helpful count by one; an
      unhelpful vote only its unhelpful count. */
  lemma Feedback_OneCounter(r: Review, now: int)
    ensures Feedback(r, "helpful", None, now).helpful == r.helpful + 1
    ensures Feedback(r, "helpful", None, now).unhelpful == r.unhelpful
    ensures Feedback(r, "unhelpful", None, now).unhelpful == r.unhelpful + 1
    ensures Feedback(r, "unhelpful", None, now).helpful == r.helpful
  {}

  /** A deletion keeps every other review. */
  lemma RemoveAt_Keeps(reviews: seq<Review>, i: nat, x: Review)
    requires i < |reviews| && x in reviews && x != reviews[i]
    ensures x in RemoveAt(reviews, i)
  {
    var j :| 0 <= j < |reviews| && reviews[j] == x;
    if j < i {
      assert RemoveAt(reviews, i)[j] == x;
    } else {
      assert RemoveAt(reviews, i)[j - 1] == x;
    }
  }
}
