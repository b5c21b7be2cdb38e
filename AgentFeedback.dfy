/** The handler of GET /admin/agents/:id/feedback in routes/admin.js: the query for one agent's
    rated, collected donations, newest feedback first; the statistics loop (sum of ratings and
    a histogram over the ratings 1 to 5); the mean rounded to one decimal; and one output entry
    per donation. */
module AgentFeedback {
  import opened Wrappers
  import opened Donations

  /** The filter of the query: this agent's donations, collected, with a rating that is not null. */
  predicate Selected(d: Donation, agentId: ObjectId)
  {
    d.agent == Some(agentId) && d.status == Collected && d.feedback.rating.Some?
  }

  /** The documents that pass the filter, in collection order. */
  function Filter(docs: seq<Document>, agentId: ObjectId): (r: seq<Document>)
    ensures forall x :: x in r <==> x in docs && Selected(x.donation, agentId)
    ensures forall x :: multiset(r)[x] == if Selected(x.donation, agentId) then multiset(docs)[x] else 0
  {
    if docs == [] then []
    else
      assert multiset(docs) == multiset{docs[0]} + multiset(docs[1..]) by { assert docs == [docs[0]] + docs[1..]; }
      (if Selected(docs[0].donation, agentId) then [docs[0]] else []) + Filter(docs[1..], agentId)
  }

  /** The sort key `feedback.submittedAt`. */
  function SubmittedAt(x: Document): Option<int>
  {
    x.donation.feedback.submittedAt
  }

  /** MongoDB's ascending order on the key: null before every date, dates by time. */
  predicate NotAfter(a: Option<int>, b: Option<int>)
  {
    a.None? || (b.Some? && a.value <= b.value)
  }

  /** Ordered by `{'feedback.submittedAt': -1}`: no document's key comes after an earlier one's. */
  predicate SortedNewestFirst(xs: seq<Document>)
  {
    forall i, j :: 0 <= i < j < |xs| ==> NotAfter(SubmittedAt(xs[j]), SubmittedAt(xs[i]))
  }

  /** Inserts `x` in front of the first document whose key is not after its own. */
  function Insert(x: Document, xs: seq<Document>): (r: seq<Document>)
    requires SortedNewestFirst(xs)
    ensures SortedNewestFirst(r)
    ensures multiset(r) == multiset(xs) + multiset{x}
  {
    if xs == [] then [x]
    else if NotAfter(SubmittedAt(xs[0]), SubmittedAt(x)) then [x] + xs
    else
      var rest := Insert(x, xs[1..]);
      assert multiset(xs) == multiset{xs[0]} + multiset(xs[1..]) by { assert xs == [xs[0]] + xs[1..]; }
      assert forall y :: y in rest ==> NotAfter(SubmittedAt(y), SubmittedAt(xs[0])) by {
        forall y | y in rest ensures NotAfter(SubmittedAt(y), SubmittedAt(xs[0])) {
          assert y in multiset(rest);
          if y != x {
            assert y in multiset(xs[1..]);
            var k :| 0 <= k < |xs[1..]| && xs[1..][k] == y;
            assert xs[k + 1] == y;
          }
        }
      }
      [xs[0]] + rest
  }

  /** The `.sort` of the query, as an insertion sort. */
  function SortNewestFirst(xs: seq<Document>): (r: seq<Document>)
    ensures SortedNewestFirst(r)
    ensures multiset(r) == multiset(xs)
  {
    if xs == [] then []
    else
      assert xs == [xs[0]] + xs[1..];
      Insert(xs[0], SortNewestFirst(xs[1..]))
  }

  /** The donations the handler reads for `agentId`. */
  function FeedbackQuery(docs: seq<Document>, agentId: ObjectId): seq<Document>
  {
    SortNewestFirst(Filter(docs, agentId))
  }

  /** The query returns exactly the collected donations of this agent that carry a rating, each as
      often as the collection holds it, with the newest feedback first. */
  lemma QuerySelectsAndOrders(docs: seq<Document>, agentId: ObjectId)
    ensures forall x :: x in FeedbackQuery(docs, agentId) <==> x in docs && Selected(x.donation, agentId)
    ensures forall x :: multiset(FeedbackQuery(docs, agentId))[x] ==
                        if Selected(x.donation, agentId) then multiset(docs)[x] else 0
    ensures SortedNewestFirst(FeedbackQuery(docs, agentId))
  {
    var filtered := Filter(docs, agentId);
    forall x ensures x in FeedbackQuery(docs, agentId) <==> x in filtered {
      assert x in multiset(FeedbackQuery(docs, agentId)) <==> x in multiset(filtered);
    }
  }

  /** A donor as `populate('donor', 'firstName lastName')` loads it. */
  datatype DonorName = DonorName(firstName: string, lastName: string)

  /** One element of the `feedback` list of the response. */
  datatype FeedbackEntry = FeedbackEntry(id: ObjectId, donor: string, rating: Option<int>,
                                         comment: Option<string>, date: Option<int>)

  /** The `donations.map(...)` of the response. A donor id that no user resolves leaves `d.donor`
      null, so reading its name throws and the handler answers with its error. */
  function Entries(sel: seq<Document>, users: map<ObjectId, DonorName>): (r: Option<seq<FeedbackEntry>>)
    ensures r.Some? <==> forall i :: 0 <= i < |sel| ==> sel[i].donation.donor in users
    ensures r.Some? ==> |r.value| == |sel|
    ensures r.Some? ==> forall i :: 0 <= i < |sel| ==>
      var d, e, name := sel[i], r.value[i], users[sel[i].donation.donor];
      e.id == d.id && e.rating == d.donation.feedback.rating && e.comment == d.donation.feedback.comment &&
      e.date == d.donation.feedback.submittedAt && e.donor == name.firstName + " " + name.lastName
  {
    if sel == [] then Some([])
    else if sel[0].donation.donor !in users then None
    else
      var d, name := sel[0], users[sel[0].donation.donor];
      var entry := FeedbackEntry(d.id, name.firstName + " " + name.lastName, d.donation.feedback.rating,
                                 d.donation.feedback.comment, d.donation.feedback.submittedAt);
      match Entries(sel[1..], users)
      case None => None
      case Some(rest) => Some([entry] + rest)
  }

  /** A rating as the sum adds it: a null rating adds zero. */
  function RatingValue(x: Document): int
  {
    match x.donation.feedback.rating
    case None => 0
    case Some(r) => r
  }

  /** The `totalRating` of a list of donations. */
  function RatingSum(sel: seq<Document>): int
  {
    if sel == [] then 0 else RatingValue(sel[0]) + RatingSum(sel[1..])
  }

  /** How many donations of the list are rated `k`. */
  function RatingCount(sel: seq<Document>, k: int): nat
  {
    if sel == [] then 0 else (if sel[0].donation.feedback.rating == Some(k) then 1 else 0) + RatingCount(sel[1..], k)
  }

  /** `avgRating`: 0 for no donations, else the mean `totalRating / count` in tenths, rounded
      as `toFixed(1)` rounds: to the nearest tenth, a tie away from zero. */
  function AvgRatingTenths(totalRating: int, count: nat): (t: int)
    ensures count == 0 ==> t == 0
    ensures count > 0 && totalRating >= 0 ==> -(count as int) <= 2 * (10 * totalRating - t * count) < count
    ensures count > 0 && totalRating < 0 ==> -(count as int) < 2 * (10 * totalRating - t * count) <= count
  {
    if count == 0 then 0
    else if totalRating >= 0 then RoundHalfUp(10 * totalRating, count)
    else -RoundHalfUp(-10 * totalRating, count)
  }

  /** `x / n` rounded to the nearest integer, a tie upwards. */
  function RoundHalfUp(x: int, n: nat): (q: int)
    requires n > 0
    ensures -(n as int) <= 2 * (x - q * n) < n
  {
    var q := (2 * x + n) / (2 * n);
    var r := (2 * x + n) % (2 * n);
    assert 2 * x + n == q * (2 * n) + r;
    q
  }

  /** The `stats` object of the response; `ratingCounts[k]` counts the rating `k + 1`. */
  datatype FeedbackStats = FeedbackStats(avgTenths: int, total: nat, ratingCounts: seq<nat>)

  /** The JSON the handler sends: the entries and the statistics, or its error answer. */
  datatype FeedbackResponse = Success(feedback: seq<FeedbackEntry>, stats: FeedbackStats) | ServerError

  /** The statistics loop: `totalRating += rating` and `ratingCounts[rating]++` for each donation,
      the five buckets starting at zero. */
  method SumAndCount(donations: seq<Document>) returns (totalRating: int, ratingCounts: seq<nat>)
    ensures totalRating == RatingSum(donations)
    ensures |ratingCounts| == 5
    ensures forall k :: 0 <= k < 5 ==> ratingCounts[k] == RatingCount(donations, k + 1)
  {
    totalRating := 0;
    var counts := new nat[5](_ => 0);
    for i := 0 to |donations|
      invariant totalRating == RatingSum(donations[..i])
      invariant forall k :: 0 <= k < 5 ==> counts[k] == RatingCount(donations[..i], k + 1)
    {
      var donation := donations[i];
      SumAndCountSnoc(donations[..i], donation);
      assert donations[..i + 1] == donations[..i] + [donation];
      totalRating := totalRating + RatingValue(donation);
      var rating := donation.donation.feedback.rating;
      if rating.Some? && 1 <= rating.value <= 5 {
        counts[rating.value - 1] := counts[rating.value - 1] + 1;
      }
    }
    assert donations[..|donations|] == donations;
    ratingCounts := counts[..];
  }

  /** The handler: run the query (`db` is None when the read fails), sum and count the ratings,
      take the mean, and build the entries. */
  method AgentFeedbackReport(db: Option<seq<Document>>, users: map<ObjectId, DonorName>, agentId: ObjectId)
      returns (res: FeedbackResponse)
    ensures db.None? ==> res == ServerError
    ensures db.Some? ==>
      var sel := FeedbackQuery(db.value, agentId);
      (res.Success? <==> Entries(sel, users).Some?) &&
      (res.Success? ==>
        res.feedback == Entries(sel, users).value &&
        res.stats.total == |sel| &&
        res.stats.avgTenths == AvgRatingTenths(RatingSum(sel), |sel|) &&
        |res.stats.ratingCounts| == 5 &&
        forall k :: 0 <= k < 5 ==> res.stats.ratingCounts[k] == RatingCount(sel, k + 1))
  {
    if db.None? {
      return ServerError;
    }
    var donations := FeedbackQuery(db.value, agentId);
    var totalRating, ratingCounts := SumAndCount(donations);
    var avgRating := AvgRatingTenths(totalRating, |donations|);
    var entries := Entries(donations, users);
    if entries.None? {
      return ServerError;
    }
    res := Success(entries.value, FeedbackStats(avgRating, |donations|, ratingCounts));
  }

  lemma {:induction false} SumAndCountSnoc(sel: seq<Document>, x: Document)
    ensures RatingSum(sel + [x]) == RatingSum(sel) + RatingValue(x)
    ensures forall k :: RatingCount(sel + [x], k) == RatingCount(sel, k) + (if x.donation.feedback.rating == Some(k) then 1 else 0)
  {
    if sel != [] {
      SumAndCountSnoc(sel[1..], x);
      assert (sel + [x])[1..] == sel[1..] + [x];
    }
  }

  /** Every donation of the list carries a rating from 1 to 5. */
  predicate RatedOneToFive(sel: seq<Document>)
  {
    forall i :: 0 <= i < |sel| ==> sel[i].donation.feedback.rating.Some? && 1 <= sel[i].donation.feedback.rating.value <= 5
  }

  /** With every rating from 1 to 5, the five histogram buckets add up to the number of donations,
      and the sum of the ratings lies between one and five times that number. */
  lemma {:induction false} HistogramAddsUp(sel: seq<Document>)
    requires RatedOneToFive(sel)
    ensures RatingCount(sel, 1) + RatingCount(sel, 2) + RatingCount(sel, 3) + RatingCount(sel, 4) + RatingCount(sel, 5) == |sel|
    ensures |sel| <= RatingSum(sel) <= 5 * |sel|
  {
    if sel != [] {
      HistogramAddsUp(sel[1..]);
    }
  }

  /** With every rating from 1 to 5 and at least one donation, the rounded mean is between 1.0 and 5.0. */
  lemma MeanBetweenOneAndFive(sel: seq<Document>)
    requires RatedOneToFive(sel) && |sel| > 0
    ensures 10 <= AvgRatingTenths(RatingSum(sel), |sel|) <= 50
  {
    HistogramAddsUp(sel);
    RoundedMeanBounds(RatingSum(sel), |sel|, AvgRatingTenths(RatingSum(sel), |sel|));
  }

  lemma RoundedMeanBounds(s: int, n: int, t: int)
    requires 0 < n <= s <= 5 * n
    requires -n <= 2 * (10 * s - t * n) < n
    ensures 10 <= t <= 50
  {
  }

  /** When the collection meets the schema, every donation the query returns has a rating from 1
      to 5, so the histogram adds up to `total` and the mean lies between 1.0 and 5.0. */
  lemma ValidCollectionStats(docs: seq<Document>, agentId: ObjectId)
    requires forall i :: 0 <= i < |docs| ==> Valid(docs[i].donation)
    ensures var sel := FeedbackQuery(docs, agentId);
            RatingCount(sel, 1) + RatingCount(sel, 2) + RatingCount(sel, 3) + RatingCount(sel, 4) + RatingCount(sel, 5) == |sel| &&
            (|sel| > 0 ==> 10 <= AvgRatingTenths(RatingSum(sel), |sel|) <= 50)
  {
    var sel := FeedbackQuery(docs, agentId);
    QuerySelectsAndOrders(docs, agentId);
    forall i | 0 <= i < |sel|
      ensures sel[i].donation.feedback.rating.Some? && 1 <= sel[i].donation.feedback.rating.value <= 5
    {
      assert sel[i] in docs;
    }
    HistogramAddsUp(sel);
    if |sel| > 0 {
      MeanBetweenOneAndFive(sel);
    }
  }
}
