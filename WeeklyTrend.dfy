/** `getWeeklyTrendData` of routes/admin.js: seven day buckets ending today, one counter
    array per tracked status, filled from the donations whose id was made on or after the
    window's first midnight. Days are whole local days counted from 1970-01-01 (a Thursday);
    a time in seconds belongs to the day it falls in. */
module WeeklyTrend {
  import opened Wrappers
  import opened Donations

  const SecondsPerDay := 86400

  /** The day of a time: the time moved back to its midnight, as `setHours(0,0,0,0)` does. */
  function DayOf(seconds: int): int
  {
    seconds / SecondsPerDay
  }

  /** The first second of a day. */
  function DayStart(day: int): int
  {
    day * SecondsPerDay
  }

  /** A time is at or after a day's midnight exactly when its day is that day or later. */
  lemma AtOrAfterDayStart(seconds: int, day: int)
    ensures seconds >= DayStart(day) <==> DayOf(seconds) >= day
  {
    var q, r := seconds / SecondsPerDay, seconds % SecondsPerDay;
    assert seconds == q * SecondsPerDay + r;
    if q >= day {
      assert q * SecondsPerDay >= day * SecondsPerDay;
    } else {
      assert q * SecondsPerDay <= (day - 1) * SecondsPerDay;
    }
  }

  /** The short weekday names, starting from the weekday of day 0. */
  const Weekdays: seq<string> := ["Thu", "Fri", "Sat", "Sun", "Mon", "Tue", "Wed"]

  /** `toLocaleDateString('en-US', {weekday: 'short'})` of a day. */
  function WeekdayLabel(day: int): string
  {
    Weekdays[day % 7]
  }

  /** The day a document was created, read from its id. */
  function CreatedDay(doc: Document): int
  {
    DayOf(doc.id.seconds)
  }

  /** `Donation.find({_id: {$gte: bound}})`: the documents whose id is at least `bound`, in order. */
  function FindIdAtLeast(docs: seq<Document>, bound: ObjectId): (r: seq<Document>)
    ensures |r| <= |docs|
    ensures forall x :: x in r <==> x in docs && IdAtLeast(x.id, bound)
    ensures forall x :: multiset(r)[x] == if IdAtLeast(x.id, bound) then multiset(docs)[x] else 0
  {
    if docs == [] then []
    else
      assert multiset(docs) == multiset{docs[0]} + multiset(docs[1..]) by { assert docs == [docs[0]] + docs[1..]; }
      (if IdAtLeast(docs[0].id, bound) then [docs[0]] else []) + FindIdAtLeast(docs[1..], bound)
  }

  /** The documents the trend reads for the window ending on `today`. */
  function Recent(docs: seq<Document>, today: int): seq<Document>
  {
    FindIdAtLeast(docs, CreateFromTime(DayStart(today - 6)))
  }

  /** The statuses that have a counter array; `rejected` has none. */
  predicate Tracked(s: Status)
  {
    s != Rejected
  }

  /** Whether a document is one for the counter of status `s` on `day`. */
  predicate Counts(doc: Document, s: Status, day: int)
  {
    doc.donation.status == s && CreatedDay(doc) == day
  }

  /** The number of documents created on `day` whose status is `s`. */
  function CountOn(docs: seq<Document>, s: Status, day: int): nat
  {
    if docs == [] then 0
    else (if Counts(docs[0], s, day) then 1 else 0) + CountOn(docs[1..], s, day)
  }

  /** The counter array of status `s` for the `n` days from `start` on. */
  function Row(docs: seq<Document>, s: Status, start: int, n: nat): (row: seq<nat>)
    ensures |row| == n
    ensures forall j :: 0 <= j < n ==> row[j] == CountOn(docs, s, start + j)
  {
    if n == 0 then [] else Row(docs, s, start, n - 1) + [CountOn(docs, s, start + n - 1)]
  }

  /** The dashboard's trend: weekday labels, and a counter array per tracked status. */
  datatype TrendData = TrendData(days: seq<string>, counts: map<Status, seq<nat>>)

  /** What the catch branch returns: no days, and every counter array empty. */
  const EmptyTrend := TrendData([], map[Collected := [], Assigned := [], Accepted := [], Pending := []])

  /** The trend for the window ending on `today`; `db` is None when reading the collection fails. */
  function Trend(today: int, db: Option<seq<Document>>): TrendData
  {
    match db
    case None => EmptyTrend
    case Some(docs) =>
      var start, recent := today - 6, Recent(docs, today);
      TrendData(seq(7, i => WeekdayLabel(start + i)),
                map[Collected := Row(recent, Collected, start, 7),
                    Assigned := Row(recent, Assigned, start, 7),
                    Accepted := Row(recent, Accepted, start, 7),
                    Pending := Row(recent, Pending, start, 7)])
  }

  /** Counting one more document at the end adds one to the counter it belongs to. */
  lemma {:induction false} CountOnSnoc(docs: seq<Document>, doc: Document, s: Status, day: int)
    ensures CountOn(docs + [doc], s, day) == CountOn(docs, s, day) + (if Counts(doc, s, day) then 1 else 0)
  {
    if docs != [] {
      CountOnSnoc(docs[1..], doc, s, day);
      assert (docs + [doc])[1..] == docs[1..] + [doc];
    }
  }

  /** One more document raises by one the cell of its creation day in the array of its status,
      when that day is in the window, and leaves every other cell as it was. */
  lemma RowSnoc(docs: seq<Document>, doc: Document, s: Status, start: int, n: nat)
    ensures var before := Row(docs, s, start, n);
            var j := CreatedDay(doc) - start;
            Row(docs + [doc], s, start, n) ==
              if doc.donation.status == s && 0 <= j < n then before[j := before[j] + 1] else before
  {
    var before, after := Row(docs, s, start, n), Row(docs + [doc], s, start, n);
    var j := CreatedDay(doc) - start;
    forall k | 0 <= k < n
      ensures after[k] == before[k] + (if doc.donation.status == s && k == j then 1 else 0)
    {
      CountOnSnoc(docs, doc, s, start + k);
    }
  }

  /** The first loop of the source: a label per day of the window, and the map from day to bucket. */
  method LabelWindow(start: int) returns (days: seq<string>, dayMap: map<int, nat>)
    ensures days == seq(7, i => WeekdayLabel(start + i))
    ensures forall key :: key in dayMap <==> start <= key < start + 7
    ensures forall key :: key in dayMap ==> dayMap[key] == key - start
  {
    days, dayMap := [], map[];
    for i := 0 to 7
      invariant days == seq(i, k => WeekdayLabel(start + k))
      invariant forall key :: key in dayMap <==> start <= key < start + i
      invariant forall key :: key in dayMap ==> dayMap[key] == key - start
    {
      days := days + [WeekdayLabel(start + i)];
      dayMap := dayMap[start + i := i];
    }
  }

  /** The body of the second loop, for one document: `counts[doc.status][dayMap[key]]++`
      when `dayMap` has the document's day and its status has an array. */
  method CountDocument(counts: map<Status, array<nat>>, doc: Document, start: int, dayMap: map<int, nat>,
                       ghost counted: seq<Document>)
    requires forall key :: key in dayMap <==> start <= key < start + 7
    requires forall key :: key in dayMap ==> dayMap[key] == key - start
    requires forall s :: s in counts <==> Tracked(s)
    requires forall s, s' :: s in counts && s' in counts && s != s' ==> counts[s] != counts[s']
    requires forall s :: s in counts ==> counts[s][..] == Row(counted, s, start, 7)
    modifies set s | s in counts :: counts[s]
    ensures forall s :: s in counts ==> counts[s][..] == Row(counted + [doc], s, start, 7)
  {
    forall s | s in counts
      ensures Row(counted + [doc], s, start, 7) ==
              if doc.donation.status == s && 0 <= CreatedDay(doc) - start < 7
              then old(counts[s][..])[CreatedDay(doc) - start := old(counts[s][..])[CreatedDay(doc) - start] + 1]
              else old(counts[s][..])
    {
      RowSnoc(counted, doc, s, start, 7);
    }
    var key := DayOf(doc.id.seconds);
    if key in dayMap && doc.donation.status in counts {
      var row := counts[doc.donation.status];
      var j := dayMap[key];
      row[j] := row[j] + 1;
    }
  }

  /** The second loop of the source: every fetched document counted into the arrays of the
      tracked statuses, which start as seven zeros each. */
  method CountDocuments(recent: seq<Document>, start: int, dayMap: map<int, nat>)
      returns (counts: map<Status, seq<nat>>)
    requires forall key :: key in dayMap <==> start <= key < start + 7
    requires forall key :: key in dayMap ==> dayMap[key] == key - start
    ensures counts == map[Collected := Row(recent, Collected, start, 7),
                          Assigned := Row(recent, Assigned, start, 7),
                          Accepted := Row(recent, Accepted, start, 7),
                          Pending := Row(recent, Pending, start, 7)]
  {
    var collectedRow := new nat[7](_ => 0);
    var assignedRow := new nat[7](_ => 0);
    var acceptedRow := new nat[7](_ => 0);
    var pendingRow := new nat[7](_ => 0);
    var rows := map[Collected := collectedRow, Assigned := assignedRow, Accepted := acceptedRow, Pending := pendingRow];
    for k := 0 to |recent|
      invariant forall s :: s in rows ==> rows[s][..] == Row(recent[..k], s, start, 7)
    {
      assert recent[..k + 1] == recent[..k] + [recent[k]];
      CountDocument(rows, recent[k], start, dayMap, recent[..k]);
    }
    assert recent[..|recent|] == recent;
    counts := map[Collected := collectedRow[..], Assigned := assignedRow[..],
                  Accepted := acceptedRow[..], Pending := pendingRow[..]];
  }

  /** `getWeeklyTrendData`: the window, the documents fetched from its first midnight on, and
      their counts; a failed read yields the empty trend of the catch branch. */
  method GetWeeklyTrendData(today: int, db: Option<seq<Document>>) returns (t: TrendData)
    ensures t == Trend(today, db)
  {
    if db.None? {
      return EmptyTrend;
    }
    var start := today - 6;
    var recent := FindIdAtLeast(db.value, CreateFromTime(DayStart(start)));
    var days, dayMap := LabelWindow(start);
    var counts := CountDocuments(recent, start, dayMap);
    t := TrendData(days, counts);
  }

  /** The total of a counter array. */
  function RowSum(row: seq<nat>): nat
  {
    if row == [] then 0 else RowSum(row[..|row| - 1]) + row[|row| - 1]
  }

  /** The sum of every cell of a trend. */
  function Total(t: TrendData): nat
  {
    (if Collected in t.counts then RowSum(t.counts[Collected]) else 0) +
    (if Assigned in t.counts then RowSum(t.counts[Assigned]) else 0) +
    (if Accepted in t.counts then RowSum(t.counts[Accepted]) else 0) +
    (if Pending in t.counts then RowSum(t.counts[Pending]) else 0)
  }

  /** The number of documents with a tracked status created in the seven days from `start`. */
  function Countable(docs: seq<Document>, start: int): (n: nat)
    ensures n <= |docs|
  {
    if docs == [] then 0
    else (if Tracked(docs[0].donation.status) && start <= CreatedDay(docs[0]) < start + 7 then 1 else 0)
         + Countable(docs[1..], start)
  }

  lemma {:induction false} ModShift(q: int, x: int)
    ensures (7 * q + x) % 7 == x % 7
  {
    var r := x % 7;
    assert x == 7 * (x / 7) + r;
    assert 7 * q + x == 7 * (q + x / 7) + r;
  }

  lemma WeekdaysDistinct(a: nat, b: nat)
    requires a < b < 7
    ensures Weekdays[a] != Weekdays[b]
  {
    assert Weekdays[a][0] != Weekdays[b][0] || Weekdays[a][1] != Weekdays[b][1];
  }

  /** Two different days of one week carry different weekday labels. */
  lemma {:induction false} LabelsDistinct(start: int, i: nat, j: nat)
    requires i < j < 7
    ensures WeekdayLabel(start + i) != WeekdayLabel(start + j)
  {
    var m := start % 7;
    assert start == 7 * (start / 7) + m;
    ModShift(start / 7, m + i);
    ModShift(start / 7, m + j);
    var a := if m + i < 7 then m + i else m + i - 7;
    var b := if m + j < 7 then m + j else m + j - 7;
    assert (start + i) % 7 == a && (start + j) % 7 == b;
    if a < b { WeekdaysDistinct(a, b); } else { WeekdaysDistinct(b, a); }
  }

  /** The trend of a successful read: seven chronological buckets ending today, their labels
      seven different weekdays, and one seven-cell counter array for each status but `rejected`. */
  lemma TrendShape(today: int, docs: seq<Document>)
    ensures var t := Trend(today, Some(docs));
            |t.days| == 7 && t.days[6] == WeekdayLabel(today) &&
            (forall i :: 0 <= i < 7 ==> t.days[i] == WeekdayLabel(today - 6 + i)) &&
            (forall i, j :: 0 <= i < j < 7 ==> t.days[i] != t.days[j]) &&
            t.counts.Keys == {Collected, Assigned, Accepted, Pending} &&
            (forall s :: s in t.counts ==> |t.counts[s]| == 7)
  {
    var t := Trend(today, Some(docs));
    forall i, j | 0 <= i < j < 7
      ensures t.days[i] != t.days[j]
    {
      LabelsDistinct(today - 6, i, j);
    }
  }

  /** A failed read gives no labels and an empty array for each of the four tracked statuses. */
  lemma FailedReadIsEmpty(today: int)
    ensures Trend(today, None).days == []
    ensures Trend(today, None).counts.Keys == {Collected, Assigned, Accepted, Pending}
    ensures forall s :: s in Trend(today, None).counts ==> Trend(today, None).counts[s] == []
    ensures Total(Trend(today, None)) == 0
  {
  }

  /** The fetch keeps its first document exactly when that document was created on the
      window's first day or later. */
  lemma FetchStep(docs: seq<Document>, today: int)
    requires docs != []
    ensures Recent(docs, today) == if CreatedDay(docs[0]) >= today - 6 then [docs[0]] + Recent(docs[1..], today)
                                   else Recent(docs[1..], today)
  {
    IdAtLeastFromTime(docs[0].id, DayStart(today - 6));
    AtOrAfterDayStart(docs[0].id.seconds, today - 6);
  }

  /** Every fetched document was created on the window's first day or later. */
  lemma {:induction false} FetchedFromWindowStart(docs: seq<Document>, today: int, doc: Document)
    requires doc in Recent(docs, today)
    ensures CreatedDay(doc) >= today - 6
  {
    IdAtLeastFromTime(doc.id, DayStart(today - 6));
    AtOrAfterDayStart(doc.id.seconds, today - 6);
  }

  /** A fetched document lands in a cell exactly when its status is not `rejected` and it was not
      created after today; so the only fetched documents dropped are rejected or future-dated. */
  lemma FetchedDocumentCounted(docs: seq<Document>, today: int, doc: Document)
    requires doc in Recent(docs, today)
    ensures (Tracked(doc.donation.status) && today - 6 <= CreatedDay(doc) < today + 1) <==>
            (doc.donation.status != Rejected && CreatedDay(doc) <= today)
  {
    FetchedFromWindowStart(docs, today, doc);
  }

  /** The fetch by id keeps every document created on or after the window's first day, so the
      counter for such a day sees the whole collection. */
  lemma {:induction false} FetchKeepsWindowDays(docs: seq<Document>, today: int, s: Status, day: int)
    requires day >= today - 6
    ensures CountOn(Recent(docs, today), s, day) == CountOn(docs, s, day)
  {
    if docs != [] {
      FetchKeepsWindowDays(docs[1..], today, s, day);
      FetchStep(docs, today);
    }
  }

  /** Cell `j` of the array of a tracked status `s` counts the donations of the whole collection
      that were created on day `j` of the window and have status `s`. */
  lemma TrendCell(today: int, docs: seq<Document>, s: Status, j: nat)
    requires Tracked(s) && j < 7
    ensures s in Trend(today, Some(docs)).counts
    ensures Trend(today, Some(docs)).counts[s][j] == CountOn(docs, s, today - 6 + j)
  {
    FetchKeepsWindowDays(docs, today, s, today - 6 + j);
  }

  /** One more donation raises the cell of its creation day in the array of its status by one,
      when that day is in the window and the status is tracked, and leaves every other cell alone. */
  lemma TrendOneMore(today: int, docs: seq<Document>, doc: Document, s: Status, j: nat)
    requires Tracked(s) && j < 7
    ensures Trend(today, Some([doc] + docs)).counts[s][j] ==
            Trend(today, Some(docs)).counts[s][j] + (if Counts(doc, s, today - 6 + j) then 1 else 0)
  {
    TrendCell(today, docs, s, j);
    TrendCell(today, [doc] + docs, s, j);
    assert ([doc] + docs)[1..] == docs;
  }

  lemma {:induction false} RowPrepend(doc: Document, docs: seq<Document>, s: Status, start: int, n: nat)
    ensures var before := Row(docs, s, start, n);
            var j := CreatedDay(doc) - start;
            Row([doc] + docs, s, start, n) ==
              if doc.donation.status == s && 0 <= j < n then before[j := before[j] + 1] else before
  {
    assert ([doc] + docs)[1..] == docs;
  }

  lemma {:induction false} RowSumBump(row: seq<nat>, j: nat)
    requires j < |row|
    ensures RowSum(row[j := row[j] + 1]) == RowSum(row) + 1
  {
    var bumped := row[j := row[j] + 1];
    assert bumped[..|row| - 1] == if j < |row| - 1 then row[..|row| - 1][j := row[j] + 1] else row[..|row| - 1];
    if j < |row| - 1 {
      RowSumBump(row[..|row| - 1], j);
    }
  }

  lemma {:induction false} RowSumEmpty(s: Status, start: int, n: nat)
    ensures RowSum(Row([], s, start, n)) == 0
  {
    if n > 0 {
      RowSumEmpty(s, start, n - 1);
      assert Row([], s, start, n)[..n - 1] == Row([], s, start, n - 1);
    }
  }

  lemma RowSumPrepend(doc: Document, docs: seq<Document>, s: Status, start: int)
    ensures RowSum(Row([doc] + docs, s, start, 7)) ==
            RowSum(Row(docs, s, start, 7)) + (if doc.donation.status == s && start <= CreatedDay(doc) < start + 7 then 1 else 0)
  {
    RowPrepend(doc, docs, s, start, 7);
    var j := CreatedDay(doc) - start;
    if doc.donation.status == s && 0 <= j < 7 {
      RowSumBump(Row(docs, s, start, 7), j);
    }
  }

  /** The four arrays of the window from `start` hold, together, one count per document with a
      tracked status created in the window. */
  lemma {:induction false} RowsAddUp(docs: seq<Document>, start: int)
    ensures RowSum(Row(docs, Collected, start, 7)) + RowSum(Row(docs, Assigned, start, 7)) +
            RowSum(Row(docs, Accepted, start, 7)) + RowSum(Row(docs, Pending, start, 7)) == Countable(docs, start)
  {
    if docs == [] {
      RowSumEmpty(Collected, start, 7);
      RowSumEmpty(Assigned, start, 7);
      RowSumEmpty(Accepted, start, 7);
      RowSumEmpty(Pending, start, 7);
    } else {
      var doc, rest := docs[0], docs[1..];
      assert docs == [doc] + rest;
      RowsAddUp(rest, start);
      RowSumPrepend(doc, rest, Collected, start);
      RowSumPrepend(doc, rest, Assigned, start);
      RowSumPrepend(doc, rest, Accepted, start);
      RowSumPrepend(doc, rest, Pending, start);
    }
  }

  lemma {:induction false} FetchKeepsCountable(docs: seq<Document>, today: int)
    ensures Countable(Recent(docs, today), today - 6) == Countable(docs, today - 6)
  {
    if docs != [] {
      FetchKeepsCountable(docs[1..], today);
      FetchStep(docs, today);
      var tail := Recent(docs[1..], today);
      assert ([docs[0]] + tail)[1..] == tail;
    }
  }

  /** Conservation: the cells add up to the number of donations with a tracked status created in
      the window, which is at most the number of documents fetched, itself at most the collection. */
  lemma TrendTotal(today: int, docs: seq<Document>)
    ensures Total(Trend(today, Some(docs))) == Countable(docs, today - 6)
    ensures Total(Trend(today, Some(docs))) <= |Recent(docs, today)| <= |docs|
  {
    RowsAddUp(Recent(docs, today), today - 6);
    FetchKeepsCountable(docs, today);
  }
}
