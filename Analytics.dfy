/** The analytics page: a default date range of the last thirty days, a
    paged fetch of every image in the range, and the statistics rolled up
    from what was fetched (image count, detection count, detections per
    tag, the first ten images). */
module Analytics {
  import opened Strings
  import opened Records
  import DateRange

  const PageSize := 100
  /** The loop stops once the next offset passes this bound. */
  const OffsetSafetyBound := 10000
  const RecentActivityCount := 10
  const LoadFailedMessage := "Failed to load analytics data. Please check your connection and try again."

  // ---------------------------------------------------------------------
  // Date range

  /** A local calendar date as `Date` reports it: `getMonth()` counts from 0. */
  datatype LocalDate = LocalDate(year: int, monthIndex: int, day: int) {
    predicate InRange() { 0 <= monthIndex < 12 && 1 <= day <= 31 }
  }

  /** `formatLocalDate(date)`: `YYYY-MM-DD` from the local calendar fields,
      month and day zero-padded to two digits and the month counted from 1. */
  function FormatLocalDate(date: LocalDate): (s: string)
    requires date.InRange()
    ensures var y := IntToString(date.year);
      |s| == |y| + 6 && s[..|y|] == y && s[|y|] == '-' && s[|y| + 3] == '-' &&
      AllDigits(s[|y| + 1..|y| + 3]) && ParseNat(s[|y| + 1..|y| + 3]) == date.monthIndex + 1 &&
      AllDigits(s[|y| + 4..]) && ParseNat(s[|y| + 4..]) == date.day
  {
    var y, m, d := IntToString(date.year), TwoDigits(date.monthIndex + 1), TwoDigits(date.day);
    DateLayout(y, m, d);
    y + "-" + m + "-" + d
  }

  lemma DateLayout(y: string, m: string, d: string)
    requires |m| == 2 && |d| == 2
    ensures var s := y + "-" + m + "-" + d;
      |s| == |y| + 6 && s[..|y|] == y && s[|y|] == '-' && s[|y| + 3] == '-' &&
      s[|y| + 1..|y| + 3] == m && s[|y| + 4..] == d
  {
  }

  lemma FormatLocalDateParts(date: LocalDate)
    requires date.InRange()
    ensures FormatLocalDate(date) == IntToString(date.year) + "-" + TwoDigits(date.monthIndex + 1) + "-" + TwoDigits(date.day)
  {
  }

  /** Two calendar dates format alike only if they are the same date. */
  lemma FormatLocalDateInjective(a: LocalDate, b: LocalDate)
    requires a.InRange() && b.InRange()
    ensures FormatLocalDate(a) == FormatLocalDate(b) ==> a == b
  {
    if FormatLocalDate(a) == FormatLocalDate(b) {
      var ya, ma, da := IntToString(a.year), TwoDigits(a.monthIndex + 1), TwoDigits(a.day);
      var yb, mb, db := IntToString(b.year), TwoDigits(b.monthIndex + 1), TwoDigits(b.day);
      FormatLocalDateParts(a);
      FormatLocalDateParts(b);
      DateSplit(ya, ma, da, yb, mb, db);
      assert a.year == b.year by {
        IntToStringInjective(a.year, b.year);
      }
      TwoDigitsInjective(a.monthIndex + 1, b.monthIndex + 1);
      TwoDigitsInjective(a.day, b.day);
      assert a.year == b.year && a.monthIndex == b.monthIndex && a.day == b.day;
      assert a == LocalDate(b.year, b.monthIndex, b.day);
      assert b == LocalDate(b.year, b.monthIndex, b.day);
    }
  }

  /** A formatted date splits back into its parts once the year's length is
      fixed by the total length. */
  lemma DateSplit(ya: string, ma: string, da: string, yb: string, mb: string, db: string)
    requires |ma| == 2 && |da| == 2 && |mb| == 2 && |db| == 2
    requires ya + "-" + ma + "-" + da == yb + "-" + mb + "-" + db
    ensures ya == yb && ma == mb && da == db
  {
    DateLayout(ya, ma, da);
    DateLayout(yb, mb, db);
    var s := ya + "-" + ma + "-" + da;
    var n := |ya|;
    assert n == |yb|;
    assert ya == s[..n] == yb;
    assert ma == s[n + 1..n + 3] == mb;
    assert da == s[n + 4..] == db;
  }

  /** The lower filter bound: the start of the `from` day, or none when the
      field is empty. */
  function FromBound(from: string): (b: Option<string>)
    ensures b.None? <==> from == ""
    ensures b.Some? ==> b.value == DateRange.DayStart(from)
  {
    if from != "" then Some(DateRange.DayStart(from)) else None
  }

  /** The upper filter bound: the end of the `to` day, or none when the
      field is empty. */
  function ToBound(to: string): (b: Option<string>)
    ensures b.None? <==> to == ""
    ensures b.Some? ==> b.value == DateRange.DayEnd(to)
  {
    if to != "" then Some(DateRange.DayEnd(to)) else None
  }

  // ---------------------------------------------------------------------
  // The paged fetch

  /** The query parameters of one `GET /images`. */
  datatype PageQuery = PageQuery(limit: int, offset: int, from: Option<string>, to: Option<string>)

  /** `response.data`: `items` is None when it is missing or not an array. */
  datatype PageBody = PageBody(items: Option<seq<Image>>, nextOffset: JsonNumber)

  /** What one awaited request gives: a response (whose `data` may be
      missing) or a rejection, which ends the whole load in its catch. */
  datatype PageReply = Page(body: Option<PageBody>) | RequestFailed

  /** The backend, seen from the page, as a function of the query. */
  type Server = PageQuery -> PageReply

  function Fetch(server: Server, offset: int, from: Option<string>, to: Option<string>): PageReply
  {
    server(PageQuery(PageSize, offset, from, to))
  }

  /** What one iteration of the loop does with a reply. */
  datatype PageStep = Failed | Stopped(items: seq<Image>) | Continued(items: seq<Image>, next: int)

  function StepOf(reply: PageReply): (s: PageStep)
    ensures s.Failed? <==> reply.RequestFailed?
    ensures s.Continued? <==>
      reply.Page? && reply.body.Some? && reply.body.value.items.Some? &&
      reply.body.value.nextOffset != Null && |reply.body.value.items.value| == PageSize
    ensures s.Continued? ==> s.next == reply.body.value.nextOffset.Or(0)
    ensures s.Stopped? && reply.body.Some? && reply.body.value.items.Some? ==> s.items == reply.body.value.items.value
    ensures s.Stopped? && (reply.body.None? || reply.body.value.items.None?) ==> s.items == []
  {
    match reply
    case RequestFailed => Failed
    case Page(body) =>
      if body.None? || body.value.items.None? then Stopped([])
      else
        var items := body.value.items.value;
        if body.value.nextOffset != Null && |items| == PageSize then Continued(items, body.value.nextOffset.Or(0))
        else Stopped(items)
  }

  /** The offset of the request `n` iterations after one at `offset`
      (None once the loop has ended); defined for every server. */
  function OffsetAfter(server: Server, from: Option<string>, to: Option<string>, offset: int, n: nat): Option<int>
    decreases n
  {
    if n == 0 then Some(offset)
    else match StepOf(Fetch(server, offset, from, to))
      case Continued(_, next) =>
        if next > OffsetSafetyBound then None else OffsetAfter(server, from, to, next, n - 1)
      case _ => None
  }

  /** The loop of `loadAnalytics` ends on this server: after some number of
      iterations there is no further request. */
  ghost predicate Terminates(server: Server, from: Option<string>, to: Option<string>)
  {
    exists n: nat :: OffsetAfter(server, from, to, 0, n).None?
  }

  /** A number of iterations after which the loop has ended. */
  ghost function Steps(server: Server, from: Option<string>, to: Option<string>): (n: nat)
    requires Terminates(server, from, to)
    ensures OffsetAfter(server, from, to, 0, n).None?
  {
    var n: nat :| OffsetAfter(server, from, to, 0, n).None?; n
  }

  datatype FetchResult = FetchFailed | Fetched(images: seq<Image>)

  function Prepend(items: seq<Image>, r: FetchResult): FetchResult
  {
    match r
    case FetchFailed => FetchFailed
    case Fetched(rest) => Fetched(items + rest)
  }

  lemma PrependPrepend(a: seq<Image>, b: seq<Image>, r: FetchResult)
    ensures Prepend(a, Prepend(b, r)) == Prepend(a + b, r)
  {
    if r.Fetched? {
      assert a + (b + r.images) == (a + b) + r.images;
    }
  }

  /** Every image the loop collects starting at `offset`, pages in request
      order, or failure when any request is rejected; `fuel` is a number
      of iterations within which the loop ends. */
  ghost function Collect(server: Server, from: Option<string>, to: Option<string>, offset: int, fuel: nat): FetchResult
    requires OffsetAfter(server, from, to, offset, fuel).None?
    decreases fuel
  {
    match StepOf(Fetch(server, offset, from, to))
    case Failed => FetchFailed
    case Stopped(items) => Fetched(items)
    case Continued(items, next) =>
      if next > OffsetSafetyBound then Fetched(items)
      else Prepend(items, Collect(server, from, to, next, fuel - 1))
  }

  /** The offsets the loop requests, in order, starting at `offset`. */
  ghost function RequestedOffsets(server: Server, from: Option<string>, to: Option<string>, offset: int, fuel: nat): seq<int>
    requires OffsetAfter(server, from, to, offset, fuel).None?
    decreases fuel
  {
    match StepOf(Fetch(server, offset, from, to))
    case Continued(_, next) =>
      if next > OffsetSafetyBound then [offset] else [offset] + RequestedOffsets(server, from, to, next, fuel - 1)
    case _ => [offset]
  }

  /** What the whole load gives on a server on which the loop ends. */
  ghost function Loaded(server: Server, from: Option<string>, to: Option<string>): FetchResult
    requires Terminates(server, from, to)
  {
    Collect(server, from, to, 0, Steps(server, from, to))
  }

  /** The requests the whole load makes on a server on which the loop ends. */
  ghost function Requested(server: Server, from: Option<string>, to: Option<string>): seq<int>
    requires Terminates(server, from, to)
  {
    RequestedOffsets(server, from, to, 0, Steps(server, from, to))
  }

  /** The requested offsets are those of the loop's iterations, one per
      iteration until the loop ends, the first at `offset` and every later
      one at most the safety bound. */
  lemma {:induction false} RequestedOffsetsFollowTheLoop(server: Server, from: Option<string>, to: Option<string>, offset: int, fuel: nat)
    requires OffsetAfter(server, from, to, offset, fuel).None?
    ensures var r := RequestedOffsets(server, from, to, offset, fuel);
      1 <= |r| <= fuel && r[0] == offset &&
      (forall i :: 0 <= i < |r| ==> OffsetAfter(server, from, to, offset, i) == Some(r[i])) &&
      OffsetAfter(server, from, to, offset, |r|).None? &&
      (forall i :: 1 <= i < |r| ==> r[i] <= OffsetSafetyBound)
    decreases fuel
  {
    var s := StepOf(Fetch(server, offset, from, to));
    var r := RequestedOffsets(server, from, to, offset, fuel);
    if s.Continued? && s.next <= OffsetSafetyBound {
      RequestedOffsetsFollowTheLoop(server, from, to, s.next, fuel - 1);
      var rest := RequestedOffsets(server, from, to, s.next, fuel - 1);
      assert r == [offset] + rest;
      forall i | 1 <= i < |r|
        ensures OffsetAfter(server, from, to, offset, i) == Some(r[i]) && r[i] <= OffsetSafetyBound
      {
        assert r[i] == rest[i - 1];
        assert OffsetAfter(server, from, to, offset, i) == OffsetAfter(server, from, to, s.next, i - 1);
      }
      assert OffsetAfter(server, from, to, offset, |r|) == OffsetAfter(server, from, to, s.next, |rest|);
    } else {
      assert r == [offset];
    }
  }

  /** Running `a + b` iterations is running `a`, then `b` more from the
      offset reached. */
  lemma {:induction false} OffsetAfterSplit(server: Server, from: Option<string>, to: Option<string>, offset: int, a: nat, b: nat)
    ensures OffsetAfter(server, from, to, offset, a + b) ==
      if OffsetAfter(server, from, to, offset, a).None? then None
      else OffsetAfter(server, from, to, OffsetAfter(server, from, to, offset, a).value, b)
    decreases a
  {
    if a > 0 {
      var s := StepOf(Fetch(server, offset, from, to));
      if s.Continued? && s.next <= OffsetSafetyBound {
        OffsetAfterSplit(server, from, to, s.next, a - 1, b);
      }
    }
  }

  /** A loop that comes back to an offset after `d` iterations keeps
      requesting; it never ends. */
  lemma {:induction false} CycleNeverEnds(server: Server, from: Option<string>, to: Option<string>, offset: int, d: nat, m: nat)
    requires d > 0 && OffsetAfter(server, from, to, offset, d) == Some(offset)
    ensures OffsetAfter(server, from, to, offset, m).Some?
    decreases m
  {
    if m >= d {
      OffsetAfterSplit(server, from, to, offset, d, m - d);
      CycleNeverEnds(server, from, to, offset, d, m - d);
    } else {
      OffsetAfterSplit(server, from, to, offset, m, d - m);
    }
  }

  /** On a server on which the loop ends, no offset is requested twice. */
  lemma RequestedOffsetsDistinct(server: Server, from: Option<string>, to: Option<string>, offset: int, fuel: nat)
    requires OffsetAfter(server, from, to, offset, fuel).None?
    ensures var r := RequestedOffsets(server, from, to, offset, fuel);
      forall i, j :: 0 <= i < j < |r| ==> r[i] != r[j]
  {
    var r := RequestedOffsets(server, from, to, offset, fuel);
    RequestedOffsetsFollowTheLoop(server, from, to, offset, fuel);
    forall i, j | 0 <= i < j < |r|
      ensures r[i] != r[j]
    {
      if r[i] == r[j] {
        OffsetAfterSplit(server, from, to, offset, i, j - i);
        OffsetAfterSplit(server, from, to, offset, i, |r| - i);
        CycleNeverEnds(server, from, to, r[i], j - i, |r| - i);
        assert false;
      }
    }
  }

  /** The pages at `offsets`, concatenated in order, or failure when any of
      those requests is rejected. */
  ghost function PagesAt(server: Server, from: Option<string>, to: Option<string>, offsets: seq<int>): FetchResult
    decreases |offsets|
  {
    if offsets == [] then Fetched([])
    else
      var s := StepOf(Fetch(server, offsets[0], from, to));
      if s.Failed? then FetchFailed else Prepend(s.items, PagesAt(server, from, to, offsets[1..]))
  }

  /** What the loop collects is every requested page, whole and in request
      order: a server whose next offset points back into a page already
      fetched has those images collected again. */
  lemma {:induction false} CollectIsPages(server: Server, from: Option<string>, to: Option<string>, offset: int, fuel: nat)
    requires OffsetAfter(server, from, to, offset, fuel).None?
    ensures Collect(server, from, to, offset, fuel) == PagesAt(server, from, to, RequestedOffsets(server, from, to, offset, fuel))
    decreases fuel
  {
    var s := StepOf(Fetch(server, offset, from, to));
    var r := RequestedOffsets(server, from, to, offset, fuel);
    if s.Continued? && s.next <= OffsetSafetyBound {
      CollectIsPages(server, from, to, s.next, fuel - 1);
      assert r[1..] == RequestedOffsets(server, from, to, s.next, fuel - 1);
    } else {
      assert r == [offset] && r[1..] == [];
      if !s.Failed? {
        assert s.items + [] == s.items;
      }
    }
  }

  /** A server that answers a full page at `offset` and names that same
      offset as the next one (or, at offset 0, leaves the next offset
      missing or zero) is asked for that page at every iteration. */
  lemma {:induction false} RepeatedOffsetNeverStops(server: Server, from: Option<string>, to: Option<string>, offset: int, n: nat)
    requires offset <= OffsetSafetyBound
    requires var s := StepOf(Fetch(server, offset, from, to)); s.Continued? && s.next == offset
    ensures OffsetAfter(server, from, to, offset, n) == Some(offset)
    decreases n
  {
    if n > 0 {
      RepeatedOffsetNeverStops(server, from, to, offset, n - 1);
    }
  }

  /** A full first page whose next offset is missing or zero makes a load
      that never ends: `next_offset || 0` sends the loop back to offset 0. */
  lemma MissingNextOffsetNeverEnds(server: Server, from: Option<string>, to: Option<string>)
    requires var s := StepOf(Fetch(server, 0, from, to)); s.Continued? && s.next == 0
    ensures !Terminates(server, from, to)
  {
    forall n: nat
      ensures OffsetAfter(server, from, to, 0, n).Some?
    {
      RepeatedOffsetNeverStops(server, from, to, 0, n);
    }
  }

  /** The loop does not need offsets to grow to end: on a server that pages
      0, 100, then back to 50, where it gets a short page, the load makes
      those three requests and stops. */
  lemma BackwardOffsetExample(full: seq<Image>)
    requires |full| == PageSize
    ensures var server := (q: PageQuery) =>
        if q.offset == 0 then Page(Some(PageBody(Some(full), Number(100))))
        else if q.offset == 100 then Page(Some(PageBody(Some(full), Number(50))))
        else Page(Some(PageBody(Some([]), Null)));
      OffsetAfter(server, None, None, 0, 3).None? &&
      RequestedOffsets(server, None, None, 0, 3) == [0, 100, 50] &&
      Collect(server, None, None, 0, 3) == Fetched(full + full)
  {
    var server := (q: PageQuery) =>
      if q.offset == 0 then Page(Some(PageBody(Some(full), Number(100))))
      else if q.offset == 100 then Page(Some(PageBody(Some(full), Number(50))))
      else Page(Some(PageBody(Some([]), Null)));
    assert StepOf(Fetch(server, 0, None, None)) == Continued(full, 100);
    assert StepOf(Fetch(server, 100, None, None)) == Continued(full, 50);
    assert StepOf(Fetch(server, 50, None, None)) == Stopped([]);
    assert OffsetAfter(server, None, None, 50, 1).None?;
    assert OffsetAfter(server, None, None, 100, 2).None?;
    assert RequestedOffsets(server, None, None, 50, 1) == [50];
    assert RequestedOffsets(server, None, None, 100, 2) == [100, 50];
    assert Collect(server, None, None, 100, 2) == Fetched(full + []);
    assert full + [] == full;
  }

  /** One iteration of the loop, as `Collect` and `RequestedOffsets` see it. */
  lemma CollectStep(server: Server, from: Option<string>, to: Option<string>, offset: int, fuel: nat)
    requires OffsetAfter(server, from, to, offset, fuel).None?
    ensures var s := StepOf(Fetch(server, offset, from, to));
      var c, q := Collect(server, from, to, offset, fuel), RequestedOffsets(server, from, to, offset, fuel);
      fuel > 0 &&
      (s.Failed? ==> c == FetchFailed && q == [offset]) &&
      (s.Stopped? ==> c == Fetched(s.items) && q == [offset]) &&
      (s.Continued? && s.next > OffsetSafetyBound ==> c == Fetched(s.items) && q == [offset]) &&
      (s.Continued? && s.next <= OffsetSafetyBound ==>
        OffsetAfter(server, from, to, s.next, fuel - 1).None? &&
        c == Prepend(s.items, Collect(server, from, to, s.next, fuel - 1)) &&
        q == [offset] + RequestedOffsets(server, from, to, s.next, fuel - 1))
  {
  }

  /** The loop of `loadAnalytics`, on a server on which it ends. Besides the
      images it records, as ghost state, the offset of every request. */
  method FetchAllImages(server: Server, from: Option<string>, to: Option<string>) returns (r: FetchResult, ghost requested: seq<int>)
    requires Terminates(server, from, to)
    ensures r == Loaded(server, from, to)
    ensures requested == Requested(server, from, to)
  {
    ghost var fuel := Steps(server, from, to);
    ghost var whole, offsets := Collect(server, from, to, 0, fuel), RequestedOffsets(server, from, to, 0, fuel);
    ghost var left := fuel;
    requested := [];
    var allImages: seq<Image> := [];
    var offset := 0;
    var hasMore := true;
    while hasMore
      invariant hasMore ==> OffsetAfter(server, from, to, offset, left).None?
      invariant hasMore ==> whole == Prepend(allImages, Collect(server, from, to, offset, left))
      invariant hasMore ==> offsets == requested + RequestedOffsets(server, from, to, offset, left)
      invariant !hasMore ==> whole == Fetched(allImages) && offsets == requested
      decreases hasMore, left
    {
      ghost var start, before, asked := offset, allImages, requested;
      CollectStep(server, from, to, start, left);
      ghost var rest := RequestedOffsets(server, from, to, start, left);
      var reply := Fetch(server, offset, from, to);
      requested := requested + [offset];
      ghost var step := StepOf(reply);
      if reply.RequestFailed? {
        return FetchFailed, requested;
      }
      var body := reply.body;
      if body.Some? && body.value.items.Some? {
        var items := body.value.items.value;
        allImages := allImages + items;
        hasMore := body.value.nextOffset != Null && |items| == PageSize;
        offset := body.value.nextOffset.Or(0);
        if hasMore && offset <= OffsetSafetyBound {
          assert step == Continued(items, offset);
          left := left - 1;
          PrependPrepend(before, items, Collect(server, from, to, offset, left));
          Assoc(asked, [start], RequestedOffsets(server, from, to, offset, left));
        } else {
          assert step.items == items;
        }
      } else {
        hasMore := false;
      }
      if offset > OffsetSafetyBound {
        break;
      }
    }
    r := Fetched(allImages);
  }

  lemma Assoc<T>(a: seq<T>, b: seq<T>, c: seq<T>)
    ensures a + (b + c) == (a + b) + c
  {
  }

  // ---------------------------------------------------------------------
  // Statistics

  function DetectionsOf(image: Image): seq<Detection>
  {
    if image.detections.Some? then image.detections.value else []
  }

  function Lookup(m: map<string, nat>, tag: string): nat
  {
    if tag in m then m[tag] else 0
  }

  /** One detection counted under its tag; an empty tag is skipped. */
  function AddLabel(m: map<string, nat>, tag: string): map<string, nat>
  {
    if tag == "" then m else m[tag := Lookup(m, tag) + 1]
  }

  function AddDetections(m: map<string, nat>, dets: seq<Detection>): map<string, nat>
    decreases |dets|
  {
    if dets == [] then m
    else AddLabel(AddDetections(m, dets[..|dets| - 1]), dets[|dets| - 1].labelName)
  }

  /** `detectionsByLabel` after the forEach over `items`. */
  function Histogram(items: seq<Image>): map<string, nat>
    decreases |items|
  {
    if items == [] then map[]
    else AddDetections(Histogram(items[..|items| - 1]), DetectionsOf(items[|items| - 1]))
  }

  function TotalDetections(items: seq<Image>): nat
    decreases |items|
  {
    if items == [] then 0
    else TotalDetections(items[..|items| - 1]) + |DetectionsOf(items[|items| - 1])|
  }

  /** How many of `dets` carry exactly `tag`. */
  function CountLabel(dets: seq<Detection>, tag: string): nat
    decreases |dets|
  {
    if dets == [] then 0
    else CountLabel(dets[..|dets| - 1], tag) + (if dets[|dets| - 1].labelName == tag then 1 else 0)
  }

  /** How many detections of all `items` carry exactly `tag`. */
  function ItemsLabelCount(items: seq<Image>, tag: string): nat
    decreases |items|
  {
    if items == [] then 0
    else ItemsLabelCount(items[..|items| - 1], tag) + CountLabel(DetectionsOf(items[|items| - 1]), tag)
  }

  /** How many of `dets` carry a non-empty tag. */
  function LabeledCount(dets: seq<Detection>): nat
    decreases |dets|
  {
    if dets == [] then 0
    else LabeledCount(dets[..|dets| - 1]) + (if dets[|dets| - 1].labelName != "" then 1 else 0)
  }

  predicate AllLabeled(items: seq<Image>)
  {
    forall i, j :: 0 <= i < |items| && 0 <= j < |DetectionsOf(items[i])| ==> DetectionsOf(items[i])[j].labelName != ""
  }

  ghost function Pick(m: map<string, nat>): (k: string)
    requires m != map[]
    ensures k in m
  {
    assert m.Keys != {};
    var k :| k in m; k
  }

  /** The sum of the counts of a histogram. */
  ghost function MapTotal(m: map<string, nat>): nat
    decreases |m|
  {
    if m == map[] then 0
    else
      var k := Pick(m);
      assert (m - {k}).Keys == m.Keys - {k};
      m[k] + MapTotal(m - {k})
  }

  datatype Stats = Stats(totalImages: nat, totalDetections: nat, detectionsByLabel: map<string, nat>, recentActivity: seq<Image>)

  const InitialStats := Stats(0, 0, map[], [])

  function Min(a: int, b: int): int { if a <= b then a else b }

  /** The statistics the page shows for the fetched images. */
  function StatsOf(items: seq<Image>): Stats
  {
    Stats(|items|, TotalDetections(items), Histogram(items), items[..Min(RecentActivityCount, |items|)])
  }

  /** The roll-up of `loadAnalytics` over the fetched images. */
  method ComputeStats(items: seq<Image>) returns (stats: Stats)
    ensures stats == StatsOf(items)
    ensures stats.totalImages == |items|
    ensures |stats.recentActivity| == Min(RecentActivityCount, |items|) && stats.recentActivity <= items
  {
    var totalDetections := 0;
    var detectionsByLabel: map<string, nat> := map[];
    for i := 0 to |items|
      invariant totalDetections == TotalDetections(items[..i])
      invariant detectionsByLabel == Histogram(items[..i])
    {
      assert items[..i + 1][..i] == items[..i];
      var image := items[i];
      if image.detections.Some? {
        var dets := image.detections.value;
        totalDetections := totalDetections + |dets|;
        ghost var before := detectionsByLabel;
        for j := 0 to |dets|
          invariant detectionsByLabel == AddDetections(before, dets[..j])
        {
          assert dets[..j + 1][..j] == dets[..j];
          var detection := dets[j];
          if detection.labelName != "" {
            var count := if detection.labelName in detectionsByLabel then detectionsByLabel[detection.labelName] else 0;
            detectionsByLabel := detectionsByLabel[detection.labelName := count + 1];
          }
        }
        assert dets[..|dets|] == dets;
      } else {
        assert AddDetections(detectionsByLabel, DetectionsOf(image)) == detectionsByLabel;
      }
    }
    assert items[..|items|] == items;
    var recentActivity := items[..Min(RecentActivityCount, |items|)];
    stats := Stats(|items|, totalDetections, detectionsByLabel, recentActivity);
  }

  /** Every detection with a tag is counted under that tag, once. */
  lemma {:induction false} AddDetectionsLookup(m: map<string, nat>, dets: seq<Detection>, tag: string)
    ensures Lookup(AddDetections(m, dets), tag) == if tag == "" then Lookup(m, tag) else Lookup(m, tag) + CountLabel(dets, tag)
    ensures tag in AddDetections(m, dets) <==> tag in m || (tag != "" && CountLabel(dets, tag) > 0)
    decreases |dets|
  {
    if dets != [] {
      AddDetectionsLookup(m, dets[..|dets| - 1], tag);
    }
  }

  /** The histogram holds, for every non-empty tag, how many detections
      of the fetched images carry it, and no other key: not the empty
      tag, nor a tag no detection carries. */
  lemma {:induction false} HistogramCounts(items: seq<Image>, tag: string)
    ensures Lookup(Histogram(items), tag) == if tag == "" then 0 else ItemsLabelCount(items, tag)
    ensures tag in Histogram(items) <==> tag != "" && ItemsLabelCount(items, tag) > 0
    decreases |items|
  {
    if items != [] {
      var init := items[..|items| - 1];
      HistogramCounts(init, tag);
      AddDetectionsLookup(Histogram(init), DetectionsOf(items[|items| - 1]), tag);
    }
  }

  lemma {:induction false} MapTotalRemove(m: map<string, nat>, k: string)
    requires k in m
    ensures MapTotal(m) == m[k] + MapTotal(m - {k})
    decreases |m|
  {
    var j := Pick(m);
    if j != k {
      assert (m - {j}).Keys == m.Keys - {j};
      assert (m - {k}).Keys == m.Keys - {k};
      MapTotalRemove(m - {j}, k);
      MapTotalRemove(m - {k}, j);
      assert m - {j} - {k} == m - {k} - {j};
    }
  }

  lemma MapTotalAddLabel(m: map<string, nat>, tag: string)
    ensures MapTotal(AddLabel(m, tag)) == MapTotal(m) + (if tag == "" then 0 else 1)
  {
    if tag != "" {
      var m' := AddLabel(m, tag);
      MapTotalRemove(m', tag);
      if tag in m {
        MapTotalRemove(m, tag);
        assert m' - {tag} == m - {tag};
      } else {
        assert m' - {tag} == m;
      }
    }
  }

  lemma {:induction false} AddDetectionsTotal(m: map<string, nat>, dets: seq<Detection>)
    ensures MapTotal(AddDetections(m, dets)) == MapTotal(m) + LabeledCount(dets)
    decreases |dets|
  {
    if dets != [] {
      AddDetectionsTotal(m, dets[..|dets| - 1]);
      MapTotalAddLabel(AddDetections(m, dets[..|dets| - 1]), dets[|dets| - 1].labelName);
    }
  }

  lemma {:induction false} LabeledCountBound(dets: seq<Detection>)
    ensures LabeledCount(dets) <= |dets|
    ensures LabeledCount(dets) == |dets| <==> forall j :: 0 <= j < |dets| ==> dets[j].labelName != ""
    decreases |dets|
  {
    if dets != [] {
      var init := dets[..|dets| - 1];
      LabeledCountBound(init);
      assert forall j :: 0 <= j < |init| ==> init[j] == dets[j];
    }
  }

  /** The per-tag counts add up to the detection total exactly when no
      detection has an empty tag; otherwise they fall short of it. */
  lemma {:induction false} HistogramTotal(items: seq<Image>)
    ensures MapTotal(Histogram(items)) <= TotalDetections(items)
    ensures MapTotal(Histogram(items)) == TotalDetections(items) <==> AllLabeled(items)
    decreases |items|
  {
    if items == [] {
    } else {
      var init, last := items[..|items| - 1], items[|items| - 1];
      HistogramTotal(init);
      AddDetectionsTotal(Histogram(init), DetectionsOf(last));
      LabeledCountBound(DetectionsOf(last));
      assert forall i :: 0 <= i < |init| ==> init[i] == items[i];
      assert AllLabeled(items) <==> AllLabeled(init) && forall j :: 0 <= j < |DetectionsOf(last)| ==> DetectionsOf(last)[j].labelName != "";
    }
  }

  /** Two images, the first with a "helmet" and an unlabeled detection, the
      second with none: two images, two detections, and one histogram entry,
      for "helmet"; the unlabeled detection counts only toward the total. */
  lemma UnlabeledDetectionExample()
    ensures var items := [Image("a", "", "", Some([Detection("helmet"), Detection("")])), Image("b", "", "", Some([]))];
      StatsOf(items).totalImages == 2 && StatsOf(items).totalDetections == 2 &&
      StatsOf(items).detectionsByLabel == map["helmet" := 1]
  {
    var first := Image("a", "", "", Some([Detection("helmet"), Detection("")]));
    var second := Image("b", "", "", Some([]));
    var items := [first, second];
    assert items[..1] == [first] && [first][..0] == [];
    var dets := [Detection("helmet"), Detection("")];
    assert dets[..1] == [Detection("helmet")] && [Detection("helmet")][..0] == [];
    assert AddDetections(map[], [Detection("helmet")]) == map["helmet" := 1];
    assert AddDetections(map[], dets) == map["helmet" := 1];
    assert Histogram([first]) == map["helmet" := 1];
    assert TotalDetections([first]) == 2;
    assert DetectionsOf(second) == [];
    assert Histogram(items) == AddDetections(Histogram([first]), []);
  }

  // ---------------------------------------------------------------------
  // The page

  datatype DateKey = From | To

  class AnalyticsPage {
    var stats: Stats
    var loading: bool
    var error: string
    var dateFrom: string
    var dateTo: string

    /** The initial state: empty statistics, loading, and the range from
        thirty days ago to today (both dates supplied by the clock). */
    constructor (today: LocalDate, thirtyDaysAgo: LocalDate)
      requires today.InRange() && thirtyDaysAgo.InRange()
      ensures stats == InitialStats && loading && error == ""
      ensures dateFrom == FormatLocalDate(thirtyDaysAgo) && dateTo == FormatLocalDate(today)
    {
      stats := InitialStats;
      loading := true;
      error := "";
      dateFrom := FormatLocalDate(thirtyDaysAgo);
      dateTo := FormatLocalDate(today);
    }

    /** `loadAnalytics()`: fetch every image of the range and roll them up;
        a rejected request keeps the old statistics and shows the error. */
    method LoadAnalytics(server: Server)
      requires Terminates(server, FromBound(dateFrom), ToBound(dateTo))
      modifies this
      ensures !loading && dateFrom == old(dateFrom) && dateTo == old(dateTo)
      ensures Loaded(server, FromBound(dateFrom), ToBound(dateTo)).FetchFailed? ==>
        stats == old(stats) && error == LoadFailedMessage
      ensures Loaded(server, FromBound(dateFrom), ToBound(dateTo)).Fetched? ==>
        stats == StatsOf(Loaded(server, FromBound(dateFrom), ToBound(dateTo)).images) && error == ""
    {
      loading := true;
      var from, to := FromBound(dateFrom), ToBound(dateTo);
      var fetched: FetchResult;
      ghost var requested: seq<int>;
      fetched, requested := FetchAllImages(server, from, to);
      if fetched.Fetched? {
        stats := ComputeStats(fetched.images);
        error := "";
      } else {
        error := LoadFailedMessage;
      }
      loading := false;
    }

    /** `handleDateRangeChange(key, value)`: one end of the range changes. */
    method HandleDateRangeChange(key: DateKey, value: string)
      modifies this
      ensures key.From? ==> dateFrom == value && dateTo == old(dateTo)
      ensures key.To? ==> dateTo == value && dateFrom == old(dateFrom)
      ensures stats == old(stats) && loading == old(loading) && error == old(error)
    {
      if key.From? {
        dateFrom := value;
      } else {
        dateTo := value;
      }
    }
  }
}
