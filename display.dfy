/** Presentation helpers every view repeats: the five-star rating bar and the
    "time ago" labels. Times are whole milliseconds; `diffMs` is now minus the
    record's timestamp and is negative for a timestamp in the future. */
module Display {
  import opened Text

  const StarCount := 5
  const MsPerHour := 3600000
  const MsPerDay := 86400000

  /** Star `i` (from 0) is drawn filled when `i < level`. */
  predicate StarFilled(i: int, level: int)
  {
    i < level
  }

  /** The level a read-only bar shows: `Math.floor(rating)`. */
  function StarLevel(rating: real): int
  {
    rating.Floor
  }

  /** How many of the stars `0..k-1` are filled. */
  function FilledAmong(level: int, k: nat): nat
  {
    if k == 0 then 0 else FilledAmong(level, k - 1) + (if StarFilled(k - 1, level) then 1 else 0)
  }

  /** The filled stars of a bar are its first `level` stars, clamped to the
      bar: none below 0, all `k` above `k`. */
  lemma {:induction false} FilledIsClamped(level: int, k: nat)
    ensures FilledAmong(level, k) == if level <= 0 then 0 else if level >= k then k else level
  {
    if k > 0 {
      FilledIsClamped(level, k - 1);
    }
  }

  /** An average in 0..5 lights exactly its whole part: 4.7 shows four stars. */
  lemma RatingShowsWholeStars(rating: real)
    requires 0.0 <= rating <= 5.0
    ensures FilledAmong(StarLevel(rating), StarCount) == StarLevel(rating)
    ensures 0 <= StarLevel(rating) <= StarCount
    ensures StarLevel(4.7) == 4
  {
    FilledIsClamped(StarLevel(rating), StarCount);
  }

  /** `Math.floor(diffMs / 86400000)`. */
  function DaysAgo(diffMs: int): (d: int)
    ensures d * MsPerDay <= diffMs < (d + 1) * MsPerDay
  {
    diffMs / MsPerDay
  }

  /** `Math.floor(diffMs / 3600000)`. */
  function HoursAgo(diffMs: int): (h: int)
    ensures h * MsPerHour <= diffMs < (h + 1) * MsPerHour
  {
    diffMs / MsPerHour
  }

  /** The three cases of the day-granular label. */
  datatype DayBucket = Today | Yesterday | DaysBefore(days: int)

  function DayBucketOf(diffMs: int): DayBucket
  {
    var d := DaysAgo(diffMs);
    if d == 0 then Today else if d == 1 then Yesterday else DaysBefore(d)
  }

  /** "Today" is the first 24 hours, "Yesterday" the next 24; any other
      difference, a future one included, is counted in whole days. */
  lemma DayBucketBounds(diffMs: int)
    ensures DayBucketOf(diffMs) == Today <==> 0 <= diffMs < MsPerDay
    ensures DayBucketOf(diffMs) == Yesterday <==> MsPerDay <= diffMs < 2 * MsPerDay
    ensures DayBucketOf(diffMs).DaysBefore? ==>
              DayBucketOf(diffMs).days == DaysAgo(diffMs) && (diffMs < 0 || diffMs >= 2 * MsPerDay)
  {
  }

  /** The dashboard's and the document viewer's label. */
  function EnglishDayLabel(diffMs: int): string
  {
    match DayBucketOf(diffMs)
    case Today => "Today"
    case Yesterday => "Yesterday"
    case DaysBefore(d) => IntToString(d) + " days ago"
  }

  /** The document list's label. */
  function VietnameseDayLabel(diffMs: int): string
  {
    match DayBucketOf(diffMs)
    case Today => "Hôm nay"
    case Yesterday => "Hôm qua"
    case DaysBefore(d) => IntToString(d) + " ngày trước"
  }

  /** The cases of the community feed's hour-granular label. */
  datatype HourBucket = JustNow | OneHour | Hours(hours: int) | DayAgo | Days(days: int)

  function HourBucketOf(diffMs: int): HourBucket
  {
    var h := HoursAgo(diffMs);
    if h == 0 then JustNow
    else if h == 1 then OneHour
    else if h < 24 then Hours(h)
    else if h / 24 == 1 then DayAgo
    else Days(h / 24)
  }

  function CommunityLabel(diffMs: int): string
  {
    match HourBucketOf(diffMs)
    case JustNow => "Just now"
    case OneHour => "1 hour ago"
    case Hours(h) => IntToString(h) + " hours ago"
    case DayAgo => "Yesterday"
    case Days(d) => IntToString(d) + " days ago"
  }

  lemma DivisionUnique(x: int, d: int, q: int, r: int)
    requires d > 0 && x == q * d + r && 0 <= r < d
    ensures x / d == q
  {
    var q' := x / d;
    var r' := x % d;
    assert x == q' * d + r';
    var k := q' - q;
    assert k * d == r - r' by {
      assert k * d == q' * d - q * d;
    }
    if k >= 1 {
      MultipleAtLeast(k, d);
    } else if k <= -1 {
      MultipleAtLeast(-k, d);
    }
  }

  lemma {:induction false} MultipleAtLeast(k: int, d: int)
    requires k >= 1 && d > 0
    ensures k * d >= d
    decreases k
  {
    if k > 1 {
      MultipleAtLeast(k - 1, d);
      assert k * d == (k - 1) * d + d;
    }
  }

  /** Flooring to hours and then to days is flooring to days. */
  lemma HoursThenDays(diffMs: int)
    ensures HoursAgo(diffMs) / 24 == DaysAgo(diffMs)
  {
    var d := DaysAgo(diffMs);
    var h := HoursAgo(diffMs);
    var within := diffMs - d * MsPerDay;
    var hw := within / MsPerHour;
    assert 0 <= hw < 24;
    DivisionUnique(diffMs, MsPerHour, d * 24 + hw, within - hw * MsPerHour);
    DivisionUnique(h, 24, d, hw);
  }

  /** Once past a day, the feed's label counts the same days as the
      day-granular one, and it says "Yesterday" for the same differences. */
  lemma CommunityAgreesOnDays(diffMs: int)
    requires diffMs >= MsPerDay
    ensures HourBucketOf(diffMs) == DayAgo <==> DayBucketOf(diffMs) == Yesterday
    ensures HourBucketOf(diffMs).Days? ==> DayBucketOf(diffMs) == DaysBefore(HourBucketOf(diffMs).days)
  {
    HoursThenDays(diffMs);
  }

  /** Inside the first day the feed counts whole hours: "Just now" is the
      first hour, "1 hour ago" the second. */
  lemma CommunityHours(diffMs: int)
    ensures HourBucketOf(diffMs) == JustNow <==> 0 <= diffMs < MsPerHour
    ensures HourBucketOf(diffMs) == OneHour <==> MsPerHour <= diffMs < 2 * MsPerHour
  {
  }
}
