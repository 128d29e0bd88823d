/**
 * src/modules/matching/matching.service.ts: the deadlines stamped on an assignment when an offer is accepted. Times are
 * milliseconds.
 */
module Schedule {
  import opened Common

  const HOUR: nat := 3_600_000

  /** resolveDueAt: the one-off deadline. */
  function ResolveDueAt(endsAt: Option<int>, window: nat, bufferHours: nat, now: int): int
  {
    match endsAt
    case None => now + window
    case Some(end) => Min(Max(end - bufferHours * HOUR, now + Min(window, 6 * HOUR)), end)
  }

  /**
   * Never past the client's end; at end - buffer exactly when that leaves the minimum runway; in the future while the
   * end is.
   */
  lemma OneOffDeadline(end: int, window: nat, bufferHours: nat, now: int)
    ensures var due := ResolveDueAt(Some(end), window, bufferHours, now);
            && due <= end
            && (due == end - bufferHours * HOUR
               <==> bufferHours == 0 || now + Min(window, 6 * HOUR) <= end - bufferHours * HOUR)
            && (0 < window ==> (now < due <==> now < end))
            && (now + Min(window, 6 * HOUR) <= end ==> now + Min(window, 6 * HOUR) <= due)
  {
  }

  datatype SlotTime = SlotTime(index: nat, scheduledFor: int, dueAt: int)

  function EffectiveStart(startsAt: Option<int>, now: int): int
  {
    Max(if startsAt.Some? then startsAt.value else now, now)
  }

  /** The stretch the deadlines are spread over, and whether it is the client's window or the degenerate fallback. */
  function Span(startsAt: Option<int>, endsAt: Option<int>, n: nat, bufferHours: nat, window: nat, now: int): int
  {
    var start := EffectiveStart(startsAt, now);
    var usableEnd := if endsAt.Some? then endsAt.value - bufferHours * HOUR else start + window * n;
    if start < usableEnd then usableEnd - start else window * n
  }

  /** generateSlotSchedule, with step * (i + 1) rounded down to whole milliseconds as a Date does. */
  function GenerateSlotSchedule(startsAt: Option<int>, endsAt: Option<int>, posts: int, bufferHours: nat, window: nat,
                                now: int)
    : seq<SlotTime>
  {
    var n := Max(1, posts);
    if n == 1 then
      var due := ResolveDueAt(endsAt, window, bufferHours, now);
      [SlotTime(1, if endsAt.Some? then endsAt.value else due, due)]
    else
      var start := EffectiveStart(startsAt, now);
      var span := Span(startsAt, endsAt, n, bufferHours, window, now);
      seq(n, i requires 0 <= i < n =>
        var at := start + span * (i + 1) / n;
        SlotTime(i + 1, at, at))
  }

  lemma QuotientBounds(x: int, n: nat)
    requires 0 < n
    ensures n * (x / n) <= x < n * (x / n) + n
  {
    assert x == n * (x / n) + x % n;
  }

  lemma QuotientGrows(x: int, y: int, n: nat)
    requires 0 < n && x <= y
    ensures x / n <= y / n
    ensures x + n <= y ==> x / n + 1 <= y / n
  {
    var a, b := x / n, y / n;
    QuotientBounds(x, n);
    QuotientBounds(y, n);
    assert n * (b + 1) == n * b + n && n * (a + 1) == n * a + n;
    CancelFactor(n, a, b + 1);
    if x + n <= y {
      CancelFactor(n, a + 1, b + 1);
    }
  }

  lemma QuotientOfMultiple(m: int, span: int, n: nat)
    requires 0 < n && m == n * span
    ensures m / n == span
  {
    var q := m / n;
    QuotientBounds(m, n);
    assert n * (q + 1) == n * q + n && n * (span + 1) == n * span + n;
    CancelFactor(n, span, q + 1);
    CancelFactor(n, q, span + 1);
  }

  lemma SpreadProduct(span: nat, a: nat, k: nat)
    ensures span * (a + k + 1) == span * a + span * k + span && 0 <= span * k
  {
  }

  lemma LaterProduct(span: nat, i: nat, j: nat)
    requires i < j
    ensures span * (i + 1) + span <= span * (j + 1)
  {
    SpreadProduct(span, i + 1, j - i - 1);
  }

  lemma LaterPost(span: nat, i: nat, j: nat, n: nat)
    requires 0 < n && i < j
    ensures span * (i + 1) / n <= span * (j + 1) / n
    ensures n <= span ==> span * (i + 1) / n < span * (j + 1) / n
  {
    LaterProduct(span, i, j);
    QuotientGrows(span * (i + 1), span * (j + 1), n);
  }

  lemma FirstPost(span: nat, n: nat)
    requires 0 < n
    ensures span * (0 + 1) / n == span / n
    ensures n <= span <==> 0 < span / n
  {
    QuotientBounds(span, n);
    if n <= span {
      QuotientGrows(n, span, n);
      QuotientOfMultiple(n, 1, n);
    }
  }

  /**
   * Recurring schedules: N deadlines indexed 1 .. N in order, after the start exactly when every step is a millisecond
   * or more, ending with the span.
   */
  lemma RecurringSchedule(startsAt: Option<int>, endsAt: Option<int>, posts: nat, bufferHours: nat, window: nat,
                          now: int)
    requires 2 <= posts
    ensures var s := GenerateSlotSchedule(startsAt, endsAt, posts, bufferHours, window, now);
            var start := EffectiveStart(startsAt, now);
            var span := Span(startsAt, endsAt, posts, bufferHours, window, now);
            && |s| == posts
            && (forall i :: 0 <= i < posts ==> s[i].index == i + 1 && s[i].scheduledFor == s[i].dueAt)
            && (forall i, j :: 0 <= i < j < posts ==> s[i].dueAt <= s[j].dueAt)
            && (posts <= span ==> forall i, j :: 0 <= i < j < posts ==> s[i].dueAt < s[j].dueAt)
            && (posts <= span <==> forall i :: 0 <= i < posts ==> start < s[i].dueAt)
            && s[posts - 1].dueAt == start + span
            && (endsAt.Some? && start < endsAt.value - bufferHours * HOUR ==>
               s[posts - 1].dueAt == endsAt.value - bufferHours * HOUR)
  {
    var s := GenerateSlotSchedule(startsAt, endsAt, posts, bufferHours, window, now);
    var start := EffectiveStart(startsAt, now);
    var span := Span(startsAt, endsAt, posts, bufferHours, window, now);
    assert 0 <= span;
    forall i, j | 0 <= i < j < posts
      ensures s[i].dueAt <= s[j].dueAt && (posts <= span ==> s[i].dueAt < s[j].dueAt)
    {
      LaterPost(span, i, j, posts);
    }
    FirstPost(span, posts);
    assert s[0].dueAt == start + span / posts;
    QuotientOfMultiple(span * (posts - 1 + 1), span, posts);
  }

  lemma WindowCovers(window: nat, posts: nat)
    requires 0 < window
    ensures posts <= window * posts
  {
  }

  /**
   * Every deadline of a recurring schedule is in the future, degenerate windows included, given a window of at least a
   * millisecond and a span of one a post.
   */
  lemma DeadlinesAreFuture(startsAt: Option<int>, endsAt: Option<int>, posts: nat, bufferHours: nat, window: nat,
                           now: int)
    requires 2 <= posts && 0 < window
    ensures var s := GenerateSlotSchedule(startsAt, endsAt, posts, bufferHours, window, now);
            var start := EffectiveStart(startsAt, now);
            && (forall i :: 0 <= i < posts ==> now <= s[i].dueAt)
            && (!(endsAt.Some? && start < endsAt.value - bufferHours * HOUR) ==>
                  forall i :: 0 <= i < posts ==> now < s[i].dueAt)
  {
    RecurringSchedule(startsAt, endsAt, posts, bufferHours, window, now);
    var span := Span(startsAt, endsAt, posts, bufferHours, window, now);
    var s := GenerateSlotSchedule(startsAt, endsAt, posts, bufferHours, window, now);
    WindowCovers(window, posts);
    FirstPost(span, posts);
    QuotientBounds(span, posts);
    assert s[0].dueAt == EffectiveStart(startsAt, now) + span / posts;
  }

  lemma ScheduleLength(startsAt: Option<int>, endsAt: Option<int>, posts: int, bufferHours: nat, window: nat, now: int)
    ensures |GenerateSlotSchedule(startsAt, endsAt, posts, bufferHours, window, now)| == Max(1, posts)
    ensures forall i :: 0 <= i < Max(1, posts) ==>
            GenerateSlotSchedule(startsAt, endsAt, posts, bufferHours, window, now)[i].index == i + 1
  {
  }
}
