/** What an acceptance writes, read off the rows: the promoter's posts, what each carries, and when each is due. */
module CampaignAccepts {
  import opened Common
  import opened Delivery
  import opened Campaigns
  import Schedule

  /** When a lone post is due: at the client's end less the buffer, unless that leaves less than the runway. */
  predicate LoneDeadline(due: int, endsAt: Option<int>, clock: Clock)
  {
    var runway := if clock.window < 6 * 3_600_000 then clock.window else 6 * 3_600_000;
    match endsAt
    case None => due == clock.now + clock.window
    case Some(end) =>
      && due <= end
      && (clock.now + runway <= end - clock.bufferHours * 3_600_000 ==> due == end - clock.bufferHours * 3_600_000)
      && (end - clock.bufferHours * 3_600_000 < clock.now + runway <= end ==> due == clock.now + runway)
      && (end < clock.now + runway ==> due == end)
  }

  /** The campaign's start, or now if that is later or it has none. */
  function From(startsAt: Option<int>, now: int): int
  {
    if startsAt.Some? && now < startsAt.value then startsAt.value else now
  }

  /** There is time between the start and the client's end less the buffer. */
  predicate Usable(c: Campaign, clock: Clock)
  {
    c.endsAt.Some? && From(c.startsAt, clock.now) < c.endsAt.value - clock.bufferHours * 3_600_000
  }

  /** When post p of n is due: its even share of the usable time, to the millisecond below, or p + 1 windows along. */
  predicate ShareDue(due: int, n: nat, p: int, c: Campaign, clock: Clock)
  {
    var start := From(c.startsAt, clock.now);
    if Usable(c, clock) then
      var usable := c.endsAt.value - clock.bufferHours * 3_600_000 - start;
      n * (due - start) <= usable * (p + 1) < n * (due - start) + n
    else due == start + clock.window * (p + 1)
  }

  /** When several posts are due: spread over the usable time, the last exactly at its end. */
  predicate SpreadDeadlines(posts: seq<DeliverySlot>, c: Campaign, clock: Clock)
  {
    && (posts != [] && Usable(c, clock) ==>
          posts[|posts| - 1].dueAt == c.endsAt.value - clock.bufferHours * 3_600_000)
    && forall p :: 0 <= p < |posts| ==> ShareDue(posts[p].dueAt, |posts|, p, c, clock)
  }

  /** Posts in order, as the offer pays for them, none handed in. */
  predicate FreshPosts(posts: seq<DeliverySlot>, o: Offer)
  {
    forall p :: 0 <= p < |posts| ==>
      && posts[p].index == p + 1 && posts[p].status == Pending
      && posts[p].gross == o.gross && posts[p].fee == o.fee && posts[p].promised == o.promised
  }

  lemma WindowAfterWindow(window: nat, n: nat, p: nat)
    requires 0 < n
    ensures window * n * (p + 1) / n == window * (p + 1)
  {
    assert window * n * (p + 1) == n * (window * (p + 1));
    Schedule.QuotientOfMultiple(window * n * (p + 1), window * (p + 1), n);
  }

  lemma SpreadIsEven(c: Campaign, n: nat, clock: Clock, p: nat)
    requires 2 <= n && p < n
    ensures var times :=
              Schedule.GenerateSlotSchedule(c.startsAt, c.endsAt, n, clock.bufferHours, clock.window, clock.now);
            |times| == n && ShareDue(times[p].dueAt, n, p, c, clock)
  {
    Schedule.ScheduleLength(c.startsAt, c.endsAt, n, clock.bufferHours, clock.window, clock.now);
    var span := Schedule.Span(c.startsAt, c.endsAt, n, clock.bufferHours, clock.window, clock.now);
    Schedule.QuotientBounds(span * (p + 1), n);
    WindowAfterWindow(clock.window, n, p);
  }

  lemma NewPostsAreFresh(c: Campaign, o: Offer, n: nat, clock: Clock)
    requires 1 <= n
    ensures |NewPosts(c, o, n, clock)| == n && FreshPosts(NewPosts(c, o, n, clock), o)
  {
    Schedule.ScheduleLength(c.startsAt, c.endsAt, n, clock.bufferHours, clock.window, clock.now);
  }

  lemma LonePostIsDue(c: Campaign, o: Offer, clock: Clock)
    ensures |NewPosts(c, o, 1, clock)| == 1 && LoneDeadline(NewPosts(c, o, 1, clock)[0].dueAt, c.endsAt, clock)
  {
  }

  lemma PostsAreSpread(c: Campaign, o: Offer, n: nat, clock: Clock)
    requires 2 <= n
    ensures SpreadDeadlines(NewPosts(c, o, n, clock), c, clock)
  {
    var posts := NewPosts(c, o, n, clock);
    NewPostsAreFresh(c, o, n, clock);
    Schedule.RecurringSchedule(c.startsAt, c.endsAt, n, clock.bufferHours, clock.window, clock.now);
    forall p | 0 <= p < n ensures ShareDue(posts[p].dueAt, n, p, c, clock) {
      SpreadIsEven(c, n, clock, p);
    }
  }

  /**
   * An acceptance succeeds exactly for the promoter the offer was sent to, while the offer stands, on a live campaign
   * with that slot; it fills the slot, marks the offer, counts the slot, and gives the promoter the slot's posts, each
   * as the offer pays for it and due as the campaign's dates ask.
   */
  lemma AcceptanceInFull(w: World, offer: nat, promoter: nat, clock: Clock, k: nat)
    ensures var c := w.campaign;
            var (w', reply) := AcceptOn(w, offer, promoter, clock, k);
            && (reply.Success?
                <==> offer < |c.offers| && c.offers[offer].promoter == promoter && c.offers[offer].status == Sent
                     && clock.now <= c.offers[offer].expiresAt && c.status == Live && k < |c.slots|)
            && (!reply.Success? ==> w' == w)
            && (reply.Success? ==>
                  var a := Assignment(offer, promoter, Some(k), InProgress, NewWork(w').posts);
                  && NewWork(w') == a && |a.posts| == (if c.slots[k].posts == 0 then 1 else c.slots[k].posts)
                  && FreshPosts(a.posts, c.offers[offer])
                  && (if |a.posts| == 1 then LoneDeadline(a.posts[0].dueAt, c.endsAt, clock)
                      else SpreadDeadlines(a.posts, c, clock))
                  && w' == w.(campaign := c.(slots := c.slots[k := c.slots[k].(status := Filled)],
                                             offers := c.offers[offer := c.offers[offer].(status := Accepted)],
                                             assignments := c.assignments + [a], slotsFilled := c.slotsFilled + 1)))
  {
    if AcceptOn(w, offer, promoter, clock, k).1.Success? {
      var n := Max(1, w.campaign.slots[k].posts);
      NewPostsAreFresh(w.campaign, w.campaign.offers[offer], n, clock);
      if n == 1 {
        LonePostIsDue(w.campaign, w.campaign.offers[offer], clock);
      } else {
        PostsAreSpread(w.campaign, w.campaign.offers[offer], n, clock);
      }
    }
  }

  /** The assignment added last. */
  function NewWork(w: World): Assignment
  {
    if w.campaign.assignments == [] then Assignment(0, 0, None, InProgress, [])
    else w.campaign.assignments[|w.campaign.assignments| - 1]
  }
}
