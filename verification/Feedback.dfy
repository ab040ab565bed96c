/** Feedback campaign deliveries: reserve, shown, then answered, dismissed or
    skipped, across any number of tabs. */
module Feedback {
  import opened Rows

  datatype Recurrence = EveryOccurrence | Daily | Weekly

  datatype Campaign = Campaign(site: int, key: string, recurrence: Recurrence, enabled: bool)

  /** A signed-in user counts by id, anyone else by visitor key. */
  datatype Identity = User(id: string) | Visitor(key: string)

  datatype Status = Reserved | Shown | Answered | Dismissed | Skipped

  datatype Delivery = Delivery(
    site: int,
    campaign: int,
    token: string,
    who: Identity,
    occurrence: string,
    recurrence: Recurrence,      // from the campaign snapshot taken on reserving
    status: Status,
    createdAt: int,
    shownAt: int,
    completedAt: int)

  datatype Response = Response(site: int, delivery: Option<int>, createdAt: int)

  datatype Refusal = NotFound | Disabled | NoIdentity | TooSoon | BadState
  datatype Outcome = Done(delivery: int) | Refused(reason: Refusal)

  const LEASE := 120
  const DAY := 86_400

  function Cooldown(r: Recurrence): (seconds: int)
    ensures seconds == 0 <==> r == EveryOccurrence
  {
    match r
    case EveryOccurrence => 0
    case Daily => DAY
    case Weekly => 7 * DAY
  }

  type Deliveries = map<int, Delivery>

  function IdentityOf(visitorKey: string, userId: string): Identity {
    if userId != "" then User(userId) else Visitor(visitorKey)
  }

  predicate Mine(d: Delivery, campaign: int, who: Identity) {
    d.campaign == campaign && d.who == who
  }

  /** A reservation that may still be shown. */
  predicate LiveAt(d: Delivery, now: int) {
    d.status == Reserved && d.createdAt > now - LEASE
  }

  // ---- What holds at every moment ----

  /** Whatever the order of clock readings: a delivery was reserved by now, and shown
      by a reading within its lease or never. */
  predicate TimesOk(d: Delivery, now: int) {
    && 0 < d.createdAt <= now
    && (d.status == Reserved ==> d.shownAt == 0 && d.completedAt == 0)
    && (d.status != Reserved ==> 0 < d.shownAt < d.createdAt + LEASE && d.shownAt <= now)
    && (d.status == Shown ==> d.completedAt == 0)
    && (Closed(d) ==> 0 < d.completedAt <= now)
  }

  predicate Closed(d: Delivery) {
    d.status in {Answered, Dismissed, Skipped}
  }

  ghost predicate AllTimesOk(ds: Deliveries, now: int) {
    forall i :: i in ds ==> TimesOk(ds[i], now)
  }

  /** Among two deliveries to one identity the earlier was shown by a reading no later
      than the reservation of the later, or its lease had run out by then. */
  ghost predicate Leased(ds: Deliveries) {
    forall i, j :: i in ds && j in ds && i < j && Mine(ds[i], ds[j].campaign, ds[j].who) ==> LeaseClear(ds[i], ds[j])
  }

  predicate LeaseClear(earlier: Delivery, later: Delivery) {
    if earlier.status == Reserved then earlier.createdAt <= later.createdAt - LEASE else earlier.shownAt <= later.createdAt
  }

  /** And its cooldown was over when the later was reserved. */
  ghost predicate Cooled(ds: Deliveries) {
    forall i, j :: i in ds && j in ds && i < j && Mine(ds[i], ds[j].campaign, ds[j].who) ==> CooledDown(ds[i], ds[j])
  }

  predicate CooledDown(earlier: Delivery, later: Delivery) {
    earlier.status != Reserved && Cooldown(later.recurrence) > 0 ==> earlier.shownAt < later.createdAt - Cooldown(later.recurrence)
  }

  /** No delivery was shown by a reading from before its reservation. */
  ghost predicate ShownAfterReserved(ds: Deliveries) {
    forall i :: i in ds && ds[i].status != Reserved ==> ds[i].createdAt <= ds[i].shownAt
  }

  /** No delivery was completed by a reading from before its showing. */
  ghost predicate ClosedAfterShown(ds: Deliveries) {
    forall i :: i in ds && Closed(ds[i]) ==> ds[i].shownAt <= ds[i].completedAt
  }

  ghost predicate OneDeliveryPerOccurrence(ds: Deliveries) {
    forall i, j :: i in ds && j in ds && Mine(ds[i], ds[j].campaign, ds[j].who) && ds[i].occurrence != "" && ds[i].occurrence == ds[j].occurrence ==> i == j
  }

  ghost predicate TokensOk(ds: Deliveries) {
    forall i, j :: i in ds && j in ds && ds[i].token == ds[j].token ==> i == j
  }

  /** A delivery has a response exactly when it is answered, and never two. */
  ghost predicate ResponsesOk(ds: Deliveries, responses: seq<Response>) {
    && (forall i :: i in ds ==> (ds[i].status == Answered <==> exists k :: 0 <= k < |responses| && responses[k].delivery == Some(i)))
    && (forall k :: 0 <= k < |responses| && responses[k].delivery.Some? ==> responses[k].delivery.value in ds)
    && (forall k, l :: 0 <= k < l < |responses| && responses[k].delivery.Some? ==> responses[k].delivery != responses[l].delivery)
  }

  /** All that holds whatever the order of readings. */
  ghost predicate Sound(ds: Deliveries, responses: seq<Response>, now: int) {
    AllTimesOk(ds, now) && Leased(ds) && OneDeliveryPerOccurrence(ds) && TokensOk(ds) && ResponsesOk(ds, responses)
  }

  // ---- How one moment becomes the next ----

  predicate Forward(a: Status, b: Status) {
    match a
    case Reserved => true
    case Shown => b != Reserved
    case _ => b == a
  }

  /** Deliveries are never lost, keep what they were made with, only move on, and
      are shown by readings from `since` on. */
  ghost predicate Advances(was: Deliveries, now: Deliveries, since: int) {
    forall i :: i in was ==> i in now && Moved(was[i], now[i], since)
  }

  predicate Moved(a: Delivery, b: Delivery, since: int) {
    && b == a.(status := b.status, shownAt := b.shownAt, completedAt := b.completedAt)
    && Forward(a.status, b.status)
    && (a.status != Reserved ==> b.shownAt == a.shownAt)
    && (a.status == Reserved && b.status != Reserved ==> b.shownAt >= since)
  }

  /** What each step keeps, whole runs keep, from the earliest of their readings. */
  lemma AdvancesTransitive(a: Deliveries, b: Deliveries, c: Deliveries, first: int, second: int)
    requires Advances(a, b, first) && Advances(b, c, second)
    ensures Advances(a, c, if first < second then first else second)
  {
    forall i | i in a ensures i in c && Moved(a[i], c[i], if first < second then first else second) {
      assert Moved(a[i], b[i], first) && Moved(b[i], c[i], second);
    }
  }

  /** Once its lease is over a reservation stays one for good, as far as every request
      that comes through later has read the clock no earlier. */
  lemma LeaseIsFinal(was: Deliveries, now: Deliveries, at: int, later: int, i: int)
    requires Advances(was, now, at) && AllTimesOk(now, later)
    requires i in was && was[i].status == Reserved && !LiveAt(was[i], at)
    ensures i in now && now[i].status == Reserved
  {
    assert Moved(was[i], now[i], at);
    assert TimesOk(now[i], later);
  }

  // ---- One showing ----

  function Showing(ds: Deliveries, i: int, read: int): Deliveries
    requires i in ds
  {
    ds[i := ds[i].(status := Shown, shownAt := read)]
  }

  function Closing(ds: Deliveries, i: int, action: Status, read: int): Deliveries
    requires i in ds
  {
    ds[i := ds[i].(status := action, completedAt := read)]
  }

  /** No younger delivery to the identity was reserved with this showing's reading
      inside its cooldown. */
  ghost predicate Timely(ds: Deliveries, i: int, read: int)
    requires i in ds
  {
    forall j :: j in ds && i < j && Mine(ds[i], ds[j].campaign, ds[j].who) && Cooldown(ds[j].recurrence) > 0 ==>
      read < ds[j].createdAt - Cooldown(ds[j].recurrence)
  }

  /** The exact condition: a showing keeps the cooldowns exactly when it is timely. */
  lemma ShowingKeepsCooledIff(ds: Deliveries, i: int, read: int)
    requires i in ds && ds[i].status == Reserved
    ensures Cooled(Showing(ds, i, read)) <==> Cooled(ds) && Timely(ds, i, read)
  {
    var ds' := Showing(ds, i, read);
    if Cooled(ds') {
      forall a, b | a in ds && b in ds && a < b && Mine(ds[a], ds[b].campaign, ds[b].who) ensures CooledDown(ds[a], ds[b]) {
        assert CooledDown(ds'[a], ds'[b]);
      }
      forall j | j in ds && i < j && Mine(ds[i], ds[j].campaign, ds[j].who) && Cooldown(ds[j].recurrence) > 0
        ensures read < ds[j].createdAt - Cooldown(ds[j].recurrence)
      {
        assert CooledDown(ds'[i], ds'[j]);
      }
    }
    if Cooled(ds) && Timely(ds, i, read) {
      forall a, b | a in ds' && b in ds' && a < b && Mine(ds'[a], ds'[b].campaign, ds'[b].who) ensures CooledDown(ds'[a], ds'[b]) {
        assert CooledDown(ds[a], ds[b]);
      }
    }
  }

  /** A request that read the clock no earlier than any younger reservation is timely:
      it finds none. */
  lemma PromptIsTimely(ds: Deliveries, i: int, read: int)
    requires Leased(ds) && i in ds && LiveAt(ds[i], read)
    requires forall j :: j in ds && i < j && Mine(ds[i], ds[j].campaign, ds[j].who) ==> ds[j].createdAt <= read
    ensures Timely(ds, i, read)
  {}

  /** A mark comes through after the lease is over exactly when it read the clock
      before. */
  lemma LateMarkIff(d: Delivery, read: int, now: int)
    requires d.status == Reserved && read <= now && !LiveAt(d, now)
    ensures LiveAt(d, read) <==> read < d.createdAt + 120 <= now
  {}

  // ---- The main property ----

  /** Two showings to one identity of one campaign are further apart than the
      cooldown the later was reserved under, when showings were timely and no token
      was used before it was given out. */
  lemma CooldownHolds(ds: Deliveries, i: int, j: int)
    requires Leased(ds) && Cooled(ds) && ShownAfterReserved(ds)
    requires i in ds && j in ds && i < j && Mine(ds[i], ds[j].campaign, ds[j].who)
    requires ds[i].status != Reserved && ds[j].status != Reserved
    ensures ds[j].shownAt >= ds[i].shownAt
    ensures ds[j].recurrence == Daily ==> ds[j].shownAt - ds[i].shownAt > 86_400
    ensures ds[j].recurrence == Weekly ==> ds[j].shownAt - ds[i].shownAt > 604_800
  {
    assert LeaseClear(ds[i], ds[j]) && CooledDown(ds[i], ds[j]);
  }

  /** At most one reservation per identity can be live. */
  lemma OneLiveReservation(ds: Deliveries, now: int, i: int, j: int)
    requires AllTimesOk(ds, now) && Leased(ds)
    requires i in ds && j in ds && Mine(ds[i], ds[j].campaign, ds[j].who) && LiveAt(ds[i], now) && LiveAt(ds[j], now)
    ensures i == j
  {
    if i < j { NotBothLive(ds, now, i, j); }
    if j < i { NotBothLive(ds, now, j, i); }
  }

  lemma NotBothLive(ds: Deliveries, now: int, i: int, j: int)
    requires AllTimesOk(ds, now) && Leased(ds)
    requires i in ds && j in ds && i < j && Mine(ds[i], ds[j].campaign, ds[j].who)
    ensures !(LiveAt(ds[i], now) && LiveAt(ds[j], now))
  {
    assert TimesOk(ds[i], now) && TimesOk(ds[j], now);
    assert LeaseClear(ds[i], ds[j]);
  }

  /** The failing run: the first tab's mark has read the clock in time and waits for
      the connection; the second tab reserves and is shown. The two showings lie two
      seconds apart. */
  lemma WaitingMarkBreaksCooldown(start: int, first: Delivery, second: Delivery)
    requires start >= 7 * DAY && Mine(first, second.campaign, second.who) && second.recurrence != EveryOccurrence
    requires first.status == Reserved && first.createdAt == start + 1 && first.shownAt == 0 && first.completedAt == 0
    requires second.status == Reserved && second.createdAt == start + 121 && second.shownAt == 0 && second.completedAt == 0
    requires second.occurrence == "" || first.occurrence != second.occurrence
    ensures !Blocks(first, second.campaign, second.recurrence, second.who, second.occurrence, start + 121)
    ensures var reserved := map[1 := first, 2 := second];
            var shown := Showing(reserved, 1, start + 120);
            var both := Showing(shown, 2, start + 122);
            && Leased(reserved) && Cooled(reserved)
            && LiveAt(reserved[1], start + 120) && !Timely(reserved, 1, start + 120)
            && LiveAt(shown[2], start + 122)
            && both[2].shownAt - both[1].shownAt == 2 && !Cooled(both)
  {
    var reserved := map[1 := first, 2 := second];
    var both := Showing(Showing(reserved, 1, start + 120), 2, start + 122);
    assert !CooledDown(both[1], both[2]);
  }

  ghost predicate Numbered(ds: Deliveries, last: int) {
    forall i :: i in ds ==> i <= last
  }

  /** UNIQUE (site_id, campaign_key). */
  ghost predicate CampaignKeys(campaigns: map<int, Campaign>) {
    forall a, b :: a in campaigns && b in campaigns && campaigns[a].site == campaigns[b].site && campaigns[a].key == campaigns[b].key ==> a == b
  }

  ghost predicate AllKept(ds: Deliveries, responses: seq<Response>, clock: int, last: int, timely: bool, shownAfter: bool, closedAfter: bool) {
    && Numbered(ds, last) && Sound(ds, responses, clock)
    && (Cooled(ds) <==> timely) && (ShownAfterReserved(ds) <==> shownAfter) && (ClosedAfterShown(ds) <==> closedAfter)
  }

  /** Reservations read the clock inside their transaction; marks and answers read it
      first and then wait for the connection, so `read` may lie before `now`, the
      moment the statement runs. */
  class Store {
    var campaigns: map<int, Campaign>
    var deliveries: Deliveries
    var responses: seq<Response>
    var lastDelivery: int
    ghost var clock: int
    // whether every showing so far was timely, every showing's reading followed its
    // reservation, and every completion's reading its showing
    ghost var timely: bool
    ghost var shownAfter: bool
    ghost var closedAfter: bool

    /** The conditional properties hold exactly when every step met their condition. */
    ghost predicate Valid()
      reads this
    {
      && clock > 0 && CampaignKeys(campaigns)
      && AllKept(deliveries, responses, clock, lastDelivery, timely, shownAfter, closedAfter)
    }

    constructor (now: int)
      requires now > 0
      ensures Valid() && clock == now && deliveries == map[] && responses == [] && campaigns == map[]
      ensures timely && shownAfter && closedAfter
    {
      campaigns, deliveries, responses, lastDelivery, clock := map[], map[], [], 0, now;
      timely, shownAfter, closedAfter := true, true, true;
    }

    /** ReserveFeedbackCampaign, one transaction. */
    method Reserve(site: int, key: string, visitorKey: string, userId: string, occurrence: string, token: string, now: int) returns (r: Outcome)
      requires Valid() && now >= clock && forall i :: i in deliveries ==> deliveries[i].token != token
      modifies this
      ensures Valid() && clock == now && Advances(old(deliveries), deliveries, old(clock)) && responses == old(responses) && campaigns == old(campaigns)
      ensures timely == old(timely) && shownAfter == old(shownAfter) && closedAfter == old(closedAfter)
      ensures r.Refused? ==> deliveries == old(deliveries)
      ensures r.Done? ==>
                && r.delivery !in old(deliveries) && r.delivery in deliveries
                && deliveries == old(deliveries)[r.delivery := deliveries[r.delivery]]
                && var d := deliveries[r.delivery];
                  && d.status == Reserved && d.createdAt == now && d.token == token && d.occurrence == occurrence
                  && d.who == IdentityOf(visitorKey, userId) && d.campaign in campaigns
                  && campaigns[d.campaign] == Campaign(site, key, d.recurrence, true)
      ensures r.Done? ==> forall i :: i in old(deliveries) ==>
                !Blocks(old(deliveries)[i], deliveries[r.delivery].campaign, deliveries[r.delivery].recurrence, IdentityOf(visitorKey, userId), occurrence, now)
      // a reservation succeeds for an enabled campaign and a known visitor whom no
      // delivery blocks: one for the same occurrence, one reserved in the last two
      // minutes, or one shown within the last day or week
      ensures r.Done? <==>
                && (userId != "" || visitorKey != "")
                && exists c ::
                     && c in campaigns && campaigns[c].site == site && campaigns[c].key == key && campaigns[c].enabled
                     && forall i :: i in old(deliveries) ==>
                          var d := old(deliveries)[i];
                          d.campaign == c && d.who == (if userId != "" then User(userId) else Visitor(visitorKey)) ==>
                            && (occurrence == "" || d.occurrence != occurrence)
                            && (d.status != Reserved || d.createdAt <= now - 120)
                            && (campaigns[c].recurrence == Daily ==> d.shownAt < now - 86_400)
                            && (campaigns[c].recurrence == Weekly ==> d.shownAt < now - 604_800)
      ensures r == Refused(NotFound) <==> forall c :: c in campaigns ==> campaigns[c].site != site || campaigns[c].key != key
      ensures r == Refused(Disabled) <==> exists c :: c in campaigns && campaigns[c].site == site && campaigns[c].key == key && !campaigns[c].enabled
      ensures r == Refused(TooSoon) ==> exists c, i ::
                && c in campaigns && campaigns[c].site == site && campaigns[c].key == key
                && i in old(deliveries) && Blocks(old(deliveries)[i], c, campaigns[c].recurrence, IdentityOf(visitorKey, userId), occurrence, now)
      ensures r == Refused(NoIdentity) <==>
                && userId == "" && visitorKey == ""
                && exists c :: c in campaigns && campaigns[c].site == site && campaigns[c].key == key && campaigns[c].enabled
      ensures r != Refused(BadState)
    {
      hide AllKept, CampaignKeys, Advances, Blocks;
      OneCampaign(campaigns);
      BlocksMean(campaigns, deliveries, visitorKey, userId, occurrence, now);
      clock := now;
      LaterKept(deliveries, responses, old(clock), now, lastDelivery, timely, shownAfter, closedAfter);
      SameAdvances(deliveries, old(clock));
      if c :| c in campaigns && campaigns[c].site == site && campaigns[c].key == key {
        var campaign := campaigns[c];
        if !campaign.enabled {
          return Refused(Disabled);
        }
        var who := IdentityOf(visitorKey, userId);
        if userId == "" && visitorKey == "" {
          return Refused(NoIdentity);
        }
        if i :| i in deliveries && Blocks(deliveries[i], c, campaign.recurrence, who, occurrence, now) {
          return Refused(TooSoon);
        }
        var id := AddDelivery(Delivery(site, c, token, who, occurrence, campaign.recurrence, Reserved, now, 0, 0), old(clock));
        return Done(id);
      } else {
        return Refused(NotFound);
      }
    }

    /** The INSERT of a reservation that nothing blocks. */
    method AddDelivery(d: Delivery, ghost since: int) returns (id: int)
      requires Valid() && d.createdAt == clock >= since && forall i :: i in deliveries ==> deliveries[i].token != d.token
      requires d.status == Reserved && d.shownAt == 0 && d.completedAt == 0
      requires forall i :: i in deliveries ==> !Blocks(deliveries[i], d.campaign, d.recurrence, d.who, d.occurrence, clock)
      modifies this`deliveries, this`lastDelivery
      ensures Valid() && id !in old(deliveries) && deliveries == old(deliveries)[id := d]
      ensures Advances(old(deliveries), deliveries, since)
    {
      hide AllKept, CampaignKeys, Advances, Blocks;
      id := lastDelivery + 1;
      ReserveKept(deliveries, responses, clock, lastDelivery, d, timely, shownAfter, closedAfter);
      WatchedEarlier(deliveries, deliveries[id := d], clock, since);
      deliveries := deliveries[id := d];
      lastDelivery := id;
    }

    /** MarkFeedbackDelivery with the action "shown". */
    method MarkShown(site: int, token: string, read: int, now: int) returns (r: Outcome)
      requires Valid() && now >= clock && 0 < read <= now
      modifies this
      ensures Valid() && clock == now && Advances(old(deliveries), deliveries, read) && responses == old(responses) && campaigns == old(campaigns)
      ensures r.Done? <==> exists i :: i in old(deliveries) && old(deliveries)[i].site == site && old(deliveries)[i].token == token && LiveAt(old(deliveries)[i], read)
      ensures r.Done? <==> exists i ::
                && i in old(deliveries) && old(deliveries)[i].site == site && old(deliveries)[i].token == token
                && old(deliveries)[i].status == Reserved && old(deliveries)[i].createdAt > read - 120
      ensures r.Done? ==>
                && r.delivery in old(deliveries) && old(deliveries)[r.delivery].token == token
                && deliveries == Showing(old(deliveries), r.delivery, read)
                && deliveries[r.delivery] == old(deliveries)[r.delivery].(status := Shown, shownAt := read)
                && (timely <==> old(timely) && Timely(old(deliveries), r.delivery, read))
                && (shownAfter <==> old(shownAfter) && old(deliveries)[r.delivery].createdAt <= read)
      ensures r.Refused? ==> r.reason == BadState && deliveries == old(deliveries) && timely == old(timely) && shownAfter == old(shownAfter)
      ensures closedAfter == old(closedAfter)
    {
      hide CampaignKeys, AllKept, Advances, Timely;
      clock := now;
      LaterKept(deliveries, responses, old(clock), now, lastDelivery, timely, shownAfter, closedAfter);
      SameAdvances(deliveries, read);
      if i :| i in deliveries && deliveries[i].site == site && deliveries[i].token == token && LiveAt(deliveries[i], read) {
        ShowKept(deliveries, responses, i, read, now, lastDelivery, timely, shownAfter, closedAfter);
        timely := timely && Timely(deliveries, i, read);
        shownAfter := shownAfter && deliveries[i].createdAt <= read;
        deliveries := Showing(deliveries, i, read);
        return Done(i);
      }
      return Refused(BadState);
    }

    /** MarkFeedbackDelivery with "dismissed" or "skipped". */
    method MarkClosed(site: int, token: string, action: Status, read: int, now: int) returns (r: Outcome)
      requires Valid() && now >= clock && 0 < read <= now && action in {Dismissed, Skipped}
      modifies this
      ensures Valid() && clock == now && Advances(old(deliveries), deliveries, read) && responses == old(responses) && campaigns == old(campaigns)
      ensures r.Done? <==> exists i :: i in old(deliveries) && old(deliveries)[i].site == site && old(deliveries)[i].token == token && old(deliveries)[i].status == Shown
      ensures r.Done? ==>
                && r.delivery in old(deliveries) && old(deliveries)[r.delivery].token == token
                && deliveries == Closing(old(deliveries), r.delivery, action, read)
                && deliveries[r.delivery] == old(deliveries)[r.delivery].(status := action, completedAt := read)
                && (closedAfter <==> old(closedAfter) && old(deliveries)[r.delivery].shownAt <= read)
      ensures r.Refused? ==> r.reason == BadState && deliveries == old(deliveries) && closedAfter == old(closedAfter)
      ensures timely == old(timely) && shownAfter == old(shownAfter)
    {
      hide CampaignKeys, AllKept, Advances;
      clock := now;
      LaterKept(deliveries, responses, old(clock), now, lastDelivery, timely, shownAfter, closedAfter);
      SameAdvances(deliveries, read);
      if i :| i in deliveries && deliveries[i].site == site && deliveries[i].token == token && deliveries[i].status == Shown {
        CloseKept(deliveries, responses, i, action, read, now, lastDelivery, timely, shownAfter, closedAfter);
        closedAfter := closedAfter && deliveries[i].shownAt <= read;
        deliveries := Closing(deliveries, i, action, read);
        return Done(i);
      }
      return Refused(BadState);
    }

    /** SaveFeedback: with a token, the response and the delivery change together. */
    method SaveFeedback(site: int, token: string, read: int, now: int) returns (r: Outcome)
      requires Valid() && now >= clock && 0 < read <= now
      modifies this
      ensures Valid() && clock == now && Advances(old(deliveries), deliveries, read) && campaigns == old(campaigns)
      ensures token == "" ==> deliveries == old(deliveries) && responses == old(responses) + [Response(site, None, read)] && closedAfter == old(closedAfter)
      ensures token != "" ==>
                (r.Done? <==> exists i :: i in old(deliveries) && old(deliveries)[i].site == site && old(deliveries)[i].token == token && old(deliveries)[i].status == Shown)
      ensures token != "" && r.Done? ==>
                && r.delivery in old(deliveries) && old(deliveries)[r.delivery].token == token
                && responses == old(responses) + [Response(site, Some(r.delivery), read)]
                && deliveries == Closing(old(deliveries), r.delivery, Answered, read)
                && deliveries[r.delivery] == old(deliveries)[r.delivery].(status := Answered, completedAt := read)
                && (closedAfter <==> old(closedAfter) && old(deliveries)[r.delivery].shownAt <= read)
      ensures r.Refused? ==> r.reason == BadState && deliveries == old(deliveries) && responses == old(responses) && closedAfter == old(closedAfter)
      ensures timely == old(timely) && shownAfter == old(shownAfter)
    {
      hide CampaignKeys, AllKept, Advances;
      clock := now;
      LaterKept(deliveries, responses, old(clock), now, lastDelivery, timely, shownAfter, closedAfter);
      SameAdvances(deliveries, read);
      if token == "" {
        PlainKept(deliveries, responses, Response(site, None, read), now, lastDelivery, timely, shownAfter, closedAfter);
        responses := responses + [Response(site, None, read)];
        return Done(0);
      }
      if i :| i in deliveries && deliveries[i].site == site && deliveries[i].token == token && deliveries[i].status == Shown {
        AnswerKept(deliveries, responses, i, read, now, Response(site, Some(i), read), lastDelivery, timely, shownAfter, closedAfter);
        closedAfter := closedAfter && deliveries[i].shownAt <= read;
        responses := responses + [Response(site, Some(i), read)];
        deliveries := Closing(deliveries, i, Answered, read);
        return Done(i);
      }
      return Refused(BadState);
    }

    /** Creating or editing a campaign leaves deliveries alone. */
    method PutCampaign(id: int, c: Campaign)
      requires Valid() && forall a :: a in campaigns && campaigns[a].site == c.site && campaigns[a].key == c.key ==> a == id
      modifies this`campaigns
      ensures Valid() && campaigns == old(campaigns)[id := c]
    {
      hide AllKept;
      campaigns := campaigns[id := c];
    }
  }

  /** One of the three checks a reservation fails on. */
  predicate Blocks(d: Delivery, campaign: int, recurrence: Recurrence, who: Identity, occurrence: string, now: int) {
    && Mine(d, campaign, who)
    && (
         || (occurrence != "" && d.occurrence == occurrence)
         || LiveAt(d, now)
         || (Cooldown(recurrence) > 0 && d.shownAt >= now - Cooldown(recurrence))
       )
  }

  lemma LaterKept(ds: Deliveries, responses: seq<Response>, clock: int, now: int, last: int, timely: bool, shownAfter: bool, closedAfter: bool)
    requires AllKept(ds, responses, clock, last, timely, shownAfter, closedAfter) && now >= clock
    ensures AllKept(ds, responses, now, last, timely, shownAfter, closedAfter)
  {
    hide Sound, Cooled, ShownAfterReserved, ClosedAfterShown, Advances, Numbered;
    LaterClock(ds, responses, clock, now);
  }

  lemma ReserveKept(ds: Deliveries, responses: seq<Response>, now: int, last: int, d: Delivery, timely: bool, shownAfter: bool, closedAfter: bool)
    requires AllKept(ds, responses, now, last, timely, shownAfter, closedAfter) && now > 0 && forall i :: i in ds ==> ds[i].token != d.token
    requires d.status == Reserved && d.createdAt == now && d.shownAt == 0 && d.completedAt == 0
    requires forall i :: i in ds ==> !Blocks(ds[i], d.campaign, d.recurrence, d.who, d.occurrence, now)
    ensures AllKept(ds[last + 1 := d], responses, now, last + 1, timely, shownAfter, closedAfter)
    ensures Advances(ds, ds[last + 1 := d], now) && last + 1 !in ds
  {
    NextNumber(ds, last, d);
    hide Sound, Cooled, ShownAfterReserved, ClosedAfterShown, Advances, Numbered;
    hide Blocks;
    ReserveKeeps(ds, responses, last + 1, d, now);
  }

  lemma NextNumber(ds: Deliveries, last: int, d: Delivery)
    requires Numbered(ds, last)
    ensures Numbered(ds[last + 1 := d], last + 1) && last + 1 !in ds && forall i :: i in ds ==> i < last + 1
  {}

  lemma ShowKept(ds: Deliveries, responses: seq<Response>, i: int, read: int, now: int, last: int, timely: bool, shownAfter: bool, closedAfter: bool)
    requires AllKept(ds, responses, now, last, timely, shownAfter, closedAfter) && i in ds && LiveAt(ds[i], read) && 0 < read <= now
    ensures AllKept(Showing(ds, i, read), responses, now, last, timely && Timely(ds, i, read), shownAfter && ds[i].createdAt <= read, closedAfter)
    ensures Advances(ds, Showing(ds, i, read), read)
  {
    hide Sound, Cooled, ShownAfterReserved, ClosedAfterShown, Advances, Numbered;
    hide LiveAt, Timely;
    ReservedIfLive(ds[i], read);
    NumbersStay(ds, last, i, ds[i].(status := Shown, shownAt := read));
    ShowKeeps(ds, responses, i, read, now);
    ShowingKeepsCooledIff(ds, i, read);
  }

  lemma CloseKept(ds: Deliveries, responses: seq<Response>, i: int, action: Status, read: int, now: int, last: int, timely: bool, shownAfter: bool, closedAfter: bool)
    requires AllKept(ds, responses, now, last, timely, shownAfter, closedAfter)
    requires i in ds && ds[i].status == Shown && action in {Dismissed, Skipped} && 0 < read <= now
    ensures AllKept(Closing(ds, i, action, read), responses, now, last, timely, shownAfter, closedAfter && ds[i].shownAt <= read)
    ensures Advances(ds, Closing(ds, i, action, read), read)
  {
    hide Sound, Cooled, ShownAfterReserved, ClosedAfterShown, Advances, Numbered;
    NumbersStay(ds, last, i, ds[i].(status := action, completedAt := read));
    CloseKeeps(ds, responses, i, action, read, now);
  }

  lemma AnswerKept(ds: Deliveries, responses: seq<Response>, i: int, read: int, now: int, r: Response, last: int, timely: bool, shownAfter: bool, closedAfter: bool)
    requires AllKept(ds, responses, now, last, timely, shownAfter, closedAfter)
    requires i in ds && ds[i].status == Shown && 0 < read <= now && r.delivery == Some(i)
    ensures AllKept(Closing(ds, i, Answered, read), responses + [r], now, last, timely, shownAfter, closedAfter && ds[i].shownAt <= read)
    ensures Advances(ds, Closing(ds, i, Answered, read), read)
  {
    hide Sound, Cooled, ShownAfterReserved, ClosedAfterShown, Advances, Numbered;
    NumbersStay(ds, last, i, ds[i].(status := Answered, completedAt := read));
    AnswerKeeps(ds, responses, i, read, now, r);
  }

  lemma PlainKept(ds: Deliveries, responses: seq<Response>, r: Response, now: int, last: int, timely: bool, shownAfter: bool, closedAfter: bool)
    requires AllKept(ds, responses, now, last, timely, shownAfter, closedAfter) && r.delivery.None?
    ensures AllKept(ds, responses + [r], now, last, timely, shownAfter, closedAfter)
  {
    hide Sound, Cooled, ShownAfterReserved, ClosedAfterShown, Advances, Numbered;
    PlainResponse(ds, responses, r, now);
  }

  /** A site's key names one campaign. */
  lemma OneCampaign(campaigns: map<int, Campaign>)
    requires CampaignKeys(campaigns)
    ensures forall a, b :: a in campaigns && b in campaigns && campaigns[a].site == campaigns[b].site && campaigns[a].key == campaigns[b].key ==> a == b
  {}

  lemma BlocksMean(campaigns: map<int, Campaign>, ds: Deliveries, visitorKey: string, userId: string, occurrence: string, now: int)
    ensures forall c, i :: c in campaigns && i in ds ==>
              (!Blocks(ds[i], c, campaigns[c].recurrence, IdentityOf(visitorKey, userId), occurrence, now) <==>
                (ds[i].campaign == c && ds[i].who == (if userId != "" then User(userId) else Visitor(visitorKey)) ==>
                  && (occurrence == "" || ds[i].occurrence != occurrence)
                  && (ds[i].status != Reserved || ds[i].createdAt <= now - 120)
                  && (campaigns[c].recurrence == Daily ==> ds[i].shownAt < now - 86_400)
                  && (campaigns[c].recurrence == Weekly ==> ds[i].shownAt < now - 604_800)))
  {}

  lemma WatchedEarlier(was: Deliveries, now: Deliveries, since: int, earlier: int)
    requires Advances(was, now, since) && earlier <= since
    ensures Advances(was, now, earlier)
  {}

  lemma NumbersStay(ds: Deliveries, last: int, i: int, d: Delivery)
    requires Numbered(ds, last) && i in ds
    ensures Numbered(ds[i := d], last)
  {}

  lemma ReservedIfLive(d: Delivery, now: int)
    requires LiveAt(d, now)
    ensures d.status == Reserved
  {}

  lemma SameAdvances(ds: Deliveries, since: int)
    ensures Advances(ds, ds, since)
  {}

  lemma LaterClock(ds: Deliveries, responses: seq<Response>, clock: int, now: int)
    requires Sound(ds, responses, clock) && now >= clock
    ensures Sound(ds, responses, now)
  {
    hide Leased, OneDeliveryPerOccurrence, TokensOk, ResponsesOk;
  }

  // ---- A reservation keeps everything ----

  lemma ReserveKeeps(ds: Deliveries, responses: seq<Response>, id: int, d: Delivery, now: int)
    requires Sound(ds, responses, now) && now > 0 && forall i :: i in ds ==> i < id && ds[i].token != d.token
    requires d.status == Reserved && d.createdAt == now && d.shownAt == 0 && d.completedAt == 0
    requires forall i :: i in ds ==> !Blocks(ds[i], d.campaign, d.recurrence, d.who, d.occurrence, now)
    ensures var ds' := ds[id := d];
            && Sound(ds', responses, now) && Advances(ds, ds', now)
            && (Cooled(ds') <==> Cooled(ds)) && (ShownAfterReserved(ds') <==> ShownAfterReserved(ds)) && (ClosedAfterShown(ds') <==> ClosedAfterShown(ds))
  {
    hide Leased, Cooled, OneDeliveryPerOccurrence, TokensOk, ResponsesOk, AllTimesOk, ShownAfterReserved, ClosedAfterShown, Advances, Blocks;
    ReserveSpaced(ds, id, d, now);
    ReserveUnique(ds, responses, id, d, now);
    ReserveOrder(ds, id, d, now);
  }

  lemma ReserveSpaced(ds: Deliveries, id: int, d: Delivery, now: int)
    requires AllTimesOk(ds, now) && Leased(ds) && forall i :: i in ds ==> i < id
    requires d.status == Reserved && d.createdAt == now
    requires forall i :: i in ds ==> !Blocks(ds[i], d.campaign, d.recurrence, d.who, d.occurrence, now)
    ensures Leased(ds[id := d]) && (Cooled(ds[id := d]) <==> Cooled(ds))
  {
    var ds' := ds[id := d];
    forall i | i in ds && Mine(ds[i], d.campaign, d.who) ensures LeaseClear(ds[i], d) && CooledDown(ds[i], d) {
      assert !Blocks(ds[i], d.campaign, d.recurrence, d.who, d.occurrence, now);
      assert TimesOk(ds[i], now);
    }
    if Cooled(ds') {
      forall a, b | a in ds && b in ds && a < b && Mine(ds[a], ds[b].campaign, ds[b].who) ensures CooledDown(ds[a], ds[b]) {
        assert CooledDown(ds'[a], ds'[b]);
      }
    }
  }

  lemma ReserveUnique(ds: Deliveries, responses: seq<Response>, id: int, d: Delivery, now: int)
    requires OneDeliveryPerOccurrence(ds) && TokensOk(ds) && ResponsesOk(ds, responses) && forall i :: i in ds ==> i < id && ds[i].token != d.token
    requires d.status == Reserved
    requires forall i :: i in ds ==> !Blocks(ds[i], d.campaign, d.recurrence, d.who, d.occurrence, now)
    ensures OneDeliveryPerOccurrence(ds[id := d]) && TokensOk(ds[id := d]) && ResponsesOk(ds[id := d], responses)
  {
    forall i | i in ds ensures !(Mine(ds[i], d.campaign, d.who) && d.occurrence != "" && ds[i].occurrence == d.occurrence) {
      assert !Blocks(ds[i], d.campaign, d.recurrence, d.who, d.occurrence, now);
    }
    hide Blocks;
  }

  lemma ReserveOrder(ds: Deliveries, id: int, d: Delivery, now: int)
    requires AllTimesOk(ds, now) && id !in ds && now > 0
    requires d.status == Reserved && d.createdAt == now && d.shownAt == 0 && d.completedAt == 0
    ensures var ds' := ds[id := d];
            && AllTimesOk(ds', now) && Advances(ds, ds', now)
            && (ShownAfterReserved(ds') <==> ShownAfterReserved(ds)) && (ClosedAfterShown(ds') <==> ClosedAfterShown(ds))
  {
    var ds' := ds[id := d];
    assert forall i :: i in ds ==> ds'[i] == ds[i];
  }

  // ---- A showing ----

  lemma ShowKeeps(ds: Deliveries, responses: seq<Response>, i: int, read: int, now: int)
    requires Sound(ds, responses, now) && i in ds && LiveAt(ds[i], read) && 0 < read <= now
    ensures var ds' := Showing(ds, i, read);
            && Sound(ds', responses, now) && Advances(ds, ds', read)
            && (ShownAfterReserved(ds') <==> ShownAfterReserved(ds) && ds[i].createdAt <= read)
            && (ClosedAfterShown(ds') <==> ClosedAfterShown(ds))
  {
    hide Leased, OneDeliveryPerOccurrence, TokensOk, ResponsesOk, ShownAfterReserved, ClosedAfterShown;
    ShowLeased(ds, i, read);
    ShowOthers(ds, responses, i, read);
    ShowOrder(ds, i, read);
  }

  lemma ShowLeased(ds: Deliveries, i: int, read: int)
    requires Leased(ds) && i in ds && LiveAt(ds[i], read)
    ensures Leased(Showing(ds, i, read))
  {
    var ds' := Showing(ds, i, read);
    forall a, b | a in ds' && b in ds' && a < b && Mine(ds'[a], ds'[b].campaign, ds'[b].who) ensures LeaseClear(ds'[a], ds'[b]) {
      assert LeaseClear(ds[a], ds[b]);
    }
  }

  lemma ShowOthers(ds: Deliveries, responses: seq<Response>, i: int, read: int)
    requires OneDeliveryPerOccurrence(ds) && TokensOk(ds) && ResponsesOk(ds, responses) && i in ds && ds[i].status == Reserved
    ensures var ds' := Showing(ds, i, read);
            OneDeliveryPerOccurrence(ds') && TokensOk(ds') && ResponsesOk(ds', responses)
  {}

  lemma ShowOrder(ds: Deliveries, i: int, read: int)
    requires i in ds && ds[i].status == Reserved
    ensures var ds' := Showing(ds, i, read);
            && (ShownAfterReserved(ds') <==> ShownAfterReserved(ds) && ds[i].createdAt <= read)
            && (ClosedAfterShown(ds') <==> ClosedAfterShown(ds))
  {
    var ds' := Showing(ds, i, read);
    assert forall j :: j in ds && j != i ==> ds'[j] == ds[j];
    assert ds'[i].status == Shown && ds'[i].shownAt == read;
  }

  // ---- A completion ----

  lemma CloseTimes(ds: Deliveries, i: int, action: Status, read: int, now: int)
    requires AllTimesOk(ds, now) && Leased(ds) && OneDeliveryPerOccurrence(ds) && TokensOk(ds)
    requires i in ds && ds[i].status == Shown && action in {Answered, Dismissed, Skipped} && 0 < read <= now
    ensures var ds' := Closing(ds, i, action, read);
            AllTimesOk(ds', now) && Leased(ds') && OneDeliveryPerOccurrence(ds') && TokensOk(ds') && Advances(ds, ds', read)
  {
    var ds' := Closing(ds, i, action, read);
    hide OneDeliveryPerOccurrence, TokensOk;
    forall a, b | a in ds' && b in ds' && a < b && Mine(ds'[a], ds'[b].campaign, ds'[b].who) ensures LeaseClear(ds'[a], ds'[b]) {
      assert LeaseClear(ds[a], ds[b]);
    }
    CloseUnique(ds, i, action, read);
  }

  lemma CloseUnique(ds: Deliveries, i: int, action: Status, read: int)
    requires OneDeliveryPerOccurrence(ds) && TokensOk(ds) && i in ds
    ensures OneDeliveryPerOccurrence(Closing(ds, i, action, read)) && TokensOk(Closing(ds, i, action, read))
  {}

  lemma CloseOrder(ds: Deliveries, i: int, action: Status, read: int)
    requires i in ds && ds[i].status == Shown && action in {Answered, Dismissed, Skipped}
    ensures var ds' := Closing(ds, i, action, read);
            && (Cooled(ds') <==> Cooled(ds)) && (ShownAfterReserved(ds') <==> ShownAfterReserved(ds))
            && (ClosedAfterShown(ds') <==> ClosedAfterShown(ds) && ds[i].shownAt <= read)
  {
    var ds' := Closing(ds, i, action, read);
    assert ds'[i] == ds[i].(status := action, completedAt := read);
    assert forall j :: j in ds && j != i ==> ds'[j] == ds[j];
    CloseCooled(ds, i, action, read);
    hide Cooled;
  }

  lemma CloseCooled(ds: Deliveries, i: int, action: Status, read: int)
    requires i in ds && ds[i].status == Shown && action in {Answered, Dismissed, Skipped}
    ensures Cooled(Closing(ds, i, action, read)) <==> Cooled(ds)
  {
    var ds' := Closing(ds, i, action, read);
    forall a, b | a in ds && b in ds
      ensures Mine(ds'[a], ds'[b].campaign, ds'[b].who) <==> Mine(ds[a], ds[b].campaign, ds[b].who)
      ensures CooledDown(ds'[a], ds'[b]) <==> CooledDown(ds[a], ds[b])
    {}
    hide Mine, CooledDown;
  }

  lemma CloseKeeps(ds: Deliveries, responses: seq<Response>, i: int, action: Status, read: int, now: int)
    requires Sound(ds, responses, now) && i in ds && ds[i].status == Shown && action in {Dismissed, Skipped} && 0 < read <= now
    ensures var ds' := Closing(ds, i, action, read);
            && Sound(ds', responses, now) && Advances(ds, ds', read)
            && (Cooled(ds') <==> Cooled(ds)) && (ShownAfterReserved(ds') <==> ShownAfterReserved(ds))
            && (ClosedAfterShown(ds') <==> ClosedAfterShown(ds) && ds[i].shownAt <= read)
  {
    hide Leased, OneDeliveryPerOccurrence, TokensOk, AllTimesOk, Advances, Cooled, ShownAfterReserved, ClosedAfterShown;
    CloseTimes(ds, i, action, read, now);
    CloseOrder(ds, i, action, read);
  }

  lemma AnswerKeeps(ds: Deliveries, responses: seq<Response>, i: int, read: int, now: int, r: Response)
    requires Sound(ds, responses, now) && i in ds && ds[i].status == Shown && 0 < read <= now && r.delivery == Some(i)
    ensures var ds' := Closing(ds, i, Answered, read);
            && Sound(ds', responses + [r], now) && Advances(ds, ds', read)
            && (Cooled(ds') <==> Cooled(ds)) && (ShownAfterReserved(ds') <==> ShownAfterReserved(ds))
            && (ClosedAfterShown(ds') <==> ClosedAfterShown(ds) && ds[i].shownAt <= read)
  {
    hide Leased, OneDeliveryPerOccurrence, TokensOk, AllTimesOk, ResponsesOk, Advances, Cooled, ShownAfterReserved, ClosedAfterShown;
    CloseTimes(ds, i, Answered, read, now);
    CloseOrder(ds, i, Answered, read);
    AnswerResponses(ds, responses, i, read, r);
  }

  lemma AnswerResponses(ds: Deliveries, responses: seq<Response>, i: int, read: int, r: Response)
    requires ResponsesOk(ds, responses) && i in ds && ds[i].status == Shown && r.delivery == Some(i)
    ensures ResponsesOk(Closing(ds, i, Answered, read), responses + [r])
  {
    var ds', rs := Closing(ds, i, Answered, read), responses + [r];
    assert rs[|responses|] == r;
    forall j | j in ds' ensures ds'[j].status == Answered <==> exists k :: 0 <= k < |rs| && rs[k].delivery == Some(j) {
      if k :| 0 <= k < |responses| && responses[k].delivery == Some(j) { assert rs[k].delivery == Some(j); }
    }
  }

  lemma PlainResponse(ds: Deliveries, responses: seq<Response>, r: Response, now: int)
    requires Sound(ds, responses, now) && r.delivery.None?
    ensures Sound(ds, responses + [r], now)
  {
    hide AllTimesOk, Leased, OneDeliveryPerOccurrence, TokensOk;
    var rs := responses + [r];
    forall j | j in ds ensures ds[j].status == Answered <==> exists k :: 0 <= k < |rs| && rs[k].delivery == Some(j) {
      if k :| 0 <= k < |responses| && responses[k].delivery == Some(j) { assert rs[k].delivery == Some(j); }
    }
  }
}
