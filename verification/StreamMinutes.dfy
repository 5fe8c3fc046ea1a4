/**
 Completed one-minute candles taken from a stream (stream_minutes.py): repeated candles must agree, and a
 minute seen with two contents is never served. Times are in microseconds.
 */
module StreamMinutes {
  import opened Wrappers

  const SECOND: int := 1_000_000
  const MINUTE: int := 60 * SECOND

  /** Fields that do not parse, or are not finite, are None. */
  datatype Candle = Candle(oneMinute: bool, start: Option<int>, open: Option<real>, close: Option<real>,
                           high: Option<real>, low: Option<real>, volume: Option<int>)

  datatype Bar = Bar(open: real, close: real, volume: int, high: real, low: real)

  /** A frame; `index` says it is a live-feed frame carrying candles of the index. */
  datatype Frame = Frame(index: bool, stamp: Option<int>, candles: seq<Candle>)

  /** A candle worth keeping: the minute at which it became available, and its content. */
  datatype Offer = Offer(available: int, bar: Bar)

  predicate Proper(open: real, close: real, high: real, low: real, volume: int) {
    && open > 0.0 && close > 0.0 && high > 0.0 && low > 0.0
    && low <= open && low <= close && high >= open && high >= close && low <= high && volume >= 0
  }

  /** A completed one-minute candle, on a minute boundary, at most 90 seconds old. */
  function OfferOf(c: Candle, stamp: int, received: int): (o: Option<Offer>)
    ensures o.Some? ==> 0 <= received - o.value.available <= 90 * SECOND && o.value.available % MINUTE == 0
  {
    if !c.oneMinute || c.start.None? || c.open.None? || c.close.None? || c.high.None? || c.low.None? || c.volume.None? then None
    else
      var available := c.start.value + MINUTE;
      if c.start.value % MINUTE != 0 || available > stamp || available > received
         || !(0 <= received - available <= 90 * SECOND)
         || !Proper(c.open.value, c.close.value, c.high.value, c.low.value, c.volume.value) then None
      else Some(Offer(available, Bar(c.open.value, c.close.value, c.volume.value, c.high.value, c.low.value)))
  }

  datatype Minutes = Minutes(rows: map<int, Bar>, conflicts: set<int>, epoch: Option<nat>, received: Option<int>)

  const NOTHING: Minutes := Minutes(map[], {}, None, None)

  function Merge(m: Minutes, o: Offer, received: int): Minutes {
    var t := o.available;
    if t in m.conflicts then m
    else if t in m.rows && m.rows[t] != o.bar then m.(rows := m.rows - {t}, conflicts := m.conflicts + {t})
    else m.(rows := m.rows[t := o.bar], received := Some(received))
  }

  function MergeAll(m: Minutes, offers: seq<Offer>, received: int): Minutes {
    if offers == [] then m else Merge(MergeAll(m, offers[..|offers| - 1], received), offers[|offers| - 1], received)
  }

  predicate Recent(t: int, received: int) { received - t <= 120 * SECOND }

  function Prune(m: Minutes, received: int): Minutes {
    m.(rows := map t | t in m.rows && Recent(t, received) :: m.rows[t],
       conflicts := set t | t in m.conflicts && Recent(t, received))
  }

  function Offers(cs: seq<Candle>, stamp: int, received: int): (os: seq<Offer>)
    ensures forall k :: 0 <= k < |os| ==> 0 <= received - os[k].available <= 90 * SECOND
  {
    if cs == [] then []
    else
      var o := OfferOf(cs[|cs| - 1], stamp, received);
      Offers(cs[..|cs| - 1], stamp, received) + if o.Some? then [o.value] else []
  }

  predicate Timely(f: Frame, received: int) {
    f.index && f.stamp.Some? && 0 <= received - f.stamp.value <= 5 * SECOND
  }

  /** A new epoch forgets everything. */
  function Opened(m: Minutes, epoch: nat): Minutes {
    if m.epoch != Some(epoch) then NOTHING.(epoch := Some(epoch)) else m
  }

  function Accept(m: Minutes, f: Frame, epoch: nat, received: int): Minutes {
    if !Timely(f, received) then m
    else Prune(MergeAll(Opened(m, epoch), Offers(f.candles, f.stamp.value, received), received), received)
  }

  predicate Has(m: Minutes, t: int) { t in m.rows || t in m.conflicts }

  /** Some candle is of a minute not heard of before. */
  predicate Brings(m: Minutes, os: seq<Offer>) {
    exists o :: o in os && !Has(m, o.available)
  }

  lemma {:induction false} HasAfterMerge(m: Minutes, os: seq<Offer>, received: int)
    ensures forall t :: Has(MergeAll(m, os, received), t) <==> Has(m, t) || exists o :: o in os && o.available == t
  {
    if os != [] {
      HasAfterMerge(m, os[..|os| - 1], received);
      assert os == os[..|os| - 1] + [os[|os| - 1]];
    }
  }

  function Current(m: Minutes, now: int): Option<Bar> {
    if m.received.None? || !(0 <= now - m.received.value <= 5 * SECOND) then None
    else
      var minute := now / MINUTE * MINUTE;
      if minute in m.rows then Some(m.rows[minute]) else None
  }

  // ---------- What the rows mean ----------

  predicate Offered(os: seq<Offer>, t: int, b: Bar) { Offer(t, b) in os }

  ghost predicate Unanimous(os: seq<Offer>, t: int, b: Bar) {
    Offered(os, t, b) && forall c :: Offered(os, t, c) ==> c == b
  }

  ghost predicate Disputed(os: seq<Offer>, t: int) {
    exists b, c :: Offered(os, t, b) && Offered(os, t, c) && b != c
  }

  /** Rows and conflicts are exactly what all offers say about minutes not yet pruned at `horizon`. */
  ghost predicate Known(m: Minutes, os: seq<Offer>, horizon: int) {
    && (forall t :: t in m.rows ==> Recent(t, horizon) && Unanimous(os, t, m.rows[t]))
    && (forall t :: t in m.conflicts ==> Recent(t, horizon) && Disputed(os, t))
    && (forall o :: o in os && Recent(o.available, horizon) ==> o.available in m.rows || o.available in m.conflicts)
  }

  lemma OfferedAppend(os: seq<Offer>, o: Offer, t: int, b: Bar)
    ensures Offered(os + [o], t, b) <==> Offered(os, t, b) || o == Offer(t, b)
  {}

  lemma MergeKnown(m: Minutes, os: seq<Offer>, o: Offer, horizon: int, received: int)
    requires Known(m, os, horizon) && Recent(o.available, horizon)
    ensures Known(Merge(m, o, received), os + [o], horizon)
  {
    var u, all := Merge(m, o, received), os + [o];
    assert Offered(all, o.available, o.bar);
    forall t, b
      ensures Offered(all, t, b) <==> Offered(os, t, b) || o == Offer(t, b)
    {
      OfferedAppend(os, o, t, b);
    }
    forall t | t in u.conflicts
      ensures Disputed(all, t)
    {
      if t in m.conflicts {
        var b, c :| Offered(os, t, b) && Offered(os, t, c) && b != c;
        assert Offered(all, t, b) && Offered(all, t, c);
      } else {
        assert Offered(all, t, m.rows[t]) && Offered(all, t, o.bar);
      }
    }
    forall t | t in u.rows
      ensures Unanimous(all, t, u.rows[t])
    {
      assert t == o.available && t !in m.rows ==> forall c :: !Offered(os, t, c);
    }
  }

  lemma {:induction false} MergeAllKnown(m: Minutes, os: seq<Offer>, more: seq<Offer>, horizon: int, received: int)
    requires Known(m, os, horizon) && forall k :: 0 <= k < |more| ==> Recent(more[k].available, horizon)
    ensures Known(MergeAll(m, more, received), os + more, horizon)
  {
    if more == [] {
      assert os + more == os;
    } else {
      var init := more[..|more| - 1];
      MergeAllKnown(m, os, init, horizon, received);
      assert os + more == (os + init) + [more[|more| - 1]];
      MergeKnown(MergeAll(m, init, received), os + init, more[|more| - 1], horizon, received);
    }
  }

  lemma PruneKnown(m: Minutes, os: seq<Offer>, horizon: int, later: int)
    requires Known(m, os, horizon) && horizon <= later
    ensures Known(Prune(m, later), os, later)
  {}

  /** One frame taken at a time, with what was received when. */
  datatype Delivery = Delivery(frame: Frame, at: int)

  function Taken(ds: seq<Delivery>, n: nat, epoch: nat): Minutes
    requires n <= |ds|
  {
    if n == 0 then NOTHING else Accept(Taken(ds, n - 1, epoch), ds[n - 1].frame, epoch, ds[n - 1].at)
  }

  function AllOffers(ds: seq<Delivery>, n: nat): seq<Offer>
    requires n <= |ds|
  {
    if n == 0 then []
    else
      var d := ds[n - 1];
      AllOffers(ds, n - 1) + if Timely(d.frame, d.at) then Offers(d.frame.candles, d.frame.stamp.value, d.at) else []
  }

  predicate Ordered(ds: seq<Delivery>) {
    forall j, k :: 0 <= j < k < |ds| ==> ds[j].at <= ds[k].at
  }

  /** Time of the last frame that was taken at all, which is when the rows were last pruned. */
  function LastTimely(ds: seq<Delivery>, n: nat): Option<int>
    requires n <= |ds|
  {
    if n == 0 then None
    else if Timely(ds[n - 1].frame, ds[n - 1].at) then Some(ds[n - 1].at)
    else LastTimely(ds, n - 1)
  }

  lemma {:induction false} LastTimelyBefore(ds: seq<Delivery>, n: nat, k: nat)
    requires n <= k < |ds| && Ordered(ds) && LastTimely(ds, n).Some?
    ensures LastTimely(ds, n).value <= ds[k].at
  {
    if !Timely(ds[n - 1].frame, ds[n - 1].at) {
      LastTimelyBefore(ds, n - 1, k);
    }
  }

  /**
   The rows are exactly the recent minutes on which every valid candle received so far agreed, and the
   conflicts exactly those on which two did not: pruning never forgets a conflict that could matter.
   */
  lemma {:induction false} RetainedExactly(ds: seq<Delivery>, n: nat, epoch: nat)
    requires n <= |ds| && Ordered(ds)
    ensures var m := Taken(ds, n, epoch);
            match LastTimely(ds, n)
            case None => m == NOTHING && AllOffers(ds, n) == []
            case Some(horizon) => m.epoch == Some(epoch) && Known(m, AllOffers(ds, n), horizon)
  {
    if n > 0 {
      RetainedExactly(ds, n - 1, epoch);
      var d, m, os := ds[n - 1], Taken(ds, n - 1, epoch), AllOffers(ds, n - 1);
      if Timely(d.frame, d.at) {
        var more := Offers(d.frame.candles, d.frame.stamp.value, d.at);
        var horizon := if LastTimely(ds, n - 1).Some? then LastTimely(ds, n - 1).value else d.at;
        if LastTimely(ds, n - 1).Some? {
          LastTimelyBefore(ds, n - 1, n - 1);
        }
        var start := Opened(m, epoch);
        MergeAllKnown(start, os, more, horizon, d.at);
        MergeAllEpoch(start, more, d.at);
        PruneKnown(MergeAll(start, more, d.at), os + more, horizon, d.at);
      } else {
        assert AllOffers(ds, n) == os;
      }
    }
  }

  lemma {:induction false} MergeAllEpoch(m: Minutes, os: seq<Offer>, received: int)
    ensures MergeAll(m, os, received).epoch == m.epoch
  {
    if os != [] {
      MergeAllEpoch(m, os[..|os| - 1], received);
    }
  }

  lemma KnownUnique(m: Minutes, u: Minutes, os: seq<Offer>, ps: seq<Offer>, horizon: int)
    requires Known(m, os, horizon) && Known(u, ps, horizon) && forall o :: o in os <==> o in ps
    ensures m.rows == u.rows && m.conflicts == u.conflicts
  {
    SameSideOf(m, u, os, ps, horizon);
    SameSideOf(u, m, ps, os, horizon);
    forall t
      ensures t in m.rows <==> t in u.rows
      ensures t in m.conflicts <==> t in u.conflicts
    {}
    assert m.rows.Keys == u.rows.Keys;
    assert forall t :: t in m.rows ==> m.rows[t] == u.rows[t];
  }

  lemma SameSideOf(m: Minutes, u: Minutes, os: seq<Offer>, ps: seq<Offer>, horizon: int)
    requires Known(m, os, horizon) && Known(u, ps, horizon) && forall o :: o in os <==> o in ps
    ensures forall t :: t in m.rows ==> t in u.rows && u.rows[t] == m.rows[t]
    ensures forall t :: t in m.conflicts ==> t in u.conflicts
  {
    forall t, b
      ensures Offered(os, t, b) <==> Offered(ps, t, b)
    {}
    forall t | t in m.rows
      ensures t in u.rows && u.rows[t] == m.rows[t]
    {
      assert Offered(os, t, m.rows[t]) && Offered(ps, t, m.rows[t]);
      if t in u.conflicts {
        var b, c :| Offered(ps, t, b) && Offered(ps, t, c) && b != c;
        assert Offered(os, t, b) && Offered(os, t, c);
      }
    }
    forall t | t in m.conflicts
      ensures t in u.conflicts
    {
      var b, c :| Offered(os, t, b) && Offered(os, t, c) && b != c;
      assert Offered(ps, t, b) && Offered(ps, t, c);
    }
  }

  /** Whatever the order, repetition and grouping in which the same candles arrived, the rows are the same. */
  lemma ArrivalOrderIrrelevant(ds: seq<Delivery>, es: seq<Delivery>, epoch: nat)
    requires Ordered(ds) && Ordered(es)
    requires LastTimely(ds, |ds|) == LastTimely(es, |es|)
    requires forall o :: o in AllOffers(ds, |ds|) <==> o in AllOffers(es, |es|)
    ensures Taken(ds, |ds|, epoch).rows == Taken(es, |es|, epoch).rows
    ensures Taken(ds, |ds|, epoch).conflicts == Taken(es, |es|, epoch).conflicts
  {
    RetainedExactly(ds, |ds|, epoch);
    RetainedExactly(es, |es|, epoch);
    if LastTimely(ds, |ds|).Some? {
      KnownUnique(Taken(ds, |ds|, epoch), Taken(es, |es|, epoch), AllOffers(ds, |ds|), AllOffers(es, |es|),
                  LastTimely(ds, |ds|).value);
    }
  }

  lemma {:induction false} OffersStay(ds: seq<Delivery>, m: nat, n: nat, o: Offer)
    requires m <= n <= |ds| && o in AllOffers(ds, m)
    ensures o in AllOffers(ds, n)
  {
    if m < n {
      OffersStay(ds, m, n - 1, o);
    }
  }

  /** Once two valid candles of a minute have disagreed, no later moment of the epoch serves that minute. */
  lemma ConflictNeverServed(ds: seq<Delivery>, m: nat, n: nat, epoch: nat, now: int)
    requires m <= n <= |ds| && Ordered(ds) && Disputed(AllOffers(ds, m), now / MINUTE * MINUTE)
    ensures Current(Taken(ds, n, epoch), now) == None
  {
    var t := now / MINUTE * MINUTE;
    RetainedExactly(ds, n, epoch);
    var b, c :| Offered(AllOffers(ds, m), t, b) && Offered(AllOffers(ds, m), t, c) && b != c;
    OffersStay(ds, m, n, Offer(t, b));
    OffersStay(ds, m, n, Offer(t, c));
    assert Offered(AllOffers(ds, n), t, b) && Offered(AllOffers(ds, n), t, c);
  }

  /** Whatever is served, every valid candle of that minute has said the same. */
  lemma ServedIsUnanimous(ds: seq<Delivery>, n: nat, epoch: nat, now: int)
    requires n <= |ds| && Ordered(ds) && Current(Taken(ds, n, epoch), now).Some?
    ensures Unanimous(AllOffers(ds, n), now / MINUTE * MINUTE, Current(Taken(ds, n, epoch), now).value)
  {
    RetainedExactly(ds, n, epoch);
  }

  // ---------- What is served, on the candles' own fields ----------

  /**
   A completed one-minute candle on a minute boundary, available by the frame's stamp and its receipt and at most
   ninety seconds old, with positive prices that fit each other and no negative volume.
   */
  predicate Usable(c: Candle, stamp: int, received: int) {
    && c.oneMinute && c.start.Some? && c.open.Some? && c.close.Some? && c.high.Some? && c.low.Some? && c.volume.Some?
    && c.start.value % 60_000_000 == 0 && c.start.value + 60_000_000 <= stamp
    && 60_000_000 <= received - c.start.value <= 150_000_000
    && 0.0 < c.low.value && c.low.value <= c.open.value <= c.high.value && c.low.value <= c.close.value <= c.high.value
    && 0 <= c.volume.value
  }

  /** The candle's minute became available at t, and the bar has the candle's own numbers. */
  predicate Tells(c: Candle, stamp: int, received: int, t: int, b: Bar) {
    && Usable(c, stamp, received) && t == c.start.value + 60_000_000
    && b.open == c.open.value && b.close == c.close.value && b.high == c.high.value && b.low == c.low.value
    && b.volume == c.volume.value
  }

  lemma OfferOfTells(c: Candle, stamp: int, received: int, t: int, b: Bar)
    ensures OfferOf(c, stamp, received) == Some(Offer(t, b)) <==> Tells(c, stamp, received, t, b)
  {}

  ghost predicate TellsOne(cs: seq<Candle>, stamp: int, received: int, t: int, b: Bar) {
    exists j :: 0 <= j < |cs| && Tells(cs[j], stamp, received, t, b)
  }

  lemma {:induction false} OffersTell(cs: seq<Candle>, stamp: int, received: int, t: int, b: Bar)
    ensures Offer(t, b) in Offers(cs, stamp, received) <==> TellsOne(cs, stamp, received, t, b)
  {
    hide Tells, OfferOf;
    if cs != [] {
      var init, c := cs[..|cs| - 1], cs[|cs| - 1];
      OffersTell(init, stamp, received, t, b);
      OfferOfTells(c, stamp, received, t, b);
      if TellsOne(init, stamp, received, t, b) {
        var j :| 0 <= j < |init| && Tells(init[j], stamp, received, t, b);
        assert cs[j] == init[j];
      }
    }
  }

  /** Some frame of the index, received within five seconds of its stamp, held a usable candle of this minute and content. */
  ghost predicate Reported(ds: seq<Delivery>, n: nat, t: int, b: Bar)
    requires n <= |ds|
  {
    exists k :: 0 <= k < n && Reports(ds[k], t, b)
  }

  ghost predicate Reports(d: Delivery, t: int, b: Bar) {
    && d.frame.index && d.frame.stamp.Some? && 0 <= d.at - d.frame.stamp.value <= 5_000_000
    && TellsOne(d.frame.candles, d.frame.stamp.value, d.at, t, b)
  }

  /** What one delivery offers. */
  function Given(d: Delivery): seq<Offer> {
    if Timely(d.frame, d.at) then Offers(d.frame.candles, d.frame.stamp.value, d.at) else []
  }

  lemma DeliveryReports(d: Delivery, t: int, b: Bar)
    ensures Offered(Given(d), t, b) <==> Reports(d, t, b)
  {
    if Timely(d.frame, d.at) {
      OffersTell(d.frame.candles, d.frame.stamp.value, d.at, t, b);
    }
    hide Offers, TellsOne;
  }

  lemma OfferedOf(ds: seq<Delivery>, n: nat, t: int, b: Bar)
    requires 0 < n <= |ds|
    ensures Offered(AllOffers(ds, n), t, b) <==> Offered(AllOffers(ds, n - 1), t, b) || Offered(Given(ds[n - 1]), t, b)
  {
    hide Offers, Timely;
  }

  lemma ReportedOf(ds: seq<Delivery>, n: nat, t: int, b: Bar)
    requires 0 < n <= |ds|
    ensures Reported(ds, n, t, b) <==> Reported(ds, n - 1, t, b) || Reports(ds[n - 1], t, b)
  {
    hide Reports;
    if Reports(ds[n - 1], t, b) {
      var k := n - 1;
      assert Reports(ds[k], t, b);
    }
  }

  lemma {:induction false} OfferedIff(ds: seq<Delivery>, n: nat, t: int, b: Bar)
    requires n <= |ds|
    ensures Offered(AllOffers(ds, n), t, b) <==> Reported(ds, n, t, b)
  {
    if n == 0 {
      assert AllOffers(ds, 0) == [];
    } else {
      hide AllOffers, Offered, Reports, Given, Reported;
      OfferedIff(ds, n - 1, t, b);
      OfferedOf(ds, n, t, b);
      DeliveryReports(ds[n - 1], t, b);
      ReportedOf(ds, n, t, b);
    }
  }

  /** Some candle of the frame is, when its turn comes, of a minute on which everything heard so far agrees. */
  ghost predicate Refreshes(ds: seq<Delivery>, k: nat)
    requires k < |ds|
  {
    var d := ds[k];
    Timely(d.frame, d.at) && SomeAgrees(AllOffers(ds, k), Offers(d.frame.candles, d.frame.stamp.value, d.at))
  }

  ghost predicate SomeAgrees(os: seq<Offer>, more: seq<Offer>) {
    exists i :: 0 <= i < |more| && AgreesAt(os, more, i)
  }

  ghost predicate AgreesAt(os: seq<Offer>, more: seq<Offer>, i: nat)
    requires i < |more|
  {
    forall b :: Offered(os, more[i].available, b) || Offered(more[..i], more[i].available, b) ==> b == more[i].bar
  }

  lemma MergeReceives(m: Minutes, os: seq<Offer>, o: Offer, horizon: int, received: int)
    requires Known(m, os, horizon) && Recent(o.available, horizon)
    ensures Merge(m, o, received).received ==
            if forall b :: Offered(os, o.available, b) ==> b == o.bar then Some(received) else m.received
  {
    if b :| Offered(os, o.available, b) && b != o.bar {
      assert Offer(o.available, b) in os;
    }
  }

  lemma {:induction false} MergeAllReceives(m: Minutes, os: seq<Offer>, more: seq<Offer>, horizon: int, received: int)
    requires Known(m, os, horizon) && forall k :: 0 <= k < |more| ==> Recent(more[k].available, horizon)
    ensures MergeAll(m, more, received).received == if SomeAgrees(os, more) then Some(received) else m.received
  {
    if more != [] {
      hide Known, Merge, Recent, Offered;
      var i := |more| - 1;
      var init, o := more[..i], more[i];
      MergeAllReceives(m, os, init, horizon, received);
      MergeAllKnown(m, os, init, horizon, received);
      MergeReceives(MergeAll(m, init, received), os + init, o, horizon, received);
      forall b
        ensures Offered(os + init, o.available, b) <==> Offered(os, o.available, b) || Offered(init, o.available, b)
      {
        OfferedInEither(os, init, o.available, b);
      }
      AgreesEarlier(os, more);
    }
  }

  lemma OfferedInEither(os: seq<Offer>, more: seq<Offer>, t: int, b: Bar)
    ensures Offered(os + more, t, b) <==> Offered(os, t, b) || Offered(more, t, b)
  {}

  lemma AgreesEarlier(os: seq<Offer>, more: seq<Offer>)
    requires more != []
    ensures SomeAgrees(os, more) <==> SomeAgrees(os, more[..|more| - 1]) || AgreesAt(os, more, |more| - 1)
  {
    hide Offered;
    var init := more[..|more| - 1];
    forall i | 0 <= i < |init|
      ensures AgreesAt(os, init, i) <==> AgreesAt(os, more, i)
    {
      assert init[..i] == more[..i];
    }
    if SomeAgrees(os, init) {
      var i :| 0 <= i < |init| && AgreesAt(os, init, i);
      assert AgreesAt(os, more, i);
    }
  }

  ghost function LastRefresh(ds: seq<Delivery>, n: nat): Option<int>
    requires n <= |ds|
  {
    if n == 0 then None
    else if Refreshes(ds, n - 1) then Some(ds[n - 1].at)
    else LastRefresh(ds, n - 1)
  }

  lemma {:induction false} ReceivedIs(ds: seq<Delivery>, n: nat, epoch: nat)
    requires n <= |ds| && Ordered(ds)
    ensures Taken(ds, n, epoch).received == LastRefresh(ds, n)
  {
    if n > 0 {
      hide Known, SomeAgrees;
      ReceivedIs(ds, n - 1, epoch);
      RetainedExactly(ds, n - 1, epoch);
      var d, m, os := ds[n - 1], Taken(ds, n - 1, epoch), AllOffers(ds, n - 1);
      if Timely(d.frame, d.at) {
        var more := Offers(d.frame.candles, d.frame.stamp.value, d.at);
        var horizon := if LastTimely(ds, n - 1).Some? then LastTimely(ds, n - 1).value else d.at;
        if LastTimely(ds, n - 1).Some? {
          LastTimelyBefore(ds, n - 1, n - 1);
        } else {
          NothingKnown(d.at, epoch);
        }
        MergeAllReceives(Opened(m, epoch), os, more, horizon, d.at);
      }
    }
  }

  lemma NothingKnown(horizon: int, epoch: nat)
    ensures Known(Opened(NOTHING, epoch), [], horizon)
  {}

  /**
   A bar is served exactly when it is the one content all usable candles of the current minute had, read on the
   candles' own fields, no frame was taken more than two minutes after it, and the latest frame that agreed on a
   minute is at most five seconds old.
   */
  lemma ServedIff(ds: seq<Delivery>, n: nat, epoch: nat, now: int, b: Bar)
    requires n <= |ds| && Ordered(ds)
    ensures var t := now / 60_000_000 * 60_000_000;
            Current(Taken(ds, n, epoch), now) == Some(b) <==>
            && Reported(ds, n, t, b) && (forall c :: Reported(ds, n, t, c) ==> c == b)
            && LastRefresh(ds, n).Some? && 0 <= now - LastRefresh(ds, n).value <= 5_000_000
            && (LastTimely(ds, n).Some? ==> LastTimely(ds, n).value - t <= 120_000_000)
  {
    var t := now / 60_000_000 * 60_000_000;
    var m, os := Taken(ds, n, epoch), AllOffers(ds, n);
    RetainedExactly(ds, n, epoch);
    ReceivedIs(ds, n, epoch);
    hide Taken, AllOffers, Reported, LastRefresh, LastTimely;
    forall c
      ensures Offered(os, t, c) <==> Reported(ds, n, t, c)
    {
      OfferedIff(ds, n, t, c);
    }
    if t in m.conflicts {
      var c, d :| Offered(os, t, c) && Offered(os, t, d) && c != d;
    }
  }

  /** The first frame taken of another epoch is taken as if none had been before; a frame out of time changes nothing. */
  lemma EpochForgets(m: Minutes, f: Frame, epoch: nat, at: int)
    ensures var inTime := f.index && f.stamp.Some? && 0 <= at - f.stamp.value <= 5_000_000;
            && (!inTime ==> Accept(m, f, epoch, at) == m)
            && (inTime && m.epoch != Some(epoch) ==> Accept(m, f, epoch, at) == Taken([Delivery(f, at)], 1, epoch))
  {
    var ds := [Delivery(f, at)];
    assert Taken(ds, 0, epoch) == NOTHING;
    assert Taken(ds, 1, epoch) == Accept(NOTHING, f, epoch, at);
  }

  // ---------- The object ----------

  class CompletedIndexMinutes {
    var rows: map<int, Bar>
    var conflicts: set<int>
    var epoch: Option<nat>
    var received: Option<int>

    function M(): Minutes
      reads this
    {
      Minutes(rows, conflicts, epoch, received)
    }

    constructor ()
      ensures M() == NOTHING
    {
      rows, conflicts, epoch, received := map[], {}, None, None;
    }

    method Reset()
      modifies this
      ensures M() == NOTHING
    {
      rows, conflicts, epoch, received := map[], {}, None, None;
    }

    /** One candle of a frame. */
    method TakeOne(o: Offer, at: int) returns (added: bool)
      modifies this
      ensures M() == Merge(old(M()), o, at)
      ensures added <==> !Has(old(M()), o.available)
    {
      var t := o.available;
      added := false;
      if t in conflicts {
        return;
      }
      if t in rows && rows[t] != o.bar {
        rows := rows - {t};
        conflicts := conflicts + {t};
        return;
      }
      added := t !in rows;
      rows := rows[t := o.bar];
      received := Some(at);
    }

    method Take(f: Frame, epoch: nat, at: int) returns (changed: bool)
      modifies this
      ensures M() == Accept(old(M()), f, epoch, at)
      ensures changed <==> Timely(f, at) && Brings(Opened(old(M()), epoch), Offers(f.candles, f.stamp.value, at))
    {
      changed := false;
      if !Timely(f, at) {
        return;
      }
      if this.epoch != Some(epoch) {
        Reset();
        this.epoch := Some(epoch);
      }
      ghost var start := M();
      ghost var os: seq<Offer> := [];
      for k := 0 to |f.candles|
        invariant os == Offers(f.candles[..k], f.stamp.value, at)
        invariant M() == MergeAll(start, os, at)
        invariant changed <==> Brings(start, os)
      {
        hide OfferOf, Merge, Has;
        assert f.candles[..k + 1][..k] == f.candles[..k];
        var o := OfferOf(f.candles[k], f.stamp.value, at);
        if o.Some? {
          BringsMore(start, os, o.value, at);
          var added := TakeOne(o.value, at);
          changed := changed || added;
          os := os + [o.value];
          assert os[..|os| - 1] + [os[|os| - 1]] == os;
        } else {
          assert os + [] == os;
        }
      }
      assert f.candles[..|f.candles|] == f.candles;
      rows := map t | t in rows && Recent(t, at) :: rows[t];
      conflicts := set t | t in conflicts && Recent(t, at);
    }

    lemma BringsMore(m: Minutes, os: seq<Offer>, o: Offer, at: int)
      ensures Brings(m, os + [o]) <==> Brings(m, os) || !Has(MergeAll(m, os, at), o.available)
      ensures MergeAll(m, os + [o], at) == Merge(MergeAll(m, os, at), o, at)
    {
      HasAfterMerge(m, os, at);
      assert (os + [o])[..|os|] == os;
      assert forall p :: p in os + [o] <==> p in os || p == o;
    }

    method Serve(now: int) returns (bar: Option<Bar>)
      ensures bar == Current(M(), now)
    {
      if received.None? || !(0 <= now - received.value <= 5 * SECOND) {
        return None;
      }
      var minute := now / MINUTE * MINUTE;
      bar := if minute in rows then Some(rows[minute]) else None;
    }
  }
}
