/**
 Shock episodes (shock_engine.py): a run of qualifying bars on one side is one episode, stamped with its
 first bar; retries, later bars and restarts must not renew its thirty-second entry window. One day's
 records; times in milliseconds.
 */
module ShockEpisodes {
  import opened Wrappers

  const MINUTE: int := 60_000
  const WINDOW: int := 30_000

  datatype Side = CE | PE

  /** A usable evaluation of one completed bar; `digest` stands for the features it was computed from. */
  datatype Sample = Sample(at: int, received: int, qualifying: bool, side: Option<Side>, digest: nat)

  /** An episode is named by its side and the bar it was first seen on. */
  datatype Episode = Episode(side: Option<Side>, at: int)

  datatype Record = Record(at: int, qualifying: bool, side: Option<Side>, episode: Option<Episode>, digest: nat, conflicted: bool)

  datatype First = First(at: int, received: int)

  /** The sample entries are made from: its episode and that episode's first stamp. */
  datatype Held = Held(episode: Episode, first: First)

  datatype Bar = Bar(at: int, qualifying: bool, side: Option<Side>, episode: Option<Episode>)

  /** `record`, `firsts` and `consumed` are durable, `sample` is lost by a restart; `bars` only remembers every bar once. */
  datatype State = State(record: Option<Record>, firsts: map<Episode, First>, consumed: set<Episode>, sample: Option<Held>,
                         clock: int, bars: seq<Bar>)

  datatype Event =
    | Tick(ms: nat)
    | Update(s: Sample)
    | UpdateDies(s: Sample)   // the process dies after the first write of an update
    | Invalidate
    | Consume(episode: Episode)
    | Restart

  function Begin(clock: int): State { State(None, map[], {}, None, clock, []) }

  predicate Conflicts(r: Record, s: Sample) {
    r.conflicted || r.digest != s.digest || r.qualifying != s.qualifying || r.side != s.side
  }

  /** A bar continues the episode of the bar before it only while both qualify on one side. */
  function EpisodeOf(record: Option<Record>, s: Sample): Option<Episode> {
    if !s.qualifying then None
    else if record.Some? && record.value.qualifying && record.value.side == s.side && record.value.episode.Some?
    then record.value.episode
    else Some(Episode(s.side, s.at))
  }

  function Dropped(st: State): State {
    st.(consumed := if st.sample.Some? then st.consumed + {st.sample.value.episode} else st.consumed, sample := None)
  }

  /** The end of an update: find or write the first stamp, and hold the sample. */
  function Hold(st: State, s: Sample, episode: Option<Episode>): State {
    if !s.qualifying || episode.None? then st.(sample := None)
    else
      var e := episode.value;
      var first := if e in st.firsts then st.firsts[e] else First(s.at, s.received);
      st.(firsts := st.firsts[e := first], sample := Some(Held(e, first)))
  }

  function NewBar(st: State, s: Sample): State {
    var e := EpisodeOf(st.record, s);
    st.(record := Some(Record(s.at, s.qualifying, s.side, e, s.digest, false)),
        bars := st.bars + [Bar(s.at, s.qualifying, s.side, e)])
  }

  function Updated(st: State, s: Sample): State {
    if st.record.Some? && s.at < st.record.value.at then st
    else if st.record.Some? && s.at == st.record.value.at then
      if Conflicts(st.record.value, s) then Dropped(st).(record := Some(st.record.value.(conflicted := true)))
      else Hold(st, s, st.record.value.episode)
    else
      Hold(NewBar(st, s), s, EpisodeOf(st.record, s))
  }

  /** Only the first write of the update, and then a restart. */
  function Cut(st: State, s: Sample): State {
    if st.record.Some? && s.at < st.record.value.at then st.(sample := None)
    else if st.record.Some? && s.at == st.record.value.at then
      if Conflicts(st.record.value, s) then
        if st.sample.Some? && st.sample.value.episode !in st.consumed then Dropped(st)
        else st.(sample := None, record := Some(st.record.value.(conflicted := true)))
      else Hold(st, s, st.record.value.episode).(sample := None)
    else NewBar(st, s).(sample := None)
  }

  /** Bars are completed minutes: on minute boundaries, and never of the future. */
  predicate Enabled(st: State, e: Event) {
    match e
    case Update(s) => s.at % MINUTE == 0 && s.at <= st.clock
    case UpdateDies(s) => s.at % MINUTE == 0 && s.at <= st.clock
    case _ => true
  }

  function Next(st: State, e: Event): State {
    match e
    case Tick(ms) => st.(clock := st.clock + ms)
    case Update(s) => Updated(st, s)
    case UpdateDies(s) => Cut(st, s)
    case Invalidate => Dropped(st)
    case Consume(ep) => st.(consumed := st.consumed + {ep})
    case Restart => st.(sample := None)
  }

  ghost predicate Run(ss: seq<State>, es: seq<Event>) {
    && |ss| == |es| + 1 && ss[0] == Begin(ss[0].clock)
    && forall k :: 0 <= k < |es| ==> Enabled(ss[k], es[k]) && ss[k + 1] == Next(ss[k], es[k])
  }

  /** An entry may be made from the held sample now. */
  predicate Admits(st: State) {
    && st.sample.Some? && st.sample.value.episode !in st.consumed
    && 0 <= st.clock - st.sample.value.first.at <= WINDOW
  }

  // ---------- The invariant ----------

  /** Each qualifying bar carries on the episode before it or starts its own. */
  predicate Numbered(bars: seq<Bar>, k: nat)
    requires k < |bars|
  {
    bars[k].episode ==
      if !bars[k].qualifying then None
      else if k > 0 && bars[k - 1].qualifying && bars[k - 1].side == bars[k].side then bars[k - 1].episode
      else Some(Episode(bars[k].side, bars[k].at))
  }

  predicate Increasing(bars: seq<Bar>) {
    && (forall k :: 0 <= k < |bars| ==> bars[k].at % MINUTE == 0)
    && forall j, k :: 0 <= j < k < |bars| ==> bars[j].at < bars[k].at
  }

  /** Episodes begin no later than the bars that carry them. */
  predicate StartedBy(bars: seq<Bar>, k: nat)
    requires k < |bars|
  {
    (bars[k].qualifying ==> bars[k].episode.Some?)
    && (bars[k].episode.Some? ==> bars[k].episode.value.at <= bars[k].at && bars[k].episode.value.side == bars[k].side)
  }

  predicate RecordInv(st: State) {
    match st.record
    case None => st.bars == []
    case Some(r) =>
      && st.bars != []
      && var b := st.bars[|st.bars| - 1];
         b == Bar(r.at, r.qualifying, r.side, r.episode) && r.at <= st.clock
  }

  /** The episode is that of the bar it is named after. */
  predicate HasOwnBar(bars: seq<Bar>, e: Episode) {
    exists k :: 0 <= k < |bars| && bars[k].at == e.at && bars[k].side == e.side && bars[k].episode == Some(e)
  }

  predicate StampInv(st: State) {
    forall e :: e in st.firsts ==>
      && st.record.Some? && e.at <= st.firsts[e].at <= st.record.value.at && st.firsts[e].at % MINUTE == 0
      && HasOwnBar(st.bars, e)
  }

  predicate SampleInv(st: State) {
    st.sample.Some? ==>
      && st.record.Some? && !st.record.value.conflicted && st.record.value.episode == Some(st.sample.value.episode)
      && st.sample.value.episode in st.firsts && st.firsts[st.sample.value.episode] == st.sample.value.first
  }

  ghost predicate Inv(st: State) {
    && Increasing(st.bars) && (forall k :: 0 <= k < |st.bars| ==> Numbered(st.bars, k) && StartedBy(st.bars, k))
    && RecordInv(st) && StampInv(st) && SampleInv(st)
  }

  lemma NewBarKeeps(st: State, s: Sample)
    requires Inv(st) && s.at % MINUTE == 0 && s.at <= st.clock
    requires st.record.Some? ==> st.record.value.at < s.at
    ensures Inv(NewBar(st, s).(sample := None))
  {
    var u := NewBar(st, s);
    var n := |st.bars|;
    forall k | 0 <= k < |u.bars|
      ensures Numbered(u.bars, k) && StartedBy(u.bars, k)
    {
      if k < n {
        assert Numbered(st.bars, k) && StartedBy(st.bars, k);
      } else if n > 0 {
        assert StartedBy(st.bars, n - 1);
      }
    }
    forall e | e in st.firsts
      ensures HasOwnBar(u.bars, e)
    {
      var k :| 0 <= k < n && st.bars[k].at == e.at && st.bars[k].side == e.side && st.bars[k].episode == Some(e);
      assert u.bars[k] == st.bars[k];
    }
    if n > 0 {
      assert forall j :: 0 <= j < n - 1 ==> st.bars[j].at < st.bars[n - 1].at;
    }
  }

  lemma HoldKeeps(st: State, s: Sample)
    requires Inv(st.(sample := None)) && st.record.Some? && st.record.value.at == s.at
    requires !Conflicts(st.record.value, s)
    ensures Inv(Hold(st, s, st.record.value.episode))
  {
    var n := |st.bars| - 1;
    assert Numbered(st.bars, n) && StartedBy(st.bars, n);
    if s.qualifying {
      OwnBar(st.bars, n);
    }
  }

  lemma OwnBar(bars: seq<Bar>, k: nat)
    requires k < |bars| && (forall i :: 0 <= i < |bars| ==> Numbered(bars, i) && StartedBy(bars, i)) && bars[k].qualifying
    ensures bars[k].episode.Some? && HasOwnBar(bars, bars[k].episode.value)
  {
    hide Numbered, StartedBy;
    var j := EpisodeStart(bars, k);
    RunSharesEpisode(bars, j, k);
    assert bars[j].episode == bars[k].episode;
  }

  lemma StepKeeps(st: State, e: Event)
    requires Inv(st) && Enabled(st, e)
    ensures Inv(Next(st, e))
  {
    hide Increasing, Numbered, StartedBy, HasOwnBar;
    match e
    case Update(s) => UpdateKeeps(st, s);
    case UpdateDies(s) => CutKeeps(st, s);
    case _ =>
  }

  lemma UpdateKeeps(st: State, s: Sample)
    requires Inv(st) && s.at % MINUTE == 0 && s.at <= st.clock
    ensures Inv(Updated(st, s))
  {
    hide Increasing, Numbered, StartedBy, HasOwnBar;
    if st.record.None? || s.at > st.record.value.at {
      NewBarKeeps(st, s);
      HoldKeeps(NewBar(st, s), s);
    } else if s.at == st.record.value.at && !Conflicts(st.record.value, s) {
      HoldKeeps(st, s);
    }
  }

  lemma CutKeeps(st: State, s: Sample)
    requires Inv(st) && s.at % MINUTE == 0 && s.at <= st.clock
    ensures Inv(Cut(st, s))
  {
    hide Increasing, Numbered, StartedBy, HasOwnBar;
    if st.record.None? || s.at > st.record.value.at {
      NewBarKeeps(st, s);
    } else if s.at == st.record.value.at && !Conflicts(st.record.value, s) {
      HoldKeeps(st, s);
    }
  }

  lemma {:induction false} RunInv(ss: seq<State>, es: seq<Event>, k: nat)
    requires Run(ss, es) && k < |ss|
    ensures Inv(ss[k])
  {
    hide Inv, Enabled, Next;
    if k == 0 {
      BeginInv(ss[0].clock);
    } else {
      RunInv(ss, es, k - 1);
      StepKeeps(ss[k - 1], es[k - 1]);
    }
  }

  lemma BeginInv(clock: int)
    ensures Inv(Begin(clock))
  {}

  // ---------- Episodes are maximal runs ----------

  /** All bars from j to k qualify on one side. */
  predicate OneRun(bars: seq<Bar>, j: nat, k: nat)
    requires j <= k < |bars|
  {
    forall i :: j <= i <= k ==> bars[i].qualifying && bars[i].side == bars[j].side
  }

  lemma {:induction false} RunSharesEpisode(bars: seq<Bar>, j: nat, k: nat)
    requires j <= k < |bars| && (forall i :: 0 <= i < |bars| ==> Numbered(bars, i)) && OneRun(bars, j, k)
    ensures bars[j].episode == bars[k].episode
  {
    if j < k {
      RunSharesEpisode(bars, j, k - 1);
      assert Numbered(bars, k);
    }
  }

  /** An episode reaches back to the bar it is named after, through qualifying bars of its side only. */
  lemma {:induction false} EpisodeStart(bars: seq<Bar>, k: nat) returns (j: nat)
    requires k < |bars| && (forall i :: 0 <= i < |bars| ==> Numbered(bars, i) && StartedBy(bars, i)) && bars[k].qualifying
    ensures j <= k && OneRun(bars, j, k) && bars[k].episode == Some(Episode(bars[j].side, bars[j].at))
  {
    assert Numbered(bars, k);
    if k > 0 && bars[k - 1].qualifying && bars[k - 1].side == bars[k].side {
      j := EpisodeStart(bars, k - 1);
    } else {
      j := k;
    }
  }

  lemma SameEpisodeOneRun(bars: seq<Bar>, j: nat, k: nat)
    requires j <= k < |bars| && (forall i :: 0 <= i < |bars| ==> Numbered(bars, i) && StartedBy(bars, i)) && Increasing(bars)
    requires bars[j].qualifying && bars[k].qualifying && bars[j].episode == bars[k].episode
    ensures OneRun(bars, j, k)
  {
    hide Numbered, StartedBy;
    var a := EpisodeStart(bars, j);
    var b := EpisodeStart(bars, k);
    assert bars[a].at == bars[b].at;
    assert a == b;
  }

  /** Two qualifying bars have the same episode exactly when every bar seen between them qualified on their side. */
  lemma EpisodesAreMaximalRuns(ss: seq<State>, es: seq<Event>, n: nat, j: nat, k: nat)
    requires Run(ss, es) && n < |ss| && j <= k < |ss[n].bars| && ss[n].bars[j].qualifying && ss[n].bars[k].qualifying
    ensures ss[n].bars[j].episode == ss[n].bars[k].episode <==> OneRun(ss[n].bars, j, k)
  {
    RunInv(ss, es, n);
    var bars := ss[n].bars;
    if OneRun(bars, j, k) {
      RunSharesEpisode(bars, j, k);
    } else if bars[j].episode == bars[k].episode {
      SameEpisodeOneRun(bars, j, k);
    }
  }

  // ---------- The window is never renewed ----------

  lemma {:induction false} StampsStay(ss: seq<State>, es: seq<Event>, m: nat, n: nat, e: Episode)
    requires Run(ss, es) && m <= n < |ss| && e in ss[m].firsts
    ensures e in ss[n].firsts && ss[n].firsts[e] == ss[m].firsts[e]
  {
    if m < n {
      StampsStay(ss, es, m, n - 1, e);
    }
  }

  /** The bar was found contradicted before, or comes back with other features, another verdict or another side. */
  predicate Contradicts(r: Record, s: Sample) {
    !(!r.conflicted && r.digest == s.digest && r.qualifying == s.qualifying && r.side == s.side)
  }

  /** The event takes the bar the episode is named after to the end, or repeats it while it is current, unconflicted. */
  predicate StampsOwnBar(st: State, ev: Event, e: Episode) {
    && (ev.Update? || ev.UpdateDies?) && ev.s.at == e.at && ev.s.qualifying && ev.s.side == e.side
    && if st.record.Some? && st.record.value.at == ev.s.at then !Contradicts(st.record.value, ev.s)
       else ev.Update? && (st.record.None? || st.record.value.at < ev.s.at)
  }

  ghost predicate OwnBarStamped(ss: seq<State>, es: seq<Event>, n: nat, e: Episode)
    requires |ss| == |es| + 1 && n <= |es|
  {
    exists k :: 0 <= k < n && StampsOwnBar(ss[k], es[k], e)
  }

  /** Such an event leaves a stamp for the episode of that bar. */
  lemma OwnBarLeavesStamp(st: State, ev: Event, e: Episode)
    requires Inv(st) && Enabled(st, ev) && StampsOwnBar(st, ev, e)
    ensures var u := Next(st, ev);
            && u.bars != [] && u.bars[|u.bars| - 1].at == e.at
            && u.bars[|u.bars| - 1].episode.Some? && u.bars[|u.bars| - 1].episode.value in u.firsts
  {
    StepKeeps(st, ev);
    var n := |Next(st, ev).bars| - 1;
    assert StartedBy(Next(st, ev).bars, n);
    hide Increasing, Numbered, HasOwnBar;
  }

  /** A stamp that appears is that of the bar being taken. */
  lemma NewStamp(st: State, ev: Event, e: Episode)
    requires Inv(st) && Enabled(st, ev) && e !in st.firsts && e in Next(st, ev).firsts
    ensures (ev.Update? || ev.UpdateDies?) && Next(st, ev).firsts[e].at == ev.s.at
    ensures ev.s.at == e.at ==> StampsOwnBar(st, ev, e)
  {
    hide Increasing, Numbered, StartedBy, HasOwnBar, StampInv, RecordInv, SampleInv;
    RecordSide(st);
  }

  lemma RecordSide(st: State)
    requires Inv(st)
    ensures st.record.Some? ==> st.record.value.qualifying == st.record.value.episode.Some?
    ensures st.record.Some? && st.record.value.episode.Some? ==> st.record.value.episode.value.side == st.record.value.side
  {
    if st.record.Some? {
      assert Numbered(st.bars, |st.bars| - 1) && StartedBy(st.bars, |st.bars| - 1);
    }
  }

  lemma {:induction false} BarsStay(ss: seq<State>, es: seq<Event>, m: nat, n: nat)
    requires Run(ss, es) && m <= n < |ss|
    ensures ss[m].bars <= ss[n].bars
  {
    if m < n {
      BarsStay(ss, es, m, n - 1);
    }
  }

  /** The stamped episode is that of the bar at its own time, so its own bar's event stamped no other. */
  lemma StampedEarlier(ss: seq<State>, es: seq<Event>, k: nat, n: nat, e: Episode)
    requires Run(ss, es) && k < n < |ss| && StampsOwnBar(ss[k], es[k], e) && e in ss[n].firsts
    ensures e in ss[k + 1].firsts
  {
    hide Increasing, Numbered, StartedBy, Next, StampsOwnBar;
    RunInv(ss, es, k);
    RunInv(ss, es, n);
    OwnBarLeavesStamp(ss[k], es[k], e);
    BarsStay(ss, es, k + 1, n);
    var j :| 0 <= j < |ss[n].bars| && ss[n].bars[j].at == e.at && ss[n].bars[j].side == e.side && ss[n].bars[j].episode == Some(e);
    SameBar(ss[n].bars, j, |ss[k + 1].bars| - 1);
  }

  lemma SameBar(bars: seq<Bar>, j: nat, k: nat)
    requires Increasing(bars) && j < |bars| && k < |bars| && bars[j].at == bars[k].at
    ensures j == k
  {}

  /** The stamp of an episode is its first bar's exactly when some update of that bar ran to its end. */
  lemma {:induction false} StampIsOwnIff(ss: seq<State>, es: seq<Event>, n: nat, e: Episode)
    requires Run(ss, es) && n < |ss| && e in ss[n].firsts
    ensures ss[n].firsts[e].at == e.at <==> OwnBarStamped(ss, es, n, e)
  {
    hide Inv, Next, StampsOwnBar;
    var st, ev := ss[n - 1], es[n - 1];
    RunInv(ss, es, n - 1);
    assert ss[n - 1 + 1] == Next(st, ev);
    if e in st.firsts {
      StampIsOwnIff(ss, es, n - 1, e);
      StampsStay(ss, es, n - 1, n, e);
      if StampsOwnBar(st, ev, e) {
        RestampsNothing(st, ev, e);
      }
    } else {
      NewStamp(st, ev, e);
      forall k | 0 <= k < n - 1
        ensures !StampsOwnBar(ss[k], es[k], e)
      {
        if StampsOwnBar(ss[k], es[k], e) {
          StampedEarlier(ss, es, k, n, e);
          StampsStay(ss, es, k + 1, n - 1, e);
        }
      }
      StampedNow(st, ev, e);
    }
  }

  lemma StampedNow(st: State, ev: Event, e: Episode)
    ensures StampsOwnBar(st, ev, e) ==> (ev.Update? || ev.UpdateDies?) && ev.s.at == e.at
  {}

  lemma RestampsNothing(st: State, ev: Event, e: Episode)
    requires Inv(st) && StampsOwnBar(st, ev, e) && e in st.firsts
    ensures st.firsts[e].at == e.at
  {}

  /**
   Whatever is retried, however often the process restarts: all entries an episode ever admits lie within
   thirty seconds of one stamp, which is that of its first bar exactly when an update of that bar ran to its end.
   */
  lemma WindowNeverRenewed(ss: seq<State>, es: seq<Event>, m: nat, n: nat)
    requires Run(ss, es) && m <= n < |ss| && Admits(ss[m]) && Admits(ss[n])
    requires ss[m].sample.value.episode == ss[n].sample.value.episode
    ensures ss[m].sample.value.first == ss[n].sample.value.first
    ensures ss[n].clock - ss[m].clock <= 30_000
    ensures var held := ss[m].sample.value; held.first.at == held.episode.at <==> OwnBarStamped(ss, es, m, held.episode)
  {
    RunInv(ss, es, m);
    RunInv(ss, es, n);
    hide Increasing, Numbered, StartedBy, HasOwnBar, Next;
    StampsStay(ss, es, m, n, ss[m].sample.value.episode);
    StampIsOwnIff(ss, es, m, ss[m].sample.value.episode);
    ClockForward(ss, es, m, n);
  }

  lemma {:induction false} ClockForward(ss: seq<State>, es: seq<Event>, m: nat, n: nat)
    requires Run(ss, es) && m <= n < |ss|
    ensures ss[m].clock <= ss[n].clock
  {
    if m < n {
      ClockForward(ss, es, m, n - 1);
    }
  }

  /** Entries are only made while the stamped bar is still the latest one. */
  lemma AdmitsOnStampedBar(st: State)
    requires Inv(st) && Admits(st)
    ensures st.record.Some? && st.record.value.at == st.sample.value.first.at && !st.record.value.conflicted
  {
    hide Numbered, StartedBy, HasOwnBar;
    assert st.bars[|st.bars| - 1].at % MINUTE == 0;
    MinutesApart(st.sample.value.first.at, st.record.value.at);
  }

  lemma MinutesApart(a: int, b: int)
    requires a % MINUTE == 0 && b % MINUTE == 0 && a <= b < a + MINUTE
    ensures a == b
  {}

  // ---------- A bar seen with two contents ----------

  /** The update, or the part of it that was reached, finds the current bar of the episode contradicted. */
  predicate ConflictFound(st: State, ev: Event, e: Episode) {
    && (ev.Update? || ev.UpdateDies?) && st.record.Some? && st.record.value.at == ev.s.at
    && Contradicts(st.record.value, ev.s) && st.record.value.episode == Some(e)
  }

  ghost predicate Continues(u: State, us: seq<State>, es: seq<Event>) {
    && |us| == |es| + 1 && us[0] == u
    && forall k :: 0 <= k < |es| ==> Enabled(us[k], es[k]) && us[k + 1] == Next(us[k], es[k])
  }

  predicate AdmitsFor(st: State, e: Episode) {
    Admits(st) && st.sample.value.episode == e
  }

  ghost predicate NeverAdmits(u: State, e: Episode) {
    forall us, es, n :: Continues(u, us, es) && 0 <= n < |us| ==> !AdmitsFor(us[n], e)
  }

  /** What a conflict leaves behind: the episode is used up, or its record says so and no sample is held. */
  ghost predicate Marked(u: State, e: Episode, at: int) {
    e in u.consumed || (u.record.Some? && u.record.value.at >= at && (u.record.value.at == at ==> u.record.value.conflicted))
  }

  lemma ConflictMarks(st: State, ev: Event, e: Episode)
    requires Inv(st) && ConflictFound(st, ev, e)
    ensures var u := Next(st, ev);
            && Marked(u, e, st.record.value.at) && u.sample == None && u.clock == st.clock
            && u.record.Some? && u.record.value.at == st.record.value.at && u.record.value.qualifying == st.record.value.qualifying
            && u.record.value.side == st.record.value.side && u.record.value.episode == Some(e)
  {}

  lemma MarkStays(u: State, ev: Event, e: Episode, at: int)
    requires Marked(u, e, at)
    ensures Marked(Next(u, ev), e, at)
  {}

  /** From a marked state of a stamped or used-up episode nothing is admitted, whatever follows. */
  lemma {:induction false} MarkedAdmitsNothing(u: State, us: seq<State>, es: seq<Event>, n: nat, e: Episode, at: int)
    requires Inv(u) && Marked(u, e, at) && Continues(u, us, es) && n < |us|
    requires e in u.consumed || (e in u.firsts && u.firsts[e].at <= at)
    ensures Inv(us[n]) && Marked(us[n], e, at)
    ensures e in u.consumed ==> e in us[n].consumed
    ensures e in u.firsts ==> e in us[n].firsts && us[n].firsts[e] == u.firsts[e]
    ensures !AdmitsFor(us[n], e)
  {
    if n > 0 {
      hide Inv, Marked;
      MarkedAdmitsNothing(u, us, es, n - 1, e, at);
      assert Enabled(us[n - 1], es[n - 1]) && us[n - 1 + 1] == Next(us[n - 1], es[n - 1]);
      StepKeeps(us[n - 1], es[n - 1]);
      MarkStays(us[n - 1], es[n - 1], e, at);
      ThingsStay(us[n - 1], es[n - 1], e);
    }
    if AdmitsFor(us[n], e) {
      AdmitsOnStampedBar(us[n]);
      NotThisOne(us[n], e, at);
    }
  }

  lemma ThingsStay(st: State, ev: Event, e: Episode)
    ensures e in st.consumed ==> e in Next(st, ev).consumed
    ensures e in st.firsts ==> e in Next(st, ev).firsts && Next(st, ev).firsts[e] == st.firsts[e]
  {}

  lemma NotThisOne(st: State, e: Episode, at: int)
    requires Inv(st) && Marked(st, e, at) && (e in st.consumed || (e in st.firsts && st.firsts[e].at <= at))
    ensures !(AdmitsFor(st, e) && st.record.Some? && st.record.value.at == st.sample.value.first.at && !st.record.value.conflicted)
  {}

  /** The next minute, and a bar of the same run at it. */
  function NextMinute(clock: int): int { (clock / MINUTE + 1) * MINUTE }

  /** An episode neither stamped nor used up is admitted after all, by the next bar of its run. */
  lemma UnstampedAdmits(u: State, e: Episode) returns (us: seq<State>, es: seq<Event>)
    requires Inv(u) && u.record.Some? && u.record.value.episode == Some(e) && u.record.value.qualifying
    requires e !in u.firsts && e !in u.consumed
    ensures Continues(u, us, es) && |us| == 3 && AdmitsFor(us[2], e)
  {
    var at := NextMinute(u.clock);
    NextIsMinute(u.clock);
    var tick, bar := Tick(at - u.clock), Update(Sample(at, at, true, u.record.value.side, 0));
    var v := Next(u, tick);
    es, us := [tick, bar], [u, v, Next(v, bar)];
  }

  lemma NextIsMinute(clock: int)
    ensures NextMinute(clock) > clock && NextMinute(clock) % MINUTE == 0
  {}

  /**
   After a conflict on a bar, however it was found, its episode admits no later entry exactly when it has been
   stamped or used up by then.
   */
  lemma ConflictAdmitsNothingIff(ss: seq<State>, es: seq<Event>, n: nat, e: Episode)
    requires Run(ss, es) && n < |es| && ConflictFound(ss[n], es[n], e)
    ensures NeverAdmits(ss[n + 1], e) <==> e in ss[n + 1].firsts || e in ss[n + 1].consumed
  {
    RunInv(ss, es, n);
    RunInv(ss, es, n + 1);
    ConflictMarks(ss[n], es[n], e);
    var u, at := ss[n + 1], ss[n].record.value.at;
    if e in u.firsts || e in u.consumed {
      StampedBefore(u, e);
      forall us, ds, m | Continues(u, us, ds) && 0 <= m < |us|
        ensures !AdmitsFor(us[m], e)
      {
        MarkedAdmitsNothing(u, us, ds, m, e, at);
      }
    } else {
      EpisodeQualifies(ss[n]);
      var us, ds := UnstampedAdmits(u, e);
      assert Continues(u, us, ds) && AdmitsFor(us[2], e);
    }
  }

  lemma StampedBefore(u: State, e: Episode)
    requires Inv(u)
    ensures e in u.firsts ==> u.record.Some? && u.firsts[e].at <= u.record.value.at
  {}

  lemma EpisodeQualifies(st: State)
    requires Inv(st) && st.record.Some? && st.record.value.episode.Some?
    ensures st.record.value.qualifying
  {
    assert Numbered(st.bars, |st.bars| - 1);
  }

  /**
   The run that fails: the process dies between the two writes of a first bar, the bar comes back with another
   content, and the next bar of the run is then admitted under the conflicted bar's own episode.
   */
  lemma ConflictAfterDeathAdmits() returns (ss: seq<State>, es: seq<Event>)
    ensures Run(ss, es) && |es| == 4 && ConflictFound(ss[1], es[1], Episode(Some(CE), 0))
    ensures ss[2].record.value.conflicted && AdmitsFor(ss[4], Episode(Some(CE), 0))
  {
    var a, c, b := Sample(0, 0, true, Some(CE), 1), Sample(0, 0, true, Some(CE), 2), Sample(MINUTE, MINUTE, true, Some(CE), 3);
    es := [UpdateDies(a), Update(c), Tick(MINUTE), Update(b)];
    var s0 := Begin(0);
    var s1 := Next(s0, es[0]);
    var s2 := Next(s1, es[1]);
    var s3 := Next(s2, es[2]);
    ss := [s0, s1, s2, s3, Next(s3, es[3])];
  }

  /**
   Dying between the two writes of a first bar does renew the window: the next bar of the run is stamped
   instead, more than thirty seconds after the episode began, and its sample admits an entry.
   */
  lemma DyingBetweenWritesRenews()
    ensures var a, b := Sample(0, 0, true, Some(CE), 1), Sample(MINUTE, MINUTE, true, Some(CE), 2);
            var u := Updated(Cut(Begin(0), a).(clock := MINUTE), b);
            Admits(u) && u.sample.value.episode.at + WINDOW < u.clock
  {}

  // ---------- What an entry needs ----------

  /** The unbroken qualifying run that ends with bar k on this side begins with bar j. */
  predicate RunBegins(bars: seq<Bar>, j: nat, k: nat)
    requires j <= k < |bars|
  {
    OneRun(bars, j, k) && (j > 0 ==> !bars[j - 1].qualifying || bars[j - 1].side != bars[j].side)
  }

  lemma {:induction false} BeginningNamesEpisode(bars: seq<Bar>, j: nat, k: nat)
    requires j <= k < |bars| && (forall i :: 0 <= i < |bars| ==> Numbered(bars, i)) && RunBegins(bars, j, k)
    ensures bars[k].episode == Some(Episode(bars[j].side, bars[j].at))
  {
    assert Numbered(bars, j);
    RunSharesEpisode(bars, j, k);
  }

  /** An update adds a bar exactly when it is newer than all before, with what the update says of it. */
  lemma UpdateAddsBar(ss: seq<State>, es: seq<Event>, k: nat)
    requires Run(ss, es) && k < |es| && (es[k].Update? || es[k].UpdateDies?)
    ensures var s, was, now := es[k].s, ss[k].bars, ss[k + 1].bars;
            if was == [] || was[|was| - 1].at < s.at
            then |now| == |was| + 1 && now[..|was|] == was && now[|was|].at == s.at
                 && now[|was|].qualifying == s.qualifying && now[|was|].side == s.side
            else now == was
  {
    RunInv(ss, es, k);
    hide Increasing, Numbered, StartedBy, HasOwnBar;
  }

  /**
   The completed update of the newest bar holds a sample exactly when the bar qualifies and was not contradicted:
   that of the run it belongs to, named after the run's first bar, under the stamp the run has had or else this
   bar's. An entry is admitted on it exactly while the episode is not used up and the stamp is at most thirty seconds old.
   */
  lemma UpdateAdmitsIff(ss: seq<State>, es: seq<Event>, k: nat, j: nat)
    requires Run(ss, es) && k < |es| && es[k].Update?
    requires ss[k].record.Some? ==> ss[k].record.value.at <= es[k].s.at
    requires es[k].s.qualifying ==> j < |ss[k + 1].bars|
    requires es[k].s.qualifying
             && !(ss[k].record.Some? && ss[k].record.value.at == es[k].s.at && Contradicts(ss[k].record.value, es[k].s))
             ==> RunBegins(ss[k + 1].bars, j, |ss[k + 1].bars| - 1)
    ensures var st, s, u := ss[k], es[k].s, ss[k + 1];
            if !s.qualifying || (st.record.Some? && st.record.value.at == s.at && Contradicts(st.record.value, s))
            then u.sample == None && !Admits(u)
            else var e := Episode(s.side, u.bars[j].at);
                 var first := if e in st.firsts then st.firsts[e] else First(s.at, s.received);
                 && u.sample == Some(Held(e, first)) && u.firsts == st.firsts[e := first] && u.consumed == st.consumed
                 && (Admits(u) <==> e !in st.consumed && 0 <= st.clock - first.at <= 30_000)
  {
    RunInv(ss, es, k);
    RunInv(ss, es, k + 1);
    var st, s, u := ss[k], es[k].s, ss[k + 1];
    hide Increasing, StartedBy, HasOwnBar;
    if s.qualifying && !(st.record.Some? && st.record.value.at == s.at && Contradicts(st.record.value, s)) {
      BeginningNamesEpisode(u.bars, j, |u.bars| - 1);
    }
  }

  /** Time alone ends the admission of a held sample, thirty seconds after the stamp. */
  lemma TickAdmitsIff(st: State, ms: nat)
    ensures Admits(Next(st, Tick(ms))) <==>
            && st.sample.Some? && st.sample.value.episode !in st.consumed
            && 0 <= st.clock + ms - st.sample.value.first.at <= 30_000
  {}

  /** A used-up episode, by an entry or by an invalidation while its sample was held, admits nothing ever again. */
  lemma UsedUpNeverAdmits(ss: seq<State>, es: seq<Event>, n: nat, e: Episode)
    requires Run(ss, es) && n < |es|
    requires es[n] == Consume(e) || (es[n].Invalidate? && ss[n].sample.Some? && ss[n].sample.value.episode == e)
    ensures NeverAdmits(ss[n + 1], e)
  {
    RunInv(ss, es, n + 1);
    hide Inv;
    var u := ss[n + 1];
    forall us, ds, m | Continues(u, us, ds) && 0 <= m < |us|
      ensures !AdmitsFor(us[m], e)
    {
      MarkedAdmitsNothing(u, us, ds, m, e, 0);
    }
  }

  /** After a restart, or an update cut short, nothing is admitted until an update runs to its end. */
  lemma {:induction false} RestartAdmitsNothing(ss: seq<State>, es: seq<Event>, m: nat, n: nat)
    requires Run(ss, es) && m < n < |ss| && (es[m].Restart? || es[m].UpdateDies?)
    requires forall k :: m < k < n ==> !es[k].Update?
    ensures ss[n].sample == None && !Admits(ss[n])
  {
    if m + 1 < n {
      RestartAdmitsNothing(ss, es, m, n - 1);
    }
    assert ss[n - 1 + 1] == Next(ss[n - 1], es[n - 1]);
  }

  // ---------- The owner ----------

  class ShockOwner {
    var record: Option<Record>
    var firsts: map<Episode, First>
    var consumed: set<Episode>
    var sample: Option<Held>
    ghost var bars: seq<Bar>

    ghost function S(clock: int): State
      reads this
    {
      State(record, firsts, consumed, sample, clock, bars)
    }

    constructor (ghost clock: int)
      ensures S(clock) == Begin(clock)
    {
      record, firsts, consumed, sample, bars := None, map[], {}, None, [];
    }

    method Drop(ghost clock: int)
      modifies this
      ensures S(clock) == Dropped(old(S(clock)))
    {
      if sample.Some? {
        consumed := consumed + {sample.value.episode};
      }
      sample := None;
    }

    method Take(s: Sample, ghost clock: int)
      modifies this
      ensures S(clock) == Updated(old(S(clock)), s)
    {
      if record.Some? && s.at < record.value.at {
        return;
      }
      var episode: Option<Episode>;
      if record.Some? && s.at == record.value.at {
        if Conflicts(record.value, s) {
          Drop(clock);
          record := Some(record.value.(conflicted := true));
          return;
        }
        episode := record.value.episode;
      } else {
        episode := EpisodeOf(record, s);
        record := Some(Record(s.at, s.qualifying, s.side, episode, s.digest, false));
        bars := bars + [Bar(s.at, s.qualifying, s.side, episode)];
      }
      if s.qualifying && episode.Some? {
        var e := episode.value;
        if e !in firsts {
          firsts := firsts[e := First(s.at, s.received)];
        }
        sample := Some(Held(e, firsts[e]));
      } else {
        sample := None;
      }
    }
  }
}
