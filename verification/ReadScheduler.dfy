/**
 The account-wide read scheduler (read_scheduler.py): callers queue by priority, and one worker lets them
 through no faster than one per interval. Every stretch between two awaits is one event.
 */
module ReadScheduler {
  import opened Wrappers

  /** Tickets are drawn in order of arrival, so (priority, ticket) orders all waiters. */
  datatype Waiter = Waiter(priority: int, ticket: nat)

  predicate Before(a: Waiter, b: Waiter) {
    a.priority < b.priority || (a.priority == b.priority && a.ticket < b.ticket)
  }

  datatype Worker = Absent | Starting | Sleeping(until: int)

  datatype Grant = Grant(at: int, waiter: Waiter)

  /** `done` holds the tickets granted or cancelled; a cancelled waiter stays in the queue. */
  datatype State = State(waiters: seq<Waiter>, done: set<nat>, next: nat, last: Option<int>, worker: Worker,
                         clock: int, grants: seq<Grant>)

  datatype Event = Tick(ms: nat) | Acquire(priority: int) | Cancel(ticket: nat) | Begin | Wake

  const START: State := State([], {}, 0, None, Absent, 0, [])

  // ---------- The queue ----------

  function Least(ws: seq<Waiter>): (m: nat)
    requires ws != []
    ensures m < |ws| && forall k :: 0 <= k < |ws| ==> ws[k] == ws[m] || Before(ws[m], ws[k])
  {
    if |ws| == 1 then 0
    else
      var m := Least(ws[..|ws| - 1]);
      if Before(ws[|ws| - 1], ws[m]) then |ws| - 1 else m
  }

  function Without(ws: seq<Waiter>, m: nat): (r: seq<Waiter>)
    requires m < |ws|
    ensures |r| == |ws| - 1
  {
    ws[..m] + ws[m + 1..]
  }

  /** Pops until someone is still waiting. */
  function NextLive(ws: seq<Waiter>, done: set<nat>): (r: (Option<Waiter>, seq<Waiter>))
    decreases |ws|
  {
    if ws == [] then (None, [])
    else
      var m := Least(ws);
      if ws[m].ticket !in done then (Some(ws[m]), Without(ws, m)) else NextLive(Without(ws, m), done)
  }

  predicate Live(s: State, w: Waiter) { w in s.waiters && w.ticket !in s.done }

  lemma WithoutKeeps(ws: seq<Waiter>, m: nat, w: Waiter)
    requires m < |ws|
    ensures w in Without(ws, m) ==> w in ws
    ensures w in ws && w != ws[m] ==> w in Without(ws, m)
  {
    if w in ws && w != ws[m] {
      var k :| 0 <= k < |ws| && ws[k] == w;
      assert Without(ws, m)[if k < m then k else k - 1] == w;
    }
  }

  /** The one let through is first among all that still wait, and only it and dead entries leave the queue. */
  lemma {:induction false} NextLiveIsFirst(ws: seq<Waiter>, done: set<nat>)
    ensures var (w, rest) := NextLive(ws, done);
            && (forall v :: v in rest ==> v in ws)
            && (forall v :: v in ws && v.ticket !in done && w != Some(v) ==> v in rest)
            && (w.Some? ==> w.value in ws && w.value.ticket !in done
                            && forall v :: v in ws && v.ticket !in done ==> v == w.value || Before(w.value, v))
            && (w.None? ==> rest == [] && forall v :: v in ws ==> v.ticket in done)
    decreases |ws|
  {
    if ws != [] {
      var m := Least(ws);
      forall v
        ensures v in Without(ws, m) ==> v in ws
        ensures v in ws && v != ws[m] ==> v in Without(ws, m)
      {
        WithoutKeeps(ws, m, v);
      }
      if ws[m].ticket in done {
        NextLiveIsFirst(Without(ws, m), done);
      }
    }
  }

  // ---------- Steps ----------

  function SleepFrom(s: State, interval: nat): Worker {
    var wait := if s.last.Some? && interval - (s.clock - s.last.value) > 0 then interval - (s.clock - s.last.value) else 0;
    Sleeping(s.clock + wait)
  }

  /** The head of the worker's loop: sleep out the interval, or end. */
  function Loop(s: State, interval: nat): State {
    s.(worker := if s.waiters != [] then SleepFrom(s, interval) else Absent)
  }

  /** A sleep never ends early. */
  predicate Enabled(s: State, e: Event) {
    match e
    case Begin => s.worker == Starting
    case Wake => s.worker.Sleeping? && s.clock >= s.worker.until
    case _ => true
  }

  function Next(s: State, e: Event, interval: nat): State {
    match e
    case Tick(ms) => s.(clock := s.clock + ms)
    case Acquire(p) =>
      s.(waiters := s.waiters + [Waiter(p, s.next)], next := s.next + 1,
         worker := if s.worker == Absent then Starting else s.worker)
    case Cancel(ticket) => if ticket < s.next then s.(done := s.done + {ticket}) else s
    case Begin => Loop(s, interval)
    case Wake =>
      var (w, rest) := NextLive(s.waiters, s.done);
      match w
      case None => s.(waiters := rest, worker := Absent)
      case Some(v) =>
        Loop(s.(waiters := rest, done := s.done + {v.ticket}, last := Some(s.clock), grants := s.grants + [Grant(s.clock, v)]), interval)
  }

  ghost predicate Run(ss: seq<State>, es: seq<Event>, interval: nat) {
    && |ss| == |es| + 1 && ss[0] == START
    && forall k :: 0 <= k < |es| ==> Enabled(ss[k], es[k]) && ss[k + 1] == Next(ss[k], es[k], interval)
  }

  // ---------- What every state keeps ----------

  predicate Spaced(grants: seq<Grant>, interval: nat) {
    forall j, k :: 0 <= j < k < |grants| ==> grants[k].at - grants[j].at >= (k - j) * interval
  }

  lemma SpacedAppend(grants: seq<Grant>, g: Grant, interval: nat)
    requires Spaced(grants, interval)
    requires grants != [] ==> g.at - grants[|grants| - 1].at >= interval
    ensures Spaced(grants + [g], interval)
  {
    var all := grants + [g];
    forall j, k | 0 <= j < k < |all|
      ensures all[k].at - all[j].at >= (k - j) * interval
    {
      if k == |grants| && j < k - 1 {
        assert all[k - 1].at - all[j].at >= (k - 1 - j) * interval;
        assert (k - 1 - j) * interval + interval == (k - j) * interval;
      }
    }
  }

  ghost predicate Inv(s: State, interval: nat) {
    && (s.waiters != [] ==> s.worker != Absent)
    && (forall w :: w in s.waiters ==> w.ticket < s.next)
    && (forall v, w :: v in s.waiters && w in s.waiters && v.ticket == w.ticket ==> v == w)
    && (s.last == if s.grants == [] then None else Some(s.grants[|s.grants| - 1].at))
    && (s.last.Some? ==> s.last.value <= s.clock)
    && (s.worker.Sleeping? && s.last.Some? ==> s.worker.until >= s.last.value + interval)
    && Spaced(s.grants, interval)
  }

  lemma StepKeeps(s: State, e: Event, interval: nat)
    requires Inv(s, interval) && Enabled(s, e)
    ensures Inv(Next(s, e, interval), interval)
  {
    hide Spaced, NextLive;
    if e == Wake {
      NextLiveIsFirst(s.waiters, s.done);
      var w := NextLive(s.waiters, s.done).0;
      if w.Some? {
        SpacedAppend(s.grants, Grant(s.clock, w.value), interval);
      }
    }
  }

  lemma {:induction false} RunInv(ss: seq<State>, es: seq<Event>, interval: nat, k: nat)
    requires Run(ss, es, interval) && k < |ss|
    ensures Inv(ss[k], interval)
  {
    if k > 0 {
      RunInv(ss, es, interval, k - 1);
      StepKeeps(ss[k - 1], es[k - 1], interval);
    }
  }

  /** No lost wakeup: whoever waits, there is a worker on its way to them. */
  lemma NoLostWakeup(ss: seq<State>, es: seq<Event>, interval: nat, k: nat, w: Waiter)
    requires Run(ss, es, interval) && k < |ss| && Live(ss[k], w)
    ensures ss[k].worker != Absent
  {
    RunInv(ss, es, interval, k);
  }

  /** Any n + 1 grants in a row take at least n intervals. */
  lemma GrantsAreSpaced(ss: seq<State>, es: seq<Event>, interval: nat, k: nat, i: nat, j: nat)
    requires Run(ss, es, interval) && k < |ss| && i < j < |ss[k].grants|
    ensures ss[k].grants[j].at - ss[k].grants[i].at >= (j - i) * interval
  {
    RunInv(ss, es, interval, k);
  }

  /** A wakeup with anyone still waiting lets through the first of them; without, the worker ends. */
  lemma WakeGrantsFirst(s: State, interval: nat)
    requires Enabled(s, Wake)
    ensures var u := Next(s, Wake, interval);
            if exists w :: Live(s, w) then
              && |u.grants| == |s.grants| + 1 && u.grants[..|s.grants|] == s.grants
              && var g := u.grants[|s.grants|];
                 && g.at == s.clock && Live(s, g.waiter) && !Live(u, g.waiter)
                 && (forall v :: Live(s, v) ==> v == g.waiter || Before(g.waiter, v))
            else u.grants == s.grants && u.worker == Absent && u.waiters == []
  {
    hide SleepFrom, NextLive;
    NextLiveIsFirst(s.waiters, s.done);
    var w := NextLive(s.waiters, s.done).0;
    if w.Some? {
      assert Live(s, w.value);
    }
  }

  /** Those let through before `w`. */
  ghost function Ahead(s: State, w: Waiter): set<Waiter> {
    set v | v in s.waiters && v.ticket !in s.done && Before(v, w)
  }

  /**
   Nobody still waiting is dropped or overtaken by a later arrival of the same or a lower urgency: each
   wakeup either lets `w` through or leaves fewer ahead of it.
   */
  lemma NobodyOvertakes(s: State, e: Event, interval: nat, w: Waiter)
    requires Inv(s, interval) && Enabled(s, e) && Live(s, w)
    requires e.Acquire? ==> e.priority >= w.priority
    requires e != Cancel(w.ticket)
    ensures var u := Next(s, e, interval);
            if Live(u, w) then |Ahead(u, w)| <= |Ahead(s, w)| && (e == Wake ==> |Ahead(u, w)| < |Ahead(s, w)|)
            else e == Wake && u.grants == s.grants + [Grant(s.clock, w)]
  {
    if e == Wake {
      WakeServes(s, interval, w);
    } else {
      ArrivalsQueueBehind(s, e, interval, w);
    }
  }

  lemma WakeServes(s: State, interval: nat, w: Waiter)
    requires Inv(s, interval) && Enabled(s, Wake) && Live(s, w)
    ensures var u := Next(s, Wake, interval);
            if Live(u, w) then |Ahead(u, w)| < |Ahead(s, w)| else u.grants == s.grants + [Grant(s.clock, w)]
  {
    hide Spaced, SleepFrom, NextLive;
    NextLiveIsFirst(s.waiters, s.done);
    var u, g := Next(s, Wake, interval), NextLive(s.waiters, s.done).0.value;
    if g != w {
      assert g in Ahead(s, w);
      assert Ahead(u, w) <= Ahead(s, w) - {g};
      SmallerSet(Ahead(u, w), Ahead(s, w) - {g});
    }
  }

  lemma ArrivalsQueueBehind(s: State, e: Event, interval: nat, w: Waiter)
    requires Inv(s, interval) && Enabled(s, e) && Live(s, w) && e != Wake
    requires e.Acquire? ==> e.priority >= w.priority
    requires e != Cancel(w.ticket)
    ensures var u := Next(s, e, interval); Live(u, w) && |Ahead(u, w)| <= |Ahead(s, w)|
  {
    hide Spaced, SleepFrom, NextLive;
    var u := Next(s, e, interval);
    assert Ahead(u, w) <= Ahead(s, w);
    SmallerSet(Ahead(u, w), Ahead(s, w));
  }

  // ---------- When, and for whom ----------

  /** A sleep is over by now, or lasts until one interval after the latest grant. */
  predicate OnTime(s: State, interval: nat) {
    s.worker.Sleeping? ==> s.worker.until <= s.clock || (s.last.Some? && s.worker.until == s.last.value + interval)
  }

  lemma {:induction false} RunOnTime(ss: seq<State>, es: seq<Event>, interval: nat, k: nat)
    requires Run(ss, es, interval) && k < |ss|
    ensures OnTime(ss[k], interval)
  {
    hide NextLive;
    if k > 0 {
      RunOnTime(ss, es, interval, k - 1);
      assert Enabled(ss[k - 1], es[k - 1]) && ss[k - 1 + 1] == Next(ss[k - 1], es[k - 1], interval);
    }
  }

  /** The sleeping worker can go on exactly when there was no grant within the last interval. */
  lemma WakesIff(ss: seq<State>, es: seq<Event>, interval: nat, k: nat)
    requires Run(ss, es, interval) && k < |ss| && ss[k].worker.Sleeping?
    ensures var s := ss[k];
            Enabled(s, Wake) <==> s.grants == [] || s.grants[|s.grants| - 1].at + interval <= s.clock
  {
    RunInv(ss, es, interval, k);
    RunOnTime(ss, es, interval, k);
    hide Spaced;
  }

  lemma {:induction false} DoneWereDrawn(ss: seq<State>, es: seq<Event>, interval: nat, k: nat)
    requires Run(ss, es, interval) && k < |ss|
    ensures forall t :: t in ss[k].done ==> t < ss[k].next
  {
    if k > 0 {
      DoneWereDrawn(ss, es, interval, k - 1);
      RunInv(ss, es, interval, k - 1);
      var s := ss[k - 1];
      NextLiveIsFirst(s.waiters, s.done);
      hide NextLive, Spaced, SleepFrom;
      assert NextLive(s.waiters, s.done).0.Some? ==> NextLive(s.waiters, s.done).0.value in s.waiters;
      assert ss[k - 1 + 1] == Next(s, es[k - 1], interval);
    }
  }

  /** Whoever asks is queued with the urgency asked for, behind all earlier tickets, and has a worker on its way. */
  lemma AcquireQueues(ss: seq<State>, es: seq<Event>, interval: nat, k: nat)
    requires Run(ss, es, interval) && k < |es| && es[k].Acquire?
    ensures var s, u := ss[k], ss[k + 1];
            && Live(u, Waiter(es[k].priority, s.next)) && u.grants == s.grants
            && (if s.worker == Absent then u.worker == Starting else u.worker == s.worker)
            && (forall w :: Live(u, w) && w.ticket != s.next <==> Live(s, w))
            && forall w :: Live(s, w) ==> w.ticket < s.next
  {
    RunInv(ss, es, interval, k);
    DoneWereDrawn(ss, es, interval, k);
    hide Spaced, NextLive;
  }

  /** The worker that starts, or has let someone through, sleeps while anyone is queued and else ends. */
  lemma WorkerGoesOn(s: State, e: Event, interval: nat)
    requires Enabled(s, e) && (e == Begin || e == Wake)
    ensures var u := Next(s, e, interval); if u.waiters == [] then u.worker == Absent else u.worker.Sleeping?
  {
    NextLiveIsFirst(s.waiters, s.done);
    hide NextLive;
  }

  lemma GrantsOnly(s: State, e: Event, interval: nat)
    requires Enabled(s, e)
    ensures var u := Next(s, e, interval);
            && s.done <= u.done && s.grants <= u.grants && |u.grants| <= |s.grants| + 1
            && (|u.grants| > |s.grants| ==>
                  var ticket := u.grants[|s.grants|].waiter.ticket; ticket !in s.done && ticket in u.done)
  {
    NextLiveIsFirst(s.waiters, s.done);
    hide NextLive, SleepFrom;
    var w := NextLive(s.waiters, s.done).0;
    assert w.Some? ==> w.value.ticket !in s.done;
  }

  /** A ticket that was cancelled or let through is not let through again. */
  lemma {:induction false} DoneIsDone(ss: seq<State>, es: seq<Event>, interval: nat, j: nat, k: nat, ticket: nat)
    requires Run(ss, es, interval) && j <= k < |ss| && ticket in ss[j].done
    ensures ticket in ss[k].done && ss[j].grants <= ss[k].grants
    ensures forall i :: |ss[j].grants| <= i < |ss[k].grants| ==> ss[k].grants[i].waiter.ticket != ticket
  {
    if j < k {
      DoneIsDone(ss, es, interval, j, k - 1, ticket);
      assert Enabled(ss[k - 1], es[k - 1]) && ss[k - 1 + 1] == Next(ss[k - 1], es[k - 1], interval);
      hide Next, Enabled;
      GrantsOnly(ss[k - 1], es[k - 1], interval);
    }
  }

  /** A caller that gives up is never let through afterwards. */
  lemma CancelledIsNeverGranted(ss: seq<State>, es: seq<Event>, interval: nat, j: nat, k: nat, ticket: nat)
    requires Run(ss, es, interval) && j < k < |ss| && es[j] == Cancel(ticket) && ticket < ss[j].next
    ensures ss[j].grants <= ss[k].grants
    ensures forall i :: |ss[j].grants| <= i < |ss[k].grants| ==> ss[k].grants[i].waiter.ticket != ticket
  {
    assert ss[j + 1] == Next(ss[j], es[j], interval);
    DoneIsDone(ss, es, interval, j + 1, k, ticket);
  }

  ghost predicate OnceEach(s: State) {
    && (forall i :: 0 <= i < |s.grants| ==> s.grants[i].waiter.ticket in s.done)
    && forall i, j :: 0 <= i < j < |s.grants| ==> s.grants[i].waiter.ticket != s.grants[j].waiter.ticket
  }

  /** Nobody is let through twice. */
  lemma {:induction false} GrantedOnce(ss: seq<State>, es: seq<Event>, interval: nat, k: nat)
    requires Run(ss, es, interval) && k < |ss|
    ensures OnceEach(ss[k])
  {
    if k > 0 {
      GrantedOnce(ss, es, interval, k - 1);
      assert Enabled(ss[k - 1], es[k - 1]) && ss[k - 1 + 1] == Next(ss[k - 1], es[k - 1], interval);
      hide Next, Enabled;
      GrantsOnly(ss[k - 1], es[k - 1], interval);
    }
  }

  // ---------- The scheduler ----------

  class Scheduler {
    const interval: nat
    var waiters: seq<Waiter>
    var done: set<nat>
    var next: nat
    var last: Option<int>
    var worker: Worker
    ghost var grants: seq<Grant>

    ghost function S(clock: int): State
      reads this
    {
      State(waiters, done, next, last, worker, clock, grants)
    }

    constructor (interval: nat)
      ensures this.interval == interval && S(0) == START
    {
      this.interval := interval;
      waiters, done, next, last, worker, grants := [], {}, 0, None, Absent, [];
    }

    method Enqueue(priority: int, ghost clock: int)
      modifies this
      ensures S(clock) == Next(old(S(clock)), Acquire(priority), interval)
    {
      waiters := waiters + [Waiter(priority, next)];
      next := next + 1;
      if worker == Absent {
        worker := Starting;
      }
    }

    method Abandon(ticket: nat, ghost clock: int)
      modifies this
      ensures S(clock) == Next(old(S(clock)), Cancel(ticket), interval)
    {
      if ticket < next {
        done := done + {ticket};
      }
    }

    method SleepOrEnd(clock: int)
      modifies this
      ensures S(clock) == Loop(old(S(clock)), interval)
    {
      if waiters != [] {
        var wait := 0;
        if last.Some? && interval - (clock - last.value) > 0 {
          wait := interval - (clock - last.value);
        }
        worker := Sleeping(clock + wait);
      } else {
        worker := Absent;
      }
    }

    /** The inner loop of _drain: pop the least entry until one is still waiting. */
    method WakeUp(clock: int)
      requires Enabled(S(clock), Wake)
      modifies this
      ensures S(clock) == Next(old(S(clock)), Wake, interval)
    {
      while waiters != []
        invariant S(clock) == old(S(clock)).(waiters := waiters)
        invariant NextLive(waiters, done) == NextLive(old(waiters), done)
        decreases |waiters|
      {
        var m := Least(waiters);
        var first := waiters[m];
        waiters := Without(waiters, m);
        if first.ticket !in done {
          last := Some(clock);
          done := done + {first.ticket};
          grants := grants + [Grant(clock, first)];
          SleepOrEnd(clock);
          return;
        }
      }
      SleepOrEnd(clock);
    }
  }
}
