/**
 Confirmation of auction entries (engine.py, strategy.py): index events and books build one streak per
 contract, and only a streak of two or more distinct events on the contract's side confirms an entry.
 */
module Streaks {
  import opened Wrappers
  import opened Risk

  type Id = nat

  datatype OptionType = CE | PE

  datatype Contract = Contract(kind: OptionType, strike: real, lot: int, tick: real)

  /** The best bid and ask with any quantity; epoch and receipt time identify the book of a contract. */
  datatype Quote = Quote(epoch: Id, received: int, bid: Option<Level>, ask: Option<Level>)

  /** An index event as accepted: its value and its identity. */
  datatype Seen = Seen(value: real, id: Id)

  datatype Status = Status(epoch: Id, updated: int)

  const KEEP: int := 24
  const REMEMBER: int := 10000

  datatype State = State(reference: Option<real>, status: Option<Status>, market: Option<Id>, lastStamp: int,
                         books: map<Id, Quote>, observations: seq<Seen>, identities: set<Id>, streaks: map<Id, seq<Seen>>)

  datatype Event =
    | Freeze(reference: real)
    | NewStatus(status: Status)
    | Index(seen: Seen, stamp: int, epoch: Id, wrapped: bool)
    | Book(sec: Id, quote: Quote)
    | SignalReconnect
    | MarketReconnect(market: Option<Id>)

  const START: State := State(None, None, None, -1, map[], [], {}, map[])

  function Intrinsic(c: Contract, value: real): real {
    Max(if c.kind == CE then value - c.strike else c.strike - value, 0.0)
  }

  /** The side of the reference a value is on, if on either. */
  function Direction(value: real, reference: real): Option<OptionType> {
    if value > reference then Some(CE) else if value < reference then Some(PE) else None
  }

  /** A lot each way, and an ask still at least one tick under what the contract would be worth. */
  predicate Lags(c: Contract, q: Quote, value: real) {
    && q.bid.Some? && q.ask.Some?
    && q.bid.value.quantity >= c.lot && q.ask.value.quantity >= c.lot
    && q.ask.value.price + c.tick <= Intrinsic(c, value)
  }

  function LastOf(s: seq<Seen>): seq<Seen> {
    if |s| > KEEP then s[|s| - KEEP..] else s
  }

  function Ids(s: seq<Seen>): set<Id> { set k | 0 <= k < |s| :: s[k].id }

  predicate Acceptable(s: State, e: Event)
    requires e.Index?
  {
    && s.reference.Some? && s.status.Some? && e.epoch == s.status.value.epoch && e.wrapped
    && e.stamp >= s.lastStamp && e.stamp >= s.status.value.updated
  }

  /** The event changes the signal history. */
  predicate Accepts(s: State, e: Event) {
    e.Index? && Acceptable(s, e) && e.seen.id !in s.identities
  }

  predicate Qualifies(c: Contract, q: Quote, value: real, reference: real) {
    Direction(value, reference) == Some(c.kind) && Lags(c, q, value)
  }

  function Streak(s: State, sec: Id): seq<Seen> { if sec in s.streaks then s.streaks[sec] else [] }

  /** Only contracts that qualify at this event keep or begin a streak. */
  function Extended(books: map<Id, Quote>, streaks: map<Id, seq<Seen>>, seen: Seen, reference: real, terms: Id -> Contract)
    : map<Id, seq<Seen>>
  {
    map sec | sec in books && Qualifies(terms(sec), books[sec], seen.value, reference)
      :: LastOf((if sec in streaks then streaks[sec] else []) + [seen])
  }

  /** Old identities are forgotten when there are too many, except those of the kept observations. */
  function Remembered(identities: set<Id>, observations: seq<Seen>, id: Id): set<Id> {
    var added := identities + {id};
    if |added| > REMEMBER then Ids(observations) + {id} else added
  }

  function OnIndex(s: State, e: Event, terms: Id -> Contract): State
    requires e.Index?
  {
    if !Acceptable(s, e) then s
    else if e.seen.id in s.identities then s.(lastStamp := e.stamp)
    else
      s.(lastStamp := e.stamp,
         identities := Remembered(s.identities, s.observations, e.seen.id),
         observations := LastOf(s.observations + [e.seen]),
         streaks := Extended(s.books, s.streaks, e.seen, s.reference.value, terms))
  }

  /** A book that has lost its lag ends the contract's streak. */
  function OnBook(s: State, sec: Id, q: Quote, terms: Id -> Contract): State {
    if s.market.Some? && q.epoch != s.market.value then s
    else
      s.(books := s.books[sec := q],
         streaks := if s.observations != [] && !Lags(terms(sec), q, s.observations[|s.observations| - 1].value)
                    then s.streaks - {sec} else s.streaks)
  }

  function Next(s: State, e: Event, terms: Id -> Contract): State {
    match e
    case Freeze(reference) => if s.reference.None? then s.(reference := Some(reference)) else s
    case NewStatus(status) =>
      if s.status.Some? && status.epoch == s.status.value.epoch && status.updated < s.status.value.updated then s
      else s.(status := Some(status))
    case Index(_, _, _, _) => OnIndex(s, e, terms)
    case Book(sec, q) => OnBook(s, sec, q, terms)
    case SignalReconnect => s.(status := None, observations := [], streaks := map[], identities := {}, lastStamp := -1)
    case MarketReconnect(market) => s.(market := market, books := map[], streaks := map[])
  }

  ghost predicate Run(ss: seq<State>, es: seq<Event>, terms: Id -> Contract) {
    && |ss| == |es| + 1 && ss[0] == START
    && forall k :: 0 <= k < |es| ==> ss[k + 1] == Next(ss[k], es[k], terms)
  }

  // ---------- Every streak is a suffix of the accepted events ----------

  predicate DistinctIds(s: seq<Seen>) {
    forall j, k :: 0 <= j < k < |s| ==> s[j].id != s[k].id
  }

  predicate IsSuffix(a: seq<Seen>, b: seq<Seen>) {
    |a| <= |b| && a == b[|b| - |a|..]
  }

  predicate OnSide(c: Contract, a: seq<Seen>, reference: Option<real>) {
    a != [] && reference.Some? && forall k :: 0 <= k < |a| ==> Direction(a[k].value, reference.value) == Some(c.kind)
  }

  predicate HistoryInv(observations: seq<Seen>, identities: set<Id>) {
    && |observations| <= KEEP && DistinctIds(observations)
    && forall k :: 0 <= k < |observations| ==> observations[k].id in identities
  }

  ghost predicate StreaksInv(streaks: map<Id, seq<Seen>>, observations: seq<Seen>, reference: Option<real>, terms: Id -> Contract) {
    forall sec :: sec in streaks ==> IsSuffix(streaks[sec], observations) && OnSide(terms(sec), streaks[sec], reference)
  }

  ghost predicate Inv(s: State, terms: Id -> Contract) {
    HistoryInv(s.observations, s.identities) && StreaksInv(s.streaks, s.observations, s.reference, terms)
  }

  lemma SuffixGrows(a: seq<Seen>, b: seq<Seen>, x: Seen)
    requires IsSuffix(a, b) && |b| <= KEEP
    ensures IsSuffix(LastOf(a + [x]), LastOf(b + [x]))
  {
    var p, q := LastOf(a + [x]), LastOf(b + [x]);
    forall k | 0 <= k < |p|
      ensures p[k] == q[|q| - |p| + k]
    {
      assert p[k] == (a + [x])[|a| + 1 - |p| + k];
      assert q[|q| - |p| + k] == (b + [x])[|b| + 1 - |p| + k];
      if k < |p| - 1 {
        assert a[|a| + 1 - |p| + k] == b[|b| + 1 - |p| + k];
      }
    }
  }

  lemma StepKeeps(s: State, e: Event, terms: Id -> Contract)
    requires Inv(s, terms)
    ensures Inv(Next(s, e, terms), terms)
  {
    hide Lags, IsSuffix, OnSide, Extended, HistoryInv, StreaksInv, Remembered, LastOf;
    if Accepts(s, e) {
      HistoryGrows(s.observations, s.identities, e.seen);
      StreaksGrow(s, terms, e.seen);
    } else if e.Freeze? && s.reference.None? {
      NoStreakBefore(s, terms);
    } else if e.Book? {
      FewerStreaks(s, terms, e.sec);
    }
    NothingYet(s.reference, s.observations, terms);
    NothingYet(s.reference, [], terms);
  }

  lemma NothingYet(reference: Option<real>, observations: seq<Seen>, terms: Id -> Contract)
    ensures HistoryInv([], {}) && StreaksInv(map[], observations, reference, terms)
  {}

  lemma FewerStreaks(s: State, terms: Id -> Contract, sec: Id)
    requires StreaksInv(s.streaks, s.observations, s.reference, terms)
    ensures StreaksInv(s.streaks - {sec}, s.observations, s.reference, terms)
  {
    hide IsSuffix, OnSide;
  }

  lemma NoStreakBefore(s: State, terms: Id -> Contract)
    requires Inv(s, terms) && s.reference.None?
    ensures forall reference :: StreaksInv(s.streaks, s.observations, reference, terms)
  {}

  lemma QualifiedSide(c: Contract, q: Quote, a: seq<Seen>, x: Seen, reference: real)
    requires Qualifies(c, q, x.value, reference) && (a == [] || OnSide(c, a, Some(reference)))
    ensures OnSide(c, LastOf(a + [x]), Some(reference))
  {
    hide Lags;
    var all := a + [x];
    forall k | 0 <= k < |all|
      ensures Direction(all[k].value, reference) == Some(c.kind)
    {
      assert k < |a| ==> all[k] == a[k];
    }
    var r := LastOf(all);
    forall k | 0 <= k < |r|
      ensures Direction(r[k].value, reference) == Some(c.kind)
    {
      assert r[k] == all[|all| - |r| + k];
    }
    assert r != [];
  }

  lemma HistoryGrows(a: seq<Seen>, ids: set<Id>, x: Seen)
    requires HistoryInv(a, ids) && x.id !in ids
    ensures HistoryInv(LastOf(a + [x]), Remembered(ids, a, x.id))
  {
    DistinctGrows(a, ids, x);
    IdsKept(a, ids, x);
  }

  lemma StreaksGrow(s: State, terms: Id -> Contract, x: Seen)
    requires Inv(s, terms) && s.reference.Some?
    ensures StreaksInv(Extended(s.books, s.streaks, x, s.reference.value, terms), LastOf(s.observations + [x]), s.reference, terms)
  {
    hide Lags, LastOf, IsSuffix, OnSide, Qualifies, Inv;
    var u := Extended(s.books, s.streaks, x, s.reference.value, terms);
    forall sec | sec in u
      ensures IsSuffix(u[sec], LastOf(s.observations + [x])) && OnSide(terms(sec), u[sec], s.reference)
    {
      StreakKept(s, terms, x, sec);
    }
  }

  lemma StreakKept(s: State, terms: Id -> Contract, x: Seen, sec: Id)
    requires Inv(s, terms) && s.reference.Some? && sec in s.books && Qualifies(terms(sec), s.books[sec], x.value, s.reference.value)
    ensures var r := LastOf(Streak(s, sec) + [x]);
            IsSuffix(r, LastOf(s.observations + [x])) && OnSide(terms(sec), r, s.reference)
  {
    hide Lags, LastOf, IsSuffix, OnSide, Qualifies, DistinctIds;
    NoneIsSuffix(s.observations);
    SuffixGrows(Streak(s, sec), s.observations, x);
    QualifiedSide(terms(sec), s.books[sec], Streak(s, sec), x, s.reference.value);
  }

  lemma DistinctGrows(a: seq<Seen>, ids: set<Id>, x: Seen)
    requires DistinctIds(a) && x.id !in ids && forall k :: 0 <= k < |a| ==> a[k].id in ids
    ensures DistinctIds(LastOf(a + [x]))
  {}

  lemma IdsKept(a: seq<Seen>, ids: set<Id>, x: Seen)
    requires forall k :: 0 <= k < |a| ==> a[k].id in ids
    ensures var r := LastOf(a + [x]); forall k :: 0 <= k < |r| ==> r[k].id in Remembered(ids, a, x.id)
  {
    assert forall k :: 0 <= k < |a| ==> a[k].id in Ids(a);
  }

  lemma NoneIsSuffix(b: seq<Seen>)
    ensures IsSuffix([], b)
  {}

  lemma HasObserved(s: State, terms: Id -> Contract, sec: Id)
    requires Inv(s, terms) && sec in s.streaks
    ensures s.observations != []
  {}

  lemma {:induction false} RunInv(ss: seq<State>, es: seq<Event>, terms: Id -> Contract, k: nat)
    requires Run(ss, es, terms) && k < |ss|
    ensures Inv(ss[k], terms)
  {
    hide Inv, Next;
    if k == 0 {
      StartInv(terms);
    } else {
      RunInv(ss, es, terms, k - 1);
      StepKeeps(ss[k - 1], es[k - 1], terms);
    }
  }

  lemma StartInv(terms: Id -> Contract)
    ensures Inv(START, terms)
  {}

  /** Every streak is made of the latest accepted events, all different, all on the contract's side. */
  lemma StreaksAreSuffixes(ss: seq<State>, es: seq<Event>, terms: Id -> Contract, n: nat, sec: Id)
    requires Run(ss, es, terms) && n < |ss| && sec in ss[n].streaks
    ensures var a := ss[n].streaks[sec];
            IsSuffix(a, ss[n].observations) && DistinctIds(a) && OnSide(terms(sec), a, ss[n].reference)
  {
    RunInv(ss, es, terms, n);
  }

  // ---------- Where a streak comes from ----------

  /** The step accepted an event under which the contract qualified, and added it to the streak. */
  predicate Adds(s: State, e: Event, u: State, terms: Id -> Contract, sec: Id) {
    && Accepts(s, e) && s.reference.Some? && sec in s.books
    && Qualifies(terms(sec), s.books[sec], e.seen.value, s.reference.value)
    && sec in u.streaks && u.streaks[sec] == LastOf(Streak(s, sec) + [e.seen])
  }

  /** The step left the streak as it was. */
  predicate Leaves(s: State, u: State, sec: Id) {
    sec in s.streaks && sec in u.streaks && u.streaks[sec] == s.streaks[sec]
  }

  /** The step was no reconnect, nor an update of the contract's book that lost the lag. */
  predicate Harmless(s: State, e: Event, terms: Id -> Contract, sec: Id) {
    && !e.SignalReconnect? && !e.MarketReconnect?
    && (e.Book? && e.sec == sec && (s.market.None? || e.quote.epoch == s.market.value) ==>
          s.observations != [] && Lags(terms(sec), e.quote, s.observations[|s.observations| - 1].value))
  }

  lemma AcceptedStreaks(s: State, e: Event, terms: Id -> Contract)
    requires Accepts(s, e)
    ensures e.Index? && s.reference.Some?
    ensures Next(s, e, terms).streaks == Extended(s.books, s.streaks, e.seen, s.reference.value, terms)
  {
    hide Extended, LastOf, Remembered, Lags, Qualifies, OnBook;
  }

  lemma ExtendedOnly(s: State, x: Seen, reference: real, terms: Id -> Contract, sec: Id)
    requires sec in Extended(s.books, s.streaks, x, reference, terms)
    ensures sec in s.books && Qualifies(terms(sec), s.books[sec], x.value, reference)
    ensures Extended(s.books, s.streaks, x, reference, terms)[sec] == LastOf(Streak(s, sec) + [x])
  {
    hide LastOf, Qualifies;
  }

  lemma AddingStep(s: State, e: Event, terms: Id -> Contract, sec: Id)
    requires Accepts(s, e) && sec in Next(s, e, terms).streaks
    ensures Adds(s, e, Next(s, e, terms), terms, sec) && Harmless(s, e, terms, sec)
  {
    hide LastOf, Qualifies, Lags, Remembered, Accepts, Next, Extended;
    AcceptedStreaks(s, e, terms);
    ExtendedOnly(s, e.seen, s.reference.value, terms, sec);
  }

  lemma QuietStep(s: State, e: Event, terms: Id -> Contract, sec: Id)
    requires Inv(s, terms) && !Accepts(s, e) && sec in Next(s, e, terms).streaks
    ensures Leaves(s, Next(s, e, terms), sec) && Harmless(s, e, terms, sec)
  {
    hide Inv, LastOf, Lags, Remembered, Extended;
    if sec in s.streaks {
      HasObserved(s, terms, sec);
    }
  }

  /** What one step did to a contract that still has a streak after it. */
  lemma StreakStep(s: State, e: Event, terms: Id -> Contract, sec: Id)
    requires Inv(s, terms) && sec in Next(s, e, terms).streaks
    ensures Harmless(s, e, terms, sec)
    ensures if Accepts(s, e) then Adds(s, e, Next(s, e, terms), terms, sec) else Leaves(s, Next(s, e, terms), sec)
  {
    hide Inv, Next, Accepts, Adds, Leaves, Harmless;
    if Accepts(s, e) {
      AddingStep(s, e, terms, sec);
    } else {
      QuietStep(s, e, terms, sec);
    }
  }

  /** Event b was accepted, and nothing after it up to state n was. */
  predicate LastAccepted(ss: seq<State>, es: seq<Event>, b: nat, n: nat)
    requires |ss| == |es| + 1
  {
    b < n <= |es| && Accepts(ss[b], es[b]) && forall k :: b < k < n ==> !Accepts(ss[k], es[k])
  }

  /** A streak was extended last by the latest accepted event, and has stood since. */
  lemma {:induction false} LastExtension(ss: seq<State>, es: seq<Event>, terms: Id -> Contract, n: nat, sec: Id) returns (b: nat)
    requires Run(ss, es, terms) && n < |ss| && sec in ss[n].streaks
    ensures |ss| == |es| + 1 && LastAccepted(ss, es, b, n) && Confirming(ss, es, terms, b, sec)
    ensures forall k :: b < k <= n ==> sec in ss[k].streaks
    ensures ss[n].streaks[sec] == LastOf(Streak(ss[b], sec) + [es[b].seen])
  {
    hide Inv, Next, Accepts, Run, Adds, Leaves, Harmless, Confirming;
    RunBegins(ss, es, terms);
    RunInv(ss, es, terms, n - 1);
    RunStep(ss, es, terms, n - 1);
    StreakStep(ss[n - 1], es[n - 1], terms, sec);
    if Accepts(ss[n - 1], es[n - 1]) {
      b := n - 1;
      AddsParts(ss, es, terms, b, sec);
    } else {
      LeavesParts(ss[n - 1], ss[n], sec);
      b := LastExtension(ss, es, terms, n - 1, sec);
    }
    LatestStays(ss, es, b, n);
    hide LastOf, Streak, LastAccepted;
    ConfirmingIsIndex(ss, es, terms, b, sec);
  }

  lemma LatestStays(ss: seq<State>, es: seq<Event>, b: nat, n: nat)
    requires |ss| == |es| + 1 && 0 < n <= |es|
    requires if Accepts(ss[n - 1], es[n - 1]) then b == n - 1 else LastAccepted(ss, es, b, n - 1)
    ensures LastAccepted(ss, es, b, n)
  {
    hide Accepts;
  }

  lemma AddsParts(ss: seq<State>, es: seq<Event>, terms: Id -> Contract, k: nat, sec: Id)
    requires |ss| == |es| + 1 && k < |es| && Adds(ss[k], es[k], ss[k + 1], terms, sec)
    ensures Confirming(ss, es, terms, k, sec) && es[k].Index?
    ensures ss[k + 1].streaks[sec] == LastOf(Streak(ss[k], sec) + [es[k].seen])
  {
    hide Qualifies, LastOf, Acceptable;
  }

  lemma LeavesParts(s: State, u: State, sec: Id)
    requires Leaves(s, u, sec)
    ensures sec in s.streaks && sec in u.streaks && u.streaks[sec] == s.streaks[sec]
  {}

  lemma ConfirmingIsIndex(ss: seq<State>, es: seq<Event>, terms: Id -> Contract, k: nat, sec: Id)
    requires |ss| == |es| + 1 && k < |es| && Confirming(ss, es, terms, k, sec)
    ensures es[k].Index?
  {}

  lemma RunBegins(ss: seq<State>, es: seq<Event>, terms: Id -> Contract)
    requires Run(ss, es, terms)
    ensures |ss| == |es| + 1 && ss[0] == START
  {}

  lemma RunStep(ss: seq<State>, es: seq<Event>, terms: Id -> Contract, k: nat)
    requires Run(ss, es, terms) && k < |es|
    ensures |ss| == |es| + 1 && ss[k + 1] == Next(ss[k], es[k], terms)
  {}

  /** Since event a nothing has interrupted the contract: no reconnect, and no book update without the lag. */
  ghost predicate Uninterrupted(ss: seq<State>, es: seq<Event>, terms: Id -> Contract, a: nat, n: nat, sec: Id)
    requires |ss| == |es| + 1 && n <= |es|
  {
    forall k :: a < k < n ==> Harmless(ss[k], es[k], terms, sec)
  }

  ghost predicate Confirming(ss: seq<State>, es: seq<Event>, terms: Id -> Contract, k: nat, sec: Id)
    requires |ss| == |es| + 1 && k < |es|
  {
    && Accepts(ss[k], es[k]) && ss[k].reference.Some? && sec in ss[k].books
    && Qualifies(terms(sec), ss[k].books[sec], es[k].seen.value, ss[k].reference.value)
  }

  /**
   Behind every streak of two or more stand two accepted index events, different and consecutive, each on
   the contract's side of the reference with the book lagging, and nothing has interrupted it since.
   */
  lemma StreakIsConfirmed(ss: seq<State>, es: seq<Event>, terms: Id -> Contract, n: nat, sec: Id) returns (a: nat, b: nat)
    requires Run(ss, es, terms) && n < |ss| && |Streak(ss[n], sec)| >= 2
    ensures a < b < n && es[a].Index? && es[b].Index? && es[a].seen.id != es[b].seen.id
    ensures LastAccepted(ss, es, a, b) && LastAccepted(ss, es, b, n)
    ensures Confirming(ss, es, terms, a, sec) && Confirming(ss, es, terms, b, sec)
    ensures Uninterrupted(ss, es, terms, a, n, sec)
  {
    hide Inv, Next, LastAccepted, Confirming;
    b := LastExtension(ss, es, terms, n, sec);
    ComesBefore(ss, es, b, n);
    assert sec in ss[b].streaks;
    a := LastExtension(ss, es, terms, b, sec);
    ComesBefore(ss, es, a, b);
    ConfirmingIsIndex(ss, es, terms, a, sec);
    ConfirmingIsIndex(ss, es, terms, b, sec);
    LastTwoDiffer(ss, es, terms, n, sec, a, b);
    Unbroken(ss, es, terms, a, n, sec);
  }

  lemma ComesBefore(ss: seq<State>, es: seq<Event>, b: nat, n: nat)
    requires |ss| == |es| + 1 && LastAccepted(ss, es, b, n)
    ensures b < n <= |es|
  {}

  lemma LastTwoDiffer(ss: seq<State>, es: seq<Event>, terms: Id -> Contract, n: nat, sec: Id, a: nat, b: nat)
    requires Run(ss, es, terms) && n < |ss| && sec in ss[n].streaks && a < b < n && es[a].Index? && es[b].Index?
    requires sec in ss[b].streaks && ss[b].streaks[sec] == LastOf(Streak(ss[a], sec) + [es[a].seen])
    requires ss[n].streaks[sec] == LastOf(ss[b].streaks[sec] + [es[b].seen])
    ensures es[a].seen.id != es[b].seen.id
  {
    StreaksAreSuffixes(ss, es, terms, n, sec);
    DistinctEnds(Streak(ss[a], sec), es[a].seen, es[b].seen);
  }

  lemma DistinctEnds(a: seq<Seen>, x: Seen, y: Seen)
    requires DistinctIds(LastOf(LastOf(a + [x]) + [y]))
    ensures x.id != y.id
  {
    var first := LastOf(a + [x]);
    var both := LastOf(first + [y]);
    assert first[|first| - 1] == x;
    assert both[|both| - 1] == y && both[|both| - 2] == x;
  }

  lemma Unbroken(ss: seq<State>, es: seq<Event>, terms: Id -> Contract, a: nat, n: nat, sec: Id)
    requires Run(ss, es, terms) && n < |ss| && forall k :: a < k <= n ==> sec in ss[k].streaks
    ensures Uninterrupted(ss, es, terms, a, n, sec)
  {
    hide Inv, Next, Harmless, Adds, Leaves;
    forall k | a < k < n
      ensures Harmless(ss[k], es[k], terms, sec)
    {
      RunInv(ss, es, terms, k);
      assert sec in ss[k + 1].streaks;
      StreakStep(ss[k], es[k], terms, sec);
    }
  }

  lemma ConfirmingExtends(ss: seq<State>, es: seq<Event>, terms: Id -> Contract, k: nat, sec: Id)
    requires Run(ss, es, terms) && k < |es| && Confirming(ss, es, terms, k, sec)
    ensures sec in ss[k + 1].streaks && ss[k + 1].streaks[sec] == LastOf(Streak(ss[k], sec) + [es[k].seen])
  {
    hide Qualifies, LastOf, Remembered, Run, Next;
    RunStep(ss, es, terms, k);
    AcceptedStreaks(ss[k], es[k], terms);
  }

  lemma HarmlessKeeps(s: State, e: Event, terms: Id -> Contract, sec: Id)
    requires sec in s.streaks && !Accepts(s, e) && Harmless(s, e, terms, sec)
    ensures Leaves(s, Next(s, e, terms), sec)
  {
    hide Lags, LastOf, Extended, Remembered;
  }

  /** Without interruption and without a later accepted event a streak stands. */
  lemma {:induction false} StreakStands(ss: seq<State>, es: seq<Event>, terms: Id -> Contract, b: nat, n: nat, sec: Id)
    requires Run(ss, es, terms) && LastAccepted(ss, es, b, n) && Uninterrupted(ss, es, terms, b, n, sec)
    requires sec in ss[b + 1].streaks
    ensures sec in ss[n].streaks && ss[n].streaks[sec] == ss[b + 1].streaks[sec]
  {
    hide Next, Accepts, Harmless;
    if b + 1 < n {
      StreakStands(ss, es, terms, b, n - 1, sec);
      RunStep(ss, es, terms, n - 1);
      HarmlessKeeps(ss[n - 1], es[n - 1], terms, sec);
      LeavesParts(ss[n - 1], ss[n], sec);
    }
  }

  /** And conversely: two such events, the latest two accepted, with nothing interrupting, leave a streak of two or more. */
  lemma ConfirmationsStreak(ss: seq<State>, es: seq<Event>, terms: Id -> Contract, a: nat, b: nat, n: nat, sec: Id)
    requires Run(ss, es, terms) && n < |ss| && LastAccepted(ss, es, a, b) && LastAccepted(ss, es, b, n)
    requires Confirming(ss, es, terms, a, sec) && Confirming(ss, es, terms, b, sec)
    requires Uninterrupted(ss, es, terms, a, n, sec)
    ensures |Streak(ss[n], sec)| >= 2
  {
    RunBegins(ss, es, terms);
    hide Run, Next, Accepts, Harmless, Confirming;
    ConfirmingIsIndex(ss, es, terms, a, sec);
    ConfirmingIsIndex(ss, es, terms, b, sec);
    ConfirmingExtends(ss, es, terms, a, sec);
    StreakStands(ss, es, terms, a, b, sec);
    ConfirmingExtends(ss, es, terms, b, sec);
    StreakStands(ss, es, terms, b, n, sec);
  }

  // ---------- What each event does, on the fields ----------

  /** A lot on each side, and an ask with a tick added still within what the contract is worth at this value, if anything. */
  lemma LagsIff(c: Contract, q: Quote, value: real)
    ensures Lags(c, q, value) <==>
            && q.bid.Some? && q.ask.Some? && c.lot <= q.bid.value.quantity && c.lot <= q.ask.value.quantity
            && (q.ask.value.price + c.tick <= 0.0
                || (c.kind == CE && q.ask.value.price + c.tick + c.strike <= value)
                || (c.kind == PE && q.ask.value.price + c.tick + value <= c.strike))
  {}

  lemma QualifiesIff(c: Contract, q: Quote, value: real, reference: real)
    ensures Qualifies(c, q, value, reference) <==>
            Lags(c, q, value) && if c.kind == CE then reference < value else value < reference
  {
    hide Lags;
  }

  /** The reference is frozen and the event belongs to the current status's connection, is wrapped, late enough and new. */
  lemma AcceptsIff(s: State, e: Event)
    ensures Accepts(s, e) <==>
            && e.Index? && s.reference.Some? && s.status.Some? && e.wrapped && e.epoch == s.status.value.epoch
            && s.lastStamp <= e.stamp && s.status.value.updated <= e.stamp && e.seen.id !in s.identities
  {}

  /** The event was added at the end, the rest moved up, and at most twenty-four are kept. */
  predicate Appended(was: seq<Seen>, now: seq<Seen>, x: Seen) {
    && |now| == (if |was| < 24 then |was| + 1 else 24) && now[|now| - 1] == x
    && forall k :: 0 <= k < |now| - 1 ==> now[k] == was[|was| + 1 - |now| + k]
  }

  lemma LastOfAppends(a: seq<Seen>, x: Seen)
    requires |a| <= 24
    ensures Appended(a, LastOf(a + [x]), x)
  {}

  lemma {:induction false} StreaksShort(ss: seq<State>, es: seq<Event>, terms: Id -> Contract, n: nat, sec: Id)
    requires Run(ss, es, terms) && n < |ss|
    ensures |Streak(ss[n], sec)| <= 24 && |ss[n].observations| <= 24
  {
    RunInv(ss, es, terms, n);
    if sec in ss[n].streaks {
      StreaksAreSuffixes(ss, es, terms, n, sec);
    }
  }

  /**
   An accepted event joins the history, and the streak of every contract whose book then qualifies; every other
   contract loses its streak. Its identity is remembered with all before, or beyond ten thousand with those kept.
   */
  lemma AcceptedLeaves(ss: seq<State>, es: seq<Event>, terms: Id -> Contract, k: nat, sec: Id)
    requires Run(ss, es, terms) && k < |es| && Accepts(ss[k], es[k])
    ensures var s, x, u := ss[k], es[k].seen, ss[k + 1];
            && Appended(s.observations, u.observations, x) && u.lastStamp == es[k].stamp
            && (if sec in s.books && Qualifies(terms(sec), s.books[sec], x.value, s.reference.value)
                then sec in u.streaks && Appended(Streak(s, sec), u.streaks[sec], x) else sec !in u.streaks)
            && (|s.identities| < 10000 ==> u.identities == s.identities + {x.id})
            && (|s.identities| >= 10000 ==>
                  forall i :: i in u.identities <==> i == x.id || exists j :: 0 <= j < |s.observations| && s.observations[j].id == i)
            && u.reference == s.reference && u.status == s.status && u.market == s.market && u.books == s.books
  {
    var s, x := ss[k], es[k].seen;
    StreaksShort(ss, es, terms, k, sec);
    LastOfAppends(s.observations, x);
    LastOfAppends(Streak(s, sec), x);
    hide Qualifies, LastOf, Appended;
    RunStep(ss, es, terms, k);
  }

  /** What is not accepted adds to nothing: at most the time of a repeated event is noted. */
  lemma RefusedLeaves(s: State, e: Event, terms: Id -> Contract)
    requires e.Index? && !Accepts(s, e)
    ensures var u := Next(s, e, terms);
            u == s || (e.seen.id in s.identities && s.lastStamp <= e.stamp && u == s.(lastStamp := e.stamp))
  {
    hide Extended, Remembered, LastOf;
  }

  /** A book of the current feed replaces the last one, and ends the contract's streak exactly when the lag is gone. */
  lemma BookLeaves(s: State, sec: Id, q: Quote, terms: Id -> Contract, other: Id)
    ensures var u := Next(s, Book(sec, q), terms);
            if s.market.Some? && q.epoch != s.market.value then u == s
            else && u.books == s.books[sec := q] && u.observations == s.observations && u.reference == s.reference
                 && u.status == s.status && u.identities == s.identities && u.lastStamp == s.lastStamp
                 && (other !in u.streaks <==>
                      other !in s.streaks
                      || (other == sec && s.observations != [] && !Lags(terms(sec), q, s.observations[|s.observations| - 1].value)))
                 && (other in u.streaks ==> u.streaks[other] == s.streaks[other])
  {
    hide Lags;
  }

  /** The first reference stays for good, a status only gives way to a later one or to another connection's. */
  lemma ReferenceAndStatus(s: State, e: Event, terms: Id -> Contract)
    ensures var u := Next(s, e, terms);
            && u.reference == (if s.reference.None? && e.Freeze? then Some(e.reference) else s.reference)
            && (e.NewStatus? ==> u.status == if s.status.Some? && e.status.epoch == s.status.value.epoch
                                               && e.status.updated < s.status.value.updated then s.status else Some(e.status))
            && (e.NewStatus? || e.Freeze? ==> u.streaks == s.streaks && u.books == s.books && u.observations == s.observations)
  {
    hide Extended, Remembered, LastOf, Lags;
  }

  /** Losing a connection loses what was seen on it: history, identities and status, or the books, and with either every streak. */
  lemma ReconnectLeaves(s: State, e: Event, terms: Id -> Contract)
    ensures e.SignalReconnect? ==>
              var u := Next(s, e, terms);
              && u.status.None? && u.observations == [] && u.identities == {} && u.streaks == map[] && u.lastStamp == -1
              && u.books == s.books && u.market == s.market && u.reference == s.reference
    ensures e.MarketReconnect? ==>
              var u := Next(s, e, terms);
              && u.market == e.market && u.books == map[] && u.streaks == map[]
              && u.observations == s.observations && u.status == s.status && u.identities == s.identities
  {}

  // ---------- From the choice to the dispatch ----------

  /** Book identities are not reused, nor is the epoch of a signal connection once it is lost. */
  ghost predicate FreshIdentities(es: seq<Event>) {
    && (forall j, k :: 0 <= j < k < |es| && es[j].Book? && es[k].Book? && es[j].sec == es[k].sec ==>
          !(es[j].quote.epoch == es[k].quote.epoch && es[j].quote.received == es[k].quote.received))
    && (forall j, k, m :: 0 <= j < k < m < |es| && es[j].NewStatus? && es[k].SignalReconnect? && es[m].NewStatus? ==>
          es[j].status.epoch != es[m].status.epoch)
  }

  /** What is looked at once more before an entry is sent: the same status, and the same book of the contract. */
  predicate SameInputs(s: State, u: State, sec: Id) {
    && s.status.Some? && u.status == s.status
    && sec in s.books && sec in u.books
    && u.books[sec].epoch == s.books[sec].epoch && u.books[sec].received == s.books[sec].received
  }

  /** The event replaces or drops the contract's book. */
  predicate TouchesBook(s: State, e: Event, sec: Id) {
    e.MarketReconnect? || (e.Book? && e.sec == sec && (s.market.None? || e.quote.epoch == s.market.value))
  }

  lemma BookStep(s: State, e: Event, terms: Id -> Contract, sec: Id)
    requires sec in Next(s, e, terms).books
    ensures if TouchesBook(s, e, sec) then e.Book? && e.sec == sec && Next(s, e, terms).books[sec] == e.quote
            else sec in s.books && Next(s, e, terms).books[sec] == s.books[sec]
  {
    hide Lags, Extended, Remembered, LastOf;
  }

  ghost predicate BookFrom(ss: seq<State>, es: seq<Event>, j: nat, n: nat, sec: Id)
    requires |ss| == |es| + 1 && j < n < |ss| && sec in ss[n].books
  {
    && es[j].Book? && es[j].sec == sec && ss[n].books[sec] == es[j].quote
    && forall k :: j < k < n ==> !TouchesBook(ss[k], es[k], sec)
  }

  lemma {:induction false} BookOrigin(ss: seq<State>, es: seq<Event>, terms: Id -> Contract, n: nat, sec: Id) returns (j: nat)
    requires Run(ss, es, terms) && n < |ss| && sec in ss[n].books
    ensures |ss| == |es| + 1 && j < n && BookFrom(ss, es, j, n, sec)
  {
    hide Next, TouchesBook, Run;
    RunBegins(ss, es, terms);
    RunStep(ss, es, terms, n - 1);
    BookStep(ss[n - 1], es[n - 1], terms, sec);
    if TouchesBook(ss[n - 1], es[n - 1], sec) {
      j := n - 1;
    } else {
      j := BookOrigin(ss, es, terms, n - 1, sec);
    }
  }

  lemma StatusStep(s: State, e: Event, terms: Id -> Contract)
    requires Next(s, e, terms).status.Some?
    ensures !e.SignalReconnect?
    ensures Next(s, e, terms).status == s.status || (e.NewStatus? && Next(s, e, terms).status == Some(e.status))
  {
    hide Lags, Extended, Remembered, LastOf;
  }

  ghost predicate StatusFrom(ss: seq<State>, es: seq<Event>, j: nat, n: nat)
    requires |ss| == |es| + 1 && j < n < |ss|
  {
    && es[j].NewStatus? && ss[n].status == Some(es[j].status)
    && forall k :: j < k < n ==> !es[k].SignalReconnect?
  }

  lemma {:induction false} StatusOrigin(ss: seq<State>, es: seq<Event>, terms: Id -> Contract, n: nat) returns (j: nat)
    requires Run(ss, es, terms) && n < |ss| && ss[n].status.Some?
    ensures |ss| == |es| + 1 && j < n && StatusFrom(ss, es, j, n)
  {
    hide Next, Run;
    RunBegins(ss, es, terms);
    RunStep(ss, es, terms, n - 1);
    StatusStep(ss[n - 1], es[n - 1], terms);
    if es[n - 1].NewStatus? && ss[n].status == Some(es[n - 1].status) {
      j := n - 1;
    } else {
      j := StatusOrigin(ss, es, terms, n - 1);
    }
  }

  /** With the same inputs at dispatch as at the choice, neither connection nor the book has changed between. */
  lemma NothingBetween(ss: seq<State>, es: seq<Event>, terms: Id -> Contract, c: nat, n: nat, sec: Id)
    requires Run(ss, es, terms) && FreshIdentities(es) && c <= n < |ss| && SameInputs(ss[c], ss[n], sec)
    ensures |ss| == |es| + 1 && forall k :: c <= k < n ==> !es[k].SignalReconnect? && !TouchesBook(ss[k], es[k], sec)
  {
    hide Next, Run, TouchesBook;
    var b := BookOrigin(ss, es, terms, c, sec);
    var d := BookOrigin(ss, es, terms, n, sec);
    assert b == d;
    var s := StatusOrigin(ss, es, terms, c);
    var t := StatusOrigin(ss, es, terms, n);
    forall k | c <= k < n
      ensures !es[k].SignalReconnect? && !TouchesBook(ss[k], es[k], sec)
    {}
  }

  /**
   An entry chosen on a streak of two or more, and sent while its inputs are still the same, was preceded by
   two different index events on its side, with no reconnect and no losing book update up to the dispatch.
   */
  lemma SentIsConfirmed(ss: seq<State>, es: seq<Event>, terms: Id -> Contract, c: nat, n: nat, sec: Id) returns (a: nat, b: nat)
    requires Run(ss, es, terms) && FreshIdentities(es) && c <= n < |ss|
    requires |Streak(ss[c], sec)| >= 2 && SameInputs(ss[c], ss[n], sec)
    ensures a < b < c && es[a].Index? && es[b].Index? && es[a].seen.id != es[b].seen.id
    ensures Confirming(ss, es, terms, a, sec) && Confirming(ss, es, terms, b, sec)
    ensures Uninterrupted(ss, es, terms, a, n, sec)
  {
    hide Next, Confirming, FreshIdentities, SameInputs;
    a, b := StreakIsConfirmed(ss, es, terms, c, sec);
    NothingBetween(ss, es, terms, c, n, sec);
    forall k | a < k < n
      ensures Harmless(ss[k], es[k], terms, sec)
    {
      if k < c {
        assert Harmless(ss[k], es[k], terms, sec);
      } else {
        assert !TouchesBook(ss[k], es[k], sec);
      }
    }
  }

  // ---------- What the entry search makes of a streak ----------

  /** The values at the end of the history that lie on one side of the reference, latest first. */
  function Contiguous(history: seq<Seen>, side: OptionType, reference: real): seq<real> {
    if history == [] || Direction(history[|history| - 1].value, reference) != Some(side) then []
    else [history[|history| - 1].value] + Contiguous(history[..|history| - 1], side, reference)
  }

  /** The side a history confirms and the values that do, or nothing. */
  function Confirmed(history: seq<Seen>, reference: real): Option<(OptionType, seq<real>)> {
    if |history| < 2 then None
    else
      var current := history[|history| - 1].value;
      if current == reference || |Ids(history)| < 2 then None
      else
        var side := if current > reference then CE else PE;
        var values := Contiguous(history, side, reference);
        if |values| < 2 then None else Some((side, values))
  }

  lemma ContiguousStep(history: seq<Seen>, k: nat, side: OptionType, reference: real)
    requires k <= |history|
    ensures Contiguous(history[..k], side, reference) ==
            if k == 0 || Direction(history[k - 1].value, reference) != Some(side) then []
            else [history[k - 1].value] + Contiguous(history[..k - 1], side, reference)
  {
    hide Direction;
    if k > 0 {
      assert history[..k][..k - 1] == history[..k - 1];
    }
  }

  /** One value more taken from the end leaves the whole run as it was. */
  lemma ContiguousMoves(history: seq<Seen>, k: nat, side: OptionType, reference: real, values: seq<real>)
    requires 0 < k <= |history| && Direction(history[k - 1].value, reference) == Some(side)
    ensures values + Contiguous(history[..k], side, reference)
         == values + [history[k - 1].value] + Contiguous(history[..k - 1], side, reference)
  {
    ContiguousStep(history, k, side, reference);
  }

  /** The reversed loop: the values at the end that lie on one side. */
  method TakeContiguous(history: seq<Seen>, side: OptionType, reference: real) returns (values: seq<real>)
    ensures values == Contiguous(history, side, reference)
  {
    hide Direction, Contiguous;
    values := [];
    var k := |history|;
    assert history[..k] == history;
    ghost var all := Contiguous(history, side, reference);
    assert values + all == all;
    while k > 0 && Direction(history[k - 1].value, reference) == Some(side)
      invariant 0 <= k <= |history|
      invariant values + Contiguous(history[..k], side, reference) == all
    {
      ContiguousMoves(history, k, side, reference, values);
      values := values + [history[k - 1].value];
      k := k - 1;
    }
    ContiguousStep(history, k, side, reference);
    assert values + [] == values;
  }

  method FindConfirmation(history: seq<Seen>, reference: real) returns (r: Option<(OptionType, seq<real>)>)
    ensures r == Confirmed(history, reference)
  {
    if |history| < 2 {
      return None;
    }
    hide Direction, Contiguous;
    var current := history[|history| - 1].value;
    if current == reference || |Ids(history)| < 2 {
      return None;
    }
    hide Ids;
    var side := if current > reference then CE else PE;
    var values := TakeContiguous(history, side, reference);
    r := if |values| < 2 then None else Some((side, values));
  }

  lemma {:induction false} AllContiguous(history: seq<Seen>, side: OptionType, reference: real)
    requires forall k :: 0 <= k < |history| ==> Direction(history[k].value, reference) == Some(side)
    ensures var values := Contiguous(history, side, reference);
            |values| == |history| && forall k :: 0 <= k < |history| ==> values[k] == history[|history| - 1 - k].value
  {
    if history != [] {
      AllContiguous(history[..|history| - 1], side, reference);
    }
  }

  /** Strictly on that side of the reference. */
  predicate Beyond(value: real, side: OptionType, reference: real) {
    if side == CE then reference < value else value < reference
  }

  lemma {:induction false} ContiguousIs(history: seq<Seen>, side: OptionType, reference: real)
    ensures var values := Contiguous(history, side, reference);
            && |values| <= |history|
            && (forall k :: 0 <= k < |values| ==> values[k] == history[|history| - 1 - k].value && Beyond(values[k], side, reference))
            && (|values| < |history| ==> !Beyond(history[|history| - 1 - |values|].value, side, reference))
  {
    if history != [] {
      ContiguousIs(history[..|history| - 1], side, reference);
    }
  }

  lemma ManyIdsIff(history: seq<Seen>)
    ensures |Ids(history)| >= 2 <==> exists j, k :: 0 <= j < k < |history| && history[j].id != history[k].id
  {
    if j, k :| 0 <= j < k < |history| && history[j].id != history[k].id {
      SmallerSet({history[j].id, history[k].id}, Ids(history));
    } else if history != [] {
      forall i | i in Ids(history)
        ensures i == history[0].id
      {}
      SmallerSet(Ids(history), {history[0].id});
    }
  }

  /**
   A history is confirmed exactly when it holds two different events and its last two values lie strictly on one
   side of the reference; that side is returned with the longest run of values on it, latest first.
   */
  lemma ConfirmedIff(history: seq<Seen>, reference: real)
    ensures var r, n := Confirmed(history, reference), |history|;
            && (r.Some? <==> && n >= 2 && (exists j, k :: 0 <= j < k < n && history[j].id != history[k].id)
                             && ((history[n - 2].value > reference && history[n - 1].value > reference)
                                 || (history[n - 2].value < reference && history[n - 1].value < reference)))
            && (r.Some? ==>
                  var (side, values) := r.value;
                  && 2 <= |values| <= n && (side == CE <==> history[n - 1].value > reference)
                  && (forall k :: 0 <= k < |values| ==> values[k] == history[n - 1 - k].value && Beyond(values[k], side, reference))
                  && (|values| < n ==> !Beyond(history[n - 1 - |values|].value, side, reference)))
  {
    ManyIdsIff(history);
    hide Ids, Contiguous;
    if |history| >= 2 && history[|history| - 1].value != reference {
      var side := if history[|history| - 1].value > reference then CE else PE;
      ContiguousIs(history, side, reference);
      var values := Contiguous(history, side, reference);
      assert |values| != 0;
      assert |values| >= 2 ==> values[1] == history[|history| - 2].value;
    }
  }

  /** For a streak the search's checks come down to its length, and every value in it counts. */
  lemma StreakConfirms(ss: seq<State>, es: seq<Event>, terms: Id -> Contract, n: nat, sec: Id)
    requires Run(ss, es, terms) && n < |ss| && sec in ss[n].streaks
    ensures ss[n].reference.Some?
    ensures var a := ss[n].streaks[sec]; var r := Confirmed(a, ss[n].reference.value);
            && (r.Some? <==> |a| >= 2)
            && (r.Some? ==> r.value.0 == terms(sec).kind && |r.value.1| == |a|
                            && forall k :: 0 <= k < |a| ==> r.value.1[k] == a[|a| - 1 - k].value)
  {
    StreaksAreSuffixes(ss, es, terms, n, sec);
    var a, reference := ss[n].streaks[sec], ss[n].reference.value;
    if |a| >= 2 {
      assert {a[|a| - 1].id, a[|a| - 2].id} <= Ids(a);
      SmallerSet({a[|a| - 1].id, a[|a| - 2].id}, Ids(a));
      AllContiguous(a, terms(sec).kind, reference);
    }
  }

  // ---------- The engine's signal fields ----------

  class SignalState {
    const terms: Id -> Contract
    var reference: Option<real>
    var status: Option<Status>
    var market: Option<Id>
    var lastStamp: int
    var books: map<Id, Quote>
    var observations: seq<Seen>
    var identities: set<Id>
    var streaks: map<Id, seq<Seen>>

    function S(): State
      reads this
    {
      State(reference, status, market, lastStamp, books, observations, identities, streaks)
    }

    constructor (terms: Id -> Contract)
      ensures S() == START && this.terms == terms
    {
      this.terms := terms;
      reference, status, market, lastStamp := None, None, None, -1;
      books, observations, identities, streaks := map[], [], {}, map[];
    }

    method OnIndexEvent(seen: Seen, stamp: int, epoch: Id, wrapped: bool) returns (accepted: bool)
      modifies this
      ensures S() == Next(old(S()), Index(seen, stamp, epoch, wrapped), terms)
      ensures accepted == Accepts(old(S()), Index(seen, stamp, epoch, wrapped))
    {
      hide Lags, LastOf, Extended;
      if reference.None? || status.None? || epoch != status.value.epoch || !wrapped {
        return false;
      }
      if stamp < lastStamp || stamp < status.value.updated {
        return false;
      }
      lastStamp := stamp;
      if seen.id in identities {
        return false;
      }
      identities := identities + {seen.id};
      if |identities| > REMEMBER {
        identities := Ids(observations) + {seen.id};
      }
      observations := LastOf(observations + [seen]);
      streaks := Extended(books, streaks, seen, reference.value, terms);
      accepted := true;
    }

    method OnBookUpdate(sec: Id, q: Quote)
      modifies this
      ensures S() == Next(old(S()), Book(sec, q), terms)
    {
      if market.Some? && q.epoch != market.value {
        return;
      }
      books := books[sec := q];
      if sec in streaks && observations != [] {
        if !Lags(terms(sec), q, observations[|observations| - 1].value) {
          streaks := streaks - {sec};
        }
      } else if observations != [] {
        assert streaks - {sec} == streaks;
      }
    }

    method OnSignalReconnect()
      modifies this
      ensures S() == Next(old(S()), SignalReconnect, terms)
    {
      status, observations, streaks, identities, lastStamp := None, [], map[], {}, -1;
    }

    method OnMarketReconnect(epoch: Option<Id>)
      modifies this
      ensures S() == Next(old(S()), MarketReconnect(epoch), terms)
    {
      market, books, streaks := epoch, map[], map[];
    }
  }
}
