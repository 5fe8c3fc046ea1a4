/**
 A run, true to the broker throughout, in which a cancelled order row without its filled quantity resolves an
 intent while a real trade is still unrecorded; the next batch then records it on the resolved intent.
 */
module EarlyResolution {
  import opened Wrappers
  import opened Ledger
  import opened Orders
  import opened OrderTheorems
  import opened Executions

  const BUYER: Intent := Intent(1, 1, 1, BUY, 1, 2, 10.0)

  const UNSTATED: Report := Report(Some(7), None, None, true, Done(CANCELLED), None)

  const LATE: TradeReport := TradeReport(7, Some(1), None, None, true, 1, 10.0, 0.0)

  /** The broker with the order at a given stage: one unit of two filled, then cancelled. */
  function AtBroker(filled: nat, status: OrderStatus): Broker {
    Broker(map[], map[1 := BrokerOrder(7, BUYER, filled, status, if filled == 0 then [] else [Execution(1, filled, 10.0)])],
           if filled == 0 then map[] else map[1 := filled as int])
  }

  function Row(s: IntentState): IntentRow { IntentRow(BUYER, 100.0, s) }

  function Posted(s: AttemptState): Tables {
    Tables([Row(SendUnknown)], map[1 := AttemptRow(1, s)], map[], [], [], {})
  }

  /** After the first batch, and after the second. */
  function Settled(fills: seq<FillRow>): Tables {
    Tables([Row(Ended(CANCELLED))], map[1 := AttemptRow(1, UNKNOWN)], map[7 := OrderRow(1, Done(CANCELLED), UNSTATED)], fills, [], {})
  }

  const RECORDED: FillRow := FillRow(Fill(7, 1, 1, 1, 10.0, 0.0), 1, false)

  /** The process between batches. */
  function Idling(t: Tables, b: Broker, rev: nat, held: Option<Snapshot>): World {
    World(t, b, Process(rev, Idle, NoBatch, STARTED_PROCESS.refresh, held), 0, [1], 0)
  }

  lemma Extend(vs: seq<World>, ds: seq<Event>, w: World, e: Event, next: World) returns (ws: seq<World>, es: seq<Event>)
    requires Run(vs, ds) && |vs| == |ds| + 1 && HonestReads(vs, ds) && vs[|ds|] == w
    requires Enabled(w, e) && HonestRead(w, e) && Next(w, e) == next
    ensures Run(ws, es) && |ws| == |es| + 1 && HonestReads(ws, es) && ws[|es|] == next && vs < ws
  {
    hide Run, Enabled, Next, HonestRead;
    RunExtends(vs, ds, e);
    ws, es := vs + [next], ds + [e];
    RunLength(vs, ds);
  }

  /** The batch at each of its steps. */
  function Read(t: Tables, b: Broker, rev: nat, held: Option<Snapshot>, lines: Option<seq<OrderLine>>,
                trades: Option<seq<TradeReport>>, net: Option<map<Id, int>>): World
  {
    var w := Idling(t, b, rev, held);
    w.(p := w.p.(batch := Reading(rev, false, lines, trades, net)))
  }

  function Matched(t: Tables, b: Broker, rev: nat, held: Option<Snapshot>, row: IntentRow, trades: seq<TradeReport>,
                   resolved: seq<Option<Report>>): World
  {
    var w := Idling(t, b, rev, held);
    w.(p := w.p.(batch := Resolving(rev, false, [row], [OrderLine(Some(1), UNSTATED)], trades, b.net, resolved)))
  }

  /** While the POST is out. */
  function Waiting(b: Broker): World {
    World(Posted(STARTED), b, Process(1, Posting(BUYER, 1), NoBatch, STARTED_PROCESS.refresh, None), 0, [1], 0)
  }

  const BEFORE: World := World(EMPTY, Broker(map[], map[], map[]), STARTED_PROCESS, 0, [], 0)

  const ON_WIRE: Broker := Broker(map[1 := BUYER], map[], map[])

  const CANCELLED_BROKER: Broker := AtBroker(1, Done(CANCELLED))

  lemma Submits()
    ensures Init(BEFORE) && Enabled(BEFORE, SubmitBuy(BUYER, 100.0, 1, true))
    ensures Next(BEFORE, SubmitBuy(BUYER, 100.0, 1, true)) == Waiting(ON_WIRE)
  {
    var t := EMPTY.(intents := [Row(PendingSend)]);
    assert [] + [Row(PendingSend)] == [Row(PendingSend)];
    assert !HasIntent(EMPTY, 1) && !HasCorr(EMPTY, 1);
    assert CreateIntent(EMPTY, BUYER, 100.0) == Success(t);
    assert RecordAttempt(t, 1, 1, STARTED) == Posted(STARTED);
  }

  lemma Executes()
    ensures Enabled(Waiting(ON_WIRE), Deliver(1, 7))
    ensures Next(Waiting(ON_WIRE), Deliver(1, 7)) == Waiting(AtBroker(0, Working))
    ensures Enabled(Waiting(AtBroker(0, Working)), BrokerFill(1, 1, 1, 10.0))
    ensures Next(Waiting(AtBroker(0, Working)), BrokerFill(1, 1, 1, 10.0)) == Waiting(AtBroker(1, Working))
    ensures Enabled(Waiting(AtBroker(1, Working)), BrokerEnd(1, CANCELLED))
    ensures Next(Waiting(AtBroker(1, Working)), BrokerEnd(1, CANCELLED)) == Waiting(CANCELLED_BROKER)
  {
    assert BrokerNext(ON_WIRE, Deliver(1, 7)) == AtBroker(0, Working);
    assert [] + [Execution(1, 1, 10.0)] == [Execution(1, 1, 10.0)];
    assert BrokerNext(AtBroker(0, Working), BrokerFill(1, 1, 1, 10.0)) == AtBroker(1, Working);
    assert BrokerNext(AtBroker(1, Working), BrokerEnd(1, CANCELLED)) == CANCELLED_BROKER;
  }

  lemma Loses()
    ensures Enabled(Waiting(CANCELLED_BROKER), PostFailed)
    ensures Next(Waiting(CANCELLED_BROKER), PostFailed) == Idling(Posted(UNKNOWN), CANCELLED_BROKER, 2, None)
  {
    assert RecordAttempt(Posted(STARTED), 1, 1, UNKNOWN) == Posted(UNKNOWN);
  }

  /** The order is posted, filled in part and cancelled, and the answer to the POST is lost. */
  lemma Sent() returns (ws: seq<World>, es: seq<Event>)
    ensures Run(ws, es) && |ws| == |es| + 1 && HonestReads(ws, es)
    ensures ws[|es|] == Idling(Posted(UNKNOWN), CANCELLED_BROKER, 2, None)
  {
    hide Enabled, Next, Init;
    Submits();
    Executes();
    Loses();
    ws, es := [BEFORE], [];
    ws, es := Extend(ws, es, BEFORE, SubmitBuy(BUYER, 100.0, 1, true), Waiting(ON_WIRE));
    ws, es := Extend(ws, es, Waiting(ON_WIRE), Deliver(1, 7), Waiting(AtBroker(0, Working)));
    ws, es := Extend(ws, es, Waiting(AtBroker(0, Working)), BrokerFill(1, 1, 1, 10.0), Waiting(AtBroker(1, Working)));
    ws, es := Extend(ws, es, Waiting(AtBroker(1, Working)), BrokerEnd(1, CANCELLED), Waiting(CANCELLED_BROKER));
    ws, es := Extend(ws, es, Waiting(CANCELLED_BROKER), PostFailed, Idling(Posted(UNKNOWN), CANCELLED_BROKER, 2, None));
  }

  /** A batch reads the book, the trades and the positions. */
  lemma Reads(vs: seq<World>, ds: seq<Event>, t: Tables, rev: nat, held: Option<Snapshot>, trades: seq<TradeReport>)
    returns (ws: seq<World>, es: seq<Event>)
    requires Run(vs, ds) && |vs| == |ds| + 1 && HonestReads(vs, ds) && vs[|ds|] == Idling(t, CANCELLED_BROKER, rev, held)
    requires |t.intents| == 1 && TrueTrades(CANCELLED_BROKER, trades)
    ensures Run(ws, es) && |ws| == |es| + 1 && HonestReads(ws, es) && vs < ws
    ensures ws[|es|] == Matched(t, CANCELLED_BROKER, rev, held, t.intents[0], trades, [])
  {
    hide Run;
    var b, lines := CANCELLED_BROKER, [OrderLine(Some(1), UNSTATED)];
    ws, es := Extend(vs, ds, Idling(t, b, rev, held), StartBatch, Read(t, b, rev, held, None, None, None));
    ws, es := Extend(ws, es, Read(t, b, rev, held, None, None, None), ReadOrders(lines), Read(t, b, rev, held, Some(lines), None, None));
    ws, es := Extend(ws, es, Read(t, b, rev, held, Some(lines), None, None), ReadTrades(trades),
                     Read(t, b, rev, held, Some(lines), Some(trades), None));
    ws, es := Extend(ws, es, Read(t, b, rev, held, Some(lines), Some(trades), None), ReadPositions,
                     Read(t, b, rev, held, Some(lines), Some(trades), Some(b.net)));
    assert t.intents == [t.intents[0]];
    ws, es := Extend(ws, es, Read(t, b, rev, held, Some(lines), Some(trades), Some(b.net)), ReadIntents,
                     Matched(t, b, rev, held, t.intents[0], trades, []));
  }

  /** The first batch sees no trade: the intent is resolved as cancelled on nothing. */
  lemma FirstBatch() returns (ws: seq<World>, es: seq<Event>)
    ensures Run(ws, es) && |ws| == |es| + 1 && HonestReads(ws, es)
    ensures ws[|es|] == Idling(Settled([]), CANCELLED_BROKER, 3, Some(Snapshot(CANCELLED_BROKER.net, 3)))
  {
    hide Run, Enabled, Next;
    var t, b := Posted(UNKNOWN), CANCELLED_BROKER;
    ws, es := Sent();
    ws, es := Reads(ws, es, t, 2, None, []);
    FirstMatch();
    ws, es := Extend(ws, es, Matched(t, b, 2, None, Row(SendUnknown), [], []), ResolveNext(None, None),
                     Matched(t, b, 2, None, Row(SendUnknown), [], [Some(UNSTATED)]));
    FirstApply();
    ws, es := Extend(ws, es, Matched(t, b, 2, None, Row(SendUnknown), [], [Some(UNSTATED)]), Apply,
                     Idling(Settled([]), b, 3, Some(Snapshot(b.net, 3))));
  }

  lemma FirstMatch()
    ensures var w := Matched(Posted(UNKNOWN), CANCELLED_BROKER, 2, None, Row(SendUnknown), [], []);
            && Enabled(w, ResolveNext(None, None))
            && Next(w, ResolveNext(None, None))
               == Matched(Posted(UNKNOWN), CANCELLED_BROKER, 2, None, Row(SendUnknown), [], [Some(UNSTATED)])
  {
    assert ByCorr([OrderLine(Some(1), UNSTATED)], 1) == Some(UNSTATED);
    assert [] + [Some(UNSTATED)] == [Some(UNSTATED)];
  }

  lemma FirstApply()
    ensures var w := Matched(Posted(UNKNOWN), CANCELLED_BROKER, 2, None, Row(SendUnknown), [], [Some(UNSTATED)]);
            && Enabled(w, Apply)
            && Next(w, Apply) == Idling(Settled([]), CANCELLED_BROKER, 3, Some(Snapshot(CANCELLED_BROKER.net, 3)))
  {
    FirstTrail();
    hide Trail, Program;
  }

  lemma FirstTrail()
    ensures var ops := Program([Row(SendUnknown)], [Some(UNSTATED)], []);
            Completes(Posted(UNKNOWN), ops) && Trail(Posted(UNKNOWN), ops)[|Trail(Posted(UNKNOWN), ops)| - 1] == Settled([])
  {
    var t, row := Posted(UNKNOWN), Row(SendUnknown);
    var u := t.(orders := map[7 := OrderRow(1, Done(CANCELLED), UNSTATED)]);
    var ops := [NoteOrder(row, UNSTATED), Settle(row, UNSTATED)];
    assert Program([row], [Some(UNSTATED)], []) == ops;
    assert Reopened(t.intents, 1) == t.intents;
    assert ExecOp(t, ops[0]) == Success(u);
    assert WithState(u.intents, 1, Ended(CANCELLED)) == [Row(Ended(CANCELLED))];
    assert ExecOp(u, ops[1]) == Success(Settled([]));
    assert ops[1..] == [ops[1]] && ops[1..][1..] == [];
    assert Trail(u, ops[1..]) == [u, Settled([])];
  }

  /** The second batch sees the trade: it is recorded on the resolved intent, which stays cancelled. */
  lemma SecondBatch(vs: seq<World>, ds: seq<Event>) returns (ws: seq<World>, es: seq<Event>)
    requires Run(vs, ds) && |vs| == |ds| + 1 && HonestReads(vs, ds)
    requires vs[|ds|] == Idling(Settled([]), CANCELLED_BROKER, 3, Some(Snapshot(CANCELLED_BROKER.net, 3)))
    ensures Run(ws, es) && |ws| == |es| + 1 && HonestReads(ws, es) && vs < ws
    ensures ws[|es|] == Idling(Settled([RECORDED]), CANCELLED_BROKER, 4, Some(Snapshot(CANCELLED_BROKER.net, 4)))
  {
    hide Run, Enabled, Next;
    var t, b, held := Settled([]), CANCELLED_BROKER, Some(Snapshot(CANCELLED_BROKER.net, 3));
    assert TrueTrades(b, [LATE]) by {
      assert Execution(1, 1, 10.0) in b.book[1].trades;
    }
    ws, es := Reads(vs, ds, t, 3, held, [LATE]);
    SecondMatch();
    ws, es := Extend(ws, es, Matched(t, b, 3, held, Row(Ended(CANCELLED)), [LATE], []), ResolveNext(Some(7), None),
                     Matched(t, b, 3, held, Row(Ended(CANCELLED)), [LATE], [Some(UNSTATED)]));
    SecondApply();
    ws, es := Extend(ws, es, Matched(t, b, 3, held, Row(Ended(CANCELLED)), [LATE], [Some(UNSTATED)]), Apply,
                     Idling(Settled([RECORDED]), b, 4, Some(Snapshot(b.net, 4))));
  }

  lemma SecondMatch()
    ensures var held := Some(Snapshot(CANCELLED_BROKER.net, 3));
            var w := Matched(Settled([]), CANCELLED_BROKER, 3, held, Row(Ended(CANCELLED)), [LATE], []);
            && Enabled(w, ResolveNext(Some(7), None))
            && Next(w, ResolveNext(Some(7), None))
               == Matched(Settled([]), CANCELLED_BROKER, 3, held, Row(Ended(CANCELLED)), [LATE], [Some(UNSTATED)])
  {
    assert ByCorr([OrderLine(Some(1), UNSTATED)], 1) == Some(UNSTATED);
    assert [] + [Some(UNSTATED)] == [Some(UNSTATED)];
  }

  lemma SecondApply()
    ensures var held := Some(Snapshot(CANCELLED_BROKER.net, 3));
            var w := Matched(Settled([]), CANCELLED_BROKER, 3, held, Row(Ended(CANCELLED)), [LATE], [Some(UNSTATED)]);
            && Enabled(w, Apply)
            && Next(w, Apply) == Idling(Settled([RECORDED]), CANCELLED_BROKER, 4, Some(Snapshot(CANCELLED_BROKER.net, 4)))
  {
    SecondTrail();
    hide Trail, Program;
  }

  lemma SecondOps()
    ensures var row := Row(Ended(CANCELLED));
            && ExecOp(Settled([]), NoteOrder(row, UNSTATED)) == Success(Settled([]))
            && ExecOp(Settled([]), NoteTrade(row, UNSTATED, LATE)) == Success(Settled([RECORDED]))
            && ExecOp(Settled([RECORDED]), Settle(row, UNSTATED)) == Success(Settled([RECORDED]))
  {
    hide RecordFillOnce, RecordOrder, FilledQty, SetState;
    KnownOrder();
    TradeTaken();
    StaysCancelled();
    OneFill();
  }

  lemma KnownOrder()
    ensures RecordOrder(Settled([]), 7, 1, Done(CANCELLED), UNSTATED) == Success(Settled([]))
  {}

  lemma TradeTaken()
    ensures RecordFillOnce(Settled([]), Fill(7, 1, 1, 1, 10.0, 0.0), 1) == Success(Settled([RECORDED]))
  {
    var t := Settled([]);
    assert Reopened(t.intents, 1) == t.intents;
    assert [] + [RECORDED] == [RECORDED];
    assert IntentAt(t.intents, 1) == Some(0);
  }

  lemma StaysCancelled()
    ensures SetState(Settled([RECORDED]), 1, Ended(CANCELLED)) == Settled([RECORDED])
  {
    assert WithState([Row(Ended(CANCELLED))], 1, Ended(CANCELLED)) == [Row(Ended(CANCELLED))];
  }

  lemma ThreeOps(t: Tables, u: Tables, v: Tables, w: Tables, a: Op, b: Op, c: Op)
    requires ExecOp(t, a) == Success(u) && ExecOp(u, b) == Success(v) && ExecOp(v, c) == Success(w)
    ensures Trail(t, [a, b, c]) == [t, u, v, w]
  {
    hide ExecOp;
    assert [a, b, c][1..] == [b, c] && [b, c][1..] == [c] && [c][1..] == [];
    assert Trail(w, []) == [w];
    assert Trail(v, [c]) == [v, w];
    assert Trail(u, [b, c]) == [u, v, w];
  }

  lemma SecondTrail()
    ensures var ops := Program([Row(Ended(CANCELLED))], [Some(UNSTATED)], [LATE]);
            Completes(Settled([]), ops) && Trail(Settled([]), ops)[|Trail(Settled([]), ops)| - 1] == Settled([RECORDED])
  {
    hide ExecOp, Trail;
    var t, row := Settled([]), Row(Ended(CANCELLED));
    assert TradeOps(row, UNSTATED, [LATE]) == [NoteTrade(row, UNSTATED, LATE)];
    assert Program([row], [Some(UNSTATED)], [LATE]) == [NoteOrder(row, UNSTATED), NoteTrade(row, UNSTATED, LATE), Settle(row, UNSTATED)];
    SecondOps();
    ThreeOps(t, t, Settled([RECORDED]), Settled([RECORDED]), NoteOrder(row, UNSTATED), NoteTrade(row, UNSTATED, LATE), Settle(row, UNSTATED));
  }

  lemma OneFill()
    ensures FilledQty([RECORDED], 1) == 1
  {
    assert [RECORDED][..0] == [];
  }

  /**
   The run: at k the intent is resolved with nothing recorded although the broker filled one unit; at n it is
   still resolved and the unit is recorded. Every report in it is true.
   */
  lemma ResolvedTooEarly() returns (ws: seq<World>, es: seq<Event>, k: nat, n: nat)
    ensures Run(ws, es) && |ws| >= |es| && HonestReads(ws, es) && k < n < |ws| && |ws[k].t.intents| == 1 && |ws[n].t.intents| == 1
    ensures var w, v := ws[k], ws[n];
            && Resolved(w.t.intents[0].state) && Resolved(v.t.intents[0].state)
            && FilledQty(w.t.fills, 1) == 0 && BrokerFilled(w.b, 1) == 1
            && FilledQty(v.t.fills, 1) == 1
  {
    hide Run, Enabled, Next;
    var vs, ds := FirstBatch();
    k := |ds|;
    ws, es := SecondBatch(vs, ds);
    n := |es|;
    OneFill();
  }
}
