/**
 Trade reports arrive late, repeatedly and in any order (ledger.py). While they are all true of the same
 trades, none is refused and what they leave behind depends only on the set of reports received.
 */
module FillConvergence {
  import opened Wrappers
  import opened Ledger

  /** One call of record_fill_once. */
  datatype Recording = Recording(fill: Fill, intent: Id)

  /** What the ledger knows of one trade. */
  datatype Entry = Entry(intent: Id, sec: Id, qty: nat, price: real, fees: real)

  type Key = (Id, Id)

  function KeyOf(f: Fill): Key { (f.order, f.trade) }

  function EntryOf(row: FillRow): Entry {
    Entry(row.intent, row.fill.sec, row.fill.qty, row.fill.price, row.fill.fees)
  }

  /** The fills as a lookup by (order, trade). */
  function Book(fills: seq<FillRow>): map<Key, Entry> {
    if fills == [] then map[]
    else Book(fills[..|fills| - 1])[KeyOf(fills[|fills| - 1].fill) := EntryOf(fills[|fills| - 1])]
  }

  /** A refused recording rolls its transaction back. */
  function Absorb(t: Tables, rs: seq<Recording>): Tables {
    if rs == [] then t
    else
      var before := Absorb(t, rs[..|rs| - 1]);
      var r := rs[|rs| - 1];
      match RecordFillOnce(before, r.fill, r.intent)
      case Success(u) => u
      case Failure(_) => before
  }

  /** Reports taken in two batches are taken in once. */
  lemma {:induction false} BatchesCompose(t: Tables, rs: seq<Recording>, ss: seq<Recording>)
    ensures Absorb(t, rs + ss) == Absorb(Absorb(t, rs), ss)
  {
    hide RecordFillOnce;
    if ss == [] {
      assert rs + ss == rs;
    } else {
      assert (rs + ss)[..|rs + ss| - 1] == rs + ss[..|ss| - 1];
      BatchesCompose(t, rs, ss[..|ss| - 1]);
    }
  }

  // ---------- What truth means ----------

  /** The trades that really happened, and the intents they belong to, fit the table's intents. */
  ghost predicate Possible(t: Tables, facts: seq<FillRow>) {
    && DistinctFills(facts)
    && (forall k :: 0 <= k < |facts| ==> FitsIntent(t, facts, facts[k]))
  }

  ghost predicate FitsIntent(t: Tables, facts: seq<FillRow>, fact: FillRow) {
    exists n :: 0 <= n < |t.intents| && t.intents[n].intent.id == fact.intent && t.intents[n].intent.sec == fact.fill.sec
                && FilledQty(facts, fact.intent) <= t.intents[n].intent.qty
  }

  /** Same trade, whatever the fees said so far. */
  predicate Agrees(fact: FillRow, f: Fill, intent: Id) {
    fact.intent == intent && fact.fill.(fees := f.fees) == f
  }

  ghost predicate True(facts: seq<FillRow>, f: Fill, intent: Id) {
    exists k :: 0 <= k < |facts| && Agrees(facts[k], f, intent)
  }

  ghost predicate AllTrue(facts: seq<FillRow>, rs: seq<Recording>) {
    forall k :: 0 <= k < |rs| ==> True(facts, rs[k].fill, rs[k].intent)
  }

  ghost predicate TableTrue(facts: seq<FillRow>, t: Tables) {
    forall k :: 0 <= k < |t.fills| ==> True(facts, t.fills[k].fill, t.fills[k].intent)
  }

  // ---------- True reports are never refused ----------

  lemma {:induction false} FilledQtyWithout(fills: seq<FillRow>, k: nat, id: Id)
    requires k < |fills|
    ensures FilledQty(fills, id) ==
            FilledQty(fills[..k] + fills[k + 1..], id) + if fills[k].intent == id then fills[k].fill.qty else 0
  {
    var rest := fills[..k] + fills[k + 1..];
    if k == |fills| - 1 {
      assert rest == fills[..|fills| - 1];
    } else {
      FilledQtyWithout(fills[..|fills| - 1], k, id);
      assert rest[..|rest| - 1] == fills[..|fills| - 1][..k] + fills[..|fills| - 1][k + 1..];
    }
  }

  /** Distinct true fills never add up to more than the facts do. */
  lemma {:induction false} TrueQtyBounded(fills: seq<FillRow>, facts: seq<FillRow>, id: Id)
    requires DistinctFills(fills)
    requires forall k :: 0 <= k < |fills| && fills[k].intent == id ==> True(facts, fills[k].fill, fills[k].intent)
    ensures FilledQty(fills, id) <= FilledQty(facts, id)
    decreases |fills|
  {
    if fills != [] && fills[|fills| - 1].intent != id {
      TrueQtyBounded(fills[..|fills| - 1], facts, id);
    } else if fills != [] {
      var last := fills[|fills| - 1];
      assert True(facts, last.fill, last.intent);
      var k :| 0 <= k < |facts| && Agrees(facts[k], last.fill, last.intent);
      var rest := facts[..k] + facts[k + 1..];
      forall j | 0 <= j < |fills| - 1 && fills[j].intent == id
        ensures True(rest, fills[j].fill, fills[j].intent)
      {
        assert True(facts, fills[j].fill, fills[j].intent);
        var m :| 0 <= m < |facts| && Agrees(facts[m], fills[j].fill, fills[j].intent);
        assert m != k;
        assert rest[if m < k then m else m - 1] == facts[m];
      }
      FilledQtyWithout(facts, k, id);
      TrueQtyBounded(fills[..|fills| - 1], rest, id);
    }
  }

  /** What a success does to the lookup. */
  function Noted(b: map<Key, Entry>, r: Recording): map<Key, Entry> {
    var k := KeyOf(r.fill);
    var fees := if k in b && b[k].fees > r.fill.fees then b[k].fees else r.fill.fees;
    b[k := Entry(r.intent, r.fill.sec, r.fill.qty, r.fill.price, fees)]
  }

  lemma {:induction false} BookAt(fills: seq<FillRow>)
    requires DistinctFills(fills)
    ensures forall k :: 0 <= k < |fills| ==> KeyOf(fills[k].fill) in Book(fills) && Book(fills)[KeyOf(fills[k].fill)] == EntryOf(fills[k])
    ensures forall key :: key in Book(fills) ==> exists k :: 0 <= k < |fills| && KeyOf(fills[k].fill) == key
  {
    if fills != [] {
      var init := fills[..|fills| - 1];
      BookAt(init);
      forall k | 0 <= k < |fills|
        ensures KeyOf(fills[k].fill) in Book(fills) && Book(fills)[KeyOf(fills[k].fill)] == EntryOf(fills[k])
      {
        if k < |init| {
          assert init[k] == fills[k];
        }
      }
      forall key | key in Book(fills)
        ensures exists k :: 0 <= k < |fills| && KeyOf(fills[k].fill) == key
      {
        if key in Book(init) {
          var k :| 0 <= k < |init| && KeyOf(init[k].fill) == key;
          assert KeyOf(fills[k].fill) == key;
        } else {
          assert KeyOf(fills[|fills| - 1].fill) == key;
        }
      }
    }
  }

  /** Replacing one row by another of the same key only changes that entry. */
  lemma {:induction false} BookReplaced(fills: seq<FillRow>, k: nat, row: FillRow)
    requires DistinctFills(fills) && k < |fills| && KeyOf(row.fill) == KeyOf(fills[k].fill)
    ensures Book(fills[k := row]) == Book(fills)[KeyOf(row.fill) := EntryOf(row)]
  {
    var init, last := fills[..|fills| - 1], fills[|fills| - 1];
    if k == |init| {
      assert fills[k := row][..|init|] == init;
    } else {
      BookReplaced(init, k, row);
      assert fills[k := row][..|init|] == init[k := row];
      assert KeyOf(last.fill) != KeyOf(row.fill);
    }
  }

  lemma KnownTrue(t: Tables, facts: seq<FillRow>, f: Fill, intent: Id, k: nat)
    requires DistinctFills(facts) && TableTrue(facts, t) && True(facts, f, intent)
    requires k < |t.fills| && KeyOf(t.fills[k].fill) == KeyOf(f)
    ensures t.fills[k].intent == intent && t.fills[k].fill.(fees := f.fees) == f
  {
    assert True(facts, t.fills[k].fill, t.fills[k].intent);
    var a :| 0 <= a < |facts| && Agrees(facts[a], t.fills[k].fill, t.fills[k].intent);
    var c :| 0 <= c < |facts| && Agrees(facts[c], f, intent);
    assert a == c;
  }

  predicate NewTo(t: Tables, r: Recording) {
    FillAt(t.fills, r.fill.order, r.fill.trade).None?
  }

  /** One true report: accepted, noted, and reopening only the intent of a trade not seen before. */
  ghost predicate NotedBy(t: Tables, facts: seq<FillRow>, r: Recording, u: Tables) {
    && WellFormed(u) && Possible(u, facts) && TableTrue(facts, u)
    && Book(u.fills) == Noted(Book(t.fills), r)
    && u == t.(fills := u.fills, intents := if NewTo(t, r) then Reopened(t.intents, r.intent) else t.intents)
  }

  lemma TrueReportNoted(t: Tables, facts: seq<FillRow>, r: Recording)
    requires WellFormed(t) && Possible(t, facts) && TableTrue(facts, t) && True(facts, r.fill, r.intent)
    ensures var u := RecordFillOnce(t, r.fill, r.intent); u.Success? && NotedBy(t, facts, r, u.value)
  {
    if NewTo(t, r) {
      NewNoted(t, facts, r);
    } else {
      KnownNoted(t, facts, r, FillAt(t.fills, r.fill.order, r.fill.trade).value);
    }
  }

  lemma KnownNoted(t: Tables, facts: seq<FillRow>, r: Recording, k: nat)
    requires WellFormed(t) && Possible(t, facts) && TableTrue(facts, t) && True(facts, r.fill, r.intent)
    requires FillAt(t.fills, r.fill.order, r.fill.trade) == Some(k)
    ensures var u := RecordFillOnce(t, r.fill, r.intent); u.Success? && NotedBy(t, facts, r, u.value)
  {
    hide Book, FitsIntent, FilledQty, FillAt;
    KnownTrue(t, facts, r.fill, r.intent, k);
    RecordFillWellFormed(t, r.fill, r.intent);
    var u := RecordFillOnce(t, r.fill, r.intent).value;
    BookAt(t.fills);
    BookReplaced(t.fills, k, u.fills[k]);
    ReplacedTrue(t, u, facts, r, k);
    SameIntentsPossible(t, u, facts);
  }

  lemma ReplacedTrue(t: Tables, u: Tables, facts: seq<FillRow>, r: Recording, k: nat)
    requires TableTrue(facts, t) && True(facts, r.fill, r.intent) && k < |t.fills|
    requires |u.fills| == |t.fills| && u.fills == t.fills[k := u.fills[k]]
    requires u.fills[k].intent == r.intent && u.fills[k].fill.(fees := r.fill.fees) == r.fill
    ensures TableTrue(facts, u)
  {
    forall j | 0 <= j < |u.fills|
      ensures True(facts, u.fills[j].fill, u.fills[j].intent)
    {
      if j == k {
        var c :| 0 <= c < |facts| && Agrees(facts[c], r.fill, r.intent);
        assert Agrees(facts[c], u.fills[k].fill, r.intent);
      } else {
        assert True(facts, t.fills[j].fill, t.fills[j].intent);
      }
    }
  }

  lemma NewNoted(t: Tables, facts: seq<FillRow>, r: Recording)
    requires WellFormed(t) && Possible(t, facts) && TableTrue(facts, t) && True(facts, r.fill, r.intent)
    requires NewTo(t, r)
    ensures var u := RecordFillOnce(t, r.fill, r.intent); u.Success? && NotedBy(t, facts, r, u.value)
  {
    hide WellFormed, Possible, TableTrue, True, Agrees, Book, FilledQty;
    NewTrueAccepted(t, facts, r);
    RecordFillWellFormed(t, r.fill, r.intent);
    KeysDistinct(t, facts);
    NewToBook(t, r);
    var u := RecordFillOnce(t, r.fill, r.intent).value;
    BookAppended(t.fills, r);
    AppendedTrue(t, u, facts, r);
    SameIntentsPossible(t, u, facts);
  }

  lemma BookAppended(fills: seq<FillRow>, r: Recording)
    requires KeyOf(r.fill) !in Book(fills)
    ensures Book(fills + [FillRow(r.fill, r.intent, false)]) == Noted(Book(fills), r)
  {
    assert (fills + [FillRow(r.fill, r.intent, false)])[..|fills|] == fills;
  }

  lemma AppendedTrue(t: Tables, u: Tables, facts: seq<FillRow>, r: Recording)
    requires TableTrue(facts, t) && True(facts, r.fill, r.intent) && u.fills == t.fills + [FillRow(r.fill, r.intent, false)]
    ensures TableTrue(facts, u)
  {
    hide True;
    forall j | 0 <= j < |u.fills|
      ensures True(facts, u.fills[j].fill, u.fills[j].intent)
    {
      if j < |t.fills| {
        assert True(facts, t.fills[j].fill, t.fills[j].intent);
      }
    }
  }

  lemma SameIntentsPossible(t: Tables, u: Tables, facts: seq<FillRow>)
    requires Possible(t, facts) && |u.intents| == |t.intents|
    requires forall k :: 0 <= k < |t.intents| ==> u.intents[k].intent == t.intents[k].intent
    ensures Possible(u, facts)
  {
    forall k | 0 <= k < |facts|
      ensures FitsIntent(u, facts, facts[k])
    {
      assert FitsIntent(t, facts, facts[k]);
      var n :| 0 <= n < |t.intents| && t.intents[n].intent.id == facts[k].intent && t.intents[n].intent.sec == facts[k].fill.sec
               && FilledQty(facts, facts[k].intent) <= t.intents[n].intent.qty;
      assert u.intents[n].intent.id == facts[k].intent;
    }
  }

  lemma NewTrueAccepted(t: Tables, facts: seq<FillRow>, r: Recording)
    requires WellFormed(t) && Possible(t, facts) && TableTrue(facts, t) && True(facts, r.fill, r.intent) && NewTo(t, r)
    ensures RecordFillOnce(t, r.fill, r.intent).Success?
  {
    var c :| 0 <= c < |facts| && Agrees(facts[c], r.fill, r.intent);
    assert FitsIntent(t, facts, facts[c]);
    var n :| 0 <= n < |t.intents| && t.intents[n].intent.id == r.intent && t.intents[n].intent.sec == r.fill.sec
             && FilledQty(facts, r.intent) <= t.intents[n].intent.qty;
    assert IntentAt(t.intents, r.intent).value == n;
    RoomForTrue(t, facts, r);
  }

  lemma RoomForTrue(t: Tables, facts: seq<FillRow>, r: Recording)
    requires DistinctFills(t.fills) && TableTrue(facts, t) && True(facts, r.fill, r.intent) && NewTo(t, r)
    ensures FilledQty(t.fills, r.intent) + r.fill.qty <= FilledQty(facts, r.intent)
  {
    hide True, FilledQty;
    var row := FillRow(r.fill, r.intent, false);
    var all := t.fills + [row];
    AppendedTrue(t, t.(fills := all), facts, r);
    TrueQtyBounded(all, facts, r.intent);
    FilledQtyAppend(t.fills, row, r.intent);
  }

  // ---------- Any order, any repetition ----------

  /** The highest fee among the reports of one trade and what was known of it before. */
  predicate IsMaxFee(fees: real, before: map<Key, Entry>, rs: seq<Recording>, key: Key) {
    && (key in before ==> before[key].fees <= fees)
    && (forall k :: 0 <= k < |rs| && KeyOf(rs[k].fill) == key ==> rs[k].fill.fees <= fees)
    && ((key in before && before[key].fees == fees) || Attained(fees, rs, key))
  }

  predicate Attained(fees: real, rs: seq<Recording>, key: Key) {
    exists k :: 0 <= k < |rs| && KeyOf(rs[k].fill) == key && rs[k].fill.fees == fees
  }

  predicate Reports(rs: seq<Recording>, key: Key) {
    exists k :: 0 <= k < |rs| && KeyOf(rs[k].fill) == key
  }

  /** Some report names this intent with a trade the table did not have. */
  predicate Reopens(b: map<Key, Entry>, rs: seq<Recording>, id: Id) {
    exists k :: 0 <= k < |rs| && rs[k].intent == id && KeyOf(rs[k].fill) !in b
  }

  predicate ReopenedBy(before: seq<IntentRow>, after: seq<IntentRow>, b: map<Key, Entry>, rs: seq<Recording>) {
    && |after| == |before|
    && forall k :: 0 <= k < |before| ==>
         after[k] == if before[k].state == RecoveryClosed && Reopens(b, rs, before[k].intent.id)
                     then before[k].(state := Sent) else before[k]
  }

  /** After any true reports: what the ledger holds, trade by trade. */
  ghost predicate Converged(t: Tables, facts: seq<FillRow>, rs: seq<Recording>, u: Tables) {
    && WellFormed(u) && Possible(u, facts) && TableTrue(facts, u)
    && (forall key :: key in Book(u.fills) <==> key in Book(t.fills) || Reports(rs, key))
    && (forall key :: key in Book(u.fills) ==> IsMaxFee(Book(u.fills)[key].fees, Book(t.fills), rs, key))
    && ReopenedBy(t.intents, u.intents, Book(t.fills), rs)
    && u == t.(fills := u.fills, intents := u.intents)
  }

  lemma {:induction false} AbsorbConverges(t: Tables, facts: seq<FillRow>, rs: seq<Recording>)
    requires WellFormed(t) && Possible(t, facts) && TableTrue(facts, t) && AllTrue(facts, rs)
    ensures Converged(t, facts, rs, Absorb(t, rs))
  {
    if rs == [] {
      NothingReported(t, facts);
    } else {
      var init, r := rs[..|rs| - 1], rs[|rs| - 1];
      assert rs == init + [r];
      AllTrueParts(facts, init, r);
      AbsorbConverges(t, facts, init);
      OneMoreConverges(t, facts, init, r, Absorb(t, init));
    }
  }

  lemma NothingReported(t: Tables, facts: seq<FillRow>)
    requires WellFormed(t) && Possible(t, facts) && TableTrue(facts, t)
    ensures Converged(t, facts, [], t)
  {
    hide WellFormed, Possible, TableTrue, Book;
  }

  lemma AllTrueParts(facts: seq<FillRow>, init: seq<Recording>, r: Recording)
    requires AllTrue(facts, init + [r])
    ensures AllTrue(facts, init) && True(facts, r.fill, r.intent)
  {
    var rs := init + [r];
    forall k | 0 <= k < |init| ensures True(facts, init[k].fill, init[k].intent) {
      assert init[k] == rs[k];
    }
    assert rs[|init|] == r;
  }

  lemma OneMoreConverges(t: Tables, facts: seq<FillRow>, init: seq<Recording>, r: Recording, before: Tables)
    requires Converged(t, facts, init, before) && AllTrue(facts, init + [r])
    ensures var u := RecordFillOnce(before, r.fill, r.intent); u.Success? && Converged(t, facts, init + [r], u.value)
  {
    hide WellFormed, Possible, TableTrue, AllTrue, Book, IsMaxFee, Reports, Reopens, DistinctFills, True, Noted;
    hide RecordFillOnce, Reopened, NewTo, ReopenedBy;
    AllTrueParts(facts, init, r);
    TrueReportNoted(before, facts, r);
    KeysDistinct(before, facts);
    NotedIsMax(Book(t.fills), Book(before.fills), init, r);
    var u := RecordFillOnce(before, r.fill, r.intent).value;
    forall id: Id | true
      ensures Reopens(Book(t.fills), init + [r], id) <==> Reopens(Book(t.fills), init, id) || (NewTo(before, r) && r.intent == id)
    {
      NewToBook(before, r);
      ReopensAppend(Book(t.fills), facts, init, r, id);
    }
    ReopenedMore(t.intents, before.intents, u.intents, Book(t.fills), init, r, NewTo(before, r));
  }

  lemma KeysDistinct(t: Tables, facts: seq<FillRow>)
    requires WellFormed(t) && Possible(t, facts)
    ensures DistinctFills(t.fills) && DistinctFills(facts)
  {}

  lemma NewToBook(t: Tables, r: Recording)
    requires DistinctFills(t.fills)
    ensures NewTo(t, r) <==> KeyOf(r.fill) !in Book(t.fills)
  {
    BookAt(t.fills);
  }

  lemma SameKeySameTrade(facts: seq<FillRow>, f: Fill, intent: Id, g: Fill, other: Id)
    requires DistinctFills(facts) && True(facts, f, intent) && True(facts, g, other) && KeyOf(f) == KeyOf(g)
    ensures intent == other && f.(fees := g.fees) == g
  {
    var a :| 0 <= a < |facts| && Agrees(facts[a], f, intent);
    var c :| 0 <= c < |facts| && Agrees(facts[c], g, other);
    assert a == c;
  }

  lemma ReopensAppend(b: map<Key, Entry>, facts: seq<FillRow>, init: seq<Recording>, r: Recording, id: Id)
    requires DistinctFills(facts) && AllTrue(facts, init + [r])
    ensures Reopens(b, init + [r], id) <==>
            Reopens(b, init, id) || (KeyOf(r.fill) !in b && !Reports(init, KeyOf(r.fill)) && r.intent == id)
  {
    var rs := init + [r];
    AllTrueParts(facts, init, r);
    assert rs[|init|] == r;
    if Reopens(b, init, id) {
      var k :| 0 <= k < |init| && init[k].intent == id && KeyOf(init[k].fill) !in b;
      assert rs[k] == init[k];
    } else if Reopens(b, rs, id) && Reports(init, KeyOf(r.fill)) {
      var k :| 0 <= k < |rs| && rs[k].intent == id && KeyOf(rs[k].fill) !in b;
      assert k == |init|;
      var m :| 0 <= m < |init| && KeyOf(init[m].fill) == KeyOf(r.fill);
      SameKeySameTrade(facts, init[m].fill, init[m].intent, r.fill, r.intent);
    }
  }

  lemma ReopenedMore(start: seq<IntentRow>, before: seq<IntentRow>, after: seq<IntentRow>, b: map<Key, Entry>,
                     init: seq<Recording>, r: Recording, unseen: bool)
    requires ReopenedBy(start, before, b, init)
    requires after == if unseen then Reopened(before, r.intent) else before
    requires forall id :: Reopens(b, init + [r], id) <==> Reopens(b, init, id) || (unseen && r.intent == id)
    ensures ReopenedBy(start, after, b, init + [r])
  {
    hide Reopens;
  }

  lemma NotedIsMax(b: map<Key, Entry>, c: map<Key, Entry>, init: seq<Recording>, r: Recording)
    requires forall key :: key in c <==> key in b || Reports(init, key)
    requires forall key :: key in c ==> IsMaxFee(c[key].fees, b, init, key)
    ensures forall key :: key in Noted(c, r) <==> key in b || Reports(init + [r], key)
    ensures forall key :: key in Noted(c, r) ==> IsMaxFee(Noted(c, r)[key].fees, b, init + [r], key)
  {
    forall key
      ensures key in Noted(c, r) <==> key in b || Reports(init + [r], key)
      ensures key in Noted(c, r) ==> IsMaxFee(Noted(c, r)[key].fees, b, init + [r], key)
    {
      ReportsAppend(init, r, key);
      if key == KeyOf(r.fill) {
        MaxWithReport(b, c, init, r);
      } else if key in c {
        MaxOfOther(c[key].fees, b, init, r, key);
      }
    }
  }

  lemma MaxWithReport(b: map<Key, Entry>, c: map<Key, Entry>, init: seq<Recording>, r: Recording)
    requires KeyOf(r.fill) in c ==> IsMaxFee(c[KeyOf(r.fill)].fees, b, init, KeyOf(r.fill))
    requires KeyOf(r.fill) !in c ==> KeyOf(r.fill) !in b && !Reports(init, KeyOf(r.fill))
    ensures IsMaxFee(Noted(c, r)[KeyOf(r.fill)].fees, b, init + [r], KeyOf(r.fill))
  {
    var key, rs := KeyOf(r.fill), init + [r];
    var fees := Noted(c, r)[key].fees;
    assert rs[|init|] == r;
    if key in c && Attained(c[key].fees, init, key) {
      AttainedAppend(init, r, key, c[key].fees);
    }
    forall k | 0 <= k < |rs| && KeyOf(rs[k].fill) == key
      ensures rs[k].fill.fees <= fees
    {
      if k < |init| {
        assert rs[k] == init[k];
      }
    }
  }

  lemma MaxOfOther(fees: real, b: map<Key, Entry>, init: seq<Recording>, r: Recording, key: Key)
    requires IsMaxFee(fees, b, init, key) && KeyOf(r.fill) != key
    ensures IsMaxFee(fees, b, init + [r], key)
  {
    if Attained(fees, init, key) {
      AttainedAppend(init, r, key, fees);
    }
  }

  lemma ReportsAppend(init: seq<Recording>, r: Recording, key: Key)
    ensures Reports(init + [r], key) <==> Reports(init, key) || KeyOf(r.fill) == key
  {
    var rs := init + [r];
    assert rs[|init|] == r;
    if Reports(init, key) {
      var k :| 0 <= k < |init| && KeyOf(init[k].fill) == key;
      assert KeyOf(rs[k].fill) == key;
    }
  }

  lemma AttainedAppend(init: seq<Recording>, r: Recording, key: Key, fees: real)
    requires Attained(fees, init, key)
    ensures Attained(fees, init + [r], key)
  {
    var k :| 0 <= k < |init| && KeyOf(init[k].fill) == key && init[k].fill.fees == fees;
    assert (init + [r])[k] == init[k];
  }

  // ---------- The theorem ----------

  lemma SameSetSameAnswers(b: map<Key, Entry>, rs: seq<Recording>, ss: seq<Recording>)
    requires forall r :: r in rs ==> r in ss
    ensures forall key :: Reports(rs, key) ==> Reports(ss, key)
    ensures forall id :: Reopens(b, rs, id) ==> Reopens(b, ss, id)
  {
    forall key | Reports(rs, key) ensures Reports(ss, key) {
      var k :| 0 <= k < |rs| && KeyOf(rs[k].fill) == key;
      assert rs[k] in ss;
    }
    forall id | Reopens(b, rs, id) ensures Reopens(b, ss, id) {
      var k :| 0 <= k < |rs| && rs[k].intent == id && KeyOf(rs[k].fill) !in b;
      assert rs[k] in ss;
    }
  }

  lemma MaxFeeOrder(x: real, y: real, b: map<Key, Entry>, rs: seq<Recording>, ss: seq<Recording>, key: Key)
    requires IsMaxFee(x, b, rs, key) && IsMaxFee(y, b, ss, key)
    requires forall r :: r in rs ==> r in ss
    ensures x <= y
  {
    if Attained(x, rs, key) {
      var k :| 0 <= k < |rs| && KeyOf(rs[k].fill) == key && rs[k].fill.fees == x;
      assert rs[k] in ss;
    }
  }

  lemma SameEntry(facts: seq<FillRow>, t: Tables, u: Tables, key: Key)
    requires DistinctFills(facts) && DistinctFills(t.fills) && DistinctFills(u.fills)
    requires TableTrue(facts, t) && TableTrue(facts, u)
    requires key in Book(t.fills) && key in Book(u.fills) && Book(t.fills)[key].fees == Book(u.fills)[key].fees
    ensures Book(t.fills)[key] == Book(u.fills)[key]
  {
    BookAt(t.fills);
    BookAt(u.fills);
    var a :| 0 <= a < |t.fills| && KeyOf(t.fills[a].fill) == key;
    var c :| 0 <= c < |u.fills| && KeyOf(u.fills[c].fill) == key;
    SameKeySameTrade(facts, t.fills[a].fill, t.fills[a].intent, u.fills[c].fill, u.fills[c].intent);
  }

  /** One batch after another. */
  function AbsorbAll(t: Tables, batches: seq<seq<Recording>>): Tables {
    if batches == [] then t else Absorb(AbsorbAll(t, batches[..|batches| - 1]), batches[|batches| - 1])
  }

  function Joined(batches: seq<seq<Recording>>): seq<Recording> {
    if batches == [] then [] else Joined(batches[..|batches| - 1]) + batches[|batches| - 1]
  }

  lemma {:induction false} BatchesAreOne(t: Tables, batches: seq<seq<Recording>>)
    ensures AbsorbAll(t, batches) == Absorb(t, Joined(batches))
  {
    if batches != [] {
      BatchesAreOne(t, batches[..|batches| - 1]);
      BatchesCompose(t, Joined(batches[..|batches| - 1]), batches[|batches| - 1]);
    }
  }

  /** Reordering, repeating or batching true reports differently changes nothing the ledger keeps. */
  lemma SameReportsSameLedger(t: Tables, facts: seq<FillRow>, these: seq<seq<Recording>>, those: seq<seq<Recording>>)
    requires WellFormed(t) && Possible(t, facts) && TableTrue(facts, t)
    requires AllTrue(facts, Joined(these)) && AllTrue(facts, Joined(those))
    requires forall r :: r in Joined(these) <==> r in Joined(those)
    ensures Book(AbsorbAll(t, these).fills) == Book(AbsorbAll(t, those).fills)
    ensures AbsorbAll(t, these).intents == AbsorbAll(t, those).intents
  {
    hide WellFormed, Possible, TableTrue, AllTrue, Book, Absorb;
    BatchesAreOne(t, these);
    BatchesAreOne(t, those);
    SameListSameLedger(t, facts, Joined(these), Joined(those));
  }

  lemma SameListSameLedger(t: Tables, facts: seq<FillRow>, rs: seq<Recording>, ss: seq<Recording>)
    requires WellFormed(t) && Possible(t, facts) && TableTrue(facts, t) && AllTrue(facts, rs) && AllTrue(facts, ss)
    requires forall r :: r in rs <==> r in ss
    ensures Book(Absorb(t, rs).fills) == Book(Absorb(t, ss).fills)
    ensures Absorb(t, rs).intents == Absorb(t, ss).intents
  {
    hide WellFormed, Possible, TableTrue, AllTrue, Book, IsMaxFee, Reports, Reopens, DistinctFills, Absorb, ReopenedBy;
    var u, v := Absorb(t, rs), Absorb(t, ss);
    AbsorbConverges(t, facts, rs);
    AbsorbConverges(t, facts, ss);
    SameSetSameAnswers(Book(t.fills), rs, ss);
    SameSetSameAnswers(Book(t.fills), ss, rs);
    KeysDistinct(u, facts);
    KeysDistinct(v, facts);
    SameIntents(t.intents, u.intents, v.intents, Book(t.fills), rs, ss);
    assert Book(u.fills).Keys == Book(v.fills).Keys;
    forall key | key in Book(u.fills)
      ensures Book(u.fills)[key] == Book(v.fills)[key]
    {
      MaxFeeOrder(Book(u.fills)[key].fees, Book(v.fills)[key].fees, Book(t.fills), rs, ss, key);
      MaxFeeOrder(Book(v.fills)[key].fees, Book(u.fills)[key].fees, Book(t.fills), ss, rs, key);
      SameEntry(facts, u, v, key);
    }
  }

  lemma SameIntents(start: seq<IntentRow>, a: seq<IntentRow>, c: seq<IntentRow>, b: map<Key, Entry>,
                    rs: seq<Recording>, ss: seq<Recording>)
    requires ReopenedBy(start, a, b, rs) && ReopenedBy(start, c, b, ss)
    requires forall id :: Reopens(b, rs, id) <==> Reopens(b, ss, id)
    ensures a == c
  {
    hide Reopens;
  }
}
