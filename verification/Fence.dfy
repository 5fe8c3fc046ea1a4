/** The revision fence: what a fresh account snapshot guarantees about the run that led to it. */
module Fence {
  import opened Wrappers
  import opened Ledger
  import opened Orders

  /** A POST has been handed to the network and its outcome is not yet recorded. */
  predicate PostOutstanding(w: World) {
    w.p.submit.Posting?
  }

  /** Order writes, newly seen order events, invalidations, published batches and process death. */
  ghost predicate Writes(w: World, e: Event) {
    || Request(w, e).Some?
    || e.PostFailed? || e.PostAnswered?
    || (e.OrderEvent? && e.id !in w.p.refresh.seen)
    || e.Invalidate?
    || (e.Apply? && w.p.batch.Resolving? && |w.p.batch.resolved| == |w.p.batch.rows| && Applies(w.p))
    || e.Crash? || e.CrashDuring?
  }

  lemma RevisionMoves(w: World, e: Event)
    requires Enabled(w, e)
    ensures var v := Next(w, e);
            && v.boots >= w.boots
            && v.clock >= w.clock
            && (v.boots == w.boots ==> v.p.rev >= w.p.rev)
            && (v.boots == w.boots && Writes(w, e) ==> v.p.rev > w.p.rev)
            && (!Writes(w, e) ==> v.boots == w.boots && v.p.rev == w.p.rev)
  {
    hide Next, Request, PendingQty, Resolve, Completes, Program, Publish, EndBatch, Note, Commits, Truthful, TruthfulLine;
    StepProcess(w, e);
    OnlyDispatchesPost(w, e);
    BatchKeepsRevision(w.p);
    BatchKeepsRevision(w.p.(rev := w.p.rev + 1));
  }

  lemma OnlyDispatchesPost(w: World, e: Event)
    ensures Request(w, e).Some? ==> e.SubmitBuy? || e.SellDispatch?
  {}

  /** Ending a batch, one way or the other, is not itself a write. */
  lemma BatchKeepsRevision(p: Process)
    ensures !p.batch.NoBatch? ==> EndBatch(p).rev == p.rev && EndBatch(p).submit == p.submit
    ensures p.batch.Resolving? ==> Publish(p).rev == p.rev && Publish(p).submit == p.submit
  {}

  lemma PostMoves(w: World, e: Event)
    requires Enabled(w, e) && !Writes(w, e)
    ensures PostOutstanding(Next(w, e)) <==> PostOutstanding(w)
  {
    hide Next, Request, PendingQty, Resolve, Completes, Program, Publish, EndBatch, Note, Commits;
    StepProcess(w, e);
    BatchKeepsRevision(w.p);
    BatchKeepsRevision(w.p.(rev := w.p.rev + 1));
  }

  lemma StepRevision(w: World, e: Event)
    requires Enabled(w, e)
    ensures var v := Next(w, e);
            && v.boots >= w.boots
            && v.clock >= w.clock
            && (v.boots == w.boots ==> v.p.rev >= w.p.rev)
            && (v.boots == w.boots && Writes(w, e) ==> v.p.rev > w.p.rev)
            && (!Writes(w, e) ==> v.boots == w.boots && v.p.rev == w.p.rev && (PostOutstanding(v) <==> PostOutstanding(w)))
  {
    hide Enabled, Next, Writes, PostOutstanding;
    RevisionMoves(w, e);
    if !Writes(w, e) {
      PostMoves(w, e);
    }
  }

  lemma {:induction false} RevisionMonotone(ws: seq<World>, es: seq<Event>, i: nat, k: nat)
    requires Run(ws, es) && i <= k < |ws|
    ensures ws[i].boots <= ws[k].boots && ws[i].clock <= ws[k].clock
    ensures ws[i].boots == ws[k].boots ==> ws[i].p.rev <= ws[k].p.rev
  {
    hide Enabled, Next, Init;
    if i < k {
      RevisionMonotone(ws, es, i, k - 1);
      StepRevision(ws[k - 1], es[k - 1]);
    }
  }

  /** Equal revisions at both ends of an interval of one process: nothing was written in between. */
  lemma QuietInterval(ws: seq<World>, es: seq<Event>, i: nat, m: nat, k: nat)
    requires Run(ws, es) && i <= m < k < |ws|
    requires ws[i].boots == ws[k].boots && ws[i].p.rev == ws[k].p.rev
    ensures !Writes(ws[m], es[m])
  {
    hide Enabled, Next, Init, Writes;
    RevisionMonotone(ws, es, i, m);
    StepRevision(ws[m], es[m]);
    RevisionMonotone(ws, es, m, m + 1);
    RevisionMonotone(ws, es, m + 1, k);
  }

  lemma {:induction false} PostsUnchanged(ws: seq<World>, es: seq<Event>, i: nat, m: nat, k: nat)
    requires Run(ws, es) && i <= m <= k < |ws|
    requires ws[i].boots == ws[k].boots && ws[i].p.rev == ws[k].p.rev
    ensures PostOutstanding(ws[m]) <==> PostOutstanding(ws[k])
    decreases k - m
  {
    hide Enabled, Next, Init, Writes, PostOutstanding;
    if m < k {
      QuietInterval(ws, es, i, m, k);
      StepRevision(ws[m], es[m]);
      PostsUnchanged(ws, es, i, m + 1, k);
    }
  }

  // ---------- Where the stamps come from ----------

  /** The batch running at n started at s, with the revision captured at i. */
  ghost predicate BatchFrom(ws: seq<World>, es: seq<Event>, i: nat, s: nat, n: nat) {
    && i <= s < n < |ws| && |ws| == |es| + 1
    && ws[i].boots == ws[n].boots
    && !ws[n].p.batch.NoBatch?
    && ws[i].p.rev == ws[n].p.batch.rev
    && es[s] == (if ws[n].p.batch.forRefresh then StartRefreshBatch else StartBatch)
    && (forall m :: s < m <= n ==> !ws[m].p.batch.NoBatch?)
    && (ws[n].p.batch.forRefresh ==> ws[n].p.refresh.pc.Reconciling? && ws[i].clock == ws[n].p.refresh.pc.at)
  }

  ghost predicate CapturedAt(ws: seq<World>, i: nat, n: nat) {
    && i <= n < |ws|
    && ws[i].boots == ws[n].boots
    && ws[n].p.refresh.pc.Captured?
    && ws[i].p.rev == ws[n].p.refresh.pc.rev && ws[i].clock == ws[n].p.refresh.pc.at
  }

  /** The stamp held at n was published by the batch that ran from s to j on the revision captured at i. */
  ghost predicate StampedBy(ws: seq<World>, es: seq<Event>, i: nat, s: nat, j: nat, n: nat) {
    && i <= s < j < n < |ws| && |ws| == |es| + 1
    && ws[i].boots == ws[n].boots && ws[j].boots == ws[n].boots && ws[j + 1].boots == ws[n].boots
    && es[s] == StartRefreshBatch && es[j] == Apply
    && (forall m :: s < m <= j ==> !ws[m].p.batch.NoBatch?)
    && ws[i].p.rev == ws[j].p.rev
    && !PostOutstanding(ws[j]) && !PostOutstanding(ws[j + 1])
    && ws[n].p.refresh.observed == ws[i].clock
    && ws[n].p.refresh.revision == ws[j + 1].p.rev
  }

  ghost predicate SomeBatch(ws: seq<World>, es: seq<Event>, n: nat) { exists i, s :: BatchFrom(ws, es, i, s, n) }

  ghost predicate SomeCapture(ws: seq<World>, n: nat) { exists i :: CapturedAt(ws, i, n) }

  /** The positions a batch has read, if it has. */
  function BatchPositions(p: Process): Option<map<Id, int>> {
    match p.batch
    case NoBatch => None
    case Reading(_, _, _, _, positions) => positions
    case Resolving(_, _, _, _, _, positions, _) => Some(positions)
  }

  /** The batch running at n read its positions at r. */
  ghost predicate ReadAt(ws: seq<World>, es: seq<Event>, i: nat, s: nat, r: nat, n: nat) {
    BatchFrom(ws, es, i, s, n) && s < r < n && es[r] == ReadPositions && BatchPositions(ws[n].p) == Some(ws[r].b.net)
  }

  /** The snapshot held at n was read at r and published at j, by the batch started at s on the revision captured at i. */
  ghost predicate HeldFrom(ws: seq<World>, es: seq<Event>, i: nat, s: nat, r: nat, j: nat, n: nat) {
    && i <= s < r < j < n < |ws| && |ws| == |es| + 1
    && ws[i].boots == ws[n].boots && ws[j].boots == ws[n].boots && ws[j + 1].boots == ws[n].boots
    && (es[s] == StartBatch || es[s] == StartRefreshBatch) && es[r] == ReadPositions && es[j] == Apply
    && ws[i].p.rev == ws[j].p.rev
    && !PostOutstanding(ws[j]) && !PostOutstanding(ws[j + 1])
    && ws[n].p.held == Some(Snapshot(ws[r].b.net, ws[j + 1].p.rev))
  }

  ghost predicate SomeRead(ws: seq<World>, es: seq<Event>, n: nat) { exists i, s, r :: ReadAt(ws, es, i, s, r, n) }

  ghost predicate SomeHeld(ws: seq<World>, es: seq<Event>, n: nat) { exists i, s, r, j :: HeldFrom(ws, es, i, s, r, j, n) }

  ghost predicate SomeStamp(ws: seq<World>, es: seq<Event>, n: nat) { exists i, s, j :: StampedBy(ws, es, i, s, j, n) }

  ghost predicate Stamps(ws: seq<World>, es: seq<Event>, n: nat)
    requires n < |ws|
  {
    && (!ws[n].p.batch.NoBatch? ==> SomeBatch(ws, es, n))
    && (ws[n].p.refresh.pc.Captured? ==> SomeCapture(ws, n))
    && (ws[n].p.refresh.healthy ==> SomeStamp(ws, es, n))
    && (BatchPositions(ws[n].p).Some? ==> SomeRead(ws, es, n))
    && (ws[n].p.held.Some? ==> SomeHeld(ws, es, n))
  }

  /** How one event may move the batch and the refresher. */
  lemma BatchMoves(w: World, e: Event)
    requires Enabled(w, e) && !Next(w, e).p.batch.NoBatch?
    ensures var v := Next(w, e);
            && v.boots == w.boots
            && (w.p.batch.NoBatch? ==>
                  (e == StartBatch && v.p.batch.rev == w.p.rev && !v.p.batch.forRefresh)
                  || (e == StartRefreshBatch && v.p.batch.forRefresh && w.p.refresh.pc.Captured?
                      && v.p.batch.rev == w.p.refresh.pc.rev
                      && v.p.refresh.pc == Reconciling(w.p.refresh.pc.at, w.p.refresh.pc.again)))
            && (!w.p.batch.NoBatch? ==>
                  v.p.batch.rev == w.p.batch.rev && v.p.batch.forRefresh == w.p.batch.forRefresh
                  && (w.p.refresh.pc.Reconciling? ==> v.p.refresh.pc == w.p.refresh.pc))
  {
    hide Next, Request, PendingQty, Resolve, Completes, Program, Note, Commits, Truthful, TruthfulLine;
    StepProcess(w, e);
  }

  lemma CaptureMoves(w: World, e: Event)
    requires Enabled(w, e) && Next(w, e).p.refresh.pc.Captured?
    ensures var v := Next(w, e);
            && v.boots == w.boots
            && (v.p.refresh.pc == w.p.refresh.pc || (v.p.refresh.pc.rev == w.p.rev && v.p.refresh.pc.at == w.clock))
            && v.clock >= w.clock
  {
    hide Next, Request, PendingQty, Resolve, Completes, Program, Note, Commits, Truthful, TruthfulLine;
    StepProcess(w, e);
  }

  lemma HealthyMoves(w: World, e: Event)
    requires Enabled(w, e) && Next(w, e).p.refresh.healthy
    ensures var v := Next(w, e);
            && v.boots == w.boots
            && (if e == Apply && !w.p.batch.NoBatch? && w.p.batch.forRefresh then
                  w.p.batch.rev == w.p.rev && !PostOutstanding(w) && !PostOutstanding(v)
                  && (w.p.refresh.pc.Reconciling? ==> v.p.refresh.observed == w.p.refresh.pc.at && v.p.refresh.revision == v.p.rev)
                else
                  w.p.refresh.healthy && v.p.refresh.observed == w.p.refresh.observed
                  && v.p.refresh.revision == w.p.refresh.revision)
  {
    hide Next, Request, PendingQty, Resolve, Completes, Program, Note, Commits, Truthful, TruthfulLine;
    StepProcess(w, e);
  }

  lemma BatchStep(ws: seq<World>, es: seq<Event>, n: nat)
    requires Run(ws, es) && n < |es| && Stamps(ws, es, n) && !ws[n + 1].p.batch.NoBatch?
    ensures SomeBatch(ws, es, n + 1)
  {
    hide Enabled, Next, Init;
    var w, e := ws[n], es[n];
    BatchMoves(w, e);
    if w.p.batch.NoBatch? {
      if e == StartBatch {
        assert BatchFrom(ws, es, n, n, n + 1);
      } else {
        var i :| CapturedAt(ws, i, n);
        assert BatchFrom(ws, es, i, n, n + 1);
      }
    } else {
      var i, s :| BatchFrom(ws, es, i, s, n);
      assert BatchFrom(ws, es, i, s, n + 1);
    }
  }

  lemma CaptureStep(ws: seq<World>, es: seq<Event>, n: nat)
    requires Run(ws, es) && n < |es| && Stamps(ws, es, n) && ws[n + 1].p.refresh.pc.Captured?
    ensures SomeCapture(ws, n + 1)
  {
    hide Enabled, Next, Init;
    CaptureMoves(ws[n], es[n]);
    if ws[n + 1].p.refresh.pc == ws[n].p.refresh.pc {
      var i :| CapturedAt(ws, i, n);
      assert CapturedAt(ws, i, n + 1);
    } else {
      assert CapturedAt(ws, n, n + 1);
    }
  }

  lemma HealthyStep(ws: seq<World>, es: seq<Event>, n: nat)
    requires Run(ws, es) && n < |es| && Stamps(ws, es, n) && ws[n + 1].p.refresh.healthy
    ensures SomeStamp(ws, es, n + 1)
  {
    hide Enabled, Next, Init, PostOutstanding;
    HealthyMoves(ws[n], es[n]);
    if es[n] == Apply && !ws[n].p.batch.NoBatch? && ws[n].p.batch.forRefresh {
      var i, s :| BatchFrom(ws, es, i, s, n);
      assert StampedBy(ws, es, i, s, n, n + 1);
    } else {
      var i, s, j :| StampedBy(ws, es, i, s, j, n);
      assert StampedBy(ws, es, i, s, j, n + 1);
    }
  }

  lemma PositionMoves(w: World, e: Event)
    requires Enabled(w, e) && BatchPositions(Next(w, e).p).Some?
    ensures var v := Next(w, e);
            && v.boots == w.boots && !w.p.batch.NoBatch?
            && (if e == ReadPositions then BatchPositions(v.p) == Some(w.b.net) else BatchPositions(v.p) == BatchPositions(w.p))
  {
    hide Next, Request, PendingQty, Resolve, Completes, Program, Note, Commits, Truthful, TruthfulLine;
    StepProcess(w, e);
  }

  lemma HeldMoves(w: World, e: Event)
    requires Enabled(w, e) && Next(w, e).p.held.Some?
    ensures var v := Next(w, e);
            && v.boots == w.boots
            && (v.p.held == w.p.held
                || (e == Apply && w.p.batch.Resolving? && w.p.batch.rev == w.p.rev && !PostOutstanding(w) && !PostOutstanding(v)
                    && v.p.held == Some(Snapshot(w.p.batch.positions, v.p.rev))))
  {
    hide Next, Request, PendingQty, Resolve, Completes, Program, Note, Commits, Truthful, TruthfulLine;
    StepProcess(w, e);
  }

  lemma ReadStep(ws: seq<World>, es: seq<Event>, n: nat)
    requires Run(ws, es) && n < |es| && Stamps(ws, es, n) && BatchPositions(ws[n + 1].p).Some?
    ensures SomeRead(ws, es, n + 1)
  {
    hide Enabled, Next, Init;
    PositionMoves(ws[n], es[n]);
    BatchMoves(ws[n], es[n]);
    if es[n] == ReadPositions {
      var i, s :| BatchFrom(ws, es, i, s, n);
      assert BatchFrom(ws, es, i, s, n + 1);
      assert ReadAt(ws, es, i, s, n, n + 1);
    } else {
      var i, s, r :| ReadAt(ws, es, i, s, r, n);
      assert BatchFrom(ws, es, i, s, n + 1);
      assert ReadAt(ws, es, i, s, r, n + 1);
    }
  }

  lemma HeldStep(ws: seq<World>, es: seq<Event>, n: nat)
    requires Run(ws, es) && n < |es| && Stamps(ws, es, n) && ws[n + 1].p.held.Some?
    ensures SomeHeld(ws, es, n + 1)
  {
    hide Enabled, Next, Init, PostOutstanding;
    HeldMoves(ws[n], es[n]);
    if ws[n + 1].p.held == ws[n].p.held {
      var i, s, r, j :| HeldFrom(ws, es, i, s, r, j, n);
      assert HeldFrom(ws, es, i, s, r, j, n + 1);
    } else {
      var i, s, r :| ReadAt(ws, es, i, s, r, n);
      assert HeldFrom(ws, es, i, s, r, n, n + 1);
    }
  }

  lemma {:induction false} AlwaysStamped(ws: seq<World>, es: seq<Event>, n: nat)
    requires Run(ws, es) && n < |ws|
    ensures Stamps(ws, es, n)
  {
    hide Enabled, Next, SomeBatch, SomeCapture, SomeStamp, SomeRead, SomeHeld;
    if n > 0 {
      AlwaysStamped(ws, es, n - 1);
      if !ws[n].p.batch.NoBatch? {
        BatchStep(ws, es, n - 1);
      }
      if ws[n].p.refresh.pc.Captured? {
        CaptureStep(ws, es, n - 1);
      }
      if ws[n].p.refresh.healthy {
        HealthyStep(ws, es, n - 1);
      }
      if BatchPositions(ws[n].p).Some? {
        ReadStep(ws, es, n - 1);
      }
      if ws[n].p.held.Some? {
        HeldStep(ws, es, n - 1);
      }
    }
  }

  // ---------- The fence ----------

  /**
   A published batch was read in one stretch, started at s, on the revision captured at i: from i
   until its publication at n no POST was outstanding and nothing was written.
   */
  lemma PublishedBatchIsFenced(ws: seq<World>, es: seq<Event>, n: nat) returns (i: nat, s: nat)
    requires Run(ws, es) && n < |es| && es[n] == Apply && Applies(ws[n].p)
    ensures i <= s < n && (es[s] == StartBatch || es[s] == StartRefreshBatch)
    ensures forall m :: s < m <= n ==> !ws[m].p.batch.NoBatch?
    ensures forall m :: i <= m <= n ==> !PostOutstanding(ws[m])
    ensures forall m :: i <= m < n ==> !Writes(ws[m], es[m])
  {
    assert Enabled(ws[n], es[n]);
    AlwaysStamped(ws, es, n);
    i, s :| BatchFrom(ws, es, i, s, n);
    forall m | i <= m <= n
      ensures !PostOutstanding(ws[m])
    {
      PostsUnchanged(ws, es, i, m, n);
    }
    forall m | i <= m < n
      ensures !Writes(ws[m], es[m])
    {
      QuietInterval(ws, es, i, m, n);
    }
  }

  /**
   Whenever the account is called fresh, the held snapshot began to be read at most MAX_AGE ago; since
   the moment its revision was captured no POST has been outstanding, and apart from its own
   publication at j there has been no order write, no new order event and no newer batch.
   */
  lemma FreshIsFenced(ws: seq<World>, es: seq<Event>, n: nat) returns (i: nat, s: nat, j: nat)
    requires Run(ws, es) && n < |ws| && Fresh(ws[n])
    ensures i <= s < j < n
    ensures es[s] == StartRefreshBatch && es[j] == Apply
    ensures forall m :: s < m <= j ==> !ws[m].p.batch.NoBatch?
    ensures 0 <= ws[n].clock - ws[i].clock <= MAX_AGE && ws[i].clock <= ws[s].clock
    ensures forall m :: i <= m <= n ==> !PostOutstanding(ws[m])
    ensures forall m :: i <= m < n && m != j ==> !Writes(ws[m], es[m])
  {
    AlwaysStamped(ws, es, n);
    i, s, j :| StampedBy(ws, es, i, s, j, n);
    RevisionMonotone(ws, es, i, s);
    forall m | i <= m <= n
      ensures !PostOutstanding(ws[m])
    {
      if m <= j {
        PostsUnchanged(ws, es, i, m, j);
      } else {
        PostsUnchanged(ws, es, j + 1, j + 1, n);
        PostsUnchanged(ws, es, j + 1, m, n);
      }
    }
    forall m | i <= m < n && m != j
      ensures !Writes(ws[m], es[m])
    {
      if m < j {
        QuietInterval(ws, es, i, m, j);
      } else {
        QuietInterval(ws, es, j + 1, m, n);
      }
    }
  }

  /**
   While the held snapshot is of the current revision, its positions were the broker's at one moment r of
   its batch; since the revision was captured no POST has been outstanding, and nothing but the
   publication at j was written.
   */
  lemma HeldIsFenced(ws: seq<World>, es: seq<Event>, n: nat) returns (i: nat, s: nat, r: nat, j: nat)
    requires Run(ws, es) && n < |ws| && HoldsCurrent(ws[n])
    ensures i <= s < r < j < n && es[r] == ReadPositions && es[j] == Apply
    ensures forall sec :: HeldPosition(ws[n].p.held.value, sec) == Net(ws[r].b, sec)
    ensures forall m :: i <= m <= n ==> !PostOutstanding(ws[m])
    ensures forall m :: i <= m < n && m != j ==> !Writes(ws[m], es[m])
  {
    hide Run, PostOutstanding, Writes;
    AlwaysStamped(ws, es, n);
    i, s, r, j :| HeldFrom(ws, es, i, s, r, j, n);
    QuietSince(ws, es, i, s, r, j, n);
  }

  lemma QuietSince(ws: seq<World>, es: seq<Event>, i: nat, s: nat, r: nat, j: nat, n: nat)
    requires Run(ws, es) && HeldFrom(ws, es, i, s, r, j, n) && ws[n].p.rev == ws[j + 1].p.rev
    ensures forall m :: i <= m <= n ==> !PostOutstanding(ws[m])
    ensures forall m :: i <= m < n && m != j ==> !Writes(ws[m], es[m])
  {
    hide Run, PostOutstanding, Writes;
    forall m | i <= m <= n
      ensures !PostOutstanding(ws[m])
    {
      if m <= j {
        PostsUnchanged(ws, es, i, m, j);
      } else {
        PostsUnchanged(ws, es, j + 1, j + 1, n);
        PostsUnchanged(ws, es, j + 1, m, n);
      }
    }
    forall m | i <= m < n && m != j
      ensures !Writes(ws[m], es[m])
    {
      if m < j {
        QuietInterval(ws, es, i, m, j);
      } else {
        QuietInterval(ws, es, j + 1, m, n);
      }
    }
  }

  /** The refresher's stamp is never newer than the held snapshot, and that never newer than the revision. */
  lemma StampMoves(w: World, e: Event)
    requires Enabled(w, e) && (w.p.refresh.healthy ==> StampedWithin(w.p))
    requires w.p.batch.Resolving? && w.p.batch.forRefresh ==> w.p.refresh.pc.Reconciling?
    ensures Next(w, e).p.refresh.healthy ==> StampedWithin(Next(w, e).p)
  {
    hide Next, Request, PendingQty, Resolve, Completes, Program, Note, Commits, Truthful, TruthfulLine;
    StepProcess(w, e);
  }

  predicate StampedWithin(p: Process) {
    p.held.Some? && p.refresh.revision <= p.held.value.rev <= p.rev
  }

  lemma {:induction false} AlwaysWithin(ws: seq<World>, es: seq<Event>, n: nat)
    requires Run(ws, es) && n < |ws|
    ensures ws[n].p.refresh.healthy ==> StampedWithin(ws[n].p)
  {
    hide Enabled, Next, StampedWithin;
    if n > 0 {
      AlwaysWithin(ws, es, n - 1);
      AlwaysStamped(ws, es, n - 1);
      RefresherWaits(ws, es, n - 1);
      StampMoves(ws[n - 1], es[n - 1]);
    }
  }

  lemma RefresherWaits(ws: seq<World>, es: seq<Event>, n: nat)
    requires n < |ws| && Stamps(ws, es, n)
    ensures ws[n].p.batch.Resolving? && ws[n].p.batch.forRefresh ==> ws[n].p.refresh.pc.Reconciling?
  {}

  /** Whenever the account is called fresh, the snapshot in use is of the current revision. */
  lemma FreshHoldsCurrent(ws: seq<World>, es: seq<Event>, n: nat)
    requires Run(ws, es) && n < |ws| && Fresh(ws[n])
    ensures HoldsCurrent(ws[n])
  {
    hide Run;
    AlwaysWithin(ws, es, n);
  }

  // ---------- And when it does ----------

  /** Within five seconds of its observation, of the current revision, and healthy: that is all it takes. */
  lemma FreshIff(w: World)
    ensures Fresh(w) <==>
            && w.p.refresh.healthy && w.p.refresh.revision == w.p.rev
            && w.p.refresh.observed <= w.clock <= w.p.refresh.observed + 5000
  {}

  /** A refresh whose batch is published is healthy, of the new revision and as old as its capture. */
  lemma PublishedIsFresh(ws: seq<World>, es: seq<Event>, n: nat)
    requires Run(ws, es) && |ws| == |es| + 1 && n < |es| && es[n] == Apply && ws[n].p.batch.Resolving? && ws[n].p.batch.forRefresh
    requires ws[n].p.batch.rev == ws[n].p.rev && |ws[n].p.batch.resolved| == |ws[n].p.batch.rows|
    requires Completes(ws[n].t, Program(ws[n].p.batch.rows, ws[n].p.batch.resolved, ws[n].p.batch.trades))
    ensures ws[n].p.refresh.pc.Reconciling?
    ensures var v := ws[n + 1];
            && v.p.rev == ws[n].p.rev + 1 && v.p.batch == NoBatch && v.p.held == Some(Snapshot(ws[n].p.batch.positions, v.p.rev))
            && v.p.refresh.observed == ws[n].p.refresh.pc.at && v.clock == ws[n].clock
            && (Fresh(v) <==> ws[n].p.refresh.pc.at <= v.clock <= ws[n].p.refresh.pc.at + 5000)
            && v.p.refresh.pc == if ws[n].p.refresh.pc.again then Asleep else AwaitingCash(ws[n].p.refresh.pc.at)
  {
    hide Run, Program, Completes, Next;
    AlwaysStamped(ws, es, n);
    RefresherWaits(ws, es, n);
    AppliedStep(ws, es, n);
    StepProcess(ws[n], Apply);
  }

  lemma AppliedStep(ws: seq<World>, es: seq<Event>, n: nat)
    requires Run(ws, es) && n < |es|
    ensures ws[n + 1] == Next(ws[n], es[n])
  {
    hide Enabled, Next;
  }

  /**
   A refresh reads for the revision it captured. When the cash has come, an account changed since is unhealthy, a
   batch more than five seconds old is read once more, and any other is done; a batch that fails is unhealthy.
   */
  lemma RefreshSteps(w: World, e: Event)
    requires Enabled(w, e)
    ensures var r, v := w.p.refresh, Next(w, e).p;
            && (e.Capture? ==> v.refresh == r.(pc := Captured(w.p.rev, w.clock, false)))
            && (e.StartRefreshBatch? ==> v.batch == Reading(r.pc.rev, true, None, None, None)
                                         && v.refresh == r.(pc := Reconciling(r.pc.at, r.pc.again)))
            && (e.CashAnswered? ==>
                  v.refresh == if r.revision != w.p.rev then r.(healthy := false, pc := Asleep)
                               else r.(pc := if r.pc.at + 5000 < w.clock then Captured(w.p.rev, w.clock, true) else Asleep))
            && (e.BatchFailed? || (e.Apply? && v.held == w.p.held && w.p.batch.rev != w.p.rev) ==>
                  v.batch == NoBatch && v.rev == w.p.rev
                  && v.refresh == if w.p.batch.forRefresh then r.(healthy := false, pc := Asleep) else r)
  {
    hide Request, PendingQty, Resolve, Completes, Program, Note, Commits, Truthful, TruthfulLine, Committed, BrokerNext;
  }

  /** A batch of the current revision that something in it refuses still moves the revision, and is not published. */
  lemma RefusedIsNotPublished(w: World)
    requires Enabled(w, Apply) && w.p.batch.rev == w.p.rev
    requires !Completes(w.t, Program(w.p.batch.rows, w.p.batch.resolved, w.p.batch.trades))
    ensures var v := Next(w, Apply).p;
            && v.rev == w.p.rev + 1 && v.batch == NoBatch && v.held == w.p.held
            && (w.p.batch.forRefresh ==> !v.refresh.healthy && v.refresh.pc == Asleep)
            && (!w.p.batch.forRefresh ==> v.refresh == w.p.refresh)
  {
    hide Request, PendingQty, Resolve, Completes, Program, Note, Commits, Truthful, TruthfulLine, Committed, BrokerNext;
  }

  /** Nothing but a write, the end of a batch or of a cash read, or age ends freshness. */
  lemma FreshStays(w: World, e: Event)
    requires Enabled(w, e) && !Writes(w, e) && !e.Apply? && !e.BatchFailed? && !e.CashAnswered? && !e.OrderEvent?
    ensures var v := Next(w, e);
            && v.p.refresh.healthy == w.p.refresh.healthy && v.p.refresh.observed == w.p.refresh.observed
            && v.p.refresh.revision == w.p.refresh.revision && v.p.rev == w.p.rev
  {
    hide Next, Request, PendingQty, Resolve, Completes, Program, Note, Commits, Truthful, TruthfulLine;
    StepProcess(w, e);
    OnlyDispatchesPost(w, e);
  }

  /** A new order event ends it at once; one of the latest 2048 does nothing. */
  lemma EventInvalidates(w: World, id: Id)
    ensures var v := Next(w, OrderEvent(id));
            if id in w.p.refresh.seen then v == w
            else
              && !Fresh(v) && v.p.rev == w.p.rev + 1 && v.t == w.t && v.b == w.b
              && v.p.refresh.seen == (if |w.p.refresh.seen| < 2048 then w.p.refresh.seen + [id] else (w.p.refresh.seen + [id])[1..])
  {}
}
