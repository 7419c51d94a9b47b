/** Many workers delivering one outbox, with a shared clock, crashes and reclaim of stale claims.
    A step is one transaction, one POST, a crash or a clock tick; a step that is not enabled does
    nothing, so a run is any sequence of steps whatever. */
module OutboxProtocol {
  import opened Options
  import opened OutboxTable

  type WorkerId = nat

  datatype Worker =
    | Idle
    | Starting(staleBefore: int)          // stale_before computed, claim not yet made
    | Posting(row: RowId, since: int)     // row claimed at since, POST in flight
    | Posted(row: RowId, since: int)      // POST succeeded, row not yet marked
    | Failed(row: RowId, since: int)      // POST raised, row not yet released

  predicate Busy(w: Worker) {
    w.Posting? || w.Posted? || w.Failed?
  }

  /** posts counts the successful POSTs of a row, lost those whose worker died before marking. */
  datatype World = World(
    now: int, rows: Rows, workers: map<WorkerId, Worker>, posts: map<RowId, nat>, lost: map<RowId, nat>)

  datatype Event =
    | Tick(elapsed: nat)
    | Enqueue(id: RowId, createdAt: int)
    | Delete(id: RowId)
    | Begin(w: WorkerId)
    | Claim(w: WorkerId, id: RowId, locked: set<RowId>)
    | FindNothing(w: WorkerId)
    | PostSucceeds(w: WorkerId)
    | PostFails(w: WorkerId)
    | Mark(w: WorkerId)
    | Release(w: WorkerId)
    | Crash(w: WorkerId)

  function WorkerOf(s: World, w: WorkerId): Worker {
    if w in s.workers then s.workers[w] else Idle
  }

  function Count(m: map<RowId, nat>, id: RowId): nat {
    if id in m then m[id] else 0
  }

  predicate Enabled(s: World, ev: Event) {
    match ev
    case Tick(_) => true
    case Enqueue(id, _) => id !in s.posts
    case Delete(id) => id in s.rows
    case Begin(w) => WorkerOf(s, w).Idle?
    case Claim(w, id, locked) =>
      WorkerOf(s, w).Starting? && IsNextClaim(s.rows, WorkerOf(s, w).staleBefore, locked, id)
    case FindNothing(w) => WorkerOf(s, w).Starting?
    case PostSucceeds(w) => WorkerOf(s, w).Posting?
    case PostFails(w) => WorkerOf(s, w).Posting?
    case Mark(w) => WorkerOf(s, w).Posted?
    case Release(w) => WorkerOf(s, w).Failed?
    case Crash(w) => true
  }

  function Step(s: World, ev: Event): World {
    if !Enabled(s, ev) then s
    else
      match ev
      case Tick(elapsed) => s.(now := s.now + elapsed)
      case Enqueue(id, createdAt) => s.(rows := s.rows[id := Row(createdAt, None, None)], posts := s.posts[id := 0])
      case Delete(id) => s.(rows := s.rows - {id})
      case Begin(w) => s.(workers := s.workers[w := Starting(s.now - STALE_AFTER)])
      case Claim(w, id, _) => s.(rows := Claimed(s.rows, id, s.now), workers := s.workers[w := Posting(id, s.now)])
      case FindNothing(w) => s.(workers := s.workers[w := Idle])
      case PostSucceeds(w) =>
        var p := WorkerOf(s, w);
        s.(workers := s.workers[w := Posted(p.row, p.since)], posts := s.posts[p.row := Count(s.posts, p.row) + 1])
      case PostFails(w) =>
        var p := WorkerOf(s, w);
        s.(workers := s.workers[w := Failed(p.row, p.since)])
      case Mark(w) =>
        s.(rows := Marked(s.rows, WorkerOf(s, w).row, s.now), workers := s.workers[w := Idle])
      case Release(w) =>
        s.(rows := Released(s.rows, WorkerOf(s, w).row), workers := s.workers[w := Idle])
      case Crash(w) =>
        var p := WorkerOf(s, w);
        s.(workers := s.workers[w := Idle], lost := if p.Posted? then s.lost[p.row := Count(s.lost, p.row) + 1] else s.lost)
  }

  function Run(s: World, events: seq<Event>): World {
    if events == [] then s else Step(Run(s, events[..|events| - 1]), events[|events| - 1])
  }

  function Init(now: int): World {
    World(now, map[], map[], map[], map[])
  }

  // ---------------------------------------------------------------- every run

  /** What holds in every reachable state, timely or not. */
  ghost predicate Sound(s: World) {
    RowsSound(s) && WorkersSound(s)
  }

  ghost predicate RowsSound(s: World) {
    && s.rows.Keys <= s.posts.Keys && s.lost.Keys <= s.posts.Keys
    && (forall id :: id in s.rows && s.rows[id].claimedAt.Some? ==> s.rows[id].claimedAt.value <= s.now)
    && (forall id :: id in s.rows && s.rows[id].processedAt.Some? ==> s.rows[id].claimedAt.None? && Count(s.posts, id) >= 1)
  }

  ghost predicate WorkersSound(s: World) {
    && (forall w :: Busy(WorkerOf(s, w)) ==> WorkerOf(s, w).row in s.posts && WorkerOf(s, w).since <= s.now)
    && (forall w :: WorkerOf(s, w).Posted? ==> Count(s.posts, WorkerOf(s, w).row) >= 1)
    && (forall w :: WorkerOf(s, w).Starting? ==> WorkerOf(s, w).staleBefore <= s.now - STALE_AFTER)
  }

  lemma {:induction false} StepKeepsRowsSound(s: World, ev: Event)
    requires Sound(s)
    ensures RowsSound(Step(s, ev))
  {
  }

  lemma {:induction false} StepKeepsWorkersSound(s: World, ev: Event)
    requires Sound(s)
    ensures WorkersSound(Step(s, ev))
  {
    OthersKeepWorking(s, ev);
  }

  lemma {:induction false} StepKeepsSound(s: World, ev: Event)
    requires Sound(s)
    ensures Sound(Step(s, ev))
  {
    StepKeepsRowsSound(s, ev);
    StepKeepsWorkersSound(s, ev);
  }

  /** A step changes at most the worker it names. */
  lemma {:induction false} OthersKeepWorking(s: World, ev: Event)
    ensures forall w :: (ev.Tick? || ev.Enqueue? || ev.Delete? || w != ev.w) ==> WorkerOf(Step(s, ev), w) == WorkerOf(s, w)
  {
  }

  /** Processed rows stay processed, stay unclaimed, and were POSTed successfully. */
  lemma {:induction false} ReachableIsSound(now: int, events: seq<Event>)
    ensures Sound(Run(Init(now), events))
  {
    if events != [] {
      ReachableIsSound(now, events[..|events| - 1]);
      StepKeepsSound(Run(Init(now), events[..|events| - 1]), events[|events| - 1]);
    }
  }

  /** A processed row is never claimed again, and no step clears its mark. */
  lemma {:induction false} ProcessedStays(s: World, ev: Event, id: RowId)
    requires Sound(s) && id in s.rows && s.rows[id].processedAt.Some?
    ensures ev.Claim? && ev.id == id ==> !Enabled(s, ev)
    ensures id in Step(s, ev).rows ==> Step(s, ev).rows[id].processedAt.Some? && Step(s, ev).rows[id].claimedAt.None?
  {
  }

  /** The id is taken, and if its row is still there it is processed. */
  predicate DoneOrGone(s: World, id: RowId) {
    id in s.posts && (id in s.rows ==> s.rows[id].processedAt.Some?)
  }

  lemma {:induction false} StepKeepsDone(s: World, ev: Event, id: RowId)
    requires Sound(s) && DoneOrGone(s, id)
    ensures DoneOrGone(Step(s, ev), id)
  {
  }

  /** Once deleted, a row id does not come back. */
  lemma {:induction false} ProcessedForever(s: World, events: seq<Event>, id: RowId)
    requires Sound(s) && DoneOrGone(s, id)
    ensures Sound(Run(s, events)) && DoneOrGone(Run(s, events), id)
    ensures forall w, locked :: !Enabled(Run(s, events), Claim(w, id, locked))
  {
    if events != [] {
      var init := events[..|events| - 1];
      ProcessedForever(s, init, id);
      StepKeepsSound(Run(s, init), events[|events| - 1]);
      StepKeepsDone(Run(s, init), events[|events| - 1], id);
    }
  }

  // ---------------------------------------------------------------- no row is lost

  lemma {:induction false} StepKeepsRow(s: World, ev: Event, id: RowId)
    requires Sound(s) && id in s.rows && ev != Delete(id)
    ensures id in Step(s, ev).rows && Step(s, ev).rows[id].createdAt == s.rows[id].createdAt
  {
  }

  /** Over every run, whatever fails or crashes: a row stays in the table with its creation time until it is
      deleted. */
  lemma {:induction false} OnlyDeleteRemoves(s: World, events: seq<Event>, id: RowId)
    requires Sound(s) && id in s.rows && Delete(id) !in events
    ensures Sound(Run(s, events))
    ensures id in Run(s, events).rows && Run(s, events).rows[id].createdAt == s.rows[id].createdAt
  {
    if events != [] {
      var init := events[..|events| - 1];
      OnlyDeleteRemoves(s, init, id);
      StepKeepsSound(Run(s, init), events[|events| - 1]);
      StepKeepsRow(Run(s, init), events[|events| - 1], id);
    }
  }

  /** Nothing but the mark of a worker that POSTed the row makes it processed. */
  lemma {:induction false} OnlyItsPosterMarks(s: World, ev: Event, id: RowId)
    requires Sound(s) && id in s.rows && s.rows[id].processedAt.None?
    requires id in Step(s, ev).rows && Step(s, ev).rows[id].processedAt.Some?
    ensures ev.Mark? && WorkerOf(s, ev.w).Posted? && WorkerOf(s, ev.w).row == id && Step(s, ev).rows[id].processedAt == Some(s.now)
  {
  }

  /** Over every run: a row that was not processed and now is was POSTed by a worker who then marked it; that
      step of the run is at. */
  lemma {:induction false} ProcessedWasMarked(s: World, events: seq<Event>, id: RowId) returns (at: nat)
    requires Sound(s) && id in s.rows && s.rows[id].processedAt.None? && Delete(id) !in events
    requires id in Run(s, events).rows && Run(s, events).rows[id].processedAt.Some?
    ensures at < |events| && events[at].Mark?
    ensures var worker := WorkerOf(Run(s, events[..at]), events[at].w); worker.Posted? && worker.row == id
  {
    var init, ev := events[..|events| - 1], events[|events| - 1];
    OnlyDeleteRemoves(s, init, id);
    if Run(s, init).rows[id].processedAt.Some? {
      at := ProcessedWasMarked(s, init, id);
      assert events[..at] == init[..at];
    } else {
      OnlyItsPosterMarks(Run(s, init), ev, id);
      at := |init|;
    }
  }

  /** After a failed POST the worker is free again, and its row, if it is still there and nobody finished it, is
      unclaimed and can be claimed at once; no other row changes. */
  lemma {:induction false} ReleaseGivesBack(s: World, w: WorkerId)
    requires WorkerOf(s, w).Failed?
    ensures var s', id := Step(s, Release(w)), WorkerOf(s, w).row;
      && WorkerOf(s', w).Idle? && s'.rows.Keys == s.rows.Keys
      && (forall other :: other in s.rows && other != id ==> s'.rows[other] == s.rows[other])
      && (id in s.rows && s.rows[id].processedAt.Some? ==> s'.rows[id] == s.rows[id])
      && (id in s.rows && s.rows[id].processedAt.None? ==>
            && s'.rows[id] == Row(s.rows[id].createdAt, None, None)
            && forall staleBefore :: Claimable(s'.rows[id], staleBefore))
  {
  }

  /** A crash can hit any worker at any point; it touches no row, and a successful POST not yet marked is lost. */
  lemma {:induction false} CrashLosesOnlyTheMark(s: World, w: WorkerId, id: RowId)
    ensures var s' := Step(s, Crash(w));
      && WorkerOf(s', w).Idle? && s'.rows == s.rows && s'.posts == s.posts && s'.now == s.now
      && Count(s'.lost, id) == Count(s.lost, id) + if WorkerOf(s, w).Posted? && WorkerOf(s, w).row == id then 1 else 0
  {
  }

  // ---------------------------------------------------------------- timely runs

  /** Every live delivery is at most the stale window, five minutes, old. */
  ghost predicate Timely(s: World) {
    forall w :: Busy(WorkerOf(s, w)) ==> s.now - WorkerOf(s, w).since <= 300_000_000
  }

  ghost predicate TimelyRun(s: World, events: seq<Event>) {
    forall i :: 0 <= i < |events| ==> Timely(Run(s, events[..i]))
  }

  /** Each live delivery still owns the claim it made, and no two are about the same row. */
  ghost predicate Exclusive(s: World) {
    && (forall w :: Busy(WorkerOf(s, w)) && WorkerOf(s, w).row in s.rows ==> OwnsClaim(s, w))
    && (forall w, v :: Busy(WorkerOf(s, w)) && Busy(WorkerOf(s, v)) && WorkerOf(s, w).row == WorkerOf(s, v).row ==> w == v)
  }

  ghost predicate OwnsClaim(s: World, w: WorkerId)
    requires Busy(WorkerOf(s, w)) && WorkerOf(s, w).row in s.rows
  {
    s.rows[WorkerOf(s, w).row].claimedAt == Some(WorkerOf(s, w).since) && s.rows[WorkerOf(s, w).row].processedAt.None?
  }

  /** A claim that a live and timely delivery owns is not stale, so nobody else can make it. */
  lemma {:induction false} OwnedIsNotClaimable(s: World, w: WorkerId, ev: Event)
    requires Sound(s) && Timely(s) && Exclusive(s) && Busy(WorkerOf(s, w)) && ev.Claim? && Enabled(s, ev)
    ensures WorkerOf(s, w).row != ev.id
  {
    assert WorkerOf(s, w).row in s.rows ==> OwnsClaim(s, w);
  }

  lemma {:induction false} StepKeepsClaims(s: World, ev: Event, w: WorkerId)
    requires Sound(s) && Timely(s) && Exclusive(s)
    requires Busy(WorkerOf(Step(s, ev), w)) && WorkerOf(Step(s, ev), w).row in Step(s, ev).rows
    ensures OwnsClaim(Step(s, ev), w)
  {
    OthersKeepWorking(s, ev);
    if Busy(WorkerOf(s, w)) && WorkerOf(s, w).row in s.rows {
      assert OwnsClaim(s, w);
    }
  }

  lemma {:induction false} StepKeepsExclusive(s: World, ev: Event)
    requires Sound(s) && Timely(s) && Exclusive(s)
    ensures Exclusive(Step(s, ev))
  {
    OthersKeepWorking(s, ev);
    forall w | Busy(WorkerOf(Step(s, ev), w)) && WorkerOf(Step(s, ev), w).row in Step(s, ev).rows ensures OwnsClaim(Step(s, ev), w) {
      StepKeepsClaims(s, ev, w);
    }
    if ev.Claim? && Enabled(s, ev) {
      forall w | Busy(WorkerOf(s, w)) ensures WorkerOf(s, w).row != ev.id {
        OwnedIsNotClaimable(s, w, ev);
      }
    }
  }

  predicate Landed(s: World, w: WorkerId, id: RowId) {
    WorkerOf(s, w).Posted? && WorkerOf(s, w).row == id
  }

  /** 1 while some worker has POSTed the row and not yet marked it. */
  ghost function InFlight(s: World, id: RowId): nat {
    if exists w :: Landed(s, w, id) then 1 else 0
  }

  /** Every successful POST of a row is accounted for: it marked the row, its worker died first,
      or its worker is about to mark. */
  ghost predicate Accounted(s: World) {
    forall id :: id in s.rows ==> AccountedFor(s, id)
  }

  ghost predicate AccountedFor(s: World, id: RowId)
    requires id in s.rows
  {
    Count(s.posts, id) == (if s.rows[id].processedAt.Some? then 1 else 0) + Count(s.lost, id) + InFlight(s, id)
  }

  lemma {:induction false} InFlightSame(s: World, s': World, id: RowId)
    requires forall w :: Landed(s', w, id) == Landed(s, w, id)
    ensures InFlight(s', id) == InFlight(s, id)
  {
    if v :| Landed(s, v, id) {
      assert Landed(s', v, id);
    }
  }

  /** A step of no worker, or of one that is busy with another row. */
  lemma {:induction false} AccountElsewhere(s: World, ev: Event, id: RowId)
    requires Sound(s) && Accounted(s) && id in Step(s, ev).rows
    requires ev.Tick? || ev.Enqueue? || ev.Delete? || !Enabled(s, ev) || !Busy(WorkerOf(s, ev.w)) || WorkerOf(s, ev.w).row != id
    ensures AccountedFor(Step(s, ev), id)
  {
    OthersKeepWorking(s, ev);
    InFlightSame(s, Step(s, ev), id);
    if id !in s.rows {
      assert ev.Enqueue?;
      assert forall w :: !Landed(s, w, id);
    }
  }

  /** The worker that handles the row is the only one. */
  lemma {:induction false} AccountHere(s: World, ev: Event, id: RowId)
    requires Sound(s) && Exclusive(s) && Accounted(s) && id in Step(s, ev).rows
    requires !ev.Tick? && !ev.Enqueue? && !ev.Delete? && Enabled(s, ev) && Busy(WorkerOf(s, ev.w)) && WorkerOf(s, ev.w).row == id
    ensures AccountedFor(Step(s, ev), id)
  {
    OthersKeepWorking(s, ev);
    assert forall w :: w != ev.w ==> !Landed(s, w, id) && !Landed(Step(s, ev), w, id);
    assert Landed(s, ev.w, id) == WorkerOf(s, ev.w).Posted?;
    assert Landed(Step(s, ev), ev.w, id) == ev.PostSucceeds?;
  }

  lemma {:induction false} StepKeepsAccount(s: World, ev: Event, id: RowId)
    requires Sound(s) && Exclusive(s) && Accounted(s) && id in Step(s, ev).rows
    ensures AccountedFor(Step(s, ev), id)
  {
    if !ev.Tick? && !ev.Enqueue? && !ev.Delete? && Enabled(s, ev) && Busy(WorkerOf(s, ev.w)) && WorkerOf(s, ev.w).row == id {
      AccountHere(s, ev, id);
    } else {
      AccountElsewhere(s, ev, id);
    }
  }

  lemma {:induction false} StepKeepsAccounted(s: World, ev: Event)
    requires Sound(s) && Timely(s) && Exclusive(s) && Accounted(s)
    ensures Accounted(Step(s, ev))
  {
    forall id | id in Step(s, ev).rows ensures AccountedFor(Step(s, ev), id) {
      StepKeepsAccount(s, ev, id);
    }
  }

  /** Exactly-once up to crashes, for every timely run: at most one live worker handles a row at
      any time, and the successful POSTs of a row are its mark plus the crashes that lost one. */
  lemma {:induction false} TimelyRunsAreExclusive(now: int, events: seq<Event>)
    requires TimelyRun(Init(now), events)
    ensures Exclusive(Run(Init(now), events)) && Accounted(Run(Init(now), events))
  {
    if events != [] {
      var init := events[..|events| - 1];
      assert forall i :: 0 <= i < |init| ==> init[..i] == events[..i];
      TimelyRunsAreExclusive(now, init);
      ReachableIsSound(now, init);
      StepKeepsExclusive(Run(Init(now), init), events[|events| - 1]);
      StepKeepsAccounted(Run(Init(now), init), events[|events| - 1]);
    }
  }

  /** The stale window is tight: whenever a live delivery outlasts it, an idle worker can claim
      the same row in two steps, and both are POSTing. */
  lemma {:induction false} OutlastingTheWindow(s: World, w: WorkerId, v: WorkerId)
    requires Sound(s) && Exclusive(s) && WorkerOf(s, w).Posting? && WorkerOf(s, w).row in s.rows
    requires s.now - WorkerOf(s, w).since > 300_000_000 && WorkerOf(s, v).Idle?
    ensures var id := WorkerOf(s, w).row;
      var s' := Run(s, [Begin(v), Claim(v, id, s.rows.Keys - {id})]);
      WorkerOf(s', w) == WorkerOf(s, w) && WorkerOf(s', v) == Posting(id, s.now) && !Exclusive(s')
  {
    var id := WorkerOf(s, w).row;
    var claim := Claim(v, id, s.rows.Keys - {id});
    assert [Begin(v), claim][..1] == [Begin(v)] && [Begin(v)][..0] == [];
    var s1 := Step(s, Begin(v));
    assert Run(s, [Begin(v)]) == s1;
    assert IsNextClaim(s1.rows, s.now - STALE_AFTER, s.rows.Keys - {id}, id);
    var s2 := Step(s1, claim);
    assert Run(s, [Begin(v), claim]) == s2;
    assert WorkerOf(s2, w) == WorkerOf(s, w) && WorkerOf(s2, v) == Posting(id, s.now);
  }

  lemma {:induction false} OldestExists(rows: Rows, candidates: set<RowId>) returns (oldest: RowId)
    requires candidates != {} && candidates <= rows.Keys
    ensures oldest in candidates && forall id :: id in candidates ==> rows[oldest].createdAt <= rows[id].createdAt
  {
    oldest :| oldest in candidates;
    var rest := candidates - {oldest};
    assert forall id :: id in candidates ==> id == oldest || id in rest;
    if rest != {} {
      var other := OldestExists(rows, rest);
      oldest := if rows[other].createdAt < rows[oldest].createdAt then other else oldest;
    }
  }

  /** No crash strands a row. One stale window (and an instant) later every unprocessed row can be claimed
      again: whatever rows are locked at that moment, a worker finds one at least as old as this row, and
      it finds this row exactly when no unprocessed row that is older is unlocked. */
  lemma {:induction false} StrandedRowsComeBack(s: World, v: WorkerId, id: RowId, locked: set<RowId>)
    requires Sound(s) && id in s.rows && s.rows[id].processedAt.None? && WorkerOf(s, v).Idle? && id !in locked
    ensures var s' := Run(s, [Tick(300_000_001), Begin(v)]);
      && (exists found :: Enabled(s', Claim(v, found, locked)))
      && (forall found :: Enabled(s', Claim(v, found, locked)) ==> found in s.rows && s.rows[found].createdAt <= s.rows[id].createdAt)
      && (Enabled(s', Claim(v, id, locked)) <==>
          forall other :: other in s.rows && other !in locked && s.rows[other].processedAt.None? ==>
            s.rows[id].createdAt <= s.rows[other].createdAt)
  {
    assert [Tick(300_000_001), Begin(v)][..1] == [Tick(300_000_001)] && [Tick(300_000_001)][..0] == [];
    var s1 := Step(s, Tick(300_000_001));
    assert Run(s, [Tick(300_000_001)]) == s1;
    var s' := Step(s1, Begin(v));
    assert Run(s, [Tick(300_000_001), Begin(v)]) == s';
    assert s'.rows == s.rows && WorkerOf(s', v) == Starting(s.now + 1);
    assert forall other :: other in s.rows ==> (Claimable(s.rows[other], s.now + 1) <==> s.rows[other].processedAt.None?);
    var candidates := set other | other in s.rows && other !in locked && s.rows[other].processedAt.None?;
    assert id in candidates;
    var oldest := OldestExists(s.rows, candidates);
    assert Enabled(s', Claim(v, oldest, locked));
  }
}
