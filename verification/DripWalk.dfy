/** One enrollment walking a step list that staff edit underneath it. Claim, send and advance of
    the enrollment are one step of the walk; edits, pauses and exits come in between. */
module DripWalk {
  import opened Options
  import opened DripSteps

  /** One successful send. jumped: the stored position had no step any more. */
  datatype Send = Send(position: nat, at: int, delay: nat, jumped: bool)

  datatype Outcome = Sent | Kept | Dropped(reason: string)

  datatype Event =
    | PutStep(position: nat, delay: nat)       // insert a step or change its delay
    | DeleteStep(position: nat)
    | SetPaused(paused: bool)
    | Exit(reason: string, at: int)
    /** One worker tick. claimable: the campaign and the contact pass the claim query. Kept covers
        the send-hour gate and failed sends, Dropped the worker's own exits. */
    | Tick(now: int, sentAt: int, claimable: bool, outcome: Outcome)

  datatype Walk = Walk(e: Enrollment, steps: Steps, sent: seq<Send>)

  ghost function TickWalk(w: Walk, now: int, sentAt: int, outcome: Outcome): Walk {
    match DueStep(w.e, w.steps, now)
    case None => w
    case Some(p) =>
      match outcome
      case Kept => w
      case Dropped(reason) => w.(e := WithdrawnAt(w.e, reason, now))
      case Sent =>
        w.(e := Advanced(w.e, w.steps, sentAt), sent := w.sent + [Send(p, sentAt, w.steps[p], w.e.position !in w.steps)])
  }

  ghost function Step(w: Walk, ev: Event): Walk {
    match ev
    case PutStep(position, delay) => w.(steps := w.steps[position := delay])
    case DeleteStep(position) => w.(steps := w.steps - {position})
    case SetPaused(paused) =>
      if w.e.state.Active? || w.e.state.Paused? then w.(e := w.e.(state := if paused then Paused else Active)) else w
    case Exit(reason, at) => w.(e := WithdrawnAt(w.e, reason, at))
    case Tick(now, sentAt, claimable, outcome) => if claimable then TickWalk(w, now, sentAt, outcome) else w
  }

  ghost function Run(w: Walk, events: seq<Event>): Walk {
    if events == [] then w else Step(Run(w, events[..|events| - 1]), events[|events| - 1])
  }

  // ---------------------------------------------------------------- order of sends, under any edits

  /** Sends go up; a position comes twice only right after a jump, and then exactly. */
  ghost predicate Ordered(sent: seq<Send>) {
    forall i :: 0 <= i < |sent| - 1 ==>
      && sent[i].position <= sent[i + 1].position
      && (sent[i].position == sent[i + 1].position ==> sent[i].jumped && !sent[i + 1].jumped)
  }

  /** Where the enrollment stands after its last send. */
  ghost predicate Standing(w: Walk) {
    w.sent != [] && Open(w.e) ==>
      var last := w.sent[|w.sent| - 1];
      last.position <= w.e.position && (last.position == w.e.position ==> last.jumped)
  }

  /** After a send the enrollment stands above the position it sent, or exactly on it when the
      claim had jumped. */
  lemma {:induction false} AdvanceStands(e: Enrollment, steps: Steps, now: int, sentAt: int)
    requires DueStep(e, steps, now).Some?
    ensures var p, e' := DueStep(e, steps, now).value, Advanced(e, steps, sentAt);
      && e.position <= p && (p == e.position <==> e.position in steps)
      && (Open(e') ==> p <= e'.position && (p == e'.position ==> e.position !in steps))
  {
  }

  lemma {:induction false} OrderedOneMore(sent: seq<Send>, send: Send)
    requires Ordered(sent)
    requires sent != [] ==> sent[|sent| - 1].position <= send.position
    requires sent != [] && sent[|sent| - 1].position == send.position ==> sent[|sent| - 1].jumped && !send.jumped
    ensures Ordered(sent + [send])
  {
  }

  lemma {:induction false} SendKeepsOrder(w: Walk, now: int, sentAt: int)
    requires Ordered(w.sent) && Standing(w) && DueStep(w.e, w.steps, now).Some?
    ensures Ordered(TickWalk(w, now, sentAt, Sent).sent) && Standing(TickWalk(w, now, sentAt, Sent))
  {
    var p := DueStep(w.e, w.steps, now).value;
    AdvanceStands(w.e, w.steps, now, sentAt);
    OrderedOneMore(w.sent, Send(p, sentAt, w.steps[p], w.e.position !in w.steps));
  }

  lemma {:induction false} StepKeepsOrder(w: Walk, ev: Event)
    requires Ordered(w.sent) && Standing(w)
    ensures Ordered(Step(w, ev).sent) && Standing(Step(w, ev))
  {
    if ev.Tick? && ev.outcome.Sent? && DueStep(w.e, w.steps, ev.now).Some? {
      SendKeepsOrder(w, ev.now, ev.sentAt);
    }
  }

  /** Positions never decrease and repeat at most once, under arbitrary edits. */
  lemma {:induction false} SendsAreOrdered(w: Walk, events: seq<Event>)
    requires w.sent == []
    ensures Ordered(Run(w, events).sent) && Standing(Run(w, events))
  {
    if events != [] {
      SendsAreOrdered(w, events[..|events| - 1]);
      StepKeepsOrder(Run(w, events[..|events| - 1]), events[|events| - 1]);
    }
  }

  /** No position is sent three times. */
  lemma {:induction false} NoThirdSend(sent: seq<Send>, i: nat, j: nat)
    requires Ordered(sent) && i + 2 <= j < |sent|
    ensures sent[i].position < sent[j].position
    decreases j
  {
    if j > i + 2 {
      NoThirdSend(sent, i, j - 1);
    }
    assert sent[j - 2].position <= sent[j - 1].position <= sent[j].position by {
      assert j - 2 + 1 == j - 1 && j - 1 + 1 == j;
    }
    if j == i + 2 && sent[i].position == sent[i + 1].position {
      assert !sent[i + 1].jumped;
    }
  }

  // ---------------------------------------------------------------- spacing

  /** The worker stamps a send after it computed now for the tick. */
  ghost predicate StampsFollowClaims(events: seq<Event>) {
    forall i :: 0 <= i < |events| && events[i].Tick? ==> events[i].sentAt >= events[i].now
  }

  ghost predicate Spaced(sent: seq<Send>) {
    forall i :: 0 <= i < |sent| - 1 ==> sent[i + 1].at >= sent[i].at + sent[i + 1].delay * DAY
  }

  ghost predicate LastIsStamped(w: Walk) {
    w.sent != [] ==> w.e.lastSentAt == Some(w.sent[|w.sent| - 1].at)
  }

  lemma {:induction false} StepKeepsSpacing(w: Walk, ev: Event)
    requires Spaced(w.sent) && LastIsStamped(w) && (ev.Tick? ==> ev.sentAt >= ev.now)
    ensures Spaced(Step(w, ev).sent) && LastIsStamped(Step(w, ev))
  {
  }

  /** Consecutive sends are at least the later step's delay apart, as that delay stands when the
      later step is claimed. */
  lemma {:induction false} SendsAreSpaced(w: Walk, events: seq<Event>)
    requires w.sent == [] && StampsFollowClaims(events)
    ensures Spaced(Run(w, events).sent) && LastIsStamped(Run(w, events))
  {
    if events != [] {
      SendsAreSpaced(w, events[..|events| - 1]);
      StepKeepsSpacing(Run(w, events[..|events| - 1]), events[|events| - 1]);
    }
  }

  // ---------------------------------------------------------------- no edits

  ghost function Above(steps: Steps, from: int): set<nat> {
    set q | q in steps && q >= from
  }

  lemma {:induction false} AboveShrinks(steps: Steps, from: int, p: nat)
    requires IsNext(steps, from, p)
    ensures Above(steps, p + 1) < Above(steps, from)
  {
    assert p in Above(steps, from) && p !in Above(steps, p + 1);
  }

  /** The positions at or above one, ascending. */
  ghost function Ascending(steps: Steps, from: int): seq<nat>
    decreases Above(steps, from)
  {
    match NextFrom(steps, from)
    case None => []
    case Some(p) =>
      AboveShrinks(steps, from, p);
      [p] + Ascending(steps, p + 1)
  }

  /** What Ascending means: every step at or above the position, once, in order. */
  lemma {:induction false} AscendingLists(steps: Steps, from: int)
    ensures forall q :: q in Ascending(steps, from) <==> q in steps && q >= from
    ensures forall i, j :: 0 <= i < j < |Ascending(steps, from)| ==> Ascending(steps, from)[i] < Ascending(steps, from)[j]
    decreases Above(steps, from)
  {
    if NextFrom(steps, from).Some? {
      var p := NextFrom(steps, from).value;
      AboveShrinks(steps, from, p);
      AscendingLists(steps, p + 1);
      var rest := Ascending(steps, p + 1);
      forall i | 0 <= i < |rest| ensures p < rest[i] {
        assert rest[i] in rest;
      }
      assert Ascending(steps, from) == [p] + Ascending(steps, p + 1);
    }
  }

  /** The sends an enrollment still has before it if nobody edits: from a position without a step
      the first one is sent twice, since the walk moves on from the stored position. */
  ghost function Plan(e: Enrollment, steps: Steps): seq<nat> {
    if !Open(e) then []
    else if e.position in steps then Ascending(steps, e.position)
    else
      match NextFrom(steps, e.position)
      case None => []
      case Some(p) => [p] + Ascending(steps, e.position)
  }

  predicate IsEdit(ev: Event) {
    ev.PutStep? || ev.DeleteStep?
  }

  function Positions(sent: seq<Send>): seq<nat> {
    if sent == [] then [] else Positions(sent[..|sent| - 1]) + [sent[|sent| - 1].position]
  }

  predicate Leaves(ev: Event) {
    ev.Exit? || (ev.Tick? && ev.outcome.Dropped?)
  }

  lemma {:induction false} AscendingSkips(steps: Steps, from: int, p: nat)
    requires from <= p && IsNext(steps, from, p)
    ensures Ascending(steps, from) == Ascending(steps, p) == [p] + Ascending(steps, p + 1)
  {
  }

  /** One send takes the first position off the plan. */
  lemma {:induction false} PlanAfterSend(e: Enrollment, steps: Steps, now: int, sentAt: int)
    requires DueStep(e, steps, now).Some?
    ensures Plan(e, steps) == [DueStep(e, steps, now).value] + Plan(Advanced(e, steps, sentAt), steps)
  {
    var p := DueStep(e, steps, now).value;
    if p > e.position {
      PlanAfterJump(e, steps, p, sentAt);
    } else {
      PlanAfterStep(e, steps, sentAt);
    }
  }

  lemma {:induction false} PlanAfterJump(e: Enrollment, steps: Steps, p: nat, sentAt: int)
    requires Open(e) && IsNext(steps, e.position, p) && p > e.position
    ensures Plan(e, steps) == [p] + Plan(Advanced(e, steps, sentAt), steps)
  {
    NextIsUnique(steps, e.position, p);
    NextIsUnique(steps, e.position + 1, p);
    AscendingSkips(steps, e.position, p);
  }

  lemma {:induction false} PlanAfterStep(e: Enrollment, steps: Steps, sentAt: int)
    requires Open(e) && e.position in steps
    ensures Plan(e, steps) == [e.position] + Plan(Advanced(e, steps, sentAt), steps)
  {
    NextIsUnique(steps, e.position, e.position);
    match NextFrom(steps, e.position + 1)
    case None =>
      assert Ascending(steps, e.position + 1) == [];
    case Some(q) =>
      AscendingSkips(steps, e.position + 1, q);
  }

  /** Once something was sent, an enrollment that is still open stands on a step. */
  ghost predicate OnAStep(w: Walk) {
    w.sent != [] && Open(w.e) ==> w.e.position in w.steps
  }

  lemma {:induction false} PlanStep(w: Walk, ev: Event)
    requires !IsEdit(ev) && !Leaves(ev)
    ensures Step(w, ev).steps == w.steps
    ensures Positions(Step(w, ev).sent) + Plan(Step(w, ev).e, w.steps) == Positions(w.sent) + Plan(w.e, w.steps)
    ensures OnAStep(w) ==> OnAStep(Step(w, ev))
  {
    var w' := Step(w, ev);
    if w'.sent != w.sent {
      PlanAfterSend(w.e, w.steps, ev.now, ev.sentAt);
      assert w'.sent[..|w'.sent| - 1] == w.sent;
      assert Positions(w'.sent) == Positions(w.sent) + [w'.sent[|w'.sent| - 1].position];
    }
  }

  /** Without edits or exits the sends so far, followed by the plan that is left, are the plan of
      the start. */
  lemma {:induction false} SendsFollowThePlan(w: Walk, events: seq<Event>)
    requires w.sent == [] && forall i :: 0 <= i < |events| ==> !IsEdit(events[i]) && !Leaves(events[i])
    ensures Run(w, events).steps == w.steps
    ensures Positions(Run(w, events).sent) + Plan(Run(w, events).e, w.steps) == Plan(w.e, w.steps)
    ensures OnAStep(Run(w, events))
  {
    if events == [] {
      assert Positions(w.sent) + Plan(w.e, w.steps) == Plan(w.e, w.steps);
    } else {
      SendsFollowThePlan(w, events[..|events| - 1]);
      PlanStep(Run(w, events[..|events| - 1]), events[|events| - 1]);
    }
  }

  /** Completion, without edits or exits: an open enrollment that starts on a step is completed
      exactly when it has sent one message per step at or above its start, in ascending order. */
  lemma {:induction false} CompletesAfterEachStepOnce(w: Walk, events: seq<Event>)
    requires w.sent == [] && Open(w.e) && w.e.position in w.steps
    requires forall i :: 0 <= i < |events| ==> !IsEdit(events[i]) && !Leaves(events[i])
    ensures Run(w, events).e.state == Completed <==> Positions(Run(w, events).sent) == Ascending(w.steps, w.e.position)
  {
    SendsFollowThePlan(w, events);
    StaysOpenOrCompletes(w, events);
    var w' := Run(w, events);
    if Open(w'.e) && Positions(w'.sent) == Ascending(w.steps, w.e.position) {
      assert Plan(w'.e, w.steps) == [];
      NextIsUnique(w.steps, w.e.position, w.e.position);
      assert w'.sent != [];
      NextIsUnique(w.steps, w'.e.position, w'.e.position);
    }
  }

  lemma {:induction false} StaysOpenOrCompletes(w: Walk, events: seq<Event>)
    requires Open(w.e) && forall i :: 0 <= i < |events| ==> !IsEdit(events[i]) && !Leaves(events[i])
    ensures Open(Run(w, events).e) || Run(w, events).e.state == Completed
  {
    if events != [] {
      StaysOpenOrCompletes(w, events[..|events| - 1]);
    }
  }

  /** The plan is each step once exactly when the enrollment starts on a step or has none left:
      an enrollment whose current step was deleted sends the next one twice. */
  lemma {:induction false} PlanIsEachStepOnceIff(e: Enrollment, steps: Steps)
    requires Open(e)
    ensures Plan(e, steps) == Ascending(steps, e.position) <==> e.position in steps || NextFrom(steps, e.position).None?
  {
  }

  // ---------------------------------------------------------------- completion is reached

  /** A tick that finds a step due and sends it. */
  ghost predicate Delivers(w: Walk, ev: Event) {
    ev.Tick? && ev.claimable && ev.outcome.Sent? && DueStep(w.e, w.steps, ev.now).Some?
  }

  ghost function Deliveries(w: Walk, events: seq<Event>): nat {
    if events == [] then 0
    else
      var init := events[..|events| - 1];
      Deliveries(w, init) + if Delivers(Run(w, init), events[|events| - 1]) then 1 else 0
  }

  lemma {:induction false} DeliveriesAreSends(w: Walk, events: seq<Event>)
    ensures |Run(w, events).sent| == |w.sent| + Deliveries(w, events)
  {
    if events != [] {
      DeliveriesAreSends(w, events[..|events| - 1]);
    }
  }

  lemma {:induction false} PositionsCounted(sent: seq<Send>)
    ensures |Positions(sent)| == |sent|
  {
    if sent != [] {
      PositionsCounted(sent[..|sent| - 1]);
    }
  }

  /** A plan is empty exactly when nothing is left to send. */
  lemma {:induction false} PlanIsEmptyIff(e: Enrollment, steps: Steps)
    ensures Plan(e, steps) == [] <==> !Open(e) || NextFrom(steps, e.position).None?
  {
    if e.position in steps {
      NextIsUnique(steps, e.position, e.position);
    }
  }

  /** Progress: without edits or exits, an open enrollment with a step left is completed exactly when as
      many ticks have delivered as its plan is long; and no run has more such ticks. */
  lemma {:induction false} CompletesAfterAsManyDeliveries(w: Walk, events: seq<Event>)
    requires w.sent == [] && Open(w.e) && NextFrom(w.steps, w.e.position).Some?
    requires forall i :: 0 <= i < |events| ==> !IsEdit(events[i]) && !Leaves(events[i])
    ensures Run(w, events).e.state == Completed <==> Deliveries(w, events) == |Plan(w.e, w.steps)|
    ensures Deliveries(w, events) <= |Plan(w.e, w.steps)|
  {
    var w' := Run(w, events);
    SendsFollowThePlan(w, events);
    StaysOpenOrCompletes(w, events);
    DeliveriesAreSends(w, events);
    PositionsCounted(w'.sent);
    PlanIsEmptyIff(w.e, w.steps);
    PlanIsEmptyIff(w'.e, w.steps);
    assert |Positions(w'.sent) + Plan(w'.e, w.steps)| == |w'.sent| + |Plan(w'.e, w.steps)|;
    if Open(w'.e) && w'.sent != [] {
      NextIsUnique(w.steps, w'.e.position, w'.e.position);
    }
  }

  /** Claimable ticks whose sends succeed, each at least `longest` after the send before it. */
  ghost predicate SpacedTicks(e: Enrollment, ticks: seq<Event>, longest: int) {
    && (forall i :: 0 <= i < |ticks| ==> ticks[i].Tick? && ticks[i].claimable && ticks[i].outcome.Sent?)
    && (ticks != [] && e.lastSentAt.Some? ==> ticks[0].now >= e.lastSentAt.value + longest)
    && (forall i :: 0 < i < |ticks| ==> ticks[i].now >= ticks[i - 1].sentAt + longest)
  }

  ghost predicate LongestDelay(steps: Steps, longest: int) {
    forall p :: p in steps ==> steps[p] * DAY <= longest
  }

  /** Until the plan is used up such a tick always finds a step due. */
  lemma {:induction false} SpacedTicksDeliver(w: Walk, ticks: seq<Event>, longest: int)
    requires w.sent == [] && w.e.state.Active? && LongestDelay(w.steps, longest) && SpacedTicks(w.e, ticks, longest)
    requires |ticks| <= |Plan(w.e, w.steps)|
    ensures var w' := Run(w, ticks);
      && |w'.sent| == |ticks| && (w'.e.state.Active? || w'.e.state.Completed?)
      && w'.e.lastSentAt == if ticks == [] then w.e.lastSentAt else Some(ticks[|ticks| - 1].sentAt)
  {
    if ticks != [] {
      var init, tick := ticks[..|ticks| - 1], ticks[|ticks| - 1];
      var before := Run(w, init);
      SpacedTicksDeliver(w, init, longest);
      SendsFollowThePlan(w, init);
      PositionsCounted(before.sent);
      assert |Positions(before.sent) + Plan(before.e, w.steps)| == |init| + |Plan(before.e, w.steps)|;
      PlanIsEmptyIff(before.e, w.steps);
      assert init != [] ==> tick.now >= init[|init| - 1].sentAt + longest;
      assert DueStep(before.e, w.steps, tick.now).Some?;
    }
  }

  /** So ticks spaced by the longest delay complete an active enrollment with a step left, after as many
      of them as its plan is long and not before; any further ones find it completed. */
  lemma {:induction false} SpacedTicksComplete(w: Walk, ticks: seq<Event>, longest: int)
    requires w.sent == [] && w.e.state.Active? && NextFrom(w.steps, w.e.position).Some?
    requires LongestDelay(w.steps, longest) && SpacedTicks(w.e, ticks, longest)
    ensures Run(w, ticks).e.state == Completed <==> |ticks| >= |Plan(w.e, w.steps)|
    decreases |ticks|
  {
    if |ticks| <= |Plan(w.e, w.steps)| {
      SpacedTicksDeliver(w, ticks, longest);
      DeliveriesAreSends(w, ticks);
      CompletesAfterAsManyDeliveries(w, ticks);
    } else {
      SpacedTicksComplete(w, ticks[..|ticks| - 1], longest);
    }
  }

  /** An enrollment with no step at or above its position never completes: it stays open for good. */
  lemma {:induction false} WithoutStepsItStaysOpen(w: Walk, events: seq<Event>)
    requires Open(w.e) && NextFrom(w.steps, w.e.position).None?
    requires forall i :: 0 <= i < |events| ==> !IsEdit(events[i]) && !Leaves(events[i])
    ensures var w' := Run(w, events); Open(w'.e) && w'.e.position == w.e.position && w'.steps == w.steps && w'.sent == w.sent
  {
    if events != [] {
      WithoutStepsItStaysOpen(w, events[..|events| - 1]);
    }
  }
}
