/** The per-email rolling-hour limit on magic links, and the purge that runs beside it. */
module MagicLinkLimiter {
  type EntryId = nat
  type Email = string

  /** Instants are microseconds. The application's clock stamps requests and computes the cutoff;
      the database's clock drives the purge. */
  datatype Entry = Entry(email: Email, at: int)

  const HOUR := 60 * 60 * 1_000_000
  const WINDOW := HOUR
  const LIMIT := 6

  type Entries = map<EntryId, Entry>

  function Recent(rows: Entries, email: Email, cutoff: int): set<EntryId> {
    set id | id in rows && rows[id].email == email && rows[id].at >= cutoff
  }

  predicate Admits(rows: Entries, email: Email, counted: int) {
    |Recent(rows, email, counted - WINDOW)| < LIMIT
  }

  /** The advisory lock makes count-then-insert atomic for one email, so a request is one event.
      counted is the clock when the cutoff is computed, issued the clock when the row is stamped;
      requests for different emails may overlap, so neither grows along a trace. A purge may be cut
      short by an error: it deletes any part of what is old enough. */
  datatype Event =
    | Request(email: Email, counted: int, issued: int)
    | Purge(dbNow: int, victims: set<EntryId>)

  /** history keeps every entry ever issued, rows only those not yet purged. */
  datatype State = State(rows: Entries, history: Entries, next: EntryId)

  function Old(rows: Entries, dbNow: int): set<EntryId> {
    set id | id in rows && rows[id].at < dbNow - 2 * HOUR
  }

  function Decide(s: State, ev: Event): bool {
    ev.Request? && Admits(s.rows, ev.email, ev.counted)
  }

  function Step(s: State, ev: Event): State {
    match ev
    case Request(email, counted, issued) =>
      if Admits(s.rows, email, counted) then
        State(s.rows[s.next := Entry(email, issued)], s.history[s.next := Entry(email, issued)], s.next + 1)
      else s
    case Purge(dbNow, victims) => s.(rows := s.rows - (victims * Old(s.rows, dbNow)))
  }

  function Run(s: State, events: seq<Event>): State {
    if events == [] then s else Step(Run(s, events[..|events| - 1]), events[|events| - 1])
  }

  const EMPTY := State(map[], map[], 0)

  /** All that is asked of the clocks: a request does not see time run backwards between its count and
      its stamp, and a purge read the database's clock at most skew ahead of what the application's
      clock shows to any later count, of whatever email. */
  ghost predicate WellTimed(events: seq<Event>, skew: int) {
    && (forall i :: 0 <= i < |events| && events[i].Request? ==> events[i].counted <= events[i].issued)
    && (forall i, j :: 0 <= i < j < |events| && events[i].Purge? && events[j].Request? ==>
          events[i].dbNow <= events[j].counted + skew)
  }

  // ---------------------------------------------------------------- the limit

  function Within(rows: Entries, email: Email, from: int): set<EntryId> {
    set id | id in rows && rows[id].email == email && from <= rows[id].at <= from + WINDOW
  }

  ghost predicate Limited(h: Entries) {
    forall email, from :: |Within(h, email, from)| <= LIMIT
  }

  /** Some purge of the trace could take an entry of this instant. */
  ghost predicate Doomed(events: seq<Event>, at: int) {
    exists i :: 0 <= i < |events| && events[i].Purge? && at < events[i].dbNow - 2 * HOUR
  }

  /** What is missing from the rows was old enough for some purge so far. */
  ghost predicate PurgedWasOld(s: State, events: seq<Event>) {
    && s.rows.Keys <= s.history.Keys
    && (forall id :: id in s.rows ==> s.rows[id] == s.history[id])
    && (forall id :: id in s.history ==> id < s.next)
    && (forall id :: id in s.history && id !in s.rows ==> Doomed(events, s.history[id].at))
  }

  /** Purging is invisible to the count. */
  lemma {:induction false} CountsAgree(s: State, events: seq<Event>, ev: Event)
    requires PurgedWasOld(s, events) && WellTimed(events + [ev], HOUR) && ev.Request?
    ensures Recent(s.rows, ev.email, ev.counted - WINDOW) == Recent(s.history, ev.email, ev.counted - WINDOW)
    ensures Admits(s.rows, ev.email, ev.counted) == Admits(s.history, ev.email, ev.counted)
  {
    forall id | id in s.history && id !in s.rows ensures s.history[id].at < ev.counted - WINDOW {
      var i :| 0 <= i < |events| && events[i].Purge? && s.history[id].at < events[i].dbNow - 2 * HOUR;
      assert (events + [ev])[i] == events[i] && (events + [ev])[|events|] == ev;
    }
  }

  lemma {:induction false} AdmittedStaysLimited(s: State, ev: Event)
    requires (forall id :: id in s.history ==> id < s.next) && Limited(s.history)
    requires ev.Request? && Admits(s.history, ev.email, ev.counted) && ev.counted <= ev.issued
    ensures Limited(s.history[s.next := Entry(ev.email, ev.issued)])
  {
    var h := s.history[s.next := Entry(ev.email, ev.issued)];
    forall email, from ensures |Within(h, email, from)| <= LIMIT {
      if email == ev.email && from <= ev.issued <= from + WINDOW {
        assert Within(h, email, from) - {s.next} <= Recent(s.history, email, ev.counted - WINDOW);
        Subset(Within(h, email, from) - {s.next}, Recent(s.history, email, ev.counted - WINDOW));
      } else {
        assert Within(h, email, from) == Within(s.history, email, from);
      }
    }
  }

  lemma {:induction false} Subset(a: set<EntryId>, b: set<EntryId>)
    requires a <= b
    ensures |a| <= |b|
  {
    if a != {} {
      var x :| x in a;
      Subset(a - {x}, b - {x});
    }
  }

  lemma {:induction false} StillDoomed(events: seq<Event>, ev: Event, at: int)
    requires Doomed(events, at)
    ensures Doomed(events + [ev], at)
  {
    var i :| 0 <= i < |events| && events[i].Purge? && at < events[i].dbNow - 2 * HOUR;
    assert (events + [ev])[i] == events[i];
  }

  lemma {:induction false} StepKeepsPurged(s: State, events: seq<Event>, ev: Event)
    requires PurgedWasOld(s, events)
    ensures PurgedWasOld(Step(s, ev), events + [ev])
  {
    var s' := Step(s, ev);
    forall id | id in s'.history && id !in s'.rows ensures Doomed(events + [ev], s'.history[id].at) {
      if id in s.rows {
        assert (events + [ev])[|events|] == ev && s'.history[id].at < ev.dbNow - 2 * HOUR;
      } else {
        StillDoomed(events, ev, s.history[id].at);
      }
    }
  }

  lemma {:induction false} StepKeepsLimit(s: State, events: seq<Event>, ev: Event)
    requires PurgedWasOld(s, events) && Limited(s.history) && WellTimed(events + [ev], HOUR)
    ensures Limited(Step(s, ev).history)
  {
    assert (events + [ev])[|events|] == ev;
    if ev.Request? {
      CountsAgree(s, events, ev);
      if Admits(s.history, ev.email, ev.counted) {
        AdmittedStaysLimited(s, ev);
      }
    }
  }

  lemma {:induction false} WellTimedPrefix(events: seq<Event>, skew: int)
    requires WellTimed(events, skew) && events != []
    ensures WellTimed(events[..|events| - 1], skew)
    ensures events == events[..|events| - 1] + [events[|events| - 1]]
  {
  }

  lemma {:induction false} RunKeepsPurged(events: seq<Event>)
    ensures PurgedWasOld(Run(EMPTY, events), events)
  {
    if events != [] {
      var init, ev := events[..|events| - 1], events[|events| - 1];
      RunKeepsPurged(init);
      StepKeepsPurged(Run(EMPTY, init), init, ev);
      assert events == init + [ev];
    }
  }

  lemma {:induction false} RunKeepsLimit(events: seq<Event>)
    requires WellTimed(events, HOUR)
    ensures Limited(Run(EMPTY, events).history)
  {
    if events == [] {
      forall email, from ensures |Within(map[], email, from)| <= LIMIT {
        assert Within(map[], email, from) == {};
      }
    } else {
      var init := events[..|events| - 1];
      WellTimedPrefix(events, HOUR);
      RunKeepsPurged(init);
      RunKeepsLimit(init);
      StepKeepsLimit(Run(EMPTY, init), init, events[|events| - 1]);
    }
  }

  /** Links that went to one email at or after an instant. */
  ghost predicate LinksTo(h: Entries, links: set<EntryId>, email: Email, from: int) {
    forall id :: id in links ==> id in h && h[id].email == email && h[id].at >= from
  }

  /** Sliding-window limit: however many links one email was issued within a closed hour, over any trace of
      requests and purges, they are at most six. */
  lemma {:induction false} AtMostSixPerHour(events: seq<Event>, email: Email, from: int, links: set<EntryId>)
    requires WellTimed(events, HOUR)
    requires LinksTo(Run(EMPTY, events).history, links, email, from)
    requires forall id :: id in links ==> Run(EMPTY, events).history[id].at <= from + 3_600_000_000
    ensures |links| <= 6
  {
    RunKeepsLimit(events);
    Subset(links, Within(Run(EMPTY, events).history, email, from));
  }

  /** The recent entries are as many as any set of links to the email since the cutoff can have. */
  lemma {:induction false} RecentAreAll(rows: Entries, email: Email, from: int)
    ensures LinksTo(rows, Recent(rows, email, from), email, from)
    ensures forall links :: LinksTo(rows, links, email, from) ==> |links| <= |Recent(rows, email, from)|
  {
    forall links | LinksTo(rows, links, email, from) ensures |links| <= |Recent(rows, email, from)| {
      Subset(links, Recent(rows, email, from));
    }
  }

  // ---------------------------------------------------------------- the purge is invisible

  function Decisions(s: State, events: seq<Event>): seq<bool> {
    if events == [] then []
    else
      var init := events[..|events| - 1];
      Decisions(s, init) + [Decide(Run(s, init), events[|events| - 1])]
  }

  function SparedEvent(ev: Event): Event {
    if ev.Purge? then ev.(victims := {}) else ev
  }

  /** The same trace with every purge deleting nothing. */
  function Spared(events: seq<Event>): (r: seq<Event>)
    ensures |r| == |events| && forall i :: 0 <= i < |events| ==> r[i] == SparedEvent(events[i])
  {
    seq(|events|, i requires 0 <= i < |events| => SparedEvent(events[i]))
  }

  lemma {:induction false} SparedPrefix(events: seq<Event>)
    requires events != []
    ensures Spared(events)[..|events| - 1] == Spared(events[..|events| - 1])
  {
  }

  /** The state of the same trace without deletions. */
  predicate Twin(s: State, spared: State) {
    spared.history == s.history == spared.rows && spared.next == s.next
  }

  lemma {:induction false} TwinStep(s: State, spared: State, events: seq<Event>, ev: Event)
    requires PurgedWasOld(s, events) && WellTimed(events + [ev], HOUR) && Twin(s, spared)
    ensures Decide(s, ev) == Decide(spared, SparedEvent(ev))
    ensures Twin(Step(s, ev), Step(spared, SparedEvent(ev)))
  {
    if ev.Request? {
      CountsAgree(s, events, ev);
    } else {
      assert spared.rows - ({} * Old(spared.rows, ev.dbNow)) == spared.rows;
    }
  }

  /** Purging never changes an admit or deny decision, nor what is issued, while the database's
      clock is at most an hour ahead. */
  lemma {:induction false} PurgeIsInvisible(events: seq<Event>)
    requires WellTimed(events, HOUR)
    ensures Decisions(EMPTY, events) == Decisions(EMPTY, Spared(events))
    ensures Twin(Run(EMPTY, events), Run(EMPTY, Spared(events)))
  {
    if events != [] {
      var init, ev := events[..|events| - 1], events[|events| - 1];
      WellTimedPrefix(events, HOUR);
      PurgeIsInvisible(init);
      RunKeepsPurged(init);
      SparedPrefix(events);
      TwinStep(Run(EMPTY, init), Run(EMPTY, Spared(init)), init, ev);
    }
  }

  ghost predicate PurgeInvisibleAt(skew: int) {
    forall events :: WellTimed(events, skew) ==> Decisions(EMPTY, events) == Decisions(EMPTY, Spared(events))
  }

  /** n requests for one email at instant 0, and the rows they leave. */
  function Burst(email: Email, n: nat): seq<Event> {
    if n == 0 then [] else Burst(email, n - 1) + [Request(email, 0, 0)]
  }

  function BurstRows(email: Email, n: nat): (rows: Entries)
    ensures forall id :: id in rows ==> id < n && rows[id] == Entry(email, 0)
    ensures |rows| == n
  {
    if n == 0 then map[] else BurstRows(email, n - 1)[n - 1 := Entry(email, 0)]
  }

  lemma {:induction false} BurstCount(email: Email, n: nat, cutoff: int)
    requires cutoff <= 0
    ensures |Recent(BurstRows(email, n), email, cutoff)| == n
  {
    assert Recent(BurstRows(email, n), email, cutoff) == BurstRows(email, n).Keys;
  }

  lemma {:induction false} BurstStep(email: Email, n: nat)
    requires n < LIMIT
    ensures Step(State(BurstRows(email, n), BurstRows(email, n), n), Request(email, 0, 0))
         == State(BurstRows(email, n + 1), BurstRows(email, n + 1), n + 1)
  {
    BurstCount(email, n, 0 - WINDOW);
  }

  lemma {:induction false} RunAppend(s: State, events: seq<Event>, ev: Event)
    ensures Run(s, events + [ev]) == Step(Run(s, events), ev)
  {
  }

  lemma {:induction false} BurstFills(email: Email, n: nat)
    requires n <= LIMIT
    ensures Run(EMPTY, Burst(email, n)) == State(BurstRows(email, n), BurstRows(email, n), n)
  {
    if n > 0 {
      BurstFills(email, n - 1);
      BurstStep(email, n - 1);
      RunAppend(EMPTY, Burst(email, n - 1), Request(email, 0, 0));
    }
  }

  lemma {:induction false} BurstIs(email: Email, n: nat)
    ensures |Burst(email, n)| == n && forall i :: 0 <= i < n ==> Burst(email, n)[i] == Request(email, 0, 0)
  {
    if n > 0 {
      BurstIs(email, n - 1);
    }
  }

  /** Six links at once, a purge an hour later under a fast database clock, one more request. */
  function FastClockTrace(email: Email, skew: int, victims: set<EntryId>): seq<Event> {
    Burst(email, LIMIT) + [Purge(HOUR + skew, victims)] + [Request(email, HOUR, HOUR)]
  }

  lemma {:induction false} FastClockIsWellTimed(email: Email, skew: int, victims: set<EntryId>)
    ensures WellTimed(FastClockTrace(email, skew, victims), skew)
  {
    BurstIs(email, LIMIT);
  }

  /** The last request is admitted when the purge took all six rows and refused when it took none. */
  lemma {:induction false} FastClockDecides(email: Email, skew: int, victims: set<EntryId>)
    requires skew > HOUR
    ensures var events := FastClockTrace(email, skew, victims);
      |Decisions(EMPTY, events)| > 0 &&
      Decisions(EMPTY, events)[|Decisions(EMPTY, events)| - 1] ==
        (|Recent(BurstRows(email, LIMIT) - victims, email, 0)| < LIMIT)
  {
    var burst, purge := Burst(email, LIMIT), Purge(HOUR + skew, victims);
    var events := FastClockTrace(email, skew, victims);
    BurstFills(email, LIMIT);
    RunAppend(EMPTY, burst, purge);
    assert events[..|events| - 1] == burst + [purge];
    var rows := BurstRows(email, LIMIT);
    assert Old(rows, HOUR + skew) == rows.Keys;
    assert rows - (victims * Old(rows, HOUR + skew)) == rows - victims;
  }

  lemma {:induction false} FastClockSpared(email: Email, skew: int, victims: set<EntryId>)
    ensures Spared(FastClockTrace(email, skew, victims)) == FastClockTrace(email, skew, {})
  {
    BurstIs(email, LIMIT);
  }

  lemma {:induction false} FastClockForgets(email: Email, skew: int)
    requires skew > HOUR
    ensures !PurgeInvisibleAt(skew)
  {
    var rows := BurstRows(email, LIMIT);
    var events := FastClockTrace(email, skew, rows.Keys);
    FastClockIsWellTimed(email, skew, rows.Keys);
    FastClockDecides(email, skew, rows.Keys);
    FastClockDecides(email, skew, {});
    FastClockSpared(email, skew, rows.Keys);
    BurstCount(email, LIMIT, 0);
    assert rows - {} == rows;
    assert Recent(rows - rows.Keys, email, 0) == {};
    assert Decisions(EMPTY, events) != Decisions(EMPTY, Spared(events));
  }

  /** The two-hour horizon tolerates a database clock exactly one hour ahead. */
  lemma {:induction false} PurgeInvisibleIff(skew: int)
    ensures PurgeInvisibleAt(skew) <==> skew <= HOUR
  {
    if skew <= HOUR {
      forall events | WellTimed(events, skew)
        ensures Decisions(EMPTY, events) == Decisions(EMPTY, Spared(events))
      {
        PurgeIsInvisible(events);
      }
    } else {
      FastClockForgets("", skew);
    }
  }

  // ---------------------------------------------------------------- each email by itself

  /** The stamps of the links issued to one email, in order. */
  function Issued(events: seq<Event>, email: Email): seq<int> {
    if events == [] then []
    else
      var init, ev := events[..|events| - 1], events[|events| - 1];
      Issued(init, email)
      + if ev.Request? && ev.email == email && Decide(Run(EMPTY, init), ev) then [ev.issued] else []
  }

  function Since(stamps: seq<int>, from: int): set<int> {
    set j | 0 <= j < |stamps| && stamps[j] >= from
  }

  lemma {:induction false} SinceOneMore(stamps: seq<int>, at: int, from: int)
    ensures |Since(stamps + [at], from)| == |Since(stamps, from)| + if at >= from then 1 else 0
  {
    assert Since(stamps + [at], from) == Since(stamps, from) + if at >= from then {|stamps|} else {};
  }

  lemma {:induction false} RecentOneMore(rows: Entries, id: EntryId, entry: Entry, email: Email, from: int)
    requires id !in rows
    ensures |Recent(rows[id := entry], email, from)|
         == |Recent(rows, email, from)| + if entry.email == email && entry.at >= from then 1 else 0
  {
    assert Recent(rows[id := entry], email, from)
        == Recent(rows, email, from) + if entry.email == email && entry.at >= from then {id} else {};
  }

  /** The history holds for each email exactly the links issued to it. */
  lemma {:induction false} HistoryCounts(events: seq<Event>, email: Email, from: int)
    ensures |Recent(Run(EMPTY, events).history, email, from)| == |Since(Issued(events, email), from)|
  {
    if events == [] {
      assert Recent(map[], email, from) == {} && Since([], from) == {};
    } else {
      var init, ev := events[..|events| - 1], events[|events| - 1];
      var s := Run(EMPTY, init);
      HistoryCounts(init, email, from);
      RunKeepsPurged(init);
      if Decide(s, ev) {
        RecentOneMore(s.history, s.next, Entry(ev.email, ev.issued), email, from);
        SinceOneMore(Issued(init, email), ev.issued, from);
      }
      assert Issued(init, email) + [] == Issued(init, email);
    }
  }

  /** A request is refused exactly when at least six links were issued to that very email at or after one hour
      before its count, whatever was purged meanwhile. */
  lemma {:induction false} RefusedIff(events: seq<Event>, email: Email, counted: int, issued: int)
    requires WellTimed(events + [Request(email, counted, issued)], HOUR)
    ensures !Decide(Run(EMPTY, events), Request(email, counted, issued)) <==>
      exists links :: |links| >= 6 && LinksTo(Run(EMPTY, events).history, links, email, counted - 3_600_000_000)
    ensures !Decide(Run(EMPTY, events), Request(email, counted, issued)) <==>
      |Since(Issued(events, email), counted - 3_600_000_000)| >= 6
  {
    RunKeepsPurged(events);
    CountsAgree(Run(EMPTY, events), events, Request(email, counted, issued));
    HistoryCounts(events, email, counted - WINDOW);
    RecentAreAll(Run(EMPTY, events).history, email, counted - WINDOW);
  }

  predicate OfAnother(ev: Event, email: Email) {
    ev.Request? && ev.email != email
  }

  /** The trace without the requests of all other emails. */
  function Only(events: seq<Event>, email: Email): (r: seq<Event>)
    ensures forall ev :: ev in r ==> ev in events
  {
    if events == [] then []
    else
      var init, ev := events[..|events| - 1], events[|events| - 1];
      if OfAnother(ev, email) then Only(init, email) else Only(init, email) + [ev]
  }

  /** What the requests of one email are told, in order. */
  function Answers(events: seq<Event>, email: Email): seq<bool> {
    if events == [] then []
    else
      var init, ev := events[..|events| - 1], events[|events| - 1];
      Answers(init, email) + if ev.Request? && ev.email == email then [Decide(Run(EMPTY, init), ev)] else []
  }

  /** A trace is as well timed as its events allow: every request, and every purge against every later request. */
  lemma {:induction false} OnlyIsWellTimed(events: seq<Event>, email: Email, skew: int)
    requires WellTimed(events, skew)
    ensures WellTimed(Only(events, email), skew)
  {
    if events != [] {
      var init, ev := events[..|events| - 1], events[|events| - 1];
      WellTimedPrefix(events, skew);
      OnlyIsWellTimed(init, email, skew);
      var kept := Only(init, email);
      forall i | 0 <= i < |kept| && kept[i].Purge? && ev.Request? ensures kept[i].dbNow <= ev.counted + skew {
        assert kept[i] in init;
        var j :| 0 <= j < |init| && init[j] == kept[i];
        assert events[j] == kept[i];
      }
    }
  }

  lemma {:induction false} AnsweredAlike(events: seq<Event>, only: seq<Event>, ev: Event, email: Email)
    requires WellTimed(events + [ev], HOUR) && WellTimed(only + [ev], HOUR) && ev.Request? && ev.email == email
    requires Issued(events, email) == Issued(only, email)
    ensures Decide(Run(EMPTY, events), ev) == Decide(Run(EMPTY, only), ev)
  {
    RefusedIff(events, email, ev.counted, ev.issued);
    RefusedIff(only, email, ev.counted, ev.issued);
  }

  lemma {:induction false} LastOfThem(events: seq<Event>, ev: Event, email: Email)
    ensures Answers(events + [ev], email) ==
      Answers(events, email) + if ev.Request? && ev.email == email then [Decide(Run(EMPTY, events), ev)] else []
    ensures Issued(events + [ev], email) ==
      Issued(events, email) + if ev.Request? && ev.email == email && Decide(Run(EMPTY, events), ev) then [ev.issued] else []
    ensures Only(events + [ev], email) == if OfAnother(ev, email) then Only(events, email) else Only(events, email) + [ev]
  {
    assert (events + [ev])[..|events|] == events;
  }

  /** Emails do not get in each other's way: a request is answered as if no other email had ever asked. */
  lemma {:induction false} OthersDoNotCount(events: seq<Event>, email: Email)
    requires WellTimed(events, HOUR)
    ensures Answers(events, email) == Answers(Only(events, email), email)
    ensures Issued(events, email) == Issued(Only(events, email), email)
  {
    if events != [] {
      var init, ev := events[..|events| - 1], events[|events| - 1];
      var only := Only(init, email);
      WellTimedPrefix(events, HOUR);
      OthersDoNotCount(init, email);
      LastOfThem(init, ev, email);
      if !OfAnother(ev, email) {
        OnlyIsWellTimed(events, email, HOUR);
        LastOfThem(only, ev, email);
        if ev.Request? {
          AnsweredAlike(init, only, ev, email);
        }
      }
    }
  }

  // ---------------------------------------------------------------- the table

  class RateLimitTable {
    var rows: Entries
    var next: EntryId

    constructor ()
      ensures rows == map[] && next == 0
    {
      rows, next := map[], 0;
    }

    /** SELECT count(*) over the rolling window. */
    method CountRecentRequests(email: Email, now: int) returns (n: nat)
      ensures n == |Recent(rows, email, now - WINDOW)|
      ensures exists links :: LinksTo(rows, links, email, now - 3_600_000_000) && |links| == n
      ensures forall links :: LinksTo(rows, links, email, now - 3_600_000_000) ==> |links| <= n
    {
      n := 0;
      ghost var hits: set<EntryId> := {};
      var unseen := rows.Keys;
      while unseen != {}
        invariant unseen <= rows.Keys && n == |hits|
        invariant hits == Recent(rows, email, now - WINDOW) - unseen
      {
        var id :| id in unseen;
        unseen := unseen - {id};
        if rows[id].email == email && rows[id].at >= now - WINDOW {
          n := n + 1;
          hits := hits + {id};
        }
      }
      RecentAreAll(rows, email, now - WINDOW);
    }

    method RequestMagicLink(email: Email, counted: int, issued: int) returns (admitted: bool)
      modifies this
      ensures admitted == Admits(old(rows), email, counted)
      ensures admitted <==> forall links :: LinksTo(old(rows), links, email, counted - 3_600_000_000) ==> |links| < 6
      ensures admitted ==> rows == old(rows)[old(next) := Entry(email, issued)] && next == old(next) + 1
      ensures !admitted ==> rows == old(rows) && next == old(next)
    {
      var recent := CountRecentRequests(email, counted);
      admitted := recent < LIMIT;
      if admitted {
        rows, next := rows[next := Entry(email, issued)], next + 1;
      }
    }

    /** Deletes in bounded batches until one comes up short. Each batch is its own transaction, so
        the database clock may move on between them. */
    method PurgeRateLimits(dbNow: int, batchSize: nat) returns (total: nat, last: int)
      requires batchSize > 0
      modifies this`rows
      ensures last >= dbNow
      ensures rows == old(rows) - Old(old(rows), last)
      ensures total == |Old(old(rows), last)|
      ensures forall id :: id in old(rows) ==> (id in rows <==> old(rows)[id].at >= last - 7_200_000_000)
    {
      total, last := 0, dbNow;
      ghost var gone: set<EntryId> := {};
      var short := false;
      while !short
        invariant last >= dbNow && total == |gone| && gone <= Old(old(rows), last)
        invariant rows == old(rows) - gone
        invariant short ==> gone == Old(old(rows), last)
        decreases !short, |rows|
      {
        var reading :| reading >= last;
        last := reading;
        var victims := TakeUpTo(Old(rows, last), batchSize);
        OldWithout(old(rows), gone, victims, last);
        rows := rows - victims;
        gone := gone + victims;
        total := total + |victims|;
        short := |victims| < batchSize;
      }
    }
  }

  lemma {:induction false} OldWithout(rows: Entries, gone: set<EntryId>, victims: set<EntryId>, dbNow: int)
    requires gone <= Old(rows, dbNow) && victims <= Old(rows - gone, dbNow)
    ensures Old(rows - gone, dbNow) == Old(rows, dbNow) - gone
    ensures rows - gone - victims == rows - (gone + victims)
    ensures |gone + victims| == |gone| + |victims| && gone + victims <= Old(rows, dbNow)
    ensures victims == Old(rows - gone, dbNow) ==> gone + victims == Old(rows, dbNow)
    ensures victims != {} ==> |rows - gone - victims| < |rows - gone|
  {
    assert gone !! victims;
    if victims != {} {
      var id :| id in victims;
      assert id in (rows - gone).Keys;
      assert (rows - gone - victims).Keys == (rows - gone).Keys - victims;
    }
  }

  method TakeUpTo(s: set<EntryId>, n: nat) returns (part: set<EntryId>)
    ensures part <= s && |part| <= n
    ensures |part| < n ==> part == s
  {
    part := {};
    var rest := s;
    while rest != {} && |part| < n
      invariant part + rest == s && part !! rest && |part| <= n
      decreases rest
    {
      var id :| id in rest;
      part, rest := part + {id}, rest - {id};
    }
  }
}
