/** What a JWT stands for, over every interleaving of claims, and what one claim does when nothing else happens. */
module MagicLinkMints {
  import opened Options
  import opened MagicLinkClaim

  // ---------------------------------------------------------------- every JWT was earned

  /** At that step of the run a claim took the token: it was known, unclaimed and not expired. */
  ghost predicate TookAt(s: World, events: seq<Event>, k: nat, token: Token)
    requires k < |events|
  {
    var at := Run(s, events[..k]);
    && events[k].CompareAndSwap? && events[k].token == token
    && token in at.tokens && !at.tokens[token].claimed && at.now < at.tokens[token].expiresAt
  }

  ghost predicate Took(s: World, events: seq<Event>, token: Token) {
    exists k :: 0 <= k < |events| && TookAt(s, events, k, token)
  }

  ghost predicate LinkOfAt(s: World, events: seq<Event>, k: nat, email: Email, link: LinkId)
    requires k <= |events|
  {
    var links := Run(s, events[..k]).links;
    link in links && links[link].email == email && !links[link].bound
  }

  /** At some point of the run the link was on record, unbound, for the email. */
  ghost predicate WasLinkOf(s: World, events: seq<Event>, email: Email, link: LinkId) {
    exists k :: 0 <= k <= |events| && LinkOfAt(s, events, k, email, link)
  }

  lemma {:induction false} TookOnward(s: World, events: seq<Event>, ev: Event, token: Token)
    requires Took(s, events, token)
    ensures Took(s, events + [ev], token)
  {
    var k :| 0 <= k < |events| && TookAt(s, events, k, token);
    assert (events + [ev])[..k] == events[..k] && (events + [ev])[k] == events[k];
    assert TookAt(s, events + [ev], k, token);
  }

  lemma {:induction false} LinkOnward(s: World, events: seq<Event>, ev: Event, email: Email, link: LinkId)
    requires WasLinkOf(s, events, email, link)
    ensures WasLinkOf(s, events + [ev], email, link)
  {
    var k :| 0 <= k <= |events| && LinkOfAt(s, events, k, email, link);
    assert (events + [ev])[..k] == events[..k];
    assert LinkOfAt(s, events + [ev], k, email, link);
  }

  /** What a claim in flight has behind it. */
  ghost predicate StageEarned(s: World, events: seq<Event>, now: World, c: Claimer) {
    !StageOf(now, c).Idle? ==>
      && StageOf(now, c).token in now.tokens
      && Took(s, events, StageOf(now, c).token)
      && (StageOf(now, c).Saw? ==> WasLinkOf(s, events, EmailAt(now, c), StageOf(now, c).link))
  }

  /** And a JWT. */
  ghost predicate JwtEarned(s: World, events: seq<Event>, now: World, jwt: Jwt) {
    && jwt.token in now.tokens && now.tokens[jwt.token].claimed && now.tokens[jwt.token].email == jwt.email
    && Took(s, events, jwt.token) && WasLinkOf(s, events, jwt.email, jwt.sub)
  }

  lemma {:induction false} TokensStay(s: World, ev: Event)
    ensures s.tokens.Keys <= Step(s, ev).tokens.Keys
    ensures forall t :: t in s.tokens ==>
      Step(s, ev).tokens[t] == s.tokens[t] || Step(s, ev).tokens[t] == s.tokens[t].(claimed := true)
  {
  }

  /** A claim leaves rest only by taking a token that is known, unclaimed and not expired, and keeps it. */
  lemma {:induction false} NewStage(s: World, ev: Event, c: Claimer)
    requires !StageOf(Step(s, ev), c).Idle? && StageOf(Step(s, ev), c) != StageOf(s, c)
    ensures StageOf(s, c).Idle? ==>
      && ev == CompareAndSwap(c, StageOf(Step(s, ev), c).token) && StageOf(Step(s, ev), c).HasToken?
      && ev.token in s.tokens && !s.tokens[ev.token].claimed && s.now < s.tokens[ev.token].expiresAt
    ensures !StageOf(s, c).Idle? ==> StageOf(Step(s, ev), c).token == StageOf(s, c).token
  {
  }

  lemma {:induction false} StageStaysEarned(s: World, events: seq<Event>, ev: Event, c: Claimer)
    requires StageEarned(s, events, Run(s, events), c)
    ensures StageEarned(s, events + [ev], Run(s, events + [ev]), c)
  {
    var now, next := Run(s, events), Step(Run(s, events), ev);
    assert (events + [ev])[..|events|] == events && Run(s, events + [ev]) == next;
    TokensStay(now, ev);
    if !StageOf(next, c).Idle? {
      if StageOf(next, c) != StageOf(now, c) {
        NewStage(now, ev, c);
      }
      var token := StageOf(next, c).token;
      if StageOf(now, c).Idle? {
        assert TookAt(s, events + [ev], |events|, token);
      } else {
        TookOnward(s, events, ev, token);
      }
      if StageOf(next, c).Saw? {
        if StageOf(next, c) == StageOf(now, c) {
          LinkOnward(s, events, ev, EmailAt(now, c), StageOf(now, c).link);
        } else {
          NewlySaw(now, ev, c);
          assert LinkOfAt(s, events + [ev], |events|, EmailAt(next, c), StageOf(next, c).link);
        }
      }
    }
  }

  /** A step mints at most one JWT, for a claim that commits: for its token, the email of the token and the link
      it saw or inserted. */
  lemma {:induction false} MintsTell(s: World, ev: Event)
    requires TokensSound(s)
    ensures Step(s, ev).jwts == s.jwts || (
      && ev.Commit? && (StageOf(s, ev.c).Saw? || StageOf(s, ev.c).Inserted?)
      && StageOf(s, ev.c).token in s.tokens
      && Step(s, ev).jwts == s.jwts + [Jwt(StageOf(s, ev.c).token, s.tokens[StageOf(s, ev.c).token].email, StageOf(s, ev.c).link)]
      && Step(s, ev).tokens[StageOf(s, ev.c).token].claimed
      && (StageOf(s, ev.c).Inserted? ==> Step(s, ev).links == s.links[StageOf(s, ev.c).link := StageOf(s, ev.c).row]))
  {
  }

  lemma {:induction false} NewJwtIsEarned(s: World, events: seq<Event>, ev: Event)
    requires Initial(s) && ev.Commit? && |Step(Run(s, events), ev).jwts| > |Run(s, events).jwts|
    requires StageEarned(s, events, Run(s, events), ev.c)
    ensures JwtEarned(s, events + [ev], Step(Run(s, events), ev), Step(Run(s, events), ev).jwts[|Run(s, events).jwts|])
  {
    var now, next := Run(s, events), Step(Run(s, events), ev);
    RunKeepsAll(s, events);
    MintsTell(now, ev);
    TokensStay(now, ev);
    TookOnward(s, events, ev, StageOf(now, ev.c).token);
    if StageOf(now, ev.c).Saw? {
      LinkOnward(s, events, ev, EmailAt(now, ev.c), StageOf(now, ev.c).link);
    } else {
      assert RowFits(now, ev.c);
      assert (events + [ev])[..|events + [ev]|] == events + [ev] && (events + [ev])[..|events|] == events;
      assert LinkOfAt(s, events + [ev], |events| + 1, EmailAt(now, ev.c), StageOf(now, ev.c).link);
    }
  }

  lemma {:induction false} StagesAreEarned(s: World, events: seq<Event>, c: Claimer)
    requires Initial(s)
    ensures StageEarned(s, events, Run(s, events), c)
  {
    if events != [] {
      var init, ev := events[..|events| - 1], events[|events| - 1];
      StagesAreEarned(s, init, c);
      StageStaysEarned(s, init, ev, c);
      assert events == init + [ev];
    }
  }

  /** Over every interleaving: each JWT is for the email its token was issued to, the token was taken while it was
      unclaimed and not expired, and the subject was an unbound link of that very email. */
  lemma {:induction false} EveryJwtWasEarned(s: World, events: seq<Event>, i: nat)
    requires Initial(s) && i < |Run(s, events).jwts|
    ensures JwtEarned(s, events, Run(s, events), Run(s, events).jwts[i])
  {
    var init, ev := events[..|events| - 1], events[|events| - 1];
    var now := Run(s, init);
    assert events == init + [ev];
    RunKeepsAll(s, init);
    MintsTell(now, ev);
    TokensStay(now, ev);
    if i < |now.jwts| {
      var jwt := now.jwts[i];
      EveryJwtWasEarned(s, init, i);
      TookOnward(s, init, ev, jwt.token);
      LinkOnward(s, init, ev, jwt.email, jwt.sub);
    } else {
      StagesAreEarned(s, init, ev.c);
      NewJwtIsEarned(s, init, ev);
    }
  }

  // ---------------------------------------------------------------- who waits for whom

  /** A claim waits only for another one on its own token, and an insert only for another one for its own email. */
  lemma {:induction false} WaitsOnlyForItsOwn(s: World, c: Claimer, token: Token, linkedAt: int)
    ensures StageOf(s, c).Idle? ==> (Enabled(s, CompareAndSwap(c, token)) <==>
      forall d :: !StageOf(s, d).Idle? ==> StageOf(s, d).token != token)
    ensures StageOf(s, c).SawNone? ==> (Enabled(s, InsertLink(c, linkedAt)) <==>
      forall d :: StageOf(s, d).Inserted? ==> StageOf(s, d).row.email != EmailAt(s, c))
    ensures StageOf(s, c).Saw? || StageOf(s, c).Inserted? ==> Enabled(s, Commit(c))
  {
    assert forall d :: !StageOf(s, d).Idle? ==> d in s.claims;
    assert forall d :: d in s.claims ==> s.claims[d] == StageOf(s, d);
  }

  /** An insert that does not wait fails, and with it the claim, exactly when the email has a magic link. */
  lemma {:induction false} InsertFailsIff(s: World, c: Claimer, linkedAt: int)
    requires StageOf(s, c).SawNone? && Enabled(s, InsertLink(c, linkedAt))
    ensures StageOf(Step(s, InsertLink(c, linkedAt)), c).Idle? <==>
      exists id :: id in s.links && s.links[id].email == EmailAt(s, c) && s.links[id].magic
  {
  }

  /** A failure at any point leaves nothing behind: the token can be claimed again. */
  lemma {:induction false} AbortUndoes(s: World, c: Claimer)
    ensures var s' := Step(s, Abort(c));
      && StageOf(s', c).Idle? && s'.tokens == s.tokens && s'.links == s.links && s'.jwts == s.jwts && s'.next == s.next
      && forall d :: d != c ==> StageOf(s', d) == StageOf(s, d)
  {
  }

  /** A hard delete takes the magic link of the email and the bound link of the contact, and no other. */
  lemma {:induction false} HardDeleteTakes(s: World, email: Email, bound: Option<LinkId>, id: LinkId)
    ensures var s' := Step(s, Unlink(email, bound));
      && (id in s'.links <==> id in s.links && !(s.links[id].magic && s.links[id].email == email)
                              && !(bound == Some(id) && s.links[id].bound))
      && (id in s'.links ==> s'.links[id] == s.links[id])
      && s'.tokens == s.tokens && s'.jwts == s.jwts && s'.claims == s.claims
  {
  }

  /** What it means for the stable subject that a step takes a link of an email away. */
  lemma {:induction false} TouchesIff(s: World, ev: Event, email: Email)
    ensures Touches(s, ev, email) <==> exists id :: id in s.links && id !in Step(s, ev).links && s.links[id].email == email
  {
    if ev.Unlink? {
      UnlinkOnlyTakes(s, ev);
    }
    if id :| id in s.links && id !in Step(s, ev).links && s.links[id].email == email {
      assert id in Purged(s.links, ev.email, ev.bound);
    }
  }

  // ---------------------------------------------------------------- one claim by itself

  /** The steps of one claim, one after the other; those its branch does not take are not enabled. */
  function ClaimAlone(c: Claimer, token: Token, found: Option<LinkId>, at: int): seq<Event> {
    [CompareAndSwap(c, token), ReadLink(c, found), InsertLink(c, at), Commit(c)]
  }

  /** The claims are at rest and these are the tables. */
  ghost predicate AtRest(s: World, s': World, tokens: map<Token, TokenRow>, links: map<LinkId, Link>, jwts: seq<Jwt>, next: LinkId) {
    && (forall d :: StageOf(s', d).Idle?)
    && s'.now == s.now && s'.tokens == tokens && s'.links == links && s'.jwts == jwts && s'.next == next
  }

  predicate Valid(s: World, token: Token) {
    token in s.tokens && !s.tokens[token].claimed && s.now < s.tokens[token].expiresAt
  }

  lemma {:induction false} InvalidTokenDoesNothing(s: World, c: Claimer, token: Token, found: Option<LinkId>, at: int)
    requires (forall d :: StageOf(s, d).Idle?) && !Valid(s, token)
    ensures Run(s, ClaimAlone(c, token, found, at)) == s
  {
    RunFour(s, CompareAndSwap(c, token), ReadLink(c, found), InsertLink(c, at), Commit(c));
  }

  lemma {:induction false} TakenAlone(s: World, c: Claimer, token: Token)
    requires (forall d :: StageOf(s, d).Idle?) && Valid(s, token)
    ensures Step(s, CompareAndSwap(c, token)) == WithStage(s, c, HasToken(token))
  {
    WaitsOnlyForItsOwn(s, c, token, 0);
  }

  lemma {:induction false} StagesAfter(s: World, c: Claimer, stage: Stage)
    ensures forall d :: StageOf(WithStage(s, c, stage), d) == if d == c then stage else StageOf(s, d)
  {
  }

  /** Only this claim is under way. */
  ghost predicate Only(s: World, s': World, c: Claimer, stage: Stage) {
    && StageOf(s', c) == stage && (forall d :: d != c ==> StageOf(s', d).Idle?)
    && s'.now == s.now && s'.tokens == s.tokens && s'.links == s.links && s'.jwts == s.jwts
  }

  lemma {:induction false} CommitAlone(s: World, s': World, c: Claimer, stage: Stage)
    requires Only(s, s', c, stage) && (stage.Saw? || stage.Inserted?) && stage.token in s.tokens
    ensures var token := stage.token;
      AtRest(s, Step(s', Commit(c)), s.tokens[token := s.tokens[token].(claimed := true)],
             if stage.Saw? then s.links else s.links[stage.link := stage.row],
             s.jwts + [Jwt(token, s.tokens[token].email, stage.link)], s'.next)
  {
    StagesAfter(s', c, Idle);
    OthersKeepTheirStage(s', Commit(c));
  }

  lemma {:induction false} FoundAlone(s: World, c: Claimer, token: Token, link: LinkId, at: int)
    requires (forall d :: StageOf(s, d).Idle?) && Valid(s, token) && IsOldest(s.links, s.tokens[token].email, link)
    ensures var s' := Run(s, ClaimAlone(c, token, Some(link), at));
      if s.links[link].bound then AtRest(s, s', s.tokens, s.links, s.jwts, s.next)
      else AtRest(s, s', s.tokens[token := s.tokens[token].(claimed := true)], s.links,
                  s.jwts + [Jwt(token, s.tokens[token].email, link)], s.next)
  {
    RunFour(s, CompareAndSwap(c, token), ReadLink(c, Some(link)), InsertLink(c, at), Commit(c));
    TakenAlone(s, c, token);
    var s1 := WithStage(s, c, HasToken(token));
    var s2 := Step(s1, ReadLink(c, Some(link)));
    assert s2 == WithStage(s1, c, if s.links[link].bound then Idle else Saw(token, link));
    StagesAfter(s, c, HasToken(token));
    StagesAfter(s1, c, if s.links[link].bound then Idle else Saw(token, link));
    assert Step(s2, InsertLink(c, at)) == s2;
    if s.links[link].bound {
      assert Step(s2, Commit(c)) == s2;
    } else {
      CommitAlone(s, s2, c, Saw(token, link));
    }
  }

  lemma {:induction false} FlushAlone(s: World, s': World, c: Claimer, token: Token, at: int)
    requires Only(s, s', c, SawNone(token)) && token in s.tokens && s'.next == s.next
    requires forall id :: id in s.links ==> s.links[id].email != s.tokens[token].email
    ensures var row := Link(s.tokens[token].email, true, false, at);
      Only(s, Step(s', InsertLink(c, at)), c, Inserted(token, s.next, row)) && Step(s', InsertLink(c, at)).next == s.next + 1
  {
    WaitsOnlyForItsOwn(s', c, token, at);
    InsertFailsIff(s', c, at);
    OthersKeepTheirStage(s', InsertLink(c, at));
  }

  lemma {:induction false} InsertedAlone(s: World, c: Claimer, token: Token, at: int)
    requires (forall d :: StageOf(s, d).Idle?) && Valid(s, token)
    requires forall id :: id in s.links ==> s.links[id].email != s.tokens[token].email
    ensures var s', email := Run(s, ClaimAlone(c, token, None, at)), s.tokens[token].email;
      AtRest(s, s', s.tokens[token := s.tokens[token].(claimed := true)], s.links[s.next := Link(email, true, false, at)],
             s.jwts + [Jwt(token, email, s.next)], s.next + 1)
  {
    RunFour(s, CompareAndSwap(c, token), ReadLink(c, None), InsertLink(c, at), Commit(c));
    TakenAlone(s, c, token);
    var s1 := WithStage(s, c, HasToken(token));
    var s2 := Step(s1, ReadLink(c, None));
    assert s2 == WithStage(s1, c, SawNone(token));
    StagesAfter(s, c, HasToken(token));
    StagesAfter(s1, c, SawNone(token));
    FlushAlone(s, s2, c, token, at);
    CommitAlone(s, Step(s2, InsertLink(c, at)), c, Inserted(token, s.next, Link(s.tokens[token].email, true, false, at)));
  }

  /** By itself a claim mints exactly when its token is known, unclaimed and not expired and the oldest link of the
      email, if there is one, is not bound to another identity. Then the JWT names that link, or a new one; and
      otherwise no table changes. */
  lemma {:induction false} ClaimAloneMintsIff(s: World, c: Claimer, token: Token, found: Option<LinkId>, at: int)
    requires forall d :: StageOf(s, d).Idle?
    requires MayRead(s.links, EmailOf(s, token), found)
    ensures var s' := Run(s, ClaimAlone(c, token, found, at));
      if Valid(s, token) && (found.Some? ==> !s.links[found.value].bound) then
        var email, sub := s.tokens[token].email, if found.Some? then found.value else s.next;
        AtRest(s, s', s.tokens[token := s.tokens[token].(claimed := true)],
               if found.Some? then s.links else s.links[s.next := Link(email, true, false, at)],
               s.jwts + [Jwt(token, email, sub)], if found.Some? then s.next else s.next + 1)
      else AtRest(s, s', s.tokens, s.links, s.jwts, s.next)
  {
    if !Valid(s, token) {
      InvalidTokenDoesNothing(s, c, token, found, at);
    } else if found.Some? {
      FoundAlone(s, c, token, found.value, at);
    } else {
      InsertedAlone(s, c, token, at);
    }
  }
}
