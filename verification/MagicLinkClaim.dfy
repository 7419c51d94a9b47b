/** Concurrent claims of magic links. Each claim is a transaction: it wins the token row by a
    compare-and-swap, reads the identity link of the email, inserts one if it saw none, and
    commits; any failure rolls back the token claim as well. Other transactions see only what is
    committed; row locks and the unique index make the loser of a race wait, then fail.
    A step that is not enabled does nothing, so a run is any sequence of steps whatever. */
module MagicLinkClaim {
  import opened Options

  type Token = nat      // token_hash
  type LinkId = nat
  type Claimer = nat
  type Email = string

  datatype TokenRow = TokenRow(email: Email, expiresAt: int, claimed: bool)

  /** magic: idp_name = 'magic_link'; bound: b2c_subject_id is set. */
  datatype Link = Link(email: Email, magic: bool, bound: bool, linkedAt: int)

  datatype Stage =
    | Idle
    | HasToken(token: Token)                    // compare-and-swap won, not expired
    | SawNone(token: Token)                     // no link for the email: about to insert
    | Saw(token: Token, link: LinkId)           // existing unbound link: about to commit
    | Inserted(token: Token, link: LinkId, row: Link)  // flushed, not committed

  datatype Jwt = Jwt(token: Token, email: Email, sub: LinkId)

  datatype World = World(
    now: int, tokens: map<Token, TokenRow>, links: map<LinkId, Link>,
    claims: map<Claimer, Stage>, jwts: seq<Jwt>, next: LinkId)

  datatype Event =
    | Tick(elapsed: nat)
    | Issue(token: Token, email: Email, expiresAt: int)
    | BindB2c(email: Email, linkedAt: int)       // another identity provider links the email
    | Unlink(email: Email, bound: Option<LinkId>)  // a contact is deleted for good, with its own bound link
    | CompareAndSwap(c: Claimer, token: Token)
    | ReadLink(c: Claimer, found: Option<LinkId>)
    | InsertLink(c: Claimer, linkedAt: int)      // linked_at is the transaction's start time
    | Commit(c: Claimer)
    | Abort(c: Claimer)                          // any failure, at any point

  function StageOf(s: World, c: Claimer): Stage {
    if c in s.claims then s.claims[c] else Idle
  }

  predicate Locked(s: World, token: Token) {
    exists c :: c in s.claims && !s.claims[c].Idle? && s.claims[c].token == token
  }

  function EmailOf(s: World, token: Token): Email {
    if token in s.tokens then s.tokens[token].email else ""
  }

  /** ORDER BY linked_at LIMIT 1 over the committed links of an email. */
  predicate IsOldest(links: map<LinkId, Link>, email: Email, id: LinkId) {
    && id in links && links[id].email == email
    && forall other :: other in links && links[other].email == email ==> links[id].linkedAt <= links[other].linkedAt
  }

  predicate MayRead(links: map<LinkId, Link>, email: Email, found: Option<LinkId>) {
    match found
    case None => forall id :: id in links ==> links[id].email != email
    case Some(id) => IsOldest(links, email, id)
  }

  /** The committed rows refuse a second magic link for an email. */
  predicate Taken(links: map<LinkId, Link>, email: Email) {
    exists id :: id in links && links[id].email == email && links[id].magic
  }

  /** Another transaction has inserted one and not finished: the insert waits for it. */
  predicate Blocked(s: World, email: Email) {
    exists c :: c in s.claims && s.claims[c].Inserted? && s.claims[c].row.email == email
  }

  predicate Enabled(s: World, ev: Event) {
    match ev
    case Tick(_) => true
    case Issue(token, _, _) => token !in s.tokens
    case BindB2c(_, _) => true
    case Unlink(_, _) => true
    case CompareAndSwap(c, token) => StageOf(s, c).Idle? && !Locked(s, token)
    case ReadLink(c, found) =>
      StageOf(s, c).HasToken? && MayRead(s.links, EmailOf(s, StageOf(s, c).token), found)
    case InsertLink(c, _) => StageOf(s, c).SawNone? && !Blocked(s, EmailOf(s, StageOf(s, c).token))
    case Commit(c) => StageOf(s, c).Saw? || StageOf(s, c).Inserted?
    case Abort(c) => true
  }

  /** What a hard delete takes: the magic link of the email, and the link of the contact's b2c subject. */
  function Purged(links: map<LinkId, Link>, email: Email, bound: Option<LinkId>): set<LinkId> {
    set id | id in links && ((links[id].email == email && links[id].magic) || (bound == Some(id) && links[id].bound))
  }

  function WithStage(s: World, c: Claimer, stage: Stage): World {
    s.(claims := s.claims[c := stage])
  }

  function Minted(s: World, token: Token, sub: LinkId): World
    requires token in s.tokens
  {
    s.(tokens := s.tokens[token := s.tokens[token].(claimed := true)],
       jwts := s.jwts + [Jwt(token, s.tokens[token].email, sub)])
  }

  function Step(s: World, ev: Event): World {
    if !Enabled(s, ev) then s
    else
      match ev
      case Tick(elapsed) => s.(now := s.now + elapsed)
      case Issue(token, email, expiresAt) => s.(tokens := s.tokens[token := TokenRow(email, expiresAt, false)])
      case BindB2c(email, linkedAt) => s.(links := s.links[s.next := Link(email, false, true, linkedAt)], next := s.next + 1)
      case Unlink(email, bound) => s.(links := s.links - Purged(s.links, email, bound))
      case CompareAndSwap(c, token) =>
        // unknown, already claimed or expired tokens raise, and the transaction rolls back
        if token in s.tokens && !s.tokens[token].claimed && s.now < s.tokens[token].expiresAt
        then WithStage(s, c, HasToken(token)) else s
      case ReadLink(c, found) =>
        var token := StageOf(s, c).token;
        (match found
         case None => WithStage(s, c, SawNone(token))
         case Some(id) => WithStage(s, c, if s.links[id].bound then Idle else Saw(token, id)))
      case InsertLink(c, linkedAt) =>
        var token := StageOf(s, c).token;
        if Taken(s.links, EmailOf(s, token)) then WithStage(s, c, Idle)
        else WithStage(s, c, Inserted(token, s.next, Link(EmailOf(s, token), true, false, linkedAt))).(next := s.next + 1)
      case Commit(c) =>
        var stage := StageOf(s, c);
        if stage.token !in s.tokens then s
        else if stage.Saw? then Minted(WithStage(s, c, Idle), stage.token, stage.link)
        else Minted(WithStage(s, c, Idle), stage.token, stage.link).(links := s.links[stage.link := stage.row])
      case Abort(c) => WithStage(s, c, Idle)
  }

  function Run(s: World, events: seq<Event>): World {
    if events == [] then s else Step(Run(s, events[..|events| - 1]), events[|events| - 1])
  }

  // ---------------------------------------------------------------- what every run keeps

  /** Before any claim: the unique indexes hold; other rows may be whatever history left. */
  ghost predicate Initial(s: World) {
    && s.claims == map[] && s.jwts == [] && LinksSound(s)
  }

  ghost predicate LinksSound(s: World) {
    && (forall id :: id in s.links ==> id < s.next && !(s.links[id].magic && s.links[id].bound))
    && (forall a, b :: a in s.links && b in s.links && s.links[a].magic && s.links[b].magic && s.links[a].email == s.links[b].email ==> a == b)
  }

  /** A link that no sign-in can tell from another: both are unbound and equally the oldest. */
  ghost predicate Ambiguous(links: map<LinkId, Link>, email: Email) {
    exists a, b :: a != b && IsOldest(links, email, a) && IsOldest(links, email, b) && !links[a].bound && !links[b].bound
  }

  /** Every claim in flight holds its own unclaimed token; every JWT used one up. */
  ghost predicate TokensSound(s: World) {
    TokensHeld(s) && TokensUsed(s)
  }

  ghost predicate TokensHeld(s: World) {
    && (forall c :: !StageOf(s, c).Idle? ==> StageOf(s, c).token in s.tokens && !s.tokens[StageOf(s, c).token].claimed)
    && (forall c, d :: !StageOf(s, c).Idle? && !StageOf(s, d).Idle? && StageOf(s, c).token == StageOf(s, d).token ==> c == d)
  }

  ghost predicate TokensUsed(s: World) {
    && (forall i :: 0 <= i < |s.jwts| ==> s.jwts[i].token in s.tokens && s.tokens[s.jwts[i].token].claimed)
    && (forall i, j :: 0 <= i < j < |s.jwts| ==> s.jwts[i].token != s.jwts[j].token)
  }

  predicate Inserting(stage: Stage) {
    stage.SawNone? || stage.Inserted?
  }

  function EmailAt(s: World, c: Claimer): Email
    requires !StageOf(s, c).Idle?
  {
    EmailOf(s, StageOf(s, c).token)
  }

  /** A claim that saw no link has no unbound rival except, before its flush, a magic link that
      will make it fail. */
  ghost predicate NoRivals(s: World) {
    forall c, id :: Inserting(StageOf(s, c)) && id in s.links && s.links[id].email == EmailAt(s, c) && !s.links[id].bound ==>
      s.links[id].magic && StageOf(s, c).SawNone?
  }

  /** The flushed row is a magic link for the claim's email under an id of its own. */
  ghost predicate RowFits(s: World, c: Claimer)
    requires StageOf(s, c).Inserted?
  {
    && StageOf(s, c).link < s.next && StageOf(s, c).link !in s.links
    && StageOf(s, c).row.magic && !StageOf(s, c).row.bound && StageOf(s, c).row.email == EmailAt(s, c)
  }

  ghost predicate RowsFit(s: World) {
    && (forall c :: StageOf(s, c).Inserted? ==> RowFits(s, c))
    && (forall c, d :: StageOf(s, c).Inserted? && StageOf(s, d).Inserted? && c != d ==> StageOf(s, c).link != StageOf(s, d).link)
  }

  ghost predicate OnePerEmail(s: World) {
    forall c, d :: StageOf(s, c).Inserted? && StageOf(s, d).Inserted? && c != d ==> StageOf(s, c).row.email != StageOf(s, d).row.email
  }

  ghost predicate InsertsSound(s: World) {
    NoRivals(s) && RowsFit(s) && OnePerEmail(s)
  }

  /** The unbound link of an email that is strictly older than its other unbound links. */
  ghost predicate IsAnchor(links: map<LinkId, Link>, email: Email, id: LinkId) {
    && id in links && links[id].email == email && !links[id].bound
    && forall other :: other in links && links[other].email == email && !links[other].bound && other != id ==>
         links[id].linkedAt < links[other].linkedAt
  }

  /** Whoever signs in with the email, or has, gets one and the same link. */
  ghost predicate SubjectsSound(s: World, email: Email) {
    && !Ambiguous(s.links, email)
    && (forall c :: StageOf(s, c).Saw? && EmailAt(s, c) == email ==> IsAnchor(s.links, email, StageOf(s, c).link))
    && (forall i :: 0 <= i < |s.jwts| && s.jwts[i].email == email ==> IsAnchor(s.links, email, s.jwts[i].sub))
  }

  /** The step takes a link of this email away. */
  predicate Touches(s: World, ev: Event, email: Email) {
    ev.Unlink? && exists id :: id in Purged(s.links, ev.email, ev.bound) && s.links[id].email == email
  }

  lemma {:induction false} OthersKeepTheirStage(s: World, ev: Event)
    ensures forall c :: (ev.Tick? || ev.Issue? || ev.BindB2c? || ev.Unlink? || c != ev.c) ==> StageOf(Step(s, ev), c) == StageOf(s, c)
  {
  }

  lemma {:induction false} StepKeepsHeld(s: World, ev: Event)
    requires TokensHeld(s)
    ensures TokensHeld(Step(s, ev))
  {
    OthersKeepTheirStage(s, ev);
  }

  lemma {:induction false} StepKeepsUsed(s: World, ev: Event)
    requires TokensSound(s)
    ensures TokensUsed(Step(s, ev))
  {
  }

  lemma {:induction false} StepKeepsTokens(s: World, ev: Event)
    requires TokensSound(s)
    ensures TokensSound(Step(s, ev))
  {
    StepKeepsHeld(s, ev);
    StepKeepsUsed(s, ev);
  }

  lemma {:induction false} EmailsStayAt(s: World, ev: Event)
    requires TokensSound(s)
    ensures forall c :: !StageOf(s, c).Idle? ==> EmailOf(Step(s, ev), StageOf(s, c).token) == EmailAt(s, c)
  {
  }

  /** How a step can add a committed link: a bound one, or the row of a committing insert. */
  lemma {:induction false} LinksOnlyGrow(s: World, ev: Event)
    requires LinksSound(s) && RowsFit(s) && !ev.Unlink?
    ensures forall id :: id in s.links ==> id in Step(s, ev).links && Step(s, ev).links[id] == s.links[id]
    ensures forall id :: id in Step(s, ev).links && id !in s.links ==>
      Step(s, ev).links[id].bound ||
      (ev.Commit? && StageOf(s, ev.c).Inserted? && id == StageOf(s, ev.c).link && Step(s, ev).links[id] == StageOf(s, ev.c).row)
    ensures s.next <= Step(s, ev).next
  {
  }

  lemma {:induction false} UnlinkOnlyTakes(s: World, ev: Event)
    requires ev.Unlink?
    ensures forall id :: id in Step(s, ev).links <==> id in s.links && id !in Purged(s.links, ev.email, ev.bound)
    ensures forall id :: id in Step(s, ev).links ==> Step(s, ev).links[id] == s.links[id]
    ensures Step(s, ev).claims == s.claims && Step(s, ev).jwts == s.jwts && Step(s, ev).next == s.next
  {
  }

  lemma {:induction false} StepKeepsLinks(s: World, ev: Event)
    requires TokensSound(s) && LinksSound(s) && InsertsSound(s)
    ensures LinksSound(Step(s, ev))
  {
    if ev.Unlink? {
      UnlinkOnlyTakes(s, ev);
    } else {
      LinksOnlyGrow(s, ev);
    }
  }

  /** A flush is the only step that adds a flushed row. */
  lemma {:induction false} NewRowFits(s: World, ev: Event, c: Claimer)
    requires TokensSound(s) && LinksSound(s)
    requires StageOf(Step(s, ev), c).Inserted? && StageOf(Step(s, ev), c) != StageOf(s, c)
    ensures RowFits(Step(s, ev), c)
    ensures ev.InsertLink? && ev.c == c && StageOf(Step(s, ev), c).link == s.next
  {
  }

  lemma {:induction false} OldRowFits(s: World, ev: Event, c: Claimer)
    requires TokensSound(s) && LinksSound(s) && RowsFit(s)
    requires StageOf(s, c).Inserted? && StageOf(Step(s, ev), c) == StageOf(s, c)
    ensures RowFits(Step(s, ev), c)
  {
    EmailsStayAt(s, ev);
  }

  lemma {:induction false} StepKeepsRows(s: World, ev: Event)
    requires TokensSound(s) && LinksSound(s) && InsertsSound(s)
    ensures RowsFit(Step(s, ev))
  {
    var s' := Step(s, ev);
    forall c | StageOf(s', c).Inserted?
      ensures RowFits(s', c)
      ensures StageOf(s', c) == StageOf(s, c) || (ev.InsertLink? && ev.c == c && StageOf(s', c).link == s.next)
    {
      if StageOf(s', c) == StageOf(s, c) {
        OldRowFits(s, ev, c);
      } else {
        NewRowFits(s, ev, c);
      }
    }
    assert forall c :: StageOf(s, c).Inserted? ==> RowFits(s, c);
  }

  lemma {:induction false} StepKeepsOnePerEmail(s: World, ev: Event)
    requires TokensSound(s) && LinksSound(s) && InsertsSound(s)
    ensures OnePerEmail(Step(s, ev))
  {
    OthersKeepTheirStage(s, ev);
  }

  lemma {:induction false} StepKeepsNoRivals(s: World, ev: Event)
    requires TokensSound(s) && LinksSound(s) && InsertsSound(s)
    ensures NoRivals(Step(s, ev))
  {
    OthersKeepTheirStage(s, ev);
    EmailsStayAt(s, ev);
    if ev.Unlink? {
      UnlinkOnlyTakes(s, ev);
    } else {
      LinksOnlyGrow(s, ev);
    }
    var s' := Step(s, ev);
    forall c, id | Inserting(StageOf(s', c)) && id in s'.links && s'.links[id].email == EmailAt(s', c) && !s'.links[id].bound
      ensures s'.links[id].magic && StageOf(s', c).SawNone?
    {
      if StageOf(s', c) == StageOf(s, c) {
        if id in s.links {
          assert s.links[id].magic;
        }
      }
    }
  }

  lemma {:induction false} AnchorIsUnique(links: map<LinkId, Link>, email: Email, a: LinkId, b: LinkId)
    requires IsAnchor(links, email, a) && IsAnchor(links, email, b)
    ensures a == b
  {
  }

  /** What a sign-in reads as the oldest link is the anchor, unless it is ambiguous. */
  lemma {:induction false} OldestIsAnchor(links: map<LinkId, Link>, email: Email, id: LinkId)
    requires IsOldest(links, email, id) && !links[id].bound && !Ambiguous(links, email)
    ensures IsAnchor(links, email, id)
  {
  }

  /** An unbound link is only ever added for an email that has none. */
  lemma {:induction false} NewUnboundLinkIsAlone(s: World, ev: Event, id: LinkId, other: LinkId)
    requires TokensSound(s) && LinksSound(s) && InsertsSound(s)
    requires id in Step(s, ev).links && id !in s.links && !Step(s, ev).links[id].bound
    requires other in Step(s, ev).links && !Step(s, ev).links[other].bound && Step(s, ev).links[other].email == Step(s, ev).links[id].email
    ensures other == id
  {
  }

  lemma {:induction false} AnchorsStay(s: World, ev: Event, email: Email, id: LinkId)
    requires TokensSound(s) && LinksSound(s) && InsertsSound(s) && IsAnchor(s.links, email, id)
    requires !(ev.Unlink? && id in Purged(s.links, ev.email, ev.bound))
    ensures IsAnchor(Step(s, ev).links, email, id)
  {
    if ev.Unlink? {
      UnlinkOnlyTakes(s, ev);
    }
  }

  lemma {:induction false} UntouchedLinks(s: World, ev: Event, email: Email, id: LinkId)
    requires ev.Unlink? && !Touches(s, ev, email) && id in s.links && s.links[id].email == email
    ensures id in Step(s, ev).links && id !in Purged(s.links, ev.email, ev.bound)
  {
  }

  lemma {:induction false} UnlinkCreatesNoAmbiguity(s: World, ev: Event, email: Email)
    requires ev.Unlink? && !Touches(s, ev, email) && Ambiguous(Step(s, ev).links, email)
    ensures Ambiguous(s.links, email)
  {
    var links := Step(s, ev).links;
    UnlinkOnlyTakes(s, ev);
    var a, b :| a != b && IsOldest(links, email, a) && IsOldest(links, email, b) && !links[a].bound && !links[b].bound;
    forall other | other in s.links && s.links[other].email == email ensures other in links {
      UntouchedLinks(s, ev, email, other);
    }
    assert IsOldest(s.links, email, a) && IsOldest(s.links, email, b);
  }

  lemma {:induction false} AmbiguityIsNotCreated(s: World, ev: Event, email: Email)
    requires TokensSound(s) && LinksSound(s) && InsertsSound(s) && !Touches(s, ev, email)
    requires Ambiguous(Step(s, ev).links, email)
    ensures Ambiguous(s.links, email)
  {
    if ev.Unlink? {
      UnlinkCreatesNoAmbiguity(s, ev, email);
    } else {
      var links := Step(s, ev).links;
      LinksOnlyGrow(s, ev);
      var a, b :| a != b && IsOldest(links, email, a) && IsOldest(links, email, b) && !links[a].bound && !links[b].bound;
      if a !in s.links {
        NewUnboundLinkIsAlone(s, ev, a, b);
      }
      if b !in s.links {
        NewUnboundLinkIsAlone(s, ev, b, a);
      }
      assert IsOldest(s.links, email, a) && IsOldest(s.links, email, b);
    }
  }

  lemma {:induction false} UntouchedAnchorStays(s: World, ev: Event, email: Email, id: LinkId)
    requires TokensSound(s) && LinksSound(s) && InsertsSound(s) && IsAnchor(s.links, email, id) && !Touches(s, ev, email)
    ensures IsAnchor(Step(s, ev).links, email, id)
  {
    if ev.Unlink? {
      UntouchedLinks(s, ev, email, id);
    }
    AnchorsStay(s, ev, email, id);
  }

  lemma {:induction false} NewlySaw(s: World, ev: Event, c: Claimer)
    requires StageOf(Step(s, ev), c).Saw? && StageOf(Step(s, ev), c) != StageOf(s, c)
    ensures ev.ReadLink? && IsOldest(s.links, EmailOf(s, StageOf(Step(s, ev), c).token), StageOf(Step(s, ev), c).link)
    ensures !s.links[StageOf(Step(s, ev), c).link].bound && Step(s, ev).links == s.links && Step(s, ev).tokens == s.tokens
  {
  }

  lemma {:induction false} SawIsAnchored(s: World, ev: Event, email: Email, c: Claimer)
    requires TokensSound(s) && LinksSound(s) && InsertsSound(s) && SubjectsSound(s, email) && !Touches(s, ev, email)
    requires StageOf(Step(s, ev), c).Saw? && EmailAt(Step(s, ev), c) == email
    ensures IsAnchor(Step(s, ev).links, email, StageOf(Step(s, ev), c).link)
  {
    EmailsStayAt(s, ev);
    if StageOf(Step(s, ev), c) == StageOf(s, c) {
      UntouchedAnchorStays(s, ev, email, StageOf(s, c).link);
    } else {
      NewlySaw(s, ev, c);
      OldestIsAnchor(s.links, email, StageOf(Step(s, ev), c).link);
    }
  }

  lemma {:induction false} JwtsAreAnchored(s: World, ev: Event, email: Email, i: nat)
    requires TokensSound(s) && LinksSound(s) && InsertsSound(s) && SubjectsSound(s, email) && !Touches(s, ev, email)
    requires i < |Step(s, ev).jwts| && Step(s, ev).jwts[i].email == email
    ensures IsAnchor(Step(s, ev).links, email, Step(s, ev).jwts[i].sub)
  {
    if i < |s.jwts| {
      UntouchedAnchorStays(s, ev, email, s.jwts[i].sub);
    } else {
      CommitMintsTheAnchor(s, ev, email);
    }
  }

  lemma {:induction false} StepKeepsSubjects(s: World, ev: Event, email: Email)
    requires TokensSound(s) && LinksSound(s) && InsertsSound(s) && SubjectsSound(s, email) && !Touches(s, ev, email)
    ensures SubjectsSound(Step(s, ev), email)
  {
    var s' := Step(s, ev);
    if Ambiguous(s'.links, email) {
      AmbiguityIsNotCreated(s, ev, email);
    }
    forall c | StageOf(s', c).Saw? && EmailAt(s', c) == email ensures IsAnchor(s'.links, email, StageOf(s', c).link) {
      SawIsAnchored(s, ev, email, c);
    }
    forall i | 0 <= i < |s'.jwts| && s'.jwts[i].email == email ensures IsAnchor(s'.links, email, s'.jwts[i].sub) {
      JwtsAreAnchored(s, ev, email, i);
    }
  }

  lemma {:induction false} CommitMintsTheAnchor(s: World, ev: Event, email: Email)
    requires TokensSound(s) && LinksSound(s) && InsertsSound(s) && SubjectsSound(s, email)
    requires |Step(s, ev).jwts| > |s.jwts| && Step(s, ev).jwts[|s.jwts|].email == email
    ensures IsAnchor(Step(s, ev).links, email, Step(s, ev).jwts[|s.jwts|].sub)
  {
  }

  lemma {:induction false} RunKeepsAll(s: World, events: seq<Event>)
    requires Initial(s)
    ensures var s' := Run(s, events); TokensSound(s') && LinksSound(s') && InsertsSound(s')
  {
    if events != [] {
      var init, ev := events[..|events| - 1], events[|events| - 1];
      RunKeepsAll(s, init);
      StepKeepsAll(Run(s, init), ev);
    }
  }

  lemma {:induction false} StepKeepsAll(s: World, ev: Event)
    requires TokensSound(s) && LinksSound(s) && InsertsSound(s)
    ensures TokensSound(Step(s, ev)) && LinksSound(Step(s, ev)) && InsertsSound(Step(s, ev))
  {
    StepKeepsTokens(s, ev);
    StepKeepsLinks(s, ev);
    StepKeepsRows(s, ev);
    StepKeepsOnePerEmail(s, ev);
    StepKeepsNoRivals(s, ev);
  }

  /** Single mint: over every interleaving, each token yields at most one JWT. */
  lemma {:induction false} SingleMint(s: World, events: seq<Event>, i: nat, j: nat)
    requires Initial(s) && i < |Run(s, events).jwts| && j < |Run(s, events).jwts|
    requires Run(s, events).jwts[i].token == Run(s, events).jwts[j].token
    ensures i == j
  {
    RunKeepsAll(s, events);
  }

  ghost predicate OneSubject(s: World, email: Email) {
    forall i, j :: 0 <= i < |s.jwts| && 0 <= j < |s.jwts| && s.jwts[i].email == email && s.jwts[j].email == email
      ==> s.jwts[i].sub == s.jwts[j].sub
  }

  /** No step of the run takes a link of this email away. */
  ghost predicate KeepsLinks(s: World, events: seq<Event>, email: Email) {
    forall k :: 0 <= k < |events| ==> !Touches(Run(s, events[..k]), events[k], email)
  }

  lemma {:induction false} RunKeepsSubjects(s: World, events: seq<Event>, email: Email)
    requires Initial(s) && !Ambiguous(s.links, email) && KeepsLinks(s, events, email)
    ensures SubjectsSound(Run(s, events), email)
  {
    if events != [] {
      var init := events[..|events| - 1];
      assert forall k :: 0 <= k < |init| ==> init[..k] == events[..k];
      RunKeepsSubjects(s, init, email);
      RunKeepsAll(s, init);
      StepKeepsSubjects(Run(s, init), events[|events| - 1], email);
    }
  }

  lemma {:induction false} SoundIsOneSubject(s: World, email: Email)
    requires SubjectsSound(s, email)
    ensures OneSubject(s, email)
  {
    forall i, j | 0 <= i < |s.jwts| && 0 <= j < |s.jwts| && s.jwts[i].email == email && s.jwts[j].email == email
      ensures s.jwts[i].sub == s.jwts[j].sub
    {
      AnchorIsUnique(s.links, email, s.jwts[i].sub, s.jwts[j].sub);
    }
  }

  lemma {:induction false} StableSubject(s: World, events: seq<Event>, email: Email)
    requires Initial(s) && !Ambiguous(s.links, email) && KeepsLinks(s, events, email)
    ensures OneSubject(Run(s, events), email)
  {
    RunKeepsSubjects(s, events, email);
    SoundIsOneSubject(Run(s, events), email);
  }

  // ---------------------------------------------------------------- exactly when subjects are stable

  /** One uncontended sign-in with a new token that reads the given link. */
  function SignIn(token: Token, email: Email, now: int, link: LinkId): seq<Event> {
    [Issue(token, email, now + 1), CompareAndSwap(0, token), ReadLink(0, Some(link)), Commit(0)]
  }

  predicate Quiet(s: World, token: Token) {
    s.claims.Keys <= {0} && StageOf(s, 0).Idle? && token !in s.tokens
  }

  /** Issued and claimed: the first half of a sign-in. */
  function Claimed(s: World, token: Token, email: Email): World {
    s.(tokens := s.tokens[token := TokenRow(email, s.now + 1, false)], claims := s.claims[0 := HasToken(token)])
  }

  lemma {:induction false} SignInClaims(s: World, token: Token, email: Email)
    requires Quiet(s, token)
    ensures Step(Step(s, Issue(token, email, s.now + 1)), CompareAndSwap(0, token)) == Claimed(s, token, email)
  {
    assert !Locked(Step(s, Issue(token, email, s.now + 1)), token);
  }

  lemma {:induction false} SignInCommits(s: World, token: Token, email: Email, link: LinkId)
    requires Quiet(s, token) && IsOldest(s.links, email, link) && !s.links[link].bound
    ensures var s' := Step(Step(Claimed(s, token, email), ReadLink(0, Some(link))), Commit(0));
      && s'.jwts == s.jwts + [Jwt(token, email, link)]
      && s'.links == s.links && s'.now == s.now && s'.tokens.Keys == s.tokens.Keys + {token}
      && s'.claims.Keys <= {0} && StageOf(s', 0).Idle?
  {
    var s2 := Claimed(s, token, email);
    assert StageOf(s2, 0) == HasToken(token);
    assert StageOf(Step(s2, ReadLink(0, Some(link))), 0) == Saw(token, link);
  }

  lemma {:induction false} RunFour(s: World, a: Event, b: Event, c: Event, d: Event)
    ensures Run(s, [a, b, c, d]) == Step(Step(Step(Step(s, a), b), c), d)
  {
    assert [a, b, c, d][..3] == [a, b, c] && [a, b, c][..2] == [a, b] && [a, b][..1] == [a] && [a][..0] == [];
    assert Run(s, [a]) == Step(Run(s, []), a);
    assert Run(s, [a, b]) == Step(Run(s, [a]), b);
    assert Run(s, [a, b, c]) == Step(Run(s, [a, b]), c);
  }

  lemma {:induction false} SignInMints(s: World, token: Token, email: Email, link: LinkId)
    requires Quiet(s, token) && IsOldest(s.links, email, link) && !s.links[link].bound
    ensures var s' := Run(s, SignIn(token, email, s.now, link));
      && s'.jwts == s.jwts + [Jwt(token, email, link)]
      && s'.links == s.links && s'.now == s.now && s'.tokens.Keys == s.tokens.Keys + {token}
      && s'.claims.Keys <= {0} && StageOf(s', 0).Idle?
  {
    SignInClaims(s, token, email);
    SignInCommits(s, token, email, link);
    RunFour(s, Issue(token, email, s.now + 1), CompareAndSwap(0, token), ReadLink(0, Some(link)), Commit(0));
  }

  lemma {:induction false} RunSplit(s: World, a: seq<Event>, b: seq<Event>)
    ensures Run(s, a + b) == Run(Run(s, a), b)
  {
    if b == [] {
      assert a + b == a;
    } else {
      assert (a + b)[..|a + b| - 1] == a + b[..|b| - 1];
      RunSplit(s, a, b[..|b| - 1]);
    }
  }

  lemma {:induction false} UnusedTokens(used: set<Token>) returns (bound: Token)
    ensures forall token :: token in used ==> token < bound
  {
    bound := 0;
    if used != {} {
      var token :| token in used;
      var rest := UnusedTokens(used - {token});
      assert forall other :: other in used ==> other == token || other in used - {token};
      bound := if token < rest then rest else token + 1;
    }
  }

  lemma {:induction false} SubjectsDiffer(s: World)
    requires |s.jwts| >= 2 && s.jwts[0].email == s.jwts[1].email && s.jwts[0].sub != s.jwts[1].sub
    ensures !OneSubject(s, s.jwts[0].email)
  {
  }

  lemma {:induction false} SignInTwice(s: World, token: Token, email: Email, a: LinkId, b: LinkId)
    requires Quiet(s, token) && token + 1 !in s.tokens
    requires IsOldest(s.links, email, a) && IsOldest(s.links, email, b) && !s.links[a].bound && !s.links[b].bound
    ensures Run(Run(s, SignIn(token, email, s.now, a)), SignIn(token + 1, email, s.now, b)).jwts
         == s.jwts + [Jwt(token, email, a)] + [Jwt(token + 1, email, b)]
  {
    SignInMints(s, token, email, a);
    var s1 := Run(s, SignIn(token, email, s.now, a));
    assert Quiet(s1, token + 1);
    SignInMints(s1, token + 1, email, b);
  }

  /** Two sign-ins in turn, each reading another one of two links that cannot be told apart. */
  lemma {:induction false} AmbiguousLinksSplit(s: World, email: Email) returns (events: seq<Event>)
    requires Initial(s) && Ambiguous(s.links, email)
    ensures !OneSubject(Run(s, events), email) && KeepsLinks(s, events, email)
  {
    var a, b :| a != b && IsOldest(s.links, email, a) && IsOldest(s.links, email, b) && !s.links[a].bound && !s.links[b].bound;
    var token := UnusedTokens(s.tokens.Keys);
    var first, second := SignIn(token, email, s.now, a), SignIn(token + 1, email, s.now, b);
    SignInTwice(s, token, email, a, b);
    RunSplit(s, first, second);
    events := first + second;
    SubjectsDiffer(Run(s, events));
  }

  /** Stable subject, exactly: over all interleavings that take no link of an email away, all JWTs of the
      email carry one subject, if and only if it does not start with two unbound links that are equally
      the oldest. */
  lemma {:induction false} StableSubjectIff(s: World, email: Email)
    requires Initial(s)
    ensures (forall events :: KeepsLinks(s, events, email) ==> OneSubject(Run(s, events), email)) <==> !Ambiguous(s.links, email)
  {
    if Ambiguous(s.links, email) {
      var events := AmbiguousLinksSplit(s, email);
    } else {
      forall events | KeepsLinks(s, events, email) ensures OneSubject(Run(s, events), email) {
        StableSubject(s, events, email);
      }
    }
  }

  // ---------------------------------------------------------------- after a hard delete

  /** The link is gone for good: no claim has read it, and its id is never drawn again. */
  ghost predicate Gone(s: World, link: LinkId) {
    && link !in s.links && link < s.next
    && forall c :: StageOf(s, c).Saw? || StageOf(s, c).Inserted? ==> StageOf(s, c).link != link
  }

  lemma {:induction false} StepKeepsGone(s: World, ev: Event, link: LinkId)
    requires Gone(s, link)
    ensures Gone(Step(s, ev), link)
    ensures forall i :: |s.jwts| <= i < |Step(s, ev).jwts| ==> Step(s, ev).jwts[i].sub != link
  {
    OthersKeepTheirStage(s, ev);
  }

  lemma {:induction false} JwtsOnlyGrow(s: World, ev: Event)
    ensures s.jwts <= Step(s, ev).jwts
  {
  }

  lemma {:induction false} GoneNeverReturns(s: World, events: seq<Event>, link: LinkId)
    requires Gone(s, link)
    ensures Gone(Run(s, events), link) && s.jwts <= Run(s, events).jwts
    ensures forall i :: |s.jwts| <= i < |Run(s, events).jwts| ==> Run(s, events).jwts[i].sub != link
  {
    if events != [] {
      var before := Run(s, events[..|events| - 1]);
      GoneNeverReturns(s, events[..|events| - 1], link);
      StepKeepsGone(before, events[|events| - 1], link);
      JwtsOnlyGrow(before, events[|events| - 1]);
    }
  }

  /** A link that no hard delete takes is the one that every sign-in of its email gets, from JWT n on. */
  ghost predicate Settled(s: World, email: Email, link: LinkId, n: nat) {
    && IsAnchor(s.links, email, link) && !s.links[link].magic
    && (forall c :: StageOf(s, c).Saw? && EmailAt(s, c) == email ==> StageOf(s, c).link == link)
    && (forall i :: n <= i < |s.jwts| && s.jwts[i].email == email ==> s.jwts[i].sub == link)
  }

  lemma {:induction false} AnchorIsUnambiguous(links: map<LinkId, Link>, email: Email, link: LinkId, id: LinkId)
    requires IsAnchor(links, email, link) && IsOldest(links, email, id) && !links[id].bound
    ensures id == link
  {
  }

  lemma {:induction false} SettledMints(s: World, ev: Event, email: Email, link: LinkId, n: nat)
    requires TokensSound(s) && LinksSound(s) && InsertsSound(s) && Settled(s, email, link, n)
    requires |Step(s, ev).jwts| > |s.jwts| && Step(s, ev).jwts[|s.jwts|].email == email
    ensures Step(s, ev).jwts[|s.jwts|].sub == link
  {
  }

  lemma {:induction false} StepKeepsSettled(s: World, ev: Event, email: Email, link: LinkId, n: nat)
    requires TokensSound(s) && LinksSound(s) && InsertsSound(s) && Settled(s, email, link, n)
    ensures Settled(Step(s, ev), email, link, n)
  {
    var s' := Step(s, ev);
    AnchorsStay(s, ev, email, link);
    EmailsStayAt(s, ev);
    JwtsOnlyGrow(s, ev);
    forall c | StageOf(s', c).Saw? && EmailAt(s', c) == email ensures StageOf(s', c).link == link {
      if StageOf(s', c) != StageOf(s, c) {
        NewlySaw(s, ev, c);
        AnchorIsUnambiguous(s.links, email, link, StageOf(s', c).link);
      }
    }
    forall i | n <= i < |s'.jwts| && s'.jwts[i].email == email ensures s'.jwts[i].sub == link {
      if i >= |s.jwts| {
        SettledMints(s, ev, email, link, n);
      }
    }
  }

  lemma {:induction false} RunKeepsSettled(s: World, events: seq<Event>, email: Email, link: LinkId, n: nat)
    requires TokensSound(s) && LinksSound(s) && InsertsSound(s) && Settled(s, email, link, n)
    ensures var s' := Run(s, events); TokensSound(s') && LinksSound(s') && InsertsSound(s') && Settled(s', email, link, n)
  {
    if events != [] {
      var init, ev := events[..|events| - 1], events[|events| - 1];
      RunKeepsSettled(s, init, email, link, n);
      StepKeepsAll(Run(s, init), ev);
      StepKeepsSettled(Run(s, init), ev, email, link, n);
    }
  }

  /** A contact is deleted for good at a moment when nobody is signing in. Whatever happens then, each later
      sign-in of the email gets the subject it had before if and only if that was not a magic link. */
  lemma {:induction false} HardDeleteChangesSubjectIff(s: World, email: Email, bound: Option<LinkId>, link: LinkId, events: seq<Event>, i: nat)
    requires TokensSound(s) && LinksSound(s) && InsertsSound(s) && IsAnchor(s.links, email, link)
    requires forall c :: StageOf(s, c).Idle?
    requires var s' := Run(Step(s, Unlink(email, bound)), events);
             |s.jwts| <= i < |s'.jwts| && s'.jwts[i].email == email
    ensures Run(Step(s, Unlink(email, bound)), events).jwts[i].sub == link <==> !s.links[link].magic
  {
    var deleted := Step(s, Unlink(email, bound));
    UnlinkOnlyTakes(s, Unlink(email, bound));
    assert forall c :: StageOf(deleted, c) == StageOf(s, c);
    if s.links[link].magic {
      GoneNeverReturns(deleted, events, link);
    } else {
      StepKeepsAll(s, Unlink(email, bound));
      AnchorsStay(s, Unlink(email, bound), email, link);
      assert Settled(deleted, email, link, |s.jwts|);
      RunKeepsSettled(deleted, events, email, link, |s.jwts|);
    }
  }

  // ---------------------------------------------------------------- one claim, uncontended

  datatype ClaimResult =
    | SignedIn(jwt: Jwt)
    | Invalid            // no row for the token hash
    | AlreadyClaimed
    | Expired
    | AccountConflict    // the email's oldest link is bound to another identity

  class AuthTables {
    var tokens: map<Token, TokenRow>
    var links: map<LinkId, Link>
    var next: LinkId

    constructor (tokens: map<Token, TokenRow>, links: map<LinkId, Link>, next: LinkId)
      ensures this.tokens == tokens && this.links == links && this.next == next
    {
      this.tokens, this.links, this.next := tokens, links, next;
    }

    /** SELECT .. ORDER BY linked_at LIMIT 1. */
    method OldestLink(email: Email) returns (found: Option<LinkId>)
      ensures MayRead(links, email, found)
    {
      found := None;
      var unseen := links.Keys;
      while unseen != {}
        invariant unseen <= links.Keys
        invariant found.None? ==> forall id :: id in links && id !in unseen ==> links[id].email != email
        invariant found.Some? ==> found.value in links && links[found.value].email == email
        invariant found.Some? ==> forall id :: id in links && id !in unseen && links[id].email == email ==>
          links[found.value].linkedAt <= links[id].linkedAt
      {
        var id :| id in unseen;
        unseen := unseen - {id};
        if links[id].email == email && (found.None? || links[id].linkedAt < links[found.value].linkedAt) {
          found := Some(id);
        }
      }
    }

    /** claim_magic_link and the router's commit or rollback around it. A claim that mints marks
        exactly its token and adds a link only for an email that had none; every other outcome
        leaves all tables as they were, the token included. */
    method ClaimMagicLink(token: Token, now: int) returns (r: ClaimResult)
      requires next !in links
      modifies this
      ensures r.SignedIn? || r.AccountConflict? <==> token in old(tokens) && !old(tokens)[token].claimed && now < old(tokens)[token].expiresAt
      ensures r.AccountConflict? ==> exists id :: IsOldest(old(links), old(tokens)[token].email, id) && old(links)[id].bound
      ensures !r.SignedIn? ==> tokens == old(tokens) && links == old(links) && next == old(next)
      ensures r.SignedIn? ==> r.jwt.token == token && r.jwt.email == old(tokens)[token].email
      ensures r.SignedIn? ==> tokens == old(tokens)[token := old(tokens)[token].(claimed := true)]
      ensures r.SignedIn? && r.jwt.sub in old(links) ==>
        IsOldest(old(links), r.jwt.email, r.jwt.sub) && !old(links)[r.jwt.sub].bound && links == old(links) && next == old(next)
      ensures r.SignedIn? && r.jwt.sub !in old(links) ==>
        && MayRead(old(links), r.jwt.email, None) && r.jwt.sub == old(next) < next
        && links == old(links)[old(next) := Link(r.jwt.email, true, false, now)]
      ensures r.Invalid? <==> token !in old(tokens)
      ensures r.Expired? <==> token in old(tokens) && old(tokens)[token].expiresAt <= now
      ensures r.AlreadyClaimed? <==> token in old(tokens) && old(tokens)[token].claimed && now < old(tokens)[token].expiresAt
    {
      var before := tokens;
      if token !in tokens || tokens[token].claimed {
        if token !in tokens {
          return Invalid;
        }
        if tokens[token].expiresAt <= now {
          return Expired;
        }
        return AlreadyClaimed;
      }
      tokens := tokens[token := tokens[token].(claimed := true)];
      if tokens[token].expiresAt <= now {
        tokens := before;
        return Expired;
      }
      var email := tokens[token].email;
      var existing := OldestLink(email);
      if existing.None? {
        links, next := links[next := Link(email, true, false, now)], next + 1;
        assert MayRead(old(links), email, None);
        return SignedIn(Jwt(token, email, next - 1));
      }
      if links[existing.value].bound {
        tokens := before;
        return AccountConflict;
      }
      r := SignedIn(Jwt(token, email, existing.value));
    }
  }
}
