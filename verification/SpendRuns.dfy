/**
 Every run of the spend lifecycle: any order of issuing tokens, preparing sends
 and signing requests, preparing tasks, running or dropping them, starting jobs,
 switching, locking and logging out of wallets, with any clock readings. The
 only demand on a run is that new ids and tokens are new.
*/
module SpendRuns {
  import opened Wrappers
  import opened Reauth
  import opened SpendLifecycle

  datatype Kind = Send | Sign

  datatype Ref = Ref(kind: Kind, id: Id)

  /** How a token came about. */
  datatype Grant = Grant(wallet: Wallet, purpose: Purpose, at: Time)

  /** A prepared task waiting to run, with the token that was consumed for it. */
  datatype Ticket = Ticket(kind: Kind, task: Task, token: Token, paidAt: Time)

  /** The context of a send prepared for the shared service: the token is consumed,
      the proposal stays where it is. */
  datatype Permit = Permit(id: Id, wallet: Wallet, token: Token, paidAt: Time)

  /** A send or signing that went ahead, and the time of its last deadline check. */
  datatype Execution = Execution(
    ref: Ref, wallet: Wallet, token: Token, paidAt: Time, checkedAt: Time)

  datatype Place = Waiting(ticket: nat) | Done(entry: nat) | Dropped

  /** Where an entry that left the service is now, and what paid for it. */
  datatype Claim = Claim(token: Token, paidAt: Time, place: Place)

  /** The shared state, the tasks and permits prepared from it, the log of executions, and the
      history: what was made and granted, and who took what. */
  datatype World = World(
    shared: Shared,
    tickets: map<nat, Ticket>,
    permits: map<nat, Permit>,
    nextTicket: nat,
    log: seq<Execution>,
    made: map<Ref, Hold>,
    granted: map<Token, Grant>,
    claims: map<Ref, Claim>,
    bought: map<Token, Ref>)

  datatype Action =
    | Issue(token: Token, wallet: Wallet, purpose: Purpose, now: Time)
    | Prepare(kind: Kind, id: Id, now: Time)
    | CancelSend(id: Id)
    | Load(wallet: Wallet, watchOnly: bool)
    | Unlock(wallet: Wallet, watchOnly: bool)
    | Lock(wallet: Wallet)
    | Logout(wallet: Wallet)
    | ConsumeElsewhere(token: Token, wallet: Wallet, purpose: Purpose, now: Time)
    | PrepareTask(kind: Kind, id: Id, token: Token, outside: Outside)
    | RunTask(ticket: nat, opens: bool, now: Time)
    | PreparePermit(id: Id, token: Token, outside: Outside)
    | RunPermit(permit: nat, walletDbOpens: bool, appDbOpens: bool, now: Time)
    | StartJob(id: Id, token: Token, outside: Outside)
    | SignNow(id: Id, token: Token, outside: Outside)

  const Start := World(Shared(None, map[], map[], map[]), map[], map[], 0, [], map[], map[], map[], map[])

  predicate Enabled(w: World, a: Action) {
    match a
    case Issue(token, _, _, _) => token !in w.granted
    case Prepare(kind, id, _) => Ref(kind, id) !in w.made
    case _ => true
  }

  function HoldsOf(s: Shared, kind: Kind): Holds {
    if kind.Send? then s.proposals else s.signing
  }

  function WithHolds(s: Shared, kind: Kind, holds: Holds): Shared {
    if kind.Send? then s.(proposals := holds) else s.(signing := holds)
  }

  function AfterPrepare(w: World, kind: Kind, id: Id, now: Time): World {
    if w.shared.active.Some? && w.shared.active.value.unlocked then
      var hold := Hold(w.shared.active.value.wallet, now + PROPOSAL_TTL);
      w.(shared := WithHolds(w.shared, kind, HoldsOf(w.shared, kind)[id := hold]),
         made := w.made[Ref(kind, id) := hold])
    else w
  }

  function AfterConsume(w: World, token: Token, wallet: Wallet, purpose: Purpose, now: Time): World {
    if Accepted(w.shared.tokens, token, wallet, purpose, now)
    then w.(shared := w.shared.(tokens := Used(w.shared.tokens, token)))
    else w
  }

  /** An entry was taken into a task. */
  function Ticketed(w: World, ref: Ref, token: Token, paidAt: Time, hold: Hold): World {
    w.(tickets := w.tickets[w.nextTicket :=
                    Ticket(ref.kind, Task(ref.id, hold.wallet, hold.expiresAt), token, paidAt)],
       nextTicket := w.nextTicket + 1,
       claims := w.claims[ref := Claim(token, paidAt, Waiting(w.nextTicket))],
       bought := w.bought[token := ref])
  }

  /** An entry was taken and executed within the same call. */
  function Executed(w: World, ref: Ref, token: Token, paidAt: Time, hold: Hold, checkedAt: Time)
    : World
  {
    w.(log := w.log + [Execution(ref, hold.wallet, token, paidAt, checkedAt)],
       claims := w.claims[ref := Claim(token, paidAt, Done(|w.log|))],
       bought := w.bought[token := ref])
  }

  function AfterTask(w: World, kind: Kind, id: Id, token: Token, o: Outside): World {
    var (r, s) := if kind.Send? then ConfirmTask(w.shared, id, token, o)
                  else SigningTask(w.shared, id, token, o);
    var w' := w.(shared := s);
    if r.Ok? then Ticketed(w', Ref(kind, id), token, o.consumedAt, r.value) else w'
  }

  /** A task is moved into the call that runs it, so it is gone either way. */
  function AfterRun(w: World, k: nat, opens: bool, now: Time): World {
    if k !in w.tickets then w
    else
      var t := w.tickets[k];
      var ref := Ref(t.kind, t.task.id);
      var w' := w.(tickets := w.tickets - {k});
      if opens && now <= t.task.expiresAt then
        w'.(log := w.log + [Execution(ref, t.task.wallet, t.token, t.paidAt, now)],
            claims := w.claims[ref := Claim(t.token, t.paidAt, Done(|w.log|))])
      else w'.(claims := w.claims[ref := Claim(t.token, t.paidAt, Dropped)])
  }

  function AfterPermit(w: World, id: Id, token: Token, o: Outside): World {
    var (r, s) := PrepareConfirm(w.shared, id, token, o);
    var w' := w.(shared := s);
    if r.Ok? then
      w'.(permits := w.permits[w.nextTicket := Permit(id, r.value, token, o.consumedAt)],
          nextTicket := w.nextTicket + 1,
          bought := w.bought[token := Ref(Send, id)])
    else w'
  }

  /** The spending key of a permit is moved into the call, so it is used once. */
  function AfterRunPermit(w: World, k: nat, walletDbOpens: bool, appDbOpens: bool, now: Time): World {
    if k !in w.permits then w
    else
      var p := w.permits[k];
      var (r, s) := ConfirmHere(w.shared, p.id, p.wallet, walletDbOpens, appDbOpens, now);
      var w' := w.(shared := s, permits := w.permits - {k});
      if r.Ok? then Executed(w', Ref(Send, p.id), p.token, p.paidAt, r.value, now) else w'
  }

  function AfterJob(w: World, id: Id, token: Token, o: Outside): World {
    var (r, s) := SendJob(w.shared, id, token, o);
    var w' := w.(shared := s);
    if r.Ok? then Executed(w', Ref(Send, id), token, o.consumedAt, r.value, o.validatedAt) else w'
  }

  function AfterSignNow(w: World, id: Id, token: Token, o: Outside): World {
    var (r, s) := SigningNow(w.shared, id, token, o);
    var w' := w.(shared := s);
    if r.Ok? then Executed(w', Ref(Sign, id), token, o.consumedAt, r.value, o.takenAt) else w'
  }

  function Next(w: World, a: Action): World {
    match a
    case Issue(token, wallet, purpose, now) =>
      w.(shared := w.shared.(tokens := w.shared.tokens[token :=
                     TokenRecord(wallet, purpose, now + TOKEN_LIFETIME, false)]),
         granted := w.granted[token := Grant(wallet, purpose, now)])
    case Prepare(kind, id, now) => AfterPrepare(w, kind, id, now)
    case CancelSend(id) =>
      w.(shared := w.shared.(proposals := w.shared.proposals - {id}))
    case Load(wallet, watchOnly) =>
      w.(shared := w.shared.(active := Loaded(w.shared.active, wallet, watchOnly)))
    case Unlock(wallet, watchOnly) =>
      w.(shared := w.shared.(active := Some(Active(wallet, watchOnly, true))))
    case Lock(wallet) => w.(shared := w.shared.(active := Locked(w.shared.active, wallet)))
    case Logout(wallet) => w.(shared := LoggedOut(w.shared, wallet))
    case ConsumeElsewhere(token, wallet, purpose, now) =>
      AfterConsume(w, token, wallet, purpose, now)
    case PrepareTask(kind, id, token, o) => AfterTask(w, kind, id, token, o)
    case RunTask(k, opens, now) => AfterRun(w, k, opens, now)
    case PreparePermit(id, token, o) => AfterPermit(w, id, token, o)
    case RunPermit(k, walletDb, appDb, now) => AfterRunPermit(w, k, walletDb, appDb, now)
    case StartJob(id, token, o) => AfterJob(w, id, token, o)
    case SignNow(id, token, o) => AfterSignNow(w, id, token, o)
  }

  predicate CanRun(w: World, run: seq<Action>)
    decreases |run|
  {
    run == [] || (Enabled(w, run[0]) && CanRun(Next(w, run[0]), run[1..]))
  }

  function End(w: World, run: seq<Action>): World
    requires CanRun(w, run)
    decreases |run|
  {
    if run == [] then w else End(Next(w, run[0]), run[1..])
  }

  // ---------------------------------------------------------------------------
  // The invariant
  // ---------------------------------------------------------------------------

  predicate TokensMatch(w: World) {
    && (forall t | t in w.shared.tokens ::
          && t in w.granted
          && w.shared.tokens[t].wallet == w.granted[t].wallet
          && w.shared.tokens[t].purpose == w.granted[t].purpose
          && w.shared.tokens[t].expiresAt == w.granted[t].at + TOKEN_LIFETIME)
    && (forall t | t in w.bought :: t in w.shared.tokens && w.shared.tokens[t].used)
  }

  /** What the service holds is as it was made and has not been taken. */
  predicate HoldsMatch(w: World, kind: Kind) {
    forall id | id in HoldsOf(w.shared, kind) ::
      && Ref(kind, id) in w.made && Ref(kind, id) !in w.claims
      && w.made[Ref(kind, id)] == HoldsOf(w.shared, kind)[id]
  }

  /** A claim was paid with a token granted for spending from the same wallet. */
  predicate Paid(w: World, ref: Ref, token: Token, paidAt: Time) {
    && ref in w.made && token in w.granted && token in w.bought && w.bought[token] == ref
    && w.granted[token].wallet == w.made[ref].wallet
    && w.granted[token].purpose == Purpose.Spend
    && paidAt <= w.granted[token].at + TOKEN_LIFETIME
  }

  predicate ClaimsMatch(w: World) {
    forall ref | ref in w.claims :: Paid(w, ref, w.claims[ref].token, w.claims[ref].paidAt)
  }

  predicate TicketsMatch(w: World) {
    forall k | k in w.tickets ::
      var t := w.tickets[k];
      var ref := Ref(t.kind, t.task.id);
      && k < w.nextTicket && ref in w.claims && ref in w.made
      && w.claims[ref] == Claim(t.token, t.paidAt, Waiting(k))
      && w.made[ref] == Hold(t.task.wallet, t.task.expiresAt)
  }

  predicate LogMatches(w: World) {
    forall i | 0 <= i < |w.log| ::
      var e := w.log[i];
      && e.ref in w.claims && e.ref in w.made
      && w.claims[e.ref] == Claim(e.token, e.paidAt, Done(i))
      && w.made[e.ref].wallet == e.wallet
      && e.checkedAt <= w.made[e.ref].expiresAt
  }

  /** A permit was paid for its own entry, by a token of its own wallet. */
  predicate PermitsMatch(w: World) {
    forall k | k in w.permits ::
      var p := w.permits[k];
      && k < w.nextTicket
      && p.token in w.bought && w.bought[p.token] == Ref(Send, p.id)
      && p.token in w.granted && w.granted[p.token].wallet == p.wallet
      && w.granted[p.token].purpose == Purpose.Spend
      && p.paidAt <= w.granted[p.token].at + TOKEN_LIFETIME
  }

  predicate Inv(w: World) {
    && TokensMatch(w) && HoldsMatch(w, Send) && HoldsMatch(w, Sign)
    && ClaimsMatch(w) && TicketsMatch(w) && LogMatches(w) && PermitsMatch(w)
  }

  /** What every way of taking an entry does to the shared state. */
  predicate Takes(
    s: Shared, kind: Kind, id: Id, token: Token, o: Outside, checkedAt: Time,
    r: Result<Hold, SpendError>, s': Shared)
  {
    && (s'.tokens == s.tokens || (token in s.tokens && s'.tokens == Used(s.tokens, token)))
    && (forall i | i in HoldsOf(s', kind) ::
          i in HoldsOf(s, kind) && HoldsOf(s', kind)[i] == HoldsOf(s, kind)[i])
    && (forall k | k != kind :: HoldsOf(s', k) == HoldsOf(s, k))
    && (r.Ok? ==>
          && id in HoldsOf(s, kind) && HoldsOf(s, kind)[id] == r.value
          && id !in HoldsOf(s', kind)
          && Accepted(s.tokens, token, r.value.wallet, Purpose.Spend, o.consumedAt)
          && s'.tokens == Used(s.tokens, token)
          && checkedAt <= r.value.expiresAt)
  }

  lemma PermitTakes(s: Shared, id: Id, token: Token, o: Outside)
    ensures var (r, s') := PrepareConfirm(s, id, token, o);
            && Takes(s, Send, id, token, o, o.validatedAt, Err(NotFound), s')
            && (r.Ok? ==>
                  && Accepted(s.tokens, token, r.value, Purpose.Spend, o.consumedAt)
                  && s' == s.(tokens := Used(s.tokens, token)))
  {
  }

  lemma ConfirmTakes(s: Shared, id: Id, token: Token, o: Outside)
    ensures var (r, s') := ConfirmTask(s, id, token, o);
            Takes(s, Send, id, token, o, o.takenAt, r, s')
  {
    PermitTakes(s, id, token, o);
    hide PrepareConfirm, Used, Accepted;
  }

  lemma SigningTakes(s: Shared, id: Id, token: Token, o: Outside)
    ensures var (r, s') := SigningTask(s, id, token, o);
            Takes(s, Sign, id, token, o, o.takenAt, r, s')
  {
    hide Used;
  }

  lemma TaskTakes(s: Shared, kind: Kind, id: Id, token: Token, o: Outside)
    ensures var (r, s') := if kind.Send? then ConfirmTask(s, id, token, o)
                           else SigningTask(s, id, token, o);
            Takes(s, kind, id, token, o, o.takenAt, r, s')
  {
    hide ConfirmTask, SigningTask, Takes;
    if kind.Send? {
      ConfirmTakes(s, id, token, o);
    } else {
      SigningTakes(s, id, token, o);
    }
  }

  lemma JobTakes(s: Shared, id: Id, token: Token, o: Outside)
    ensures var (r, s') := SendJob(s, id, token, o);
            Takes(s, Send, id, token, o, o.validatedAt, r, s')
  {
  }

  lemma SignNowTakes(s: Shared, id: Id, token: Token, o: Outside)
    ensures var (r, s') := SigningNow(s, id, token, o);
            Takes(s, Sign, id, token, o, o.takenAt, r, s')
  {
  }

  /** A taken entry leaves the rest of the invariant alone. */
  lemma SharedStep(w: World, kind: Kind, id: Id, token: Token, o: Outside, checkedAt: Time,
                   r: Result<Hold, SpendError>, s': Shared)
    requires Inv(w) && Takes(w.shared, kind, id, token, o, checkedAt, r, s')
    ensures Inv(w.(shared := s'))
  {
  }

  /** A new claim: the entry was held until now, and the token paid for nothing else. */
  predicate NewClaim(w: World, ref: Ref, claim: Claim, w': World) {
    && ref in w.made && ref !in w.claims && ref.id !in HoldsOf(w.shared, ref.kind)
    && (claim.token in w.bought ==> w.bought[claim.token] == ref)
    && claim.token in w.shared.tokens && w.shared.tokens[claim.token].used
    && w'.shared == w.shared && w'.made == w.made && w'.granted == w.granted
    && w'.claims == w.claims[ref := claim] && w'.bought == w.bought[claim.token := ref]
    && w'.permits == w.permits && w'.nextTicket >= w.nextTicket && Paid(w', ref, claim.token, claim.paidAt)
  }

  lemma NewClaimKeeps(w: World, ref: Ref, claim: Claim, w': World)
    requires Inv(w) && NewClaim(w, ref, claim, w')
    ensures TokensMatch(w') && HoldsMatch(w', Send) && HoldsMatch(w', Sign)
    ensures ClaimsMatch(w') && PermitsMatch(w')
  {
    hide TicketsMatch, LogMatches;
  }

  lemma TakenIsNewClaim(w: World, kind: Kind, id: Id, token: Token, o: Outside, checkedAt: Time,
                        r: Result<Hold, SpendError>, s': Shared, claim: Claim, w': World)
    requires Inv(w) && Takes(w.shared, kind, id, token, o, checkedAt, r, s') && r.Ok?
    requires claim.token == token && claim.paidAt == o.consumedAt
    requires w'.shared == s' && w'.made == w.made && w'.granted == w.granted
    requires w'.claims == w.claims[Ref(kind, id) := claim]
    requires w'.bought == w.bought[token := Ref(kind, id)] && w'.permits == w.permits
    requires w'.nextTicket >= w.nextTicket
    ensures NewClaim(w.(shared := s'), Ref(kind, id), claim, w')
    ensures w.made[Ref(kind, id)] == r.value
  {
    hide TicketsMatch, LogMatches, ClaimsMatch;
  }

  lemma NewTicketKeeps(w: World, ref: Ref, token: Token, paidAt: Time, hold: Hold)
    requires TicketsMatch(w) && LogMatches(w)
    requires ref !in w.claims && ref in w.made && w.made[ref] == hold
    ensures TicketsMatch(Ticketed(w, ref, token, paidAt, hold))
    ensures LogMatches(Ticketed(w, ref, token, paidAt, hold))
  {
  }

  lemma NewEntryKeeps(w: World, ref: Ref, token: Token, paidAt: Time, hold: Hold, checkedAt: Time)
    requires TicketsMatch(w) && LogMatches(w)
    requires ref !in w.claims && ref in w.made && w.made[ref] == hold
    requires checkedAt <= hold.expiresAt
    ensures TicketsMatch(Executed(w, ref, token, paidAt, hold, checkedAt))
    ensures LogMatches(Executed(w, ref, token, paidAt, hold, checkedAt))
  {
  }

  lemma TicketedKeepsInv(w: World, kind: Kind, id: Id, token: Token, o: Outside,
                         r: Result<Hold, SpendError>, s': Shared)
    requires Inv(w) && Takes(w.shared, kind, id, token, o, o.takenAt, r, s') && r.Ok?
    ensures Inv(Ticketed(w.(shared := s'), Ref(kind, id), token, o.consumedAt, r.value))
  {
    var w1 := w.(shared := s');
    var ref := Ref(kind, id);
    var w2 := Ticketed(w1, ref, token, o.consumedAt, r.value);
    SharedStep(w, kind, id, token, o, o.takenAt, r, s');
    TakenIsNewClaim(w, kind, id, token, o, o.takenAt, r, s', w2.claims[ref], w2);
    hide Takes, TokensMatch, HoldsMatch, ClaimsMatch, TicketsMatch, LogMatches, PermitsMatch;
    NewClaimKeeps(w1, ref, w2.claims[ref], w2);
    NewTicketKeeps(w1, ref, token, o.consumedAt, r.value);
  }

  lemma ExecutedKeepsInv(w: World, kind: Kind, id: Id, token: Token, o: Outside, checkedAt: Time,
                         r: Result<Hold, SpendError>, s': Shared)
    requires Inv(w) && Takes(w.shared, kind, id, token, o, checkedAt, r, s') && r.Ok?
    ensures Inv(Executed(w.(shared := s'), Ref(kind, id), token, o.consumedAt, r.value, checkedAt))
  {
    var w1 := w.(shared := s');
    var ref := Ref(kind, id);
    var w2 := Executed(w1, ref, token, o.consumedAt, r.value, checkedAt);
    SharedStep(w, kind, id, token, o, checkedAt, r, s');
    TakenIsNewClaim(w, kind, id, token, o, checkedAt, r, s', w2.claims[ref], w2);
    assert checkedAt <= r.value.expiresAt;
    hide Takes, TokensMatch, HoldsMatch, ClaimsMatch, TicketsMatch, LogMatches, PermitsMatch;
    NewClaimKeeps(w1, ref, w2.claims[ref], w2);
    NewEntryKeeps(w1, ref, token, o.consumedAt, r.value, checkedAt);
  }

  lemma NewPermitKeeps(w: World, w': World, k: nat, p: Permit)
    requires Inv(w) && p.token !in w.bought && k == w.nextTicket
    requires p.token in w.shared.tokens && w.shared.tokens[p.token].used
    requires p.token in w.granted && w.granted[p.token].wallet == p.wallet
    requires w.granted[p.token].purpose == Purpose.Spend
    requires p.paidAt <= w.granted[p.token].at + TOKEN_LIFETIME
    requires w' == w.(permits := w.permits[k := p], nextTicket := w.nextTicket + 1,
                      bought := w.bought[p.token := Ref(Send, p.id)])
    ensures Inv(w')
  {
  }

  lemma PermitKeeps(w: World, id: Id, token: Token, o: Outside)
    requires Inv(w)
    ensures Inv(AfterPermit(w, id, token, o))
  {
    PermitTakes(w.shared, id, token, o);
    var (r, s') := PrepareConfirm(w.shared, id, token, o);
    SharedStep(w, Send, id, token, o, o.validatedAt, Err(NotFound), s');
    hide PrepareConfirm, Takes, HoldsMatch, ClaimsMatch, TicketsMatch, LogMatches, PermitsMatch;
    if r.Ok? {
      NewPermitKeeps(w.(shared := s'), AfterPermit(w, id, token, o), w.nextTicket,
                     Permit(id, r.value, token, o.consumedAt));
    }
  }

  lemma FewerPermitsKeep(w: World, k: nat, s': Shared)
    requires Inv(w) && s'.tokens == w.shared.tokens && s'.signing == w.shared.signing
    requires forall i | i in s'.proposals ::
               i in w.shared.proposals && s'.proposals[i] == w.shared.proposals[i]
    ensures Inv(w.(shared := s', permits := w.permits - {k}))
  {
    OtherKeeps(w, s');
    var w1 := w.(shared := s');
    assert PermitsMatch(w1.(permits := w.permits - {k}));
  }

  lemma RunPermitKeeps(w: World, k: nat, walletDbOpens: bool, appDbOpens: bool, now: Time)
    requires Inv(w)
    ensures Inv(AfterRunPermit(w, k, walletDbOpens, appDbOpens, now))
  {
    if k in w.permits {
      var p := w.permits[k];
      var (r, s') := ConfirmHere(w.shared, p.id, p.wallet, walletDbOpens, appDbOpens, now);
      FewerPermitsKeep(w, k, s');
      if r.Ok? {
        var w1 := w.(shared := s', permits := w.permits - {k});
        var ref := Ref(Send, p.id);
        var w2 := Executed(w1, ref, p.token, p.paidAt, r.value, now);
        assert NewClaim(w1, ref, w2.claims[ref], w2) && w.made[ref] == r.value
          && now <= r.value.expiresAt by {
          hide ClaimsMatch, TicketsMatch, LogMatches;
        }
        hide ConfirmHere, TokensMatch, HoldsMatch, ClaimsMatch, TicketsMatch, LogMatches,
             PermitsMatch;
        NewClaimKeeps(w1, ref, w2.claims[ref], w2);
        NewEntryKeeps(w1, ref, p.token, p.paidAt, r.value, now);
      }
    }
  }

  lemma RunKeepsRecords(w: World, k: nat, opens: bool, now: Time)
    requires ClaimsMatch(w) && TicketsMatch(w) && LogMatches(w)
    ensures TicketsMatch(AfterRun(w, k, opens, now)) && LogMatches(AfterRun(w, k, opens, now))
    ensures AfterRun(w, k, opens, now).claims.Keys == w.claims.Keys
  {
    hide ClaimsMatch;
  }

  lemma RunKeepsClaims(w: World, k: nat, opens: bool, now: Time)
    requires ClaimsMatch(w) && TicketsMatch(w)
    ensures ClaimsMatch(AfterRun(w, k, opens, now))
  {
  }

  lemma RunKeeps(w: World, k: nat, opens: bool, now: Time)
    requires Inv(w)
    ensures Inv(AfterRun(w, k, opens, now))
  {
    RunKeepsRecords(w, k, opens, now);
    RunKeepsClaims(w, k, opens, now);
    hide ClaimsMatch, TicketsMatch, LogMatches;
  }

  lemma MakingKeepsRecords(w: World, w': World, ref: Ref)
    requires ClaimsMatch(w) && TicketsMatch(w) && LogMatches(w) && ref !in w.made
    requires w' == w.(shared := w'.shared, made := w'.made)
    requires ref in w'.made && w'.made == w.made[ref := w'.made[ref]]
    ensures ClaimsMatch(w') && TicketsMatch(w') && LogMatches(w')
    ensures ref !in w.claims
  {
  }

  lemma PrepareKeeps(w: World, kind: Kind, id: Id, now: Time)
    requires Inv(w) && Ref(kind, id) !in w.made
    ensures Inv(AfterPrepare(w, kind, id, now))
  {
    var w' := AfterPrepare(w, kind, id, now);
    if w' != w {
      MakingKeepsRecords(w, w', Ref(kind, id));
    }
    hide ClaimsMatch, TicketsMatch, LogMatches;
  }

  lemma IssueKeeps(w: World, token: Token, wallet: Wallet, purpose: Purpose, now: Time)
    requires Inv(w) && token !in w.granted
    ensures Inv(Next(w, Issue(token, wallet, purpose, now)))
  {
  }

  lemma ConsumeKeeps(w: World, token: Token, wallet: Wallet, purpose: Purpose, now: Time)
    requires Inv(w)
    ensures Inv(AfterConsume(w, token, wallet, purpose, now))
  {
  }

  lemma OtherKeeps(w: World, s': Shared)
    requires Inv(w) && s'.tokens == w.shared.tokens && s'.signing == w.shared.signing
    requires forall i | i in s'.proposals ::
               i in w.shared.proposals && s'.proposals[i] == w.shared.proposals[i]
    ensures Inv(w.(shared := s'))
  {
  }

  lemma StepKeepsInv(w: World, a: Action)
    requires Inv(w) && Enabled(w, a)
    ensures Inv(Next(w, a))
  {
    hide Inv, Takes, ConfirmTask, SigningTask, SendJob, SigningNow, Ticketed, Executed,
         AfterRun, AfterPrepare, AfterConsume, AfterPermit, AfterRunPermit;
    match a {
      case Issue(token, wallet, purpose, now) => IssueKeeps(w, token, wallet, purpose, now);
      case Prepare(kind, id, now) => PrepareKeeps(w, kind, id, now);
      case CancelSend(id) =>
        OtherKeeps(w, w.shared.(proposals := w.shared.proposals - {id}));
      case Load(wallet, watchOnly) =>
        OtherKeeps(w, w.shared.(active := Loaded(w.shared.active, wallet, watchOnly)));
      case Unlock(wallet, watchOnly) =>
        OtherKeeps(w, w.shared.(active := Some(Active(wallet, watchOnly, true))));
      case Lock(wallet) =>
        OtherKeeps(w, w.shared.(active := Locked(w.shared.active, wallet)));
      case Logout(wallet) => OtherKeeps(w, LoggedOut(w.shared, wallet));
      case ConsumeElsewhere(token, wallet, purpose, now) =>
        ConsumeKeeps(w, token, wallet, purpose, now);
      case PrepareTask(kind, id, token, o) =>
        TaskTakes(w.shared, kind, id, token, o);
        var (r, s') := if kind.Send? then ConfirmTask(w.shared, id, token, o)
                       else SigningTask(w.shared, id, token, o);
        if r.Ok? {
          TicketedKeepsInv(w, kind, id, token, o, r, s');
        } else {
          SharedStep(w, kind, id, token, o, o.takenAt, r, s');
        }
      case RunTask(k, opens, now) => RunKeeps(w, k, opens, now);
      case PreparePermit(id, token, o) => PermitKeeps(w, id, token, o);
      case RunPermit(k, walletDb, appDb, now) => RunPermitKeeps(w, k, walletDb, appDb, now);
      case StartJob(id, token, o) =>
        JobTakes(w.shared, id, token, o);
        var (r, s') := SendJob(w.shared, id, token, o);
        if r.Ok? {
          ExecutedKeepsInv(w, Send, id, token, o, o.validatedAt, r, s');
        } else {
          SharedStep(w, Send, id, token, o, o.validatedAt, r, s');
        }
      case SignNow(id, token, o) =>
        SignNowTakes(w.shared, id, token, o);
        var (r, s') := SigningNow(w.shared, id, token, o);
        if r.Ok? {
          ExecutedKeepsInv(w, Sign, id, token, o, o.takenAt, r, s');
        } else {
          SharedStep(w, Sign, id, token, o, o.takenAt, r, s');
        }
    }
  }

  lemma {:induction false} RunKeepsInv(w: World, run: seq<Action>)
    requires Inv(w) && CanRun(w, run)
    ensures Inv(End(w, run))
    decreases |run|
  {
    hide Inv, Next, Enabled;
    if run != [] {
      StepKeepsInv(w, run[0]);
      RunKeepsInv(Next(w, run[0]), run[1..]);
    }
  }

  // ---------------------------------------------------------------------------
  // What holds of every run
  // ---------------------------------------------------------------------------

  /** No proposal or signing request is executed twice, and no token pays for two
      executions. */
  lemma ExecutedAtMostOnce(run: seq<Action>, i: nat, j: nat)
    requires CanRun(Start, run) && i < j < |End(Start, run).log|
    ensures End(Start, run).log[i].ref != End(Start, run).log[j].ref
    ensures End(Start, run).log[i].token != End(Start, run).log[j].token
  {
    RunKeepsInv(Start, run);
    var w := End(Start, run);
    hide End, CanRun, TokensMatch, HoldsMatch, TicketsMatch;
    assert Paid(w, w.log[i].ref, w.log[i].token, w.log[i].paidAt);
    assert Paid(w, w.log[j].ref, w.log[j].token, w.log[j].paidAt);
  }

  /** Every execution is for the wallet that made the entry, after a check against
      the deadline set then, and was paid with a used token granted for spending
      from that wallet and consumed within 120 seconds. */
  lemma ExecutedOnlyAsMade(run: seq<Action>, i: nat)
    requires CanRun(Start, run) && i < |End(Start, run).log|
    ensures var w := End(Start, run);
            var e := w.log[i];
            && e.ref in w.made && w.made[e.ref].wallet == e.wallet
            && e.checkedAt <= w.made[e.ref].expiresAt
            && e.token in w.granted && w.granted[e.token].wallet == e.wallet
            && w.granted[e.token].purpose == Purpose.Spend
            && e.paidAt <= w.granted[e.token].at + TOKEN_LIFETIME
            && e.token in w.shared.tokens && w.shared.tokens[e.token].used
  {
    RunKeepsInv(Start, run);
    var w := End(Start, run);
    hide End, CanRun, HoldsMatch, TicketsMatch;
    assert Paid(w, w.log[i].ref, w.log[i].token, w.log[i].paidAt);
  }

  /** What was logged, made or granted stays as it is. */
  predicate Extends(w: World, w': World) {
    && w.log <= w'.log
    && (forall ref | ref in w.made :: ref in w'.made && w'.made[ref] == w.made[ref])
    && (forall t | t in w.granted :: t in w'.granted && w'.granted[t] == w.granted[t])
  }

  lemma PrepareExtends(w: World, kind: Kind, id: Id, now: Time)
    requires Ref(kind, id) !in w.made
    ensures Extends(w, AfterPrepare(w, kind, id, now))
  {
  }

  lemma TaskExtends(w: World, kind: Kind, id: Id, token: Token, o: Outside)
    ensures Extends(w, AfterTask(w, kind, id, token, o))
  {
    hide ConfirmTask, SigningTask;
  }

  lemma JobExtends(w: World, id: Id, token: Token, o: Outside)
    ensures Extends(w, AfterJob(w, id, token, o))
  {
    hide SendJob;
  }

  lemma SignNowExtends(w: World, id: Id, token: Token, o: Outside)
    ensures Extends(w, AfterSignNow(w, id, token, o))
  {
    hide SigningNow;
  }

  lemma RunTaskExtends(w: World, k: nat, opens: bool, now: Time)
    ensures Extends(w, AfterRun(w, k, opens, now))
  {
  }

  lemma PermitExtends(w: World, id: Id, token: Token, o: Outside)
    ensures Extends(w, AfterPermit(w, id, token, o))
  {
    hide PrepareConfirm;
  }

  lemma RunPermitExtends(w: World, k: nat, walletDbOpens: bool, appDbOpens: bool, now: Time)
    ensures Extends(w, AfterRunPermit(w, k, walletDbOpens, appDbOpens, now))
  {
    hide ConfirmHere;
  }

  lemma StepExtends(w: World, a: Action)
    requires Enabled(w, a)
    ensures Extends(w, Next(w, a))
  {
    hide AfterPrepare, AfterTask, AfterJob, AfterSignNow, AfterRun, AfterPermit, AfterRunPermit,
         LoggedOut, Loaded, Locked,
         Used, Accepted;
    match a {
      case Prepare(kind, id, now) => PrepareExtends(w, kind, id, now);
      case PrepareTask(kind, id, token, o) => TaskExtends(w, kind, id, token, o);
      case StartJob(id, token, o) => JobExtends(w, id, token, o);
      case SignNow(id, token, o) => SignNowExtends(w, id, token, o);
      case RunTask(k, opens, now) => RunTaskExtends(w, k, opens, now);
      case PreparePermit(id, token, o) => PermitExtends(w, id, token, o);
      case RunPermit(k, walletDb, appDb, now) => RunPermitExtends(w, k, walletDb, appDb, now);
      case _ =>
    }
  }

  /** History is never rewritten. */
  lemma {:induction false} RunExtends(w: World, run: seq<Action>)
    requires CanRun(w, run)
    ensures Extends(w, End(w, run))
    decreases |run|
  {
    hide Next, Enabled;
    if run != [] {
      StepExtends(w, run[0]);
      RunExtends(Next(w, run[0]), run[1..]);
    }
  }

  // ---------------------------------------------------------------------------
  // Exactly when a spend goes ahead, and what a call costs
  // ---------------------------------------------------------------------------

  predicate IsOpen(s: Shared) {
    s.active.Some? && s.active.value.unlocked
  }

  predicate CanSend(s: Shared) {
    IsOpen(s) && !s.active.value.watchOnly
  }

  /** The active wallet holds the entry, and its deadline has not passed. */
  predicate InTime(s: Shared, kind: Kind, id: Id, now: Time) {
    && s.active.Some? && id in HoldsOf(s, kind)
    && HoldsOf(s, kind)[id].wallet == s.active.value.wallet
    && now <= HoldsOf(s, kind)[id].expiresAt
  }

  predicate TokenGood(s: Shared, token: Token, now: Time) {
    s.active.Some? && Accepted(s.tokens, token, s.active.value.wallet, Purpose.Spend, now)
  }

  /** A call removes an entry when it takes it, or when it finds that entry expired. */
  predicate FoundExpired(s: Shared, id: Id, now: Time) {
    && s.active.Some? && id in s.proposals
    && s.proposals[id].wallet == s.active.value.wallet && now > s.proposals[id].expiresAt
  }

  lemma PermitExactly(s: Shared, id: Id, token: Token, o: Outside)
    ensures var (r, s') := PrepareConfirm(s, id, token, o);
            var pays := CanSend(s) && InTime(s, Send, id, o.validatedAt) && o.keyDerives
                        && TokenGood(s, token, o.consumedAt);
            && (r.Ok? <==> pays && o.contextResolves)
            && s'.tokens == (if pays then Used(s.tokens, token) else s.tokens)
            && s'.proposals == (if s.active.Some? && !s.active.value.watchOnly
                                   && FoundExpired(s, id, o.validatedAt)
                                then s.proposals - {id} else s.proposals)
            && s'.signing == s.signing && s'.active == s.active
            && (r.Ok? ==> r.value == s.active.value.wallet)
  {
    hide Accepted, Used;
  }

  lemma ConfirmTaskExactly(s: Shared, id: Id, token: Token, o: Outside)
    ensures var (r, s') := ConfirmTask(s, id, token, o);
            var (p, paid) := PrepareConfirm(s, id, token, o);
            && (r.Ok? <==> p.Ok? && o.preflightPasses && InTime(s, Send, id, o.takenAt))
            && (r.Ok? ==> r.value == s.proposals[id])
            && s'.tokens == paid.tokens && s'.signing == s.signing && s'.active == s.active
            && s'.proposals == (if p.Ok? && o.preflightPasses then s.proposals - {id}
                                else paid.proposals)
  {
    PermitExactly(s, id, token, o);
    hide PrepareConfirm, Accepted, Used;
  }

  lemma SendJobExactly(s: Shared, id: Id, token: Token, o: Outside)
    ensures var (r, s') := SendJob(s, id, token, o);
            var pays := CanSend(s) && InTime(s, Send, id, o.validatedAt) && o.keyDerives
                        && TokenGood(s, token, o.consumedAt);
            && (r.Ok? <==> pays && o.contextResolves)
            && (r.Ok? ==> r.value == s.proposals[id])
            && s'.tokens == (if pays then Used(s.tokens, token) else s.tokens)
            && s'.proposals == (if r.Ok? || (CanSend(s) && FoundExpired(s, id, o.validatedAt))
                                then s.proposals - {id} else s.proposals)
            && s'.signing == s.signing && s'.active == s.active
  {
    hide Accepted, Used;
  }

  lemma SigningExactly(s: Shared, id: Id, token: Token, o: Outside)
    ensures var (r, s') := SigningTask(s, id, token, o);
            var reaches := TokenGood(s, token, o.consumedAt) && IsOpen(s)
                           && o.contextResolves && o.preflightPasses;
            && (r.Ok? <==> reaches && InTime(s, Sign, id, o.takenAt))
            && (r.Ok? ==> r.value == s.signing[id])
            && s'.tokens == (if TokenGood(s, token, o.consumedAt) then Used(s.tokens, token)
                             else s.tokens)
            && s'.signing == (if r.Ok? || (reaches && id in s.signing
                                           && o.takenAt > s.signing[id].expiresAt)
                              then s.signing - {id} else s.signing)
            && s'.proposals == s.proposals && s'.active == s.active
  {
    hide Accepted, Used;
  }

  lemma SigningNowExactly(s: Shared, id: Id, token: Token, o: Outside)
    ensures var (r, s') := SigningNow(s, id, token, o);
            var pays := IsOpen(s) && TokenGood(s, token, o.consumedAt);
            var reaches := pays && o.contextResolves && o.preflightPasses;
            && (r.Ok? <==> reaches && InTime(s, Sign, id, o.takenAt))
            && (r.Ok? ==> r.value == s.signing[id])
            && s'.tokens == (if pays then Used(s.tokens, token) else s.tokens)
            && s'.signing == (if r.Ok? || (reaches && id in s.signing
                                           && o.takenAt > s.signing[id].expiresAt)
                              then s.signing - {id} else s.signing)
            && s'.proposals == s.proposals && s'.active == s.active
  {
    hide Accepted, Used;
  }

  /** The errors tell the reasons apart. */
  lemma RefusalsExactly(s: Shared, id: Id, token: Token, o: Outside)
    ensures var r := PrepareConfirm(s, id, token, o).0;
            && (r == Err(WatchOnlyCannotSpend) <==> s.active.Some? && s.active.value.watchOnly)
            && (r == Err(ProposalExpired) <==> s.active.Some? && !s.active.value.watchOnly
                                               && FoundExpired(s, id, o.validatedAt))
            && (r == Err(TokenRefused(Expired)) || r == Err(TokenRefused(Invalid)) <==>
                  CanSend(s) && InTime(s, Send, id, o.validatedAt) && o.keyDerives
                  && !TokenGood(s, token, o.consumedAt))
    ensures var r := SendJob(s, id, token, o).0;
            && (r == Err(WatchOnlyCannotSpend) <==> s.active.Some? && s.active.value.watchOnly)
            && (r == Err(ProposalExpired) <==> CanSend(s) && FoundExpired(s, id, o.validatedAt))
  {
    hide Accepted, Used;
  }

  /** A send goes ahead through a prepared task exactly when its wallet is open and
      can send, its deadline has not passed at any of the three looks, the token is
      good, and nothing outside objects. */
  lemma SendGoesAheadExactlyWhen(w: World, id: Id, token: Token, o: Outside, opens: bool, now: Time)
    requires Inv(w)
    ensures var w1 := Next(w, PrepareTask(Send, id, token, o));
            var w2 := Next(w1, RunTask(w.nextTicket, opens, now));
            |w2.log| > |w.log| <==>
              && CanSend(w.shared) && InTime(w.shared, Send, id, o.validatedAt)
              && InTime(w.shared, Send, id, o.takenAt) && InTime(w.shared, Send, id, now)
              && TokenGood(w.shared, token, o.consumedAt)
              && o.keyDerives && o.contextResolves && o.preflightPasses && opens
  {
    PermitExactly(w.shared, id, token, o);
    ConfirmTaskExactly(w.shared, id, token, o);
    TaskRuns(w, Send, id, token, o, opens, now);
    hide Next, ConfirmTask, PrepareConfirm, Accepted, Used, Inv;
  }

  /** A signing does through a prepared task: a watch-only wallet may, and no key is
      derived. */
  lemma SigningGoesAheadExactlyWhen(
    w: World, id: Id, token: Token, o: Outside, opens: bool, now: Time)
    requires Inv(w)
    ensures var w1 := Next(w, PrepareTask(Sign, id, token, o));
            var w2 := Next(w1, RunTask(w.nextTicket, opens, now));
            |w2.log| > |w.log| <==>
              && IsOpen(w.shared)
              && InTime(w.shared, Sign, id, o.takenAt) && InTime(w.shared, Sign, id, now)
              && TokenGood(w.shared, token, o.consumedAt)
              && o.contextResolves && o.preflightPasses && opens
  {
    SigningExactly(w.shared, id, token, o);
    TaskRuns(w, Sign, id, token, o, opens, now);
    hide Next, SigningTask, Accepted, Used, Inv;
  }

  /** Preparing a task and running it executes exactly if the entry was taken and its
      deadline has still not passed. */
  lemma TaskRuns(w: World, kind: Kind, id: Id, token: Token, o: Outside, opens: bool, now: Time)
    requires Inv(w)
    ensures var r := if kind.Send? then ConfirmTask(w.shared, id, token, o).0
                     else SigningTask(w.shared, id, token, o).0;
            var w2 := Next(Next(w, PrepareTask(kind, id, token, o)), RunTask(w.nextTicket, opens, now));
            |w2.log| > |w.log| <==> r.Ok? && opens && now <= r.value.expiresAt
  {
    hide TokensMatch, HoldsMatch, ClaimsMatch, LogMatches, PermitsMatch, ConfirmTask, SigningTask;
    assert w.nextTicket !in w.tickets;
  }

  /** A job goes ahead exactly when a prepared send would be taken, without the
      preflight and the second look at the deadline. */
  lemma JobGoesAheadExactlyWhen(w: World, id: Id, token: Token, o: Outside)
    ensures |Next(w, StartJob(id, token, o)).log| > |w.log| <==>
              && CanSend(w.shared) && InTime(w.shared, Send, id, o.validatedAt)
              && TokenGood(w.shared, token, o.consumedAt) && o.keyDerives && o.contextResolves
  {
    SendJobExactly(w.shared, id, token, o);
    JobEffect(w, id, token, o);
    hide SendJob, AfterJob, Accepted;
  }

  /** A signing within the call. */
  lemma SignNowGoesAheadExactlyWhen(w: World, id: Id, token: Token, o: Outside)
    ensures |Next(w, SignNow(id, token, o)).log| > |w.log| <==>
              && IsOpen(w.shared) && InTime(w.shared, Sign, id, o.takenAt)
              && TokenGood(w.shared, token, o.consumedAt) && o.contextResolves && o.preflightPasses
  {
    SigningNowExactly(w.shared, id, token, o);
    SignNowEffect(w, id, token, o);
    hide SigningNow, AfterSignNow, Accepted;
  }

  /** The two phases of a send on the command line, with nothing in between. */
  lemma PermitGoesAheadExactlyWhen(
    w: World, id: Id, token: Token, o: Outside, walletDb: bool, appDb: bool, now: Time)
    requires Inv(w)
    ensures var w1 := Next(w, PreparePermit(id, token, o));
            var w2 := Next(w1, RunPermit(w.nextTicket, walletDb, appDb, now));
            |w2.log| > |w.log| <==>
              && CanSend(w.shared) && InTime(w.shared, Send, id, o.validatedAt)
              && InTime(w.shared, Send, id, now)
              && TokenGood(w.shared, token, o.consumedAt)
              && o.keyDerives && o.contextResolves && walletDb && appDb
  {
    assert w.nextTicket !in w.permits;
    hide Inv, PrepareConfirm, AfterRunPermit, Accepted, Used;
    PermitExactly(w.shared, id, token, o);
    var w1 := Next(w, PreparePermit(id, token, o));
    PermitIsThere(w, id, token, o);
    PermitEffect(w, id, token, o);
    hide AfterPermit;
    RunPermitEffect(w1, w.nextTicket, walletDb, appDb, now);
  }

  lemma PermitIsThere(w: World, id: Id, token: Token, o: Outside)
    requires w.nextTicket !in w.permits
    ensures var w1 := AfterPermit(w, id, token, o);
            var r := PrepareConfirm(w.shared, id, token, o).0;
            && (w.nextTicket in w1.permits <==> r.Ok?)
            && (r.Ok? ==> w1.permits[w.nextTicket] == Permit(id, r.value, token, o.consumedAt))
  {
    hide PrepareConfirm;
  }

  /** Loading, locking and unlocking: exactly when a wallet is open afterwards. */
  lemma OpenExactlyWhen(w: World, wallet: Wallet, watchOnly: bool)
    ensures IsOpen(Next(w, Load(wallet, watchOnly)).shared) <==>
              IsOpen(w.shared) && w.shared.active.value.wallet == wallet
    ensures IsOpen(Next(w, Lock(wallet)).shared) <==>
              IsOpen(w.shared) && w.shared.active.value.wallet != wallet
    ensures IsOpen(Next(w, Unlock(wallet, watchOnly)).shared)
    ensures IsOpen(Next(w, Logout(wallet)).shared) <==>
              IsOpen(w.shared) && w.shared.active.value.wallet != wallet
    ensures var s := Next(w, Load(wallet, watchOnly)).shared;
            s.active.Some? && s.active.value.wallet == wallet && s.active.value.watchOnly == watchOnly
    ensures var s := Next(w, Unlock(wallet, watchOnly)).shared;
            s.active.value.wallet == wallet && s.active.value.watchOnly == watchOnly
  {
  }

  // ---------------------------------------------------------------------------
  // What was removed stays out
  // ---------------------------------------------------------------------------

  /** Made once, no longer held, and never taken: cancelled, expired or cleared. */
  predicate Gone(w: World, ref: Ref) {
    ref in w.made && ref !in w.claims && ref.id !in HoldsOf(w.shared, ref.kind)
  }

  lemma TakingKeepsGone(w: World, ref: Ref, kind: Kind, id: Id, token: Token, o: Outside,
                        checkedAt: Time, r: Result<Hold, SpendError>, s': Shared)
    requires Gone(w, ref) && Takes(w.shared, kind, id, token, o, checkedAt, r, s')
    ensures Gone(w.(shared := s'), ref)
    ensures r.Ok? ==> ref != Ref(kind, id)
  {
  }

  lemma RunTaskKeepsGone(w: World, ref: Ref, k: nat, opens: bool, now: Time)
    requires TicketsMatch(w) && Gone(w, ref)
    ensures Gone(AfterRun(w, k, opens, now), ref)
  {
  }

  lemma RunPermitKeepsGone(w: World, ref: Ref, k: nat, walletDb: bool, appDb: bool, now: Time)
    requires Gone(w, ref)
    ensures Gone(AfterRunPermit(w, k, walletDb, appDb, now), ref)
  {
  }

  lemma TaskKeepsGone(w: World, ref: Ref, kind: Kind, id: Id, token: Token, o: Outside)
    requires Gone(w, ref)
    ensures Gone(AfterTask(w, kind, id, token, o), ref)
  {
    TaskTakes(w.shared, kind, id, token, o);
    var (r, s') := if kind.Send? then ConfirmTask(w.shared, id, token, o)
                   else SigningTask(w.shared, id, token, o);
    TakingKeepsGone(w, ref, kind, id, token, o, o.takenAt, r, s');
    hide ConfirmTask, SigningTask, Takes;
  }

  lemma CallKeepsGone(w: World, ref: Ref, id: Id, token: Token, o: Outside)
    requires Gone(w, ref)
    ensures Gone(AfterJob(w, id, token, o), ref)
    ensures Gone(AfterSignNow(w, id, token, o), ref)
  {
    JobTakes(w.shared, id, token, o);
    var (r, s') := SendJob(w.shared, id, token, o);
    TakingKeepsGone(w, ref, Send, id, token, o, o.validatedAt, r, s');
    SignNowTakes(w.shared, id, token, o);
    var (q, t') := SigningNow(w.shared, id, token, o);
    TakingKeepsGone(w, ref, Sign, id, token, o, o.takenAt, q, t');
    hide SendJob, SigningNow, Takes;
  }

  lemma PermitKeepsGone(w: World, ref: Ref, id: Id, token: Token, o: Outside)
    requires Gone(w, ref)
    ensures Gone(AfterPermit(w, id, token, o), ref)
  {
    PermitTakes(w.shared, id, token, o);
    TakingKeepsGone(w, ref, Send, id, token, o, o.validatedAt, Err(NotFound),
                    PrepareConfirm(w.shared, id, token, o).1);
    hide PrepareConfirm, Takes;
  }

  lemma StepKeepsGone(w: World, a: Action, ref: Ref)
    requires Inv(w) && Enabled(w, a) && Gone(w, ref)
    ensures Gone(Next(w, a), ref)
  {
    hide TokensMatch, HoldsMatch, ClaimsMatch, LogMatches, PermitsMatch, TicketsMatch, Accepted,
         Used, Loaded, Locked, AfterTask, AfterJob, AfterSignNow, AfterPermit, AfterRun,
         AfterRunPermit;
    match a {
      case RunTask(k, opens, now) => RunTaskKeepsGone(w, ref, k, opens, now);
      case RunPermit(k, walletDb, appDb, now) => RunPermitKeepsGone(w, ref, k, walletDb, appDb, now);
      case PrepareTask(kind, id, token, o) => TaskKeepsGone(w, ref, kind, id, token, o);
      case StartJob(id, token, o) => CallKeepsGone(w, ref, id, token, o);
      case SignNow(id, token, o) => CallKeepsGone(w, ref, id, token, o);
      case PreparePermit(id, token, o) => PermitKeepsGone(w, ref, id, token, o);
      case _ =>
    }
  }

  lemma {:induction false} RunKeepsGone(w: World, run: seq<Action>, ref: Ref)
    requires Inv(w) && CanRun(w, run) && Gone(w, ref)
    ensures Gone(End(w, run), ref) && Inv(End(w, run))
    decreases |run|
  {
    hide Inv, Next, Enabled, Gone;
    if run != [] {
      StepKeepsInv(w, run[0]);
      StepKeepsGone(w, run[0], ref);
      RunKeepsGone(Next(w, run[0]), run[1..], ref);
    }
  }

  /** Once a run has removed an entry that nobody took, no continuation executes it. */
  lemma RemovedIsNeverExecuted(before: seq<Action>, after: seq<Action>, ref: Ref, i: nat)
    requires CanRun(Start, before) && Gone(End(Start, before), ref)
    requires CanRun(End(Start, before), after)
    requires i < |End(End(Start, before), after).log|
    ensures End(End(Start, before), after).log[i].ref != ref
  {
    RunKeepsInv(Start, before);
    RunKeepsGone(End(Start, before), after, ref);
    hide End, CanRun;
  }

  /** Logging out removes all of the wallet's send proposals that were not taken,
      for good; its signing requests stay. */
  lemma LogoutRemovesProposals(before: seq<Action>, wallet: Wallet, ref: Ref)
    requires CanRun(Start, before)
    requires var w := End(Start, before);
             && w.shared.active.Some? && w.shared.active.value.wallet == wallet
             && ref in w.made && w.made[ref].wallet == wallet && ref !in w.claims
    ensures var w' := Next(End(Start, before), Logout(wallet));
            && (ref.kind.Send? ==> Gone(w', ref))
            && (ref.kind.Sign? ==> (Gone(w', ref) <==> Gone(End(Start, before), ref)))
  {
    RunKeepsInv(Start, before);
    hide End, CanRun, TokensMatch, ClaimsMatch, TicketsMatch, LogMatches;
  }

  /** A signing request does outlive a logout: after logging in again it is signed. */
  lemma SigningRequestOutlivesLogout(wallet: Wallet, id: Id, token: Token)
    returns (before: seq<Action>, after: seq<Action>)
    ensures CanRun(Start, before) && End(Start, before).log == []
    ensures End(Start, before).shared.active == None
    ensures CanRun(End(Start, before), after) && forall a | a in after :: !a.Prepare?
    ensures var w := End(End(Start, before), after);
            |w.log| == 1 && w.log[0].ref == Ref(Sign, id) && w.log[0].wallet == wallet
  {
    before := [Unlock(wallet, true), Prepare(Sign, id, 0), Logout(wallet)];
    after := [Unlock(wallet, true), Issue(token, wallet, Purpose.Spend, 0),
              SignNow(id, token, Outside(0, true, 0, true, true, 0))];
    var w1 := ThreeSteps(Start, before);
    var w2 := ThreeSteps(w1, after);
  }

  lemma ThreeSteps(w: World, run: seq<Action>) returns (w': World)
    requires |run| == 3 && Enabled(w, run[0]) && Enabled(Next(w, run[0]), run[1])
    requires Enabled(Next(Next(w, run[0]), run[1]), run[2])
    ensures CanRun(w, run) && End(w, run) == w'
    ensures w' == Next(Next(Next(w, run[0]), run[1]), run[2])
  {
    hide Next, Enabled;
    var w1 := Next(w, run[0]);
    var w2 := Next(w1, run[1]);
    w' := Next(w2, run[2]);
    assert run[1..][1..] == [run[2]] && run[1..][0] == run[1];
    assert CanRun(w2, [run[2]]) && End(w2, [run[2]]) == w';
    assert CanRun(w1, run[1..]) && End(w1, run[1..]) == w';
  }

  // ---------------------------------------------------------------------------
  // Locked wallets
  // ---------------------------------------------------------------------------

  predicate Shut(s: Shared) {
    s.active.None? || !s.active.value.unlocked
  }

  lemma ShutTakesNothing(s: Shared, kind: Kind, id: Id, token: Token, o: Outside)
    requires Shut(s)
    ensures var (r, s') := if kind.Send? then ConfirmTask(s, id, token, o)
                           else SigningTask(s, id, token, o);
            r.Err? && s'.active == s.active
    ensures var (r, s') := PrepareConfirm(s, id, token, o);
            r.Err? && s'.active == s.active
    ensures SendJob(s, id, token, o).0.Err? && SendJob(s, id, token, o).1.active == s.active
    ensures SigningNow(s, id, token, o).0.Err? && SigningNow(s, id, token, o).1.active == s.active
  {
    hide AfterCheck, CheckProposal, CheckSigning, Accepted, Used;
  }

  predicate IsWaiting(w: World, ref: Ref) {
    ref in w.claims && w.claims[ref].place.Waiting?
  }

  /** Ready to be executed without another look at the wallet: a task that waits, or
      a permit. */
  predicate IsPrepared(w: World, ref: Ref) {
    IsWaiting(w, ref) || exists k | k in w.permits :: Ref(Send, w.permits[k].id) == ref
  }

  /** A step prepares nothing new and executes only what was prepared. */
  ghost predicate OnlyUses(w: World, w': World) {
    && Shut(w'.shared) && w'.made == w.made
    && (forall ref | IsPrepared(w', ref) :: IsPrepared(w, ref))
    && w.log <= w'.log && |w'.log| <= |w.log| + 1
    && (|w'.log| > |w.log| ==> IsPrepared(w, w'.log[|w.log|].ref))
  }

  lemma RunTaskOnlyUses(w: World, k: nat, opens: bool, now: Time)
    requires TicketsMatch(w) && Shut(w.shared)
    ensures OnlyUses(w, AfterRun(w, k, opens, now))
  {
    var w' := AfterRun(w, k, opens, now);
    if k in w.tickets {
      var ref := Ref(w.tickets[k].kind, w.tickets[k].task.id);
      assert IsWaiting(w, ref);
    }
  }

  lemma RunPermitOnlyUses(w: World, k: nat, walletDbOpens: bool, appDbOpens: bool, now: Time)
    requires Shut(w.shared)
    ensures OnlyUses(w, AfterRunPermit(w, k, walletDbOpens, appDbOpens, now))
  {
    hide CheckProposal, AfterCheck;
  }

  lemma SharedOnlyUses(w: World, s': Shared)
    requires Shut(s')
    ensures OnlyUses(w, w.(shared := s'))
  {
  }

  lemma TaskOnlyUses(w: World, kind: Kind, id: Id, token: Token, o: Outside)
    requires Shut(w.shared)
    ensures OnlyUses(w, AfterTask(w, kind, id, token, o))
    ensures OnlyUses(w, AfterPermit(w, id, token, o))
  {
    ShutTakesNothing(w.shared, kind, id, token, o);
    hide ConfirmTask, SigningTask, PrepareConfirm, OnlyUses;
    SharedOnlyUses(w, AfterTask(w, kind, id, token, o).shared);
    SharedOnlyUses(w, AfterPermit(w, id, token, o).shared);
  }

  lemma CallOnlyUses(w: World, id: Id, token: Token, o: Outside)
    requires Shut(w.shared)
    ensures OnlyUses(w, AfterJob(w, id, token, o))
    ensures OnlyUses(w, AfterSignNow(w, id, token, o))
  {
    ShutTakesNothing(w.shared, Send, id, token, o);
    hide SendJob, SigningNow, OnlyUses;
    SharedOnlyUses(w, AfterJob(w, id, token, o).shared);
    SharedOnlyUses(w, AfterSignNow(w, id, token, o).shared);
  }

  lemma StepOnlyUses(w: World, a: Action)
    requires Inv(w) && Shut(w.shared) && !a.Unlock?
    ensures OnlyUses(w, Next(w, a))
  {
    hide TokensMatch, HoldsMatch, ClaimsMatch, LogMatches, PermitsMatch, TicketsMatch, AfterTask,
         AfterPermit, AfterJob, AfterSignNow, AfterRun, AfterRunPermit, Accepted, Used, OnlyUses;
    match a {
      case RunTask(k, opens, now) => RunTaskOnlyUses(w, k, opens, now);
      case RunPermit(k, walletDb, appDb, now) => RunPermitOnlyUses(w, k, walletDb, appDb, now);
      case Issue(token, wallet, purpose, now) => IssueOnlyUses(w, token, wallet, purpose, now);
      case PrepareTask(kind, id, token, o) => TaskOnlyUses(w, kind, id, token, o);
      case PreparePermit(id, token, o) => TaskOnlyUses(w, Send, id, token, o);
      case StartJob(id, token, o) => CallOnlyUses(w, id, token, o);
      case SignNow(id, token, o) => CallOnlyUses(w, id, token, o);
      case _ => SharedOnlyUses(w, Next(w, a).shared);
    }
  }

  lemma IssueOnlyUses(w: World, token: Token, wallet: Wallet, purpose: Purpose, now: Time)
    requires Shut(w.shared)
    ensures OnlyUses(w, Next(w, Issue(token, wallet, purpose, now)))
  {
  }

  lemma {:induction false} RunOnlyUses(w: World, run: seq<Action>, i: nat)
    requires Inv(w) && Shut(w.shared) && CanRun(w, run)
    requires forall a | a in run :: !a.Unlock?
    ensures Shut(End(w, run).shared) && End(w, run).made == w.made && w.log <= End(w, run).log
    ensures |w.log| <= i < |End(w, run).log| ==> IsPrepared(w, End(w, run).log[i].ref)
    decreases |run|
  {
    hide Inv, Next, Enabled, Shut, IsPrepared;
    if run != [] {
      var next := Next(w, run[0]);
      StepKeepsInv(w, run[0]);
      StepOnlyUses(w, run[0]);
      RunOnlyUses(next, run[1..], i);
    }
  }

  /** From a locked wallet or none, until someone unlocks: loading, locking, logging
      out, preparing and consuming tokens in any order make no new entry, and
      nothing is executed but tasks and permits that were prepared before. */
  lemma OnlyPreparedTasksRunWhileLocked(before: seq<Action>, locked: seq<Action>, i: nat)
    requires CanRun(Start, before) && Shut(End(Start, before).shared)
    requires CanRun(End(Start, before), locked) && forall a | a in locked :: !a.Unlock?
    requires |End(Start, before).log| <= i < |End(End(Start, before), locked).log|
    ensures var w := End(Start, before);
            && End(w, locked).made == w.made
            && IsPrepared(w, End(w, locked).log[i].ref)
  {
    RunKeepsInv(Start, before);
    RunOnlyUses(End(Start, before), locked, i);
  }

  // ---------------------------------------------------------------------------
  // Dropped tasks
  // ---------------------------------------------------------------------------

  lemma TakenWasHeld(w: World, kind: Kind, id: Id, token: Token, o: Outside, checkedAt: Time,
                     r: Result<Hold, SpendError>, s': Shared)
    requires HoldsMatch(w, Send) && HoldsMatch(w, Sign)
    requires Takes(w.shared, kind, id, token, o, checkedAt, r, s')
    ensures r.Ok? ==> Ref(kind, id) !in w.claims
  {
  }

  lemma TaskKeepsClaim(w: World, ref: Ref, kind: Kind, id: Id, token: Token, o: Outside)
    requires HoldsMatch(w, Send) && HoldsMatch(w, Sign) && ref in w.claims
    ensures var w' := AfterTask(w, kind, id, token, o);
            ref in w'.claims && w'.claims[ref] == w.claims[ref]
  {
    TaskTakes(w.shared, kind, id, token, o);
    var (r, s') := if kind.Send? then ConfirmTask(w.shared, id, token, o)
                   else SigningTask(w.shared, id, token, o);
    TakenWasHeld(w, kind, id, token, o, o.takenAt, r, s');
    hide HoldsMatch, ConfirmTask, SigningTask, Takes;
  }

  lemma JobKeepsClaim(w: World, ref: Ref, id: Id, token: Token, o: Outside)
    requires HoldsMatch(w, Send) && HoldsMatch(w, Sign) && ref in w.claims
    ensures var w' := AfterJob(w, id, token, o);
            ref in w'.claims && w'.claims[ref] == w.claims[ref]
  {
    JobTakes(w.shared, id, token, o);
    var (r, s') := SendJob(w.shared, id, token, o);
    TakenWasHeld(w, Send, id, token, o, o.validatedAt, r, s');
    hide HoldsMatch, SendJob, Takes;
  }

  lemma SignNowKeepsClaim(w: World, ref: Ref, id: Id, token: Token, o: Outside)
    requires HoldsMatch(w, Send) && HoldsMatch(w, Sign) && ref in w.claims
    ensures var w' := AfterSignNow(w, id, token, o);
            ref in w'.claims && w'.claims[ref] == w.claims[ref]
  {
    SignNowTakes(w.shared, id, token, o);
    var (r, s') := SigningNow(w.shared, id, token, o);
    TakenWasHeld(w, Sign, id, token, o, o.takenAt, r, s');
    hide HoldsMatch, SigningNow, Takes;
  }

  lemma RunPermitKeepsClaim(w: World, ref: Ref, k: nat, walletDb: bool, appDb: bool, now: Time)
    requires HoldsMatch(w, Send) && ref in w.claims
    ensures var w' := AfterRunPermit(w, k, walletDb, appDb, now);
            ref in w'.claims && w'.claims[ref] == w.claims[ref]
  {
  }

  predicate IsDropped(w: World, ref: Ref) {
    ref in w.claims && w.claims[ref].place.Dropped?
  }

  lemma RunTaskKeepsDropped(w: World, ref: Ref, k: nat, opens: bool, now: Time)
    requires TicketsMatch(w) && IsDropped(w, ref)
    ensures IsDropped(AfterRun(w, k, opens, now), ref)
  {
  }

  lemma StepKeepsDropped(w: World, a: Action, ref: Ref)
    requires Inv(w) && IsDropped(w, ref)
    ensures IsDropped(Next(w, a), ref)
  {
    hide TokensMatch, HoldsMatch, ClaimsMatch, TicketsMatch, LogMatches, PermitsMatch, AfterTask,
         AfterJob, AfterSignNow, AfterRun, AfterRunPermit, PrepareConfirm, Accepted, Used, Loaded,
         Locked, LoggedOut;
    match a {
      case PrepareTask(kind, id, token, o) => TaskKeepsClaim(w, ref, kind, id, token, o);
      case StartJob(id, token, o) => JobKeepsClaim(w, ref, id, token, o);
      case SignNow(id, token, o) => SignNowKeepsClaim(w, ref, id, token, o);
      case RunTask(k, opens, now) => RunTaskKeepsDropped(w, ref, k, opens, now);
      case RunPermit(k, walletDb, appDb, now) =>
        RunPermitKeepsClaim(w, ref, k, walletDb, appDb, now);
      case _ =>
    }
  }

  lemma {:induction false} RunKeepsDropped(w: World, run: seq<Action>, ref: Ref)
    requires Inv(w) && CanRun(w, run) && IsDropped(w, ref)
    ensures Inv(End(w, run)) && IsDropped(End(w, run), ref)
    decreases |run|
  {
    hide Inv, Next, Enabled, IsDropped;
    if run != [] {
      StepKeepsInv(w, run[0]);
      StepKeepsDropped(w, run[0], ref);
      RunKeepsDropped(Next(w, run[0]), run[1..], ref);
    }
  }

  /** A task that failed to run is lost with what it took: no continuation executes
      it. */
  lemma DroppedIsNeverExecuted(before: seq<Action>, after: seq<Action>, ref: Ref, i: nat)
    requires CanRun(Start, before) && IsDropped(End(Start, before), ref)
    requires CanRun(End(Start, before), after)
    requires i < |End(End(Start, before), after).log|
    ensures End(End(Start, before), after).log[i].ref != ref
  {
    RunKeepsInv(Start, before);
    RunKeepsDropped(End(Start, before), after, ref);
    hide End, CanRun;
  }

  // ---------------------------------------------------------------------------
  // The services perform the actions
  // ---------------------------------------------------------------------------

  lemma ExecutedLog(w: World, ref: Ref, token: Token, paidAt: Time, r: Result<Hold, SpendError>,
                    checkedAt: Time)
    ensures r.Ok? ==>
              var w' := Executed(w, ref, token, paidAt, r.value, checkedAt);
              |w'.log| == |w.log| + 1 && w'.shared == w.shared
  {
  }

  lemma TaskEffect(w: World, kind: Kind, id: Id, token: Token, o: Outside)
    ensures var w' := AfterTask(w, kind, id, token, o);
            && w'.log == w.log
            && w'.shared == if kind.Send? then ConfirmTask(w.shared, id, token, o).1
                            else SigningTask(w.shared, id, token, o).1
  {
    hide ConfirmTask, SigningTask;
  }

  lemma PermitEffect(w: World, id: Id, token: Token, o: Outside)
    ensures var w' := AfterPermit(w, id, token, o);
            w'.log == w.log && w'.shared == PrepareConfirm(w.shared, id, token, o).1
  {
    hide PrepareConfirm;
  }

  lemma JobEffect(w: World, id: Id, token: Token, o: Outside)
    ensures var w' := AfterJob(w, id, token, o);
            && w'.shared == SendJob(w.shared, id, token, o).1
            && (|w'.log| > |w.log| <==> SendJob(w.shared, id, token, o).0.Ok?)
  {
    ExecutedLog(w.(shared := SendJob(w.shared, id, token, o).1), Ref(Send, id), token, o.consumedAt,
                SendJob(w.shared, id, token, o).0, o.validatedAt);
    hide SendJob, Executed;
  }

  lemma SignNowEffect(w: World, id: Id, token: Token, o: Outside)
    ensures var w' := AfterSignNow(w, id, token, o);
            && w'.shared == SigningNow(w.shared, id, token, o).1
            && (|w'.log| > |w.log| <==> SigningNow(w.shared, id, token, o).0.Ok?)
  {
    ExecutedLog(w.(shared := SigningNow(w.shared, id, token, o).1), Ref(Sign, id), token,
                o.consumedAt, SigningNow(w.shared, id, token, o).0, o.takenAt);
    hide SigningNow, Executed;
  }

  lemma RunTaskEffect(w: World, k: nat, opens: bool, now: Time)
    ensures var w' := AfterRun(w, k, opens, now);
            && w'.shared == w.shared
            && (|w'.log| > |w.log| <==>
                  k in w.tickets && opens && now <= w.tickets[k].task.expiresAt)
  {
  }

  lemma RunPermitEffect(w: World, k: nat, walletDb: bool, appDb: bool, now: Time)
    ensures var w' := AfterRunPermit(w, k, walletDb, appDb, now);
            if k in w.permits then
              var p := w.permits[k];
              var (r, s) := ConfirmHere(w.shared, p.id, p.wallet, walletDb, appDb, now);
              w'.shared == s && (|w'.log| > |w.log| <==> r.Ok?)
            else w' == w
  {
    hide ConfirmHere;
  }

  lemma PrepareEffect(w: World, kind: Kind, id: Id, now: Time)
    ensures var w' := AfterPrepare(w, kind, id, now);
            var a := w.shared.active;
            && w'.log == w.log && w'.shared.active == a && w'.shared.tokens == w.shared.tokens
            && HoldsOf(w'.shared, kind) == (if a.Some? && a.value.unlocked
                 then HoldsOf(w.shared, kind)[id := Hold(a.value.wallet, now + PROPOSAL_TTL)]
                 else HoldsOf(w.shared, kind))
            && (kind.Send? ==> w'.shared.signing == w.shared.signing)
            && (kind.Sign? ==> w'.shared.proposals == w.shared.proposals)
  {
  }

  predicate TouchesSpends(a: Action) {
    a.PrepareTask? || a.RunTask? || a.PreparePermit? || a.RunPermit? || a.StartJob? || a.SignNow?
  }

  method PerformOther(m: WalletManager, tx: TxService, w: World, a: Action)
    requires m.State(tx) == w.shared && Enabled(w, a) && !TouchesSpends(a)
    modifies m, m.reauth, tx
    ensures m.State(tx) == Next(w, a).shared && Next(w, a).log == w.log
  {
    hide LoggedOut, Loaded, Locked, Used, AfterPrepare;
    match a {
      case Issue(token, wallet, purpose, now) =>
        var _ := m.reauth.Issue(token, wallet, purpose, now);
      case Prepare(kind, id, now) =>
        PrepareEffect(w, kind, id, now);
        if kind.Send? {
          var _ := m.PrepareSend(tx, id, now);
        } else {
          var _ := m.BuildSigningRequest(tx, id, now);
        }
      case CancelSend(id) =>
        var _ := tx.CancelSend(id);
      case Load(wallet, watchOnly) => m.LoadWallet(wallet, watchOnly);
      case Unlock(wallet, watchOnly) => m.UnlockWallet(wallet, watchOnly);
      case Lock(wallet) => m.LockWallet(wallet);
      case Logout(wallet) =>
        var _ := m.LogoutWallet(tx, wallet);
      case ConsumeElsewhere(token, wallet, purpose, now) =>
        var _ := m.ConsumeReauthToken(wallet, token, purpose, now);
    }
  }

  method PerformRun(m: WalletManager, tx: TxService, w: World, a: Action) returns (executed: bool)
    requires m.State(tx) == w.shared && (a.RunTask? || a.RunPermit?)
    modifies m, m.reauth, tx
    ensures m.State(tx) == Next(w, a).shared
    ensures executed <==> |Next(w, a).log| > |w.log|
  {
    hide ConfirmHere, AfterRun, AfterRunPermit;
    executed := false;
    match a {
      case RunTask(k, opens, now) =>
        RunTaskEffect(w, k, opens, now);
        if k in w.tickets {
          if w.tickets[k].kind.Send? {
            executed := WalletManager.ExecuteConfirmSendTask(w.tickets[k].task, opens, true, now);
          } else {
            executed := WalletManager.ExecuteFinalizeSigningTask(w.tickets[k].task, opens, true, now);
          }
        }
      case RunPermit(k, walletDb, appDb, now) =>
        RunPermitEffect(w, k, walletDb, appDb, now);
        if k in w.permits {
          var p := w.permits[k];
          executed := m.ConfirmOnSharedService(tx, p.id, p.wallet, walletDb, appDb, now);
        }
    }
  }

  method PerformTake(m: WalletManager, tx: TxService, w: World, a: Action) returns (executed: bool)
    requires m.State(tx) == w.shared
    requires a.PrepareTask? || a.PreparePermit? || a.StartJob? || a.SignNow?
    modifies m, m.reauth, tx
    ensures m.State(tx) == Next(w, a).shared
    ensures executed <==> |Next(w, a).log| > |w.log|
  {
    hide ConfirmTask, SigningTask, PrepareConfirm, SendJob, SigningNow, AfterTask, AfterPermit,
         AfterJob, AfterSignNow;
    executed := false;
    match a {
      case PrepareTask(kind, id, token, o) =>
        TaskEffect(w, kind, id, token, o);
        if kind.Send? {
          var _ := m.PrepareConfirmSendTask(tx, id, token, o);
        } else {
          var _ := m.PrepareFinalizeSigningTask(tx, id, token, o);
        }
      case PreparePermit(id, token, o) =>
        PermitEffect(w, id, token, o);
        var _ := m.PrepareConfirmSend(tx, id, token, o);
      case StartJob(id, token, o) =>
        JobEffect(w, id, token, o);
        var r := m.StartSendJob(tx, id, token, o);
        executed := r.Ok?;
      case SignNow(id, token, o) =>
        SignNowEffect(w, id, token, o);
        var r := m.FinalizeSigning(tx, id, token, o);
        executed := r.Ok?;
    }
  }

  /** Every action of the model is a call of the services: it leaves them in the
      state the model gives, and executes exactly when the model logs it. */
  method Perform(m: WalletManager, tx: TxService, w: World, a: Action) returns (executed: bool)
    requires m.State(tx) == w.shared && Enabled(w, a)
    modifies m, m.reauth, tx
    ensures m.State(tx) == Next(w, a).shared
    ensures executed <==> |Next(w, a).log| > |w.log|
  {
    hide Next, Enabled;
    if !TouchesSpends(a) {
      PerformOther(m, tx, w, a);
      executed := false;
    } else if a.RunTask? || a.RunPermit? {
      executed := PerformRun(m, tx, w, a);
    } else {
      executed := PerformTake(m, tx, w, a);
    }
  }
}
