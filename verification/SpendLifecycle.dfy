/**
 Send proposals and signing requests: held by the transaction service, taken out
 into prepared tasks or jobs by the wallet manager, guarded by tokens. Ids and
 tokens are random and come in as parameters, and so do clock readings and the
 outcome of every database, key and network step.
*/
module SpendLifecycle {
  import opened Wrappers
  import opened Reauth

  type Id = string

  const PROPOSAL_TTL: Time := 600_000

  /** A stored proposal or signing request, without its transaction data. */
  datatype Hold = Hold(wallet: Wallet, expiresAt: Time)

  type Holds = map<Id, Hold>

  datatype SpendError =
    | WalletLocked
    | WalletNotFound
    | WatchOnlyCannotSpend
    | NotFound
    | ProposalExpired
    | TokenRefused(reason: ReauthError)
    | Unavailable

  // ---------------------------------------------------------------------------
  // The service that holds them
  // ---------------------------------------------------------------------------

  /** The answer for a proposal: another wallet's is not found. */
  function CheckProposal(holds: Holds, id: Id, wallet: Wallet, now: Time): Result<Hold, SpendError> {
    if id !in holds || holds[id].wallet != wallet then Err(NotFound)
    else if now > holds[id].expiresAt then Err(ProposalExpired)
    else Ok(holds[id])
  }

  /** The answer for a signing request: the deadline is looked at before the wallet. */
  function CheckSigning(holds: Holds, id: Id, wallet: Wallet, now: Time): Result<Hold, SpendError> {
    if id !in holds then Err(NotFound)
    else if now > holds[id].expiresAt then Err(ProposalExpired)
    else if holds[id].wallet != wallet then Err(NotFound)
    else Ok(holds[id])
  }

  /** A check that finds an entry expired removes it. */
  function AfterCheck(holds: Holds, id: Id, r: Result<Hold, SpendError>): Holds {
    if r == Err(ProposalExpired) then holds - {id} else holds
  }

  function AfterTake(holds: Holds, id: Id, r: Result<Hold, SpendError>): Holds {
    if r.Ok? || r == Err(ProposalExpired) then holds - {id} else holds
  }

  class TxService {
    var proposals: Holds
    var pendingSigning: Holds

    constructor ()
      ensures proposals == map[] && pendingSigning == map[]
    {
      proposals, pendingSigning := map[], map[];
    }

    /** The end of `prepare_send`: from then on that wallet finds the entry up to the
        deadline and not after, and no other wallet ever does. */
    method InsertProposal(id: Id, wallet: Wallet, now: Time)
      modifies this`proposals
      ensures id in proposals && proposals == old(proposals)[id := proposals[id]]
      ensures CheckProposal(proposals, id, wallet, now + PROPOSAL_TTL) == Ok(proposals[id])
      ensures CheckProposal(proposals, id, wallet, now + PROPOSAL_TTL + 1) == Err(ProposalExpired)
      ensures forall w, t | w != wallet :: CheckProposal(proposals, id, w, t).Err?
    {
      proposals := proposals[id := Hold(wallet, now + PROPOSAL_TTL)];
    }

    /** The end of `build_signing_request`: from then on that wallet finds the entry up to the
        deadline and not after, and no other wallet ever does. */
    method InsertSigningRequest(id: Id, wallet: Wallet, now: Time)
      modifies this`pendingSigning
      ensures id in pendingSigning && pendingSigning == old(pendingSigning)[id := pendingSigning[id]]
      ensures CheckSigning(pendingSigning, id, wallet, now + PROPOSAL_TTL) == Ok(pendingSigning[id])
      ensures CheckSigning(pendingSigning, id, wallet, now + PROPOSAL_TTL + 1) == Err(ProposalExpired)
      ensures forall w, t | w != wallet :: CheckSigning(pendingSigning, id, w, t).Err?
    {
      pendingSigning := pendingSigning[id := Hold(wallet, now + PROPOSAL_TTL)];
    }

    method ValidateProposalForWallet(id: Id, wallet: Wallet, now: Time)
      returns (r: Result<Hold, SpendError>)
      modifies this`proposals
      ensures r == CheckProposal(old(proposals), id, wallet, now)
      ensures proposals == AfterCheck(old(proposals), id, r)
    {
      if id !in proposals {
        return Err(NotFound);
      }
      var record := proposals[id];
      if record.wallet != wallet {
        return Err(NotFound);
      }
      if now > record.expiresAt {
        proposals := proposals - {id};
        return Err(ProposalExpired);
      }
      return Ok(record);
    }

    method CancelSend(id: Id) returns (found: bool)
      modifies this`proposals
      ensures found <==> id in old(proposals)
      ensures proposals == old(proposals) - {id}
      ensures forall w, t :: CheckProposal(proposals, id, w, t) == Err(NotFound)
    {
      found := id in proposals;
      proposals := proposals - {id};
    }

    method TakeProposalForExecution(id: Id, wallet: Wallet, now: Time)
      returns (r: Result<Hold, SpendError>)
      modifies this`proposals
      ensures r == CheckProposal(old(proposals), id, wallet, now)
      ensures proposals == AfterTake(old(proposals), id, r)
    {
      r := ValidateProposalForWallet(id, wallet, now);
      if r.Ok? {
        proposals := proposals - {id};
      }
    }

    method ImportProposalForExecution(id: Id, wallet: Wallet, expiresAt: Time)
      modifies this`proposals
      ensures proposals == old(proposals)[id := Hold(wallet, expiresAt)]
    {
      proposals := proposals[id := Hold(wallet, expiresAt)];
    }

    method TakeSigningRequestForExecution(id: Id, wallet: Wallet, now: Time)
      returns (r: Result<Hold, SpendError>)
      modifies this`pendingSigning
      ensures r == CheckSigning(old(pendingSigning), id, wallet, now)
      ensures pendingSigning == AfterTake(old(pendingSigning), id, r)
    {
      if id !in pendingSigning {
        return Err(NotFound);
      }
      var request := pendingSigning[id];
      if now > request.expiresAt {
        pendingSigning := pendingSigning - {id};
        return Err(ProposalExpired);
      }
      if request.wallet != wallet {
        return Err(NotFound);
      }
      pendingSigning := pendingSigning - {id};
      return Ok(request);
    }

    method ImportSigningRequestForExecution(id: Id, wallet: Wallet, expiresAt: Time)
      modifies this`pendingSigning
      ensures pendingSigning == old(pendingSigning)[id := Hold(wallet, expiresAt)]
    {
      pendingSigning := pendingSigning[id := Hold(wallet, expiresAt)];
    }

    /** For the job service: no check of its own. */
    method TakeProposal(id: Id) returns (r: Option<Hold>)
      modifies this`proposals
      ensures r == if id in old(proposals) then Some(old(proposals)[id]) else None
      ensures proposals == old(proposals) - {id}
    {
      r := if id in proposals then Some(proposals[id]) else None;
      proposals := proposals - {id};
    }

    method ClearProposalsForWallet(wallet: Wallet)
      modifies this`proposals
      ensures forall id :: id in proposals <==>
                id in old(proposals) && old(proposals)[id].wallet != wallet
      ensures forall id | id in proposals :: proposals[id] == old(proposals)[id]
    {
      proposals := map id | id in proposals && proposals[id].wallet != wallet :: proposals[id];
    }

    /** `confirm_send` up to the point where it owns the proposal and builds the
        transaction. */
    method ConfirmSend(id: Id, wallet: Wallet, appDbOpens: bool, now: Time)
      returns (r: Result<Hold, SpendError>)
      modifies this`proposals
      ensures r.Ok? <==> appDbOpens && CheckProposal(old(proposals), id, wallet, now).Ok?
      ensures r.Ok? ==> r.value == old(proposals)[id]
      ensures proposals == if r.Ok? then old(proposals) - {id}
                           else AfterCheck(old(proposals), id,
                                           CheckProposal(old(proposals), id, wallet, now))
    {
      r := ValidateProposalForWallet(id, wallet, now);
      if r.Ok? {
        if !appDbOpens {
          return Err(Unavailable);
        }
        proposals := proposals - {id};
      }
    }

    /** `finalize_signing` up to the point where it owns the request. */
    method FinalizeSigning(id: Id, wallet: Wallet, backupComplete: bool, now: Time)
      returns (r: Result<Hold, SpendError>)
      modifies this`pendingSigning
      ensures r == if backupComplete then CheckSigning(old(pendingSigning), id, wallet, now)
                   else Err(Unavailable)
      ensures pendingSigning == AfterTake(old(pendingSigning), id, r)
    {
      if !backupComplete {
        return Err(Unavailable);
      }
      r := TakeSigningRequestForExecution(id, wallet, now);
    }
  }

  // ---------------------------------------------------------------------------
  // The wallet manager's steps, as functions of the shared state
  // ---------------------------------------------------------------------------

  datatype Active = Active(wallet: Wallet, watchOnly: bool, unlocked: bool)

  datatype Shared = Shared(
    active: Option<Active>, tokens: Tokens, proposals: Holds, signing: Holds)

  /** What the outside answers during one call, in the order it is asked. */
  datatype Outside = Outside(
    validatedAt: Time, keyDerives: bool, consumedAt: Time, contextResolves: bool,
    preflightPasses: bool, takenAt: Time)

  function ConsumeError(s: Shared, token: Token, wallet: Wallet): SpendError {
    TokenRefused(if Usable(s.tokens, token, wallet, Spend) then Expired else Invalid)
  }

  /** `prepare_confirm_send`: on success the token is paid, for the wallet returned. */
  function PrepareConfirm(s: Shared, id: Id, token: Token, o: Outside)
    : (Result<Wallet, SpendError>, Shared)
  {
    if s.active.None? then (Err(WalletLocked), s)
    else if s.active.value.watchOnly then (Err(WatchOnlyCannotSpend), s)
    else
      var w := s.active.value.wallet;
      var valid := CheckProposal(s.proposals, id, w, o.validatedAt);
      if valid.Err? then
        (Err(valid.error), s.(proposals := AfterCheck(s.proposals, id, valid)))
      else if !s.active.value.unlocked then (Err(WalletLocked), s)
      else if !o.keyDerives then (Err(Unavailable), s)
      else if !Accepted(s.tokens, token, w, Spend, o.consumedAt) then
        (Err(ConsumeError(s, token, w)), s)
      else
        var paid := s.(tokens := Used(s.tokens, token));
        if !o.contextResolves then (Err(Unavailable), paid) else (Ok(w), paid)
  }

  /** `prepare_confirm_send_task`. */
  function ConfirmTask(s: Shared, id: Id, token: Token, o: Outside)
    : (Result<Hold, SpendError>, Shared)
  {
    match PrepareConfirm(s, id, token, o)
    case (Err(e), s') => (Err(e), s')
    case (Ok(w), paid) =>
      if !o.preflightPasses then (Err(Unavailable), paid)
      else
        var taken := CheckProposal(paid.proposals, id, w, o.takenAt);
        (taken, paid.(proposals := AfterTake(paid.proposals, id, taken)))
  }

  /** Confirming on the shared service after `prepare_confirm_send`, as the command
      line does. */
  function ConfirmHere(s: Shared, id: Id, wallet: Wallet, walletDbOpens: bool, appDbOpens: bool,
                       now: Time): (Result<Hold, SpendError>, Shared)
  {
    if !walletDbOpens then (Err(Unavailable), s)
    else
      var valid := CheckProposal(s.proposals, id, wallet, now);
      if valid.Err? then (valid, s.(proposals := AfterCheck(s.proposals, id, valid)))
      else if !appDbOpens then (Err(Unavailable), s)
      else (valid, s.(proposals := s.proposals - {id}))
  }

  /** `start_send_job`. */
  function SendJob(s: Shared, id: Id, token: Token, o: Outside)
    : (Result<Hold, SpendError>, Shared)
  {
    if s.active.None? then (Err(WalletLocked), s)
    else if s.active.value.watchOnly then (Err(WatchOnlyCannotSpend), s)
    else if !s.active.value.unlocked then (Err(WalletLocked), s)
    else
      var w := s.active.value.wallet;
      var valid := CheckProposal(s.proposals, id, w, o.validatedAt);
      if valid.Err? then (valid, s.(proposals := AfterCheck(s.proposals, id, valid)))
      else if !o.keyDerives then (Err(Unavailable), s)
      else if !Accepted(s.tokens, token, w, Spend, o.consumedAt) then
        (Err(ConsumeError(s, token, w)), s)
      else
        var paid := s.(tokens := Used(s.tokens, token));
        if !o.contextResolves then (Err(Unavailable), paid)
        else (Ok(s.proposals[id]), paid.(proposals := s.proposals - {id}))
  }

  /** `prepare_finalize_signing_task`. */
  function SigningTask(s: Shared, id: Id, token: Token, o: Outside)
    : (Result<Hold, SpendError>, Shared)
  {
    if s.active.None? then (Err(WalletLocked), s)
    else
      var w := s.active.value.wallet;
      if !Accepted(s.tokens, token, w, Spend, o.consumedAt) then
        (Err(ConsumeError(s, token, w)), s)
      else
        var paid := s.(tokens := Used(s.tokens, token));
        if !s.active.value.unlocked then (Err(WalletLocked), paid)
        else if !o.contextResolves || !o.preflightPasses then (Err(Unavailable), paid)
        else
          var taken := CheckSigning(s.signing, id, w, o.takenAt);
          (taken, paid.(signing := AfterTake(s.signing, id, taken)))
  }

  /** `finalize_signing`, which signs within the call. */
  function SigningNow(s: Shared, id: Id, token: Token, o: Outside)
    : (Result<Hold, SpendError>, Shared)
  {
    if s.active.None? || !s.active.value.unlocked then (Err(WalletLocked), s)
    else
      var w := s.active.value.wallet;
      if !Accepted(s.tokens, token, w, Spend, o.consumedAt) then
        (Err(ConsumeError(s, token, w)), s)
      else
        var paid := s.(tokens := Used(s.tokens, token));
        if !o.contextResolves || !o.preflightPasses then (Err(Unavailable), paid)
        else
          var taken := CheckSigning(s.signing, id, w, o.takenAt);
          (taken, paid.(signing := AfterTake(s.signing, id, taken)))
  }

  // ---------------------------------------------------------------------------
  // The wallet manager
  // ---------------------------------------------------------------------------

  /** A prepared task: it owns the proposal or request it was made from. */
  datatype Task = Task(id: Id, wallet: Wallet, expiresAt: Time)

  function TaskOf(id: Id, r: Result<Hold, SpendError>): Result<Task, SpendError> {
    match r
    case Err(e) => Err(e)
    case Ok(h) => Ok(Task(id, h.wallet, h.expiresAt))
  }

  class WalletManager {
    var active: Option<Active>
    const reauth: ReauthManager

    constructor ()
      ensures active == None && fresh(reauth) && reauth.tokens == map[]
    {
      active := None;
      reauth := new ReauthManager();
    }

    function State(tx: TxService): Shared
      reads this, reauth, tx
    {
      Shared(active, reauth.tokens, tx.proposals, tx.pendingSigning)
    }

    method ConsumeReauthToken(wallet: Wallet, token: Token, purpose: Purpose, now: Time)
      returns (r: Result<(), SpendError>)
      modifies reauth
      ensures r.Ok? <==> Accepted(old(reauth.tokens), token, wallet, purpose, now)
      ensures r.Err? ==> r.error == TokenRefused(
          if Usable(old(reauth.tokens), token, wallet, purpose) then Expired else Invalid)
      ensures reauth.tokens ==
        if r.Ok? then Used(old(reauth.tokens), token) else old(reauth.tokens)
    {
      var c := reauth.ValidateAndConsume(token, wallet, purpose, now);
      match c {
        case Ok(_) => r := Ok(());
        case Err(Invalid) => r := Err(TokenRefused(Invalid));
        case Err(Expired) => r := Err(TokenRefused(Expired));
      }
    }

    /** `prepare_send`: the new proposal is for the active, unlocked wallet. */
    method PrepareSend(tx: TxService, id: Id, now: Time) returns (r: Result<(), SpendError>)
      modifies tx`proposals
      ensures r.Ok? <==> active.Some? && active.value.unlocked
      ensures tx.proposals ==
        if r.Ok? then old(tx.proposals)[id := Hold(active.value.wallet, now + PROPOSAL_TTL)]
        else old(tx.proposals)
    {
      if active.None? || !active.value.unlocked {
        return Err(WalletLocked);
      }
      tx.InsertProposal(id, active.value.wallet, now);
      return Ok(());
    }

    method BuildSigningRequest(tx: TxService, id: Id, now: Time) returns (r: Result<(), SpendError>)
      modifies tx`pendingSigning
      ensures r.Ok? <==> active.Some? && active.value.unlocked
      ensures tx.pendingSigning ==
        if r.Ok? then old(tx.pendingSigning)[id := Hold(active.value.wallet, now + PROPOSAL_TTL)]
        else old(tx.pendingSigning)
    {
      if active.None? || !active.value.unlocked {
        return Err(WalletLocked);
      }
      tx.InsertSigningRequest(id, active.value.wallet, now);
      return Ok(());
    }

    method PrepareConfirmSend(tx: TxService, id: Id, token: Token, o: Outside)
      returns (r: Result<Wallet, SpendError>)
      modifies reauth, tx
      ensures (r, State(tx)) == PrepareConfirm(old(State(tx)), id, token, o)
    {
      if active.None? {
        return Err(WalletLocked);
      }
      if active.value.watchOnly {
        return Err(WatchOnlyCannotSpend);
      }
      var wallet := active.value.wallet;
      var valid := tx.ValidateProposalForWallet(id, wallet, o.validatedAt);
      if valid.Err? {
        return Err(valid.error);
      }
      if !active.value.unlocked {
        return Err(WalletLocked);
      }
      if !o.keyDerives {
        return Err(Unavailable);
      }
      var consumed := ConsumeReauthToken(wallet, token, Spend, o.consumedAt);
      if consumed.Err? {
        return Err(consumed.error);
      }
      if !o.contextResolves {
        return Err(Unavailable);
      }
      return Ok(wallet);
    }

    method PrepareConfirmSendTask(tx: TxService, id: Id, token: Token, o: Outside)
      returns (r: Result<Task, SpendError>)
      modifies reauth, tx
      ensures var spec := ConfirmTask(old(State(tx)), id, token, o);
              State(tx) == spec.1 && r == TaskOf(id, spec.0)
    {
      var wallet := PrepareConfirmSend(tx, id, token, o);
      if wallet.Err? {
        return Err(wallet.error);
      }
      if !o.preflightPasses {
        return Err(Unavailable);
      }
      var taken := tx.TakeProposalForExecution(id, wallet.value, o.takenAt);
      if taken.Err? {
        return Err(taken.error);
      }
      return Ok(Task(id, wallet.value, taken.value.expiresAt));
    }

    method StartSendJob(tx: TxService, id: Id, token: Token, o: Outside)
      returns (r: Result<Task, SpendError>)
      modifies reauth, tx
      ensures var spec := SendJob(old(State(tx)), id, token, o);
              State(tx) == spec.1 && r == TaskOf(id, spec.0)
    {
      if active.None? {
        return Err(WalletLocked);
      }
      if active.value.watchOnly {
        return Err(WatchOnlyCannotSpend);
      }
      if !active.value.unlocked {
        return Err(WalletLocked);
      }
      var wallet := active.value.wallet;
      var valid := tx.ValidateProposalForWallet(id, wallet, o.validatedAt);
      if valid.Err? {
        return Err(valid.error);
      }
      if !o.keyDerives {
        return Err(Unavailable);
      }
      var consumed := ConsumeReauthToken(wallet, token, Spend, o.consumedAt);
      if consumed.Err? {
        return Err(consumed.error);
      }
      if !o.contextResolves {
        return Err(Unavailable);
      }
      var taken := tx.TakeProposal(id);
      if taken.None? {
        return Err(NotFound);
      }
      return Ok(Task(id, wallet, taken.value.expiresAt));
    }

    method PrepareFinalizeSigningTask(tx: TxService, id: Id, token: Token, o: Outside)
      returns (r: Result<Task, SpendError>)
      modifies reauth, tx
      ensures var spec := SigningTask(old(State(tx)), id, token, o);
              State(tx) == spec.1 && r == TaskOf(id, spec.0)
    {
      if active.None? {
        return Err(WalletLocked);
      }
      var wallet := active.value.wallet;
      var consumed := ConsumeReauthToken(wallet, token, Spend, o.consumedAt);
      if consumed.Err? {
        return Err(consumed.error);
      }
      if !active.value.unlocked {
        return Err(WalletLocked);
      }
      if !o.contextResolves || !o.preflightPasses {
        return Err(Unavailable);
      }
      var taken := tx.TakeSigningRequestForExecution(id, wallet, o.takenAt);
      if taken.Err? {
        return Err(taken.error);
      }
      return Ok(Task(id, wallet, taken.value.expiresAt));
    }

    method FinalizeSigning(tx: TxService, id: Id, token: Token, o: Outside)
      returns (r: Result<Task, SpendError>)
      modifies reauth, tx
      ensures var spec := SigningNow(old(State(tx)), id, token, o);
              State(tx) == spec.1 && r == TaskOf(id, spec.0)
    {
      if active.None? {
        return Err(WalletLocked);
      }
      var wallet := active.value.wallet;
      if !active.value.unlocked {
        return Err(WalletLocked);
      }
      var consumed := ConsumeReauthToken(wallet, token, Spend, o.consumedAt);
      if consumed.Err? {
        return Err(consumed.error);
      }
      if !o.contextResolves {
        return Err(Unavailable);
      }
      var taken := tx.FinalizeSigning(id, wallet, o.preflightPasses, o.takenAt);
      if taken.Err? {
        return Err(taken.error);
      }
      return Ok(Task(id, wallet, taken.value.expiresAt));
    }

    /** A prepared send goes ahead exactly when its databases open and its own
        deadline has not passed. */
    static method ExecuteConfirmSendTask(
      task: Task, walletDbOpens: bool, appDbOpens: bool, now: Time
    ) returns (goesAhead: bool)
      ensures goesAhead <==> walletDbOpens && appDbOpens && now <= task.expiresAt
    {
      if !walletDbOpens {
        return false;
      }
      var tx := new TxService();
      tx.ImportProposalForExecution(task.id, task.wallet, task.expiresAt);
      var r := tx.ConfirmSend(task.id, task.wallet, appDbOpens, now);
      return r.Ok?;
    }

    /** The second phase of a send on the command line. */
    method ConfirmOnSharedService(
      tx: TxService, id: Id, wallet: Wallet, walletDbOpens: bool, appDbOpens: bool, now: Time
    ) returns (goesAhead: bool)
      modifies tx`proposals
      ensures var spec := ConfirmHere(old(State(tx)), id, wallet, walletDbOpens, appDbOpens, now);
              State(tx) == spec.1 && (goesAhead <==> spec.0.Ok?)
    {
      if !walletDbOpens {
        return false;
      }
      var r := tx.ConfirmSend(id, wallet, appDbOpens, now);
      return r.Ok?;
    }

    static method ExecuteFinalizeSigningTask(
      task: Task, databasesOpen: bool, backupComplete: bool, now: Time
    ) returns (goesAhead: bool)
      ensures goesAhead <==> databasesOpen && backupComplete && now <= task.expiresAt
    {
      if !databasesOpen {
        return false;
      }
      var tx := new TxService();
      tx.ImportSigningRequestForExecution(task.id, task.wallet, task.expiresAt);
      var r := tx.FinalizeSigning(task.id, task.wallet, backupComplete, now);
      return r.Ok?;
    }

    /** `load_wallet`: another wallet, or a locked one, comes up locked. */
    method LoadWallet(wallet: Wallet, watchOnly: bool)
      modifies this`active
      ensures active == Loaded(old(active), wallet, watchOnly)
    {
      var open := active.Some? && active.value.wallet == wallet && active.value.unlocked;
      active := Some(Active(wallet, watchOnly, open));
    }

    method UnlockWallet(wallet: Wallet, watchOnly: bool)
      modifies this`active
      ensures active == Some(Active(wallet, watchOnly, true))
    {
      active := Some(Active(wallet, watchOnly, true));
    }

    method LockWallet(wallet: Wallet)
      modifies this`active
      ensures active == Locked(old(active), wallet)
    {
      if active.None? || active.value.wallet != wallet {
        return;
      }
      active := Some(active.value.(unlocked := false));
    }

    method LogoutWallet(tx: TxService, wallet: Wallet) returns (r: Result<(), SpendError>)
      modifies this`active, tx`proposals
      ensures State(tx) == LoggedOut(old(State(tx)), wallet)
      ensures r.Ok? <==> old(active).Some? && old(active).value.wallet == wallet
    {
      if active.None? || active.value.wallet != wallet {
        return Err(WalletNotFound);
      }
      tx.ClearProposalsForWallet(wallet);
      active := None;
      r := Ok(());
    }
  }

  function Loaded(active: Option<Active>, wallet: Wallet, watchOnly: bool): Option<Active> {
    Some(Active(wallet, watchOnly,
      active.Some? && active.value.wallet == wallet && active.value.unlocked))
  }

  function Locked(active: Option<Active>, wallet: Wallet): Option<Active> {
    if active.Some? && active.value.wallet == wallet
    then Some(active.value.(unlocked := false)) else active
  }

  function LoggedOut(s: Shared, wallet: Wallet): Shared {
    if s.active.Some? && s.active.value.wallet == wallet then
      s.(active := None,
         proposals := map id | id in s.proposals && s.proposals[id].wallet != wallet
                      :: s.proposals[id])
    else s
  }
}
