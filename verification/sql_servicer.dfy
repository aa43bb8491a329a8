/** The SQL-backed servicer: each endpoint is one transaction over the
  * connection's tables. An endpoint either refuses with a message and
  * changes nothing, raises (the transaction rolls back, changing nothing),
  * or makes exactly the changes its result function names. */
module SqlServicing {
  import opened Wrappers
  import opened Messages
  import opened Text
  import opened Core
  import opened Betting
  import opened SqlModel
  import opened SqlConnection

  // ---------------------------------------------------------------------
  // Refusal messages.

  const MUST_LOG_IN_TO_BET := "must log in to bet"
  const ZERO_STAKE := "betting 0 cents doesn't make sense"
  const NO_SUCH_PREDICTION := "no such prediction"
  const BET_AGAINST_SELF := "can't bet against yourself"
  const CREATOR_DOESNT_TRUST_YOU := "creator doesn't trust you"
  const YOU_DONT_TRUST_CREATOR := "you don't trust the creator"
  const NOT_OPEN := "prediction is no longer open for betting"
  const ALREADY_RESOLVED := "prediction has already resolved"
  const ZERO_COUNTER_STAKE := "creator would bet 0 cents against you"
  const ALREADY_TRUSTED := "you already trust the creator, so you should be using the Stake endpoint, not QueueStake"

  /** The refusal naming the legal maximum, in whole dollars. */
  const BIG_BETS_APOLOGY := " staked in a single prediction; sorry, I hate to be paternalistic, but this site is not yet ready for Big Bets."

  function BettorCapMessage(existing: nat, stake: nat): (m: string)
    ensures |m| > |BETTOR_LIMIT_PREFIX| && m[..|BETTOR_LIMIT_PREFIX|] == BETTOR_LIMIT_PREFIX
    ensures |m| >= |BIG_BETS_APOLOGY| && m[|m| - |BIG_BETS_APOLOGY|..] == BIG_BETS_APOLOGY
  {
    var head := BETTOR_LIMIT_PREFIX + NatToDecimal(existing / 100) + " plus your new stake of ~$" + NatToDecimal(stake / 100)
      + " would put you over the limit of $" + NatToDecimal(MAX_LEGAL_STAKE_CENTS / 100);
    assert (head + BIG_BETS_APOLOGY)[..|BETTOR_LIMIT_PREFIX|] == head[..|BETTOR_LIMIT_PREFIX|];
    head + BIG_BETS_APOLOGY
  }

  /** The three limit refusals read differently, so a bettor can tell which
    * limit stopped the bet. */
  lemma LimitMessagesDiffer(existing: int, creatorStake: int, maximum: nat, existingBettor: nat, stake: nat)
    ensures ToleranceMessage(existing, creatorStake, maximum) != BettorCapMessage(existingBettor, stake)
    ensures ToleranceMessage(existing, creatorStake, maximum) != ZERO_COUNTER_STAKE
    ensures BettorCapMessage(existingBettor, stake) != ZERO_COUNTER_STAKE
  {
    var t := ToleranceMessage(existing, creatorStake, maximum);
    var b := BettorCapMessage(existingBettor, stake);
    assert t[0] == TOLERANCE_PREFIX[0] == 'b';
    assert b[0] == BETTOR_LIMIT_PREFIX[0] == 'y';
    assert ZERO_COUNTER_STAKE[0] == 'c';
  }

  // ---------------------------------------------------------------------
  // Stake and QueueStake.

  /** The three limit checks a bet must pass, in the servicer's order: a
    * positive counter-stake, the creator's tolerance on the bet's side, and
    * the bettor's legal maximum on that side. */
  predicate WithinLimits(db: Database, bettor: Username, pid: PredictionId, skeptic: bool, stake: nat)
    requires pid in db.predictions && PredictionRowOk(db.predictions[pid])
  {
    var p := db.predictions[pid];
    var creatorStake := CounterStake(p, skeptic, stake);
    && creatorStake > 0
    && CreatorExposure(db.trades, pid, skeptic) + creatorStake <= p.maximumStakeCents
    && BettorExposure(db.trades, pid, bettor, skeptic) + stake <= MAX_LEGAL_STAKE_CENTS
  }

  function LimitRefusal(db: Database, bettor: Username, pid: PredictionId, skeptic: bool, stake: nat): (m: Option<string>)
    requires pid in db.predictions && PredictionRowOk(db.predictions[pid])
    ensures m.None? <==> WithinLimits(db, bettor, pid, skeptic, stake)
  {
    var p := db.predictions[pid];
    var creatorStake := CounterStake(p, skeptic, stake);
    var existingCreator := CreatorExposure(db.trades, pid, skeptic);
    var existingBettor := BettorExposure(db.trades, pid, bettor, skeptic);
    if creatorStake == 0 then Some(ZERO_COUNTER_STAKE)
    else if existingCreator + creatorStake > p.maximumStakeCents then
      Some(ToleranceMessage(existingCreator, creatorStake, p.maximumStakeCents))
    else if existingBettor + stake > MAX_LEGAL_STAKE_CENTS then Some(BettorCapMessage(existingBettor, stake))
    else None
  }

  /** When a bet is accepted: a logged-in bettor stakes a positive amount on
    * an existing prediction someone else created; each trusts the other;
    * betting is open; the prediction has not resolved; and the bet is within
    * the limits. */
  predicate StakeAllowed(db: Database, actor: Option<Username>, request: StakeRequest<PredictionId>, now: int)
    requires SchemaOk(db)
  {
    && actor.Some?
    && request.bettorStakeCents > 0
    && request.predictionId in db.predictions
    && var p := db.predictions[request.predictionId];
       && p.creator != actor.value
       && Trusts(db, p.creator, actor.value)
       && Trusts(db, actor.value, p.creator)
       && p.createdAtUnixtime <= now <= p.closesAtUnixtime
       && !HasResolved(db, request.predictionId)
       && WithinLimits(db, actor.value, request.predictionId, request.bettorIsASkeptic, request.bettorStakeCents)
  }

  /** The first guard of Stake that fails, as its message. */
  function StakeRefusal(db: Database, actor: Option<Username>, request: StakeRequest<PredictionId>, now: int): (m: Option<string>)
    requires SchemaOk(db)
    ensures m.None? <==> StakeAllowed(db, actor, request, now)
  {
    if actor.None? then Some(MUST_LOG_IN_TO_BET)
    else if request.bettorStakeCents == 0 then Some(ZERO_STAKE)
    else if request.predictionId !in db.predictions then Some(NO_SUCH_PREDICTION)
    else
      var p := db.predictions[request.predictionId];
      var bettor := actor.value;
      if p.creator == bettor then Some(BET_AGAINST_SELF)
      else if !Trusts(db, p.creator, bettor) then Some(CREATOR_DOESNT_TRUST_YOU)
      else if !Trusts(db, bettor, p.creator) then Some(YOU_DONT_TRUST_CREATOR)
      else if !(p.createdAtUnixtime <= now <= p.closesAtUnixtime) then Some(NOT_OPEN)
      else if HasResolved(db, request.predictionId) then Some(ALREADY_RESOLVED)
      else LimitRefusal(db, bettor, request.predictionId, request.bettorIsASkeptic, request.bettorStakeCents)
  }

  /** The trade an accepted bet inserts. */
  function StakedTrade(db: Database, bettor: Username, request: StakeRequest<PredictionId>, now: int): TradeRow
    requires request.predictionId in db.predictions && PredictionRowOk(db.predictions[request.predictionId])
  {
    TradeRow(request.predictionId, bettor, request.bettorIsASkeptic, request.bettorStakeCents,
      CounterStake(db.predictions[request.predictionId], request.bettorIsASkeptic, request.bettorStakeCents), now)
  }

  /** After an accepted bet the creator's exposure on the bet's side is the
    * old exposure plus the counter-stake and within the prediction's
    * maximum, and the bettor's total on that side is within the legal
    * maximum. */
  lemma StakeStaysWithinLimits(db: Database, actor: Option<Username>, request: StakeRequest<PredictionId>, now: int)
    requires SchemaOk(db) && StakeAllowed(db, actor, request, now)
    ensures var t := StakedTrade(db, actor.value, request, now);
      var trades := db.trades + [t];
      && CreatorExposure(trades, request.predictionId, request.bettorIsASkeptic)
           == CreatorExposure(db.trades, request.predictionId, request.bettorIsASkeptic) + t.creatorStakeCents
      && CreatorExposure(trades, request.predictionId, request.bettorIsASkeptic)
           <= db.predictions[request.predictionId].maximumStakeCents
      && BettorExposure(trades, request.predictionId, actor.value, request.bettorIsASkeptic) <= MAX_LEGAL_STAKE_CENTS
  {
    var t := StakedTrade(db, actor.value, request, now);
    CreatorExposureAppend(db.trades, t, request.predictionId, request.bettorIsASkeptic);
    BettorExposureAppend(db.trades, t, request.predictionId, actor.value, request.bettorIsASkeptic);
  }

  /** An accepted bet keeps the schema and both limits on every prediction. */
  lemma StakeKeepsValid(db: Database, actor: Option<Username>, request: StakeRequest<PredictionId>, now: int)
    requires Valid(db) && StakeAllowed(db, actor, request, now)
    requires actor.value in db.users
    ensures Valid(db.(trades := db.trades + [StakedTrade(db, actor.value, request, now)]))
  {
    AppendTradeKeepsValid(db, StakedTrade(db, actor.value, request, now));
  }

  /** When a bet is queued: as for Stake, except that the creator must not
    * yet trust the bettor (the bettor must trust the creator). */
  predicate QueueStakeAllowed(db: Database, actor: Option<Username>, request: StakeRequest<PredictionId>, now: int)
    requires SchemaOk(db)
  {
    && actor.Some?
    && request.bettorStakeCents > 0
    && request.predictionId in db.predictions
    && var p := db.predictions[request.predictionId];
       && p.creator != actor.value
       && Trusts(db, actor.value, p.creator)
       && p.createdAtUnixtime <= now <= p.closesAtUnixtime
       && !Trusts(db, p.creator, actor.value)
       && !HasResolved(db, request.predictionId)
       && WithinLimits(db, actor.value, request.predictionId, request.bettorIsASkeptic, request.bettorStakeCents)
  }

  function QueueStakeRefusal(db: Database, actor: Option<Username>, request: StakeRequest<PredictionId>, now: int): (m: Option<string>)
    requires SchemaOk(db)
    ensures m.None? <==> QueueStakeAllowed(db, actor, request, now)
  {
    if actor.None? then Some(MUST_LOG_IN_TO_BET)
    else if request.bettorStakeCents == 0 then Some(ZERO_STAKE)
    else if request.predictionId !in db.predictions then Some(NO_SUCH_PREDICTION)
    else
      var p := db.predictions[request.predictionId];
      var bettor := actor.value;
      if p.creator == bettor then Some(BET_AGAINST_SELF)
      else if !Trusts(db, bettor, p.creator) then Some(YOU_DONT_TRUST_CREATOR)
      else if !(p.createdAtUnixtime <= now <= p.closesAtUnixtime) then Some(NOT_OPEN)
      else if Trusts(db, bettor, p.creator) && Trusts(db, p.creator, bettor) then Some(ALREADY_TRUSTED)
      else if HasResolved(db, request.predictionId) then Some(ALREADY_RESOLVED)
      else LimitRefusal(db, bettor, request.predictionId, request.bettorIsASkeptic, request.bettorStakeCents)
  }

  function QueuedStake(db: Database, bettor: Username, request: StakeRequest<PredictionId>, now: int): QueuedTradeRow
    requires request.predictionId in db.predictions && PredictionRowOk(db.predictions[request.predictionId])
  {
    QueuedTradeRow(request.predictionId, bettor, request.bettorIsASkeptic, request.bettorStakeCents,
      CounterStake(db.predictions[request.predictionId], request.bettorIsASkeptic, request.bettorStakeCents), now)
  }

  /** Stake and QueueStake exclude each other: a bet one accepts the other
    * refuses. */
  lemma StakeAndQueueStakeExclusive(db: Database, actor: Option<Username>, request: StakeRequest<PredictionId>, now: int)
    requires SchemaOk(db)
    ensures !(StakeAllowed(db, actor, request, now) && QueueStakeAllowed(db, actor, request, now))
    ensures QueueStakeAllowed(db, actor, request, now) ==> StakeRefusal(db, actor, request, now) == Some(CREATOR_DOESNT_TRUST_YOU)
  {
  }

  // ---------------------------------------------------------------------
  // Resolve.

  const MAX_NOTES_LENGTH := 1024

  function ResolveRefusal(db: Database, actor: Option<Username>, request: ResolveRequest<PredictionId>): (m: Option<string>)
    ensures m.None? <==>
      && actor.Some?
      && request.resolution.Known?
      && |request.notes| <= MAX_NOTES_LENGTH
      && request.predictionId in db.predictions
      && db.predictions[request.predictionId].creator == actor.value
  {
    if actor.None? then Some("must log in to resolve a prediction")
    else if request.resolution.Unrecognized? then Some("unrecognized resolution")
    else if |request.notes| > MAX_NOTES_LENGTH then Some("unreasonably long notes")
    else if request.predictionId !in db.predictions then Some(NO_SUCH_PREDICTION)
    else if actor.value != db.predictions[request.predictionId].creator then Some("you are not the creator")
    else None
  }

  function ResolutionRowFor(request: ResolveRequest<PredictionId>, now: int): ResolutionRow
    requires request.resolution.Known?
  {
    ResolutionRow(request.predictionId, request.resolution.resolution, now, request.notes)
  }

  /** Whether the prediction already has a resolution at time `now`, which
    * the resolutions table's primary key forbids a second of. */
  predicate ResolutionTaken(db: Database, pid: PredictionId, now: int) {
    exists r :: r in db.resolutions && r.predictionId == pid && r.resolvedAtUnixtime == now
  }

  /** A resolution at a time no earlier than the prediction's others becomes
    * its latest: betting stops exactly when it is not "none yet". */
  lemma ResolveDecidesBetting(db: Database, request: ResolveRequest<PredictionId>, now: int)
    requires SchemaOk(db) && request.resolution.Known? && request.predictionId in db.predictions
    requires !ResolutionTaken(db, request.predictionId, now)
    requires forall r :: r in db.resolutions && r.predictionId == request.predictionId ==> r.resolvedAtUnixtime <= now
    ensures var d := db.(resolutions := db.resolutions + [ResolutionRowFor(request, now)]);
      HasResolved(d, request.predictionId) <==> request.resolution.resolution != ResolutionNoneYet
  {
    var row := ResolutionRowFor(request, now);
    var d := db.(resolutions := db.resolutions + [row]);
    assert ResolutionKeysUnique(d.resolutions);
    LatestIsTheGreatest(d, request.predictionId, row);
  }

  // ---------------------------------------------------------------------
  // SetTrusted.

  function SetTrustedRefusal(db: Database, actor: Option<Username>, who: Username): (m: Option<string>)
    ensures m.None? <==> actor.Some? && who != actor.value && who in db.users
  {
    if actor.None? then Some("must log in to trust folks")
    else if who == actor.value then Some("cannot set trust for self")
    else if who !in db.users then Some("no such user")
    else None
  }

  /** The tables after SetTrusted: trust set as asked (dequeuing if it became
    * mutual) and, when trust is withdrawn, the user's invitations to `who`
    * deleted. */
  function TrustSetResult(db: Database, user: Username, who: Username, trusted: bool): (d: Database)
    ensures Trusts(d, user, who) <==> user == who || trusted
    ensures !trusted ==> !InvitationOutstanding(d, user, who)
  {
    SetTrustedDecidesTrust(db, user, who, trusted, user, who);
    var d := SetTrustedResult(db, user, who, trusted);
    if trusted then d else WithoutInvitation(d, user, who)
  }

  lemma TrustSetKeepsValid(db: Database, user: Username, who: Username, trusted: bool)
    requires Valid(db) && user in db.users && who in db.users
    ensures Valid(TrustSetResult(db, user, who, trusted))
  {
    SetTrustedKeepsValid(db, user, who, trusted);
    if !trusted {
      var d := SetTrustedResult(db, user, who, trusted);
      InvitationsTableIsFree(d, WithoutInvitation(d, user, who));
    }
  }

  lemma TrustSetKeepsSchema(db: Database, user: Username, who: Username, trusted: bool)
    requires SchemaOk(db) && user in db.users && who in db.users
    ensures SchemaOk(TrustSetResult(db, user, who, trusted))
  {
    SetTrustedKeepsSchema(db, user, who, trusted);
    if !trusted {
      var d := SetTrustedResult(db, user, who, trusted);
      InvitationsTableIsFree(d, WithoutInvitation(d, user, who));
    }
  }

  // ---------------------------------------------------------------------
  // Invitations.

  const RECIPIENT_REFUSES_INVITATIONS := "recipient user does not accept email invitations"

  function SendInvitationRefusal(db: Database, actor: Option<Username>, recipient: Username): (m: Option<string>)
    requires actor.Some? ==> actor.value in db.users
    ensures m.None? <==>
      && actor.Some?
      && db.users[actor.value].emailFlowState.Verified?
      && recipient in db.users
      && db.users[recipient].allowEmailInvitations
      && db.users[recipient].emailFlowState.Verified?
      && !InvitationOutstanding(db, actor.value, recipient)
  {
    if actor.None? then Some("must log in to create an invitation")
    else if !db.users[actor.value].emailFlowState.Verified? then
      Some("you need to add an email address before you can send invitations")
    else if recipient !in db.users then Some("recipient user does not exist")
    else if !db.users[recipient].allowEmailInvitations then Some(RECIPIENT_REFUSES_INVITATIONS)
    else if !db.users[recipient].emailFlowState.Verified? then Some(RECIPIENT_REFUSES_INVITATIONS)
    else if InvitationOutstanding(db, actor.value, recipient) then Some("I've already asked this user if they trust you")
    else None
  }

  /** The tables after an invitation is sent: the inviter trusts the
    * recipient and the invitation `nonce` is outstanding. */
  function InvitedResult(db: Database, inviter: Username, recipient: Username, nonce: Nonce): (d: Database)
    ensures d.emailInvitations == db.emailInvitations[nonce := InvitationRow(inviter, recipient)]
  {
    var d := SetTrustedResult(db, inviter, recipient, true);
    d.(emailInvitations := d.emailInvitations[nonce := InvitationRow(inviter, recipient)])
  }

  /** After an invitation is sent, a second one to the same recipient is
    * refused. */
  lemma SecondInvitationRefused(db: Database, inviter: Username, recipient: Username, nonce: Nonce)
    requires inviter in db.users
    ensures var d := InvitedResult(db, inviter, recipient, nonce);
      inviter in d.users && SendInvitationRefusal(d, Some(inviter), recipient).Some?
  {
    var d := InvitedResult(db, inviter, recipient, nonce);
    assert d.emailInvitations[nonce] == InvitationRow(inviter, recipient);
    assert InvitationOutstanding(d, inviter, recipient);
  }

  /** Sending an invitation and accepting it leaves the two users trusting
    * each other and the nonce spent. */
  lemma InvitationMakesTrustMutual(db: Database, inviter: Username, recipient: Username, nonce: Nonce)
    ensures var sent := InvitedResult(db, inviter, recipient, nonce);
      && nonce in sent.emailInvitations
      && var d := AcceptedResult(sent, nonce);
         Trusts(d, inviter, recipient) && Trusts(d, recipient, inviter) && nonce !in d.emailInvitations
  {
    var sent := InvitedResult(db, inviter, recipient, nonce);
    SetTrustedDecidesTrust(db, inviter, recipient, true, inviter, recipient);
    assert sent.relationships == SetTrustedResult(db, inviter, recipient, true).relationships;
    assert Trusts(sent, inviter, recipient);
    SetTrustedDecidesTrust(sent, recipient, inviter, true, inviter, recipient);
  }

  lemma InvitedKeepsSchema(db: Database, inviter: Username, recipient: Username, nonce: Nonce)
    requires SchemaOk(db) && inviter in db.users && recipient in db.users
    ensures SchemaOk(InvitedResult(db, inviter, recipient, nonce))
  {
    SetTrustedKeepsSchema(db, inviter, recipient, true);
    InvitationsTableIsFree(SetTrustedResult(db, inviter, recipient, true), InvitedResult(db, inviter, recipient, nonce));
  }

  lemma InvitedKeepsValid(db: Database, inviter: Username, recipient: Username, nonce: Nonce)
    requires Valid(db) && inviter in db.users && recipient in db.users
    ensures Valid(InvitedResult(db, inviter, recipient, nonce))
  {
    SetTrustedKeepsValid(db, inviter, recipient, true);
    InvitationsTableIsFree(SetTrustedResult(db, inviter, recipient, true), InvitedResult(db, inviter, recipient, nonce));
  }

  lemma AcceptedKeepsSchema(db: Database, nonce: Nonce)
    requires SchemaOk(db) && nonce in db.emailInvitations
    ensures SchemaOk(AcceptedResult(db, nonce))
  {
    var inv := db.emailInvitations[nonce];
    SetTrustedKeepsSchema(db, inv.recipient, inv.inviter, true);
    InvitationsTableIsFree(SetTrustedResult(db, inv.recipient, inv.inviter, true), AcceptedResult(db, nonce));
  }

  lemma AcceptedKeepsValid(db: Database, nonce: Nonce)
    requires Valid(db) && nonce in db.emailInvitations
    ensures Valid(AcceptedResult(db, nonce))
  {
    var inv := db.emailInvitations[nonce];
    SetTrustedKeepsValid(db, inv.recipient, inv.inviter, true);
    InvitationsTableIsFree(SetTrustedResult(db, inv.recipient, inv.inviter, true), AcceptedResult(db, nonce));
  }

  // ---------------------------------------------------------------------
  // E-mail verification.

  function SetEmailRefusal(actor: Option<Username>, email: string): (m: Option<string>)
    ensures m.None? <==> actor.Some? && DescribeSetEmailRequestProblems(email).None?
  {
    if actor.None? then Some("must log in to set an email")
    else DescribeSetEmailRequestProblems(email)
  }

  /** The state SetEmail moves to: no address means unstarted; an address
    * means a code was sent to it, kept only as its hash. */
  function NewEmailState(kdf: Scrypt, email: string, code: string, salt: Bytes): (s: EmailFlowState)
    requires |salt| == 4
    ensures s.Unstarted? <==> email == ""
    ensures !s.Verified?
    ensures s.CodeSent? ==> s.email == email && CheckPassword(kdf, code, s.code)
  {
    if email != "" then CodeSent(email, NewHashedPassword(kdf, code, salt)) else Unstarted
  }

  const NO_PENDING_FLOW := "you have no pending email-verification flow"

  function VerifyEmailRefusal(kdf: Scrypt, actor: Option<Username>, state: EmailFlowState, code: string): (m: Option<string>)
    ensures m.None? <==> actor.Some? && state.CodeSent? && CheckPassword(kdf, code, state.code)
    ensures actor.Some? && !state.CodeSent? ==> m == Some(NO_PENDING_FLOW)
  {
    if actor.None? then Some("must log in to verify your email address")
    else if !state.CodeSent? then Some(NO_PENDING_FLOW)
    else if !CheckPassword(kdf, code, state.code) then Some("bad code")
    else None
  }

  /** The state machine round trip: after SetEmail with an address and the
    * code sent to it, VerifyEmail with that code succeeds and moves to
    * verified with that address; verifying again finds no pending flow. */
  lemma EmailVerificationRoundTrip(kdf: Scrypt, user: Username, email: string, code: string, salt: Bytes)
    requires |salt| == 4 && email != ""
    ensures var s := NewEmailState(kdf, email, code, salt);
      && VerifyEmailRefusal(kdf, Some(user), s, code).None?
      && Verified(s.email) == Verified(email)
      && VerifyEmailRefusal(kdf, Some(user), Verified(s.email), code) == Some(NO_PENDING_FLOW)
  {
  }

  // ---------------------------------------------------------------------
  // Settings.

  /** Applying the same settings update twice is the same as once. */
  lemma UpdateSettingsIdempotent(row: UserRow, request: UpdateSettingsRequest)
    ensures UpdatedSettings(UpdatedSettings(row, request), request) == UpdatedSettings(row, request)
  {
  }

  // ---------------------------------------------------------------------
  // CreatePrediction and RegisterUsername.

  /** The row a new prediction is inserted as: created now, closing after
    * the requested number of seconds, no reminder sent yet. */
  function NewPredictionRow(request: CreatePredictionRequest, creator: Username, now: int): PredictionRow
    requires request.certainty.Some?
  {
    PredictionRow(request.prediction, request.certainty.value, request.maximumStakeCents, now,
      now + request.openSeconds, request.resolvesAtUnixtime, request.specialRules, creator, false)
  }

  /** The request validator and the predictions table's CHECK constraints
    * disagree in two places: a valid request is stored exactly when its low
    * probability is below 1 and its maximum stake is positive. */
  lemma ValidRequestsTheSchemaRejects(request: CreatePredictionRequest, creator: Username, now: int)
    requires ValidCreatePredictionRequest(request, now)
    ensures PredictionRowOk(NewPredictionRow(request, creator, now)) <==>
      request.certainty.value.low < 1.0 && request.maximumStakeCents > 0
  {
  }

  const REGISTRATION_TOKEN_TTL_SECONDS := 60 * 60 * 24 * 365

  function RegisterUsernameRefusal(db: Database, actor: Option<Username>, username: Username, password: string): (m: Option<string>)
    ensures m.None? <==>
      actor.None? && ValidUsername(username) && 1 <= |password| <= 256 && username !in db.users
  {
    if actor.Some? then Some("already authenticated; first, log out")
    else if DescribeUsernameProblems(username).Some? then DescribeUsernameProblems(username)
    else if DescribePasswordProblems(password).Some? then DescribePasswordProblems(password)
    else if username in db.users then Some("username taken")
    else None
  }

  // ---------------------------------------------------------------------
  // The servicer.

  class SqlServicer {
    const conn: SqlConn
    const mint: TokenMint
    const kdf: Scrypt

    constructor(conn: SqlConn, mint: TokenMint, kdf: Scrypt)
      ensures this.conn == conn && this.mint == mint && this.kdf == kdf
    {
      this.conn := conn;
      this.mint := mint;
      this.kdf := kdf;
    }

    /** The user a request acts for: the owner of its token, if the token
      * checks out at `now`. */
    function Actor(token: Option<AuthToken>, now: int): Option<Username> {
      TokenOwner(CheckToken(mint, token, now))
    }

    method Stake(token: Option<AuthToken>, request: StakeRequest<PredictionId>, now: int) returns (r: Result<PredictionView, Failure>)
      requires SchemaOk(conn.db)
      requires Actor(token, now).Some? ==> Actor(token, now).value in conn.db.users
      modifies conn
      ensures SchemaOk(conn.db)
      ensures r.Ok? <==> StakeAllowed(old(conn.db), Actor(token, now), request, now)
      ensures r.Err? ==> (
        && conn.db == old(conn.db)
        && r.error == Catchall(StakeRefusal(old(conn.db), Actor(token, now), request, now).value))
      ensures r.Ok? ==>
        && conn.db == old(conn.db).(trades := old(conn.db).trades + [StakedTrade(old(conn.db), Actor(token, now).value, request, now)])
        && r.value == ViewPrediction(conn.db, Actor(token, now), request.predictionId).value
      ensures Valid(old(conn.db)) ==> Valid(conn.db)
    {
      var actor := Actor(token, now);
      var refusal := StakeRefusal(conn.db, actor, request, now);
      if refusal.Some? {
        return Err(Catchall(refusal.value));
      }
      ghost var before := conn.db;
      var trade := StakedTrade(conn.db, actor.value, request, now);
      var err := conn.Stake(trade);
      AppendTradeKeepsSchema(before, trade);
      if Valid(before) {
        StakeKeepsValid(before, actor, request, now);
      }
      r := Ok(ViewPrediction(conn.db, actor, request.predictionId).value);
    }

    method QueueStake(token: Option<AuthToken>, request: StakeRequest<PredictionId>, now: int) returns (r: Result<PredictionView, Failure>)
      requires SchemaOk(conn.db)
      requires Actor(token, now).Some? ==> Actor(token, now).value in conn.db.users
      modifies conn
      ensures SchemaOk(conn.db)
      ensures r.Ok? <==> QueueStakeAllowed(old(conn.db), Actor(token, now), request, now)
      ensures r.Err? ==> (
        && conn.db == old(conn.db)
        && r.error == Catchall(QueueStakeRefusal(old(conn.db), Actor(token, now), request, now).value))
      ensures r.Ok? ==>
        && conn.db == old(conn.db).(queuedTrades := old(conn.db).queuedTrades + [QueuedStake(old(conn.db), Actor(token, now).value, request, now)])
        && r.value == ViewPrediction(conn.db, Actor(token, now), request.predictionId).value
      ensures Valid(old(conn.db)) ==> Valid(conn.db)
    {
      var actor := Actor(token, now);
      var refusal := QueueStakeRefusal(conn.db, actor, request, now);
      if refusal.Some? {
        return Err(Catchall(refusal.value));
      }
      ghost var before := conn.db;
      var queued := QueuedStake(conn.db, actor.value, request, now);
      var err := conn.QueueStake(queued);
      AppendQueuedKeepsSchema(before, queued);
      r := Ok(ViewPrediction(conn.db, actor, request.predictionId).value);
    }

    method Resolve(token: Option<AuthToken>, request: ResolveRequest<PredictionId>, now: int) returns (r: Result<PredictionView, Failure>)
      requires SchemaOk(conn.db)
      requires Actor(token, now).Some? ==> Actor(token, now).value in conn.db.users
      modifies conn
      ensures SchemaOk(conn.db)
      ensures r.Ok? <==>
        ResolveRefusal(old(conn.db), Actor(token, now), request).None? && !ResolutionTaken(old(conn.db), request.predictionId, now)
      ensures r.Err? ==> conn.db == old(conn.db)
      ensures r.Err? && ResolveRefusal(old(conn.db), Actor(token, now), request).Some? ==>
        r.error == Catchall(ResolveRefusal(old(conn.db), Actor(token, now), request).value)
      ensures r.Err? && ResolveRefusal(old(conn.db), Actor(token, now), request).None? ==> r.error == Raised(IntegrityError)
      ensures r.Ok? ==>
        && conn.db == old(conn.db).(resolutions := old(conn.db).resolutions + [ResolutionRowFor(request, now)])
        && r.value == ViewPrediction(conn.db, Actor(token, now), request.predictionId).value
      ensures Valid(old(conn.db)) ==> Valid(conn.db)
    {
      var actor := Actor(token, now);
      var refusal := ResolveRefusal(conn.db, actor, request);
      if refusal.Some? {
        return Err(Catchall(refusal.value));
      }
      ghost var before := conn.db;
      var err := conn.Resolve(ResolutionRowFor(request, now));
      if err.Some? {
        return Err(Raised(err.value));
      }
      AppendResolutionKeepsSchema(before, ResolutionRowFor(request, now));
      r := Ok(ViewPrediction(conn.db, actor, request.predictionId).value);
    }

    method SetTrusted(token: Option<AuthToken>, who: Username, trusted: bool, now: int) returns (r: Result<GenericUserInfo, Failure>)
      requires SchemaOk(conn.db)
      requires Actor(token, now).Some? ==> Actor(token, now).value in conn.db.users
      modifies conn
      ensures SchemaOk(conn.db)
      ensures r.Ok? <==> SetTrustedRefusal(old(conn.db), Actor(token, now), who).None?
      ensures r.Err? ==> (
        && conn.db == old(conn.db)
        && r.error == Catchall(SetTrustedRefusal(old(conn.db), Actor(token, now), who).value))
      ensures r.Ok? ==>
        && conn.db == TrustSetResult(old(conn.db), Actor(token, now).value, who, trusted)
        && r.value == GetSettings(conn.db, Actor(token, now).value, {}).value
      ensures Valid(old(conn.db)) ==> Valid(conn.db)
    {
      var actor := Actor(token, now);
      var refusal := SetTrustedRefusal(conn.db, actor, who);
      if refusal.Some? {
        return Err(Catchall(refusal.value));
      }
      ghost var before := conn.db;
      var err := conn.SetTrusted(actor.value, who, trusted);
      assert err.None?;  // both users exist, so the row satisfies its foreign keys
      if !trusted {
        conn.DeleteInvitation(actor.value, who);
      }
      TrustSetKeepsSchema(before, actor.value, who, trusted);
      if Valid(before) {
        TrustSetKeepsValid(before, actor.value, who, trusted);
      }
      r := Ok(GetSettings(conn.db, actor.value, {}).value);
    }

    method SendInvitation(token: Option<AuthToken>, recipient: Username, nonce: Nonce, now: int) returns (r: Result<GenericUserInfo, Failure>)
      requires SchemaOk(conn.db)
      requires Actor(token, now).Some? ==> Actor(token, now).value in conn.db.users
      modifies conn
      ensures SchemaOk(conn.db)
      ensures r.Ok? <==>
        SendInvitationRefusal(old(conn.db), Actor(token, now), recipient).None? && nonce !in old(conn.db).emailInvitations
      ensures r.Err? ==> conn.db == old(conn.db)
      ensures r.Err? && SendInvitationRefusal(old(conn.db), Actor(token, now), recipient).Some? ==>
        r.error == Catchall(SendInvitationRefusal(old(conn.db), Actor(token, now), recipient).value)
      ensures r.Err? && SendInvitationRefusal(old(conn.db), Actor(token, now), recipient).None? ==>
        r.error == Raised(IntegrityError)
      ensures r.Ok? ==>
        && conn.db == InvitedResult(old(conn.db), Actor(token, now).value, recipient, nonce)
        && r.value == GetSettings(conn.db, Actor(token, now).value, {recipient}).value
      ensures Valid(old(conn.db)) ==> Valid(conn.db)
    {
      var actor := Actor(token, now);
      var refusal := SendInvitationRefusal(conn.db, actor, recipient);
      if refusal.Some? {
        return Err(Catchall(refusal.value));
      }
      var snapshot := conn.db;
      var trustErr := conn.SetTrusted(actor.value, recipient, true);
      assert trustErr.None?;  // both users exist, so the row satisfies its foreign keys
      assert conn.db.emailInvitations == snapshot.emailInvitations;
      var err := conn.CreateInvitation(nonce, actor.value, recipient);
      if err.Some? {
        // The transaction rolls back: the trust set above is undone.
        conn.db := snapshot;
        return Err(Raised(err.value));
      }
      assert conn.db == InvitedResult(snapshot, actor.value, recipient, nonce);
      InvitedKeepsSchema(snapshot, actor.value, recipient, nonce);
      if Valid(snapshot) {
        InvitedKeepsValid(snapshot, actor.value, recipient, nonce);
      }
      r := Ok(GetSettings(conn.db, actor.value, {recipient}).value);
    }

    method AcceptInvitation(token: Option<AuthToken>, nonce: Nonce, now: int) returns (r: Result<GenericUserInfo, Failure>)
      requires SchemaOk(conn.db)
      requires Actor(token, now).Some? ==> Actor(token, now).value in conn.db.users
      modifies conn
      ensures SchemaOk(conn.db)
      ensures r.Ok? <==> nonce in old(conn.db).emailInvitations
      ensures r.Err? ==> conn.db == old(conn.db) && r.error == Catchall("no such invitation")
      ensures r.Ok? ==>
        && conn.db == AcceptedResult(old(conn.db), nonce)
        && r.value == if Actor(token, now).None? then EMPTY_USER_INFO else GetSettings(conn.db, Actor(token, now).value, {}).value
      ensures Valid(old(conn.db)) ==> Valid(conn.db)
    {
      var actor := Actor(token, now);
      ghost var before := conn.db;
      var accepted, err := conn.AcceptInvitation(nonce);
      assert err.None?;  // the invitation's users exist, by its foreign keys
      if accepted.None? {
        return Err(Catchall("no such invitation"));
      }
      AcceptedKeepsSchema(before, nonce);
      if Valid(before) {
        AcceptedKeepsValid(before, nonce);
      }
      if actor.None? {
        r := Ok(EMPTY_USER_INFO);
      } else {
        r := Ok(GetSettings(conn.db, actor.value, {}).value);
      }
    }

    method SetEmail(token: Option<AuthToken>, email: string, code: string, salt: Bytes, now: int) returns (r: Result<EmailFlowState, Failure>)
      requires |salt| == 4
      requires SchemaOk(conn.db)
      requires Actor(token, now).Some? ==> Actor(token, now).value in conn.db.users
      modifies conn
      ensures SchemaOk(conn.db)
      ensures r.Ok? <==> SetEmailRefusal(Actor(token, now), email).None?
      ensures r.Err? ==> conn.db == old(conn.db) && r.error == Catchall(SetEmailRefusal(Actor(token, now), email).value)
      ensures r.Ok? ==>
        var user := Actor(token, now).value;
        && r.value == NewEmailState(kdf, email, code, salt)
        && conn.db == old(conn.db).(users := old(conn.db).users[user := old(conn.db).users[user].(emailFlowState := r.value)])
      ensures Valid(old(conn.db)) ==> Valid(conn.db)
    {
      var actor := Actor(token, now);
      var refusal := SetEmailRefusal(actor, email);
      if refusal.Some? {
        return Err(Catchall(refusal.value));
      }
      var state := NewEmailState(kdf, email, code, salt);
      conn.SetEmail(actor.value, state);
      r := Ok(state);
    }

    method VerifyEmail(token: Option<AuthToken>, code: string, now: int) returns (r: Result<EmailFlowState, Failure>)
      requires SchemaOk(conn.db)
      requires Actor(token, now).Some? ==> Actor(token, now).value in conn.db.users
      modifies conn
      ensures SchemaOk(conn.db)
      ensures var actor := Actor(token, now);
        var state := if actor.Some? then old(conn.db).users[actor.value].emailFlowState else Unstarted;
        && (r.Ok? <==> VerifyEmailRefusal(kdf, actor, state, code).None?)
        && (r.Err? ==> conn.db == old(conn.db) && r.error == Catchall(VerifyEmailRefusal(kdf, actor, state, code).value))
        && (r.Ok? ==>
              && r.value == Verified(state.email)
              && conn.db == old(conn.db).(users := old(conn.db).users[actor.value := old(conn.db).users[actor.value].(emailFlowState := r.value)]))
      ensures Valid(old(conn.db)) ==> Valid(conn.db)
    {
      var actor := Actor(token, now);
      var state := if actor.Some? then conn.db.users[actor.value].emailFlowState else Unstarted;
      var refusal := VerifyEmailRefusal(kdf, actor, state, code);
      if refusal.Some? {
        return Err(Catchall(refusal.value));
      }
      var verified := Verified(state.email);
      conn.SetEmail(actor.value, verified);
      r := Ok(verified);
    }

    method UpdateSettings(token: Option<AuthToken>, request: UpdateSettingsRequest, now: int) returns (r: Result<GenericUserInfo, Failure>)
      requires SchemaOk(conn.db)
      requires Actor(token, now).Some? ==> Actor(token, now).value in conn.db.users
      modifies conn
      ensures SchemaOk(conn.db)
      ensures r.Ok? <==> Actor(token, now).Some?
      ensures r.Err? ==> conn.db == old(conn.db) && r.error == Catchall("must log in to update your settings")
      ensures r.Ok? ==>
        var user := Actor(token, now).value;
        && conn.db == old(conn.db).(users := old(conn.db).users[user := UpdatedSettings(old(conn.db).users[user], request)])
        && r.value == GetSettings(conn.db, user, {}).value
      ensures Valid(old(conn.db)) ==> Valid(conn.db)
    {
      var actor := Actor(token, now);
      if actor.None? {
        return Err(Catchall("must log in to update your settings"));
      }
      conn.UpdateSettings(actor.value, request);
      r := Ok(GetSettings(conn.db, actor.value, {}).value);
    }

    /** `draw` is the random number below 2^64 whose decimal form becomes the
      * prediction's id. */
    method CreatePrediction(token: Option<AuthToken>, request: CreatePredictionRequest, draw: nat, now: int) returns (r: Result<PredictionId, Failure>)
      requires draw < 0x1_0000_0000_0000_0000
      requires SchemaOk(conn.db)
      requires Actor(token, now).Some? ==> Actor(token, now).value in conn.db.users
      modifies conn
      ensures SchemaOk(conn.db)
      ensures var refusal := CreatePredictionRefusal(Actor(token, now), request, now);
        && (r.Ok? <==> (
              && refusal.None?
              && NatToDecimal(draw) !in old(conn.db).predictions
              && PredictionRowOk(NewPredictionRow(request, Actor(token, now).value, now))))
        && (r.Err? ==> conn.db == old(conn.db))
        && (r.Err? && refusal.Some? ==> r.error == Catchall(refusal.value))
        && (r.Err? && refusal.None? ==> r.error == Raised(IntegrityError))
      ensures r.Ok? ==>
        && r.value == NatToDecimal(draw)
        && conn.db == old(conn.db).(predictions := old(conn.db).predictions[r.value := NewPredictionRow(request, Actor(token, now).value, now)])
      ensures Valid(old(conn.db)) ==> Valid(conn.db)
    {
      var actor := Actor(token, now);
      var refusal := CreatePredictionRefusal(actor, request, now);
      if refusal.Some? {
        return Err(Catchall(refusal.value));
      }
      var predictionId := NatToDecimal(draw);
      var err := conn.CreatePrediction(predictionId, NewPredictionRow(request, actor.value, now));
      if err.Some? {
        return Err(Raised(err.value));
      }
      r := Ok(predictionId);
    }

    /** Registers a user and logs them in. `salt` and `passwordId` are the
      * random salt and password-row id. */
    method RegisterUsername(token: Option<AuthToken>, username: Username, password: string, salt: Bytes, passwordId: PasswordId, now: int)
      returns (r: Result<(AuthToken, GenericUserInfo), Failure>)
      requires |salt| == 4
      requires SchemaOk(conn.db)
      requires Actor(token, now).Some? ==> Actor(token, now).value in conn.db.users
      modifies conn
      ensures SchemaOk(conn.db)
      ensures var refusal := RegisterUsernameRefusal(old(conn.db), Actor(token, now), username, password);
        && (r.Ok? <==> refusal.None? && passwordId !in old(conn.db).passwords)
        && (r.Err? ==> conn.db == old(conn.db))
        && (r.Err? && refusal.Some? ==> r.error == Catchall(refusal.value))
        && (r.Err? && refusal.None? ==> r.error == Raised(IntegrityError))
      ensures r.Ok? ==>
        && conn.db == old(conn.db).(
             passwords := old(conn.db).passwords[passwordId := NewHashedPassword(kdf, password, salt)],
             users := old(conn.db).users[username := NewUserRow(passwordId)])
        && CheckPassword(kdf, password, conn.db.passwords[conn.db.users[username].loginPasswordId])
        && r.value.0.owner == username
        && (forall t :: Actor(Some(r.value.0), t) == if now <= t < now + REGISTRATION_TOKEN_TTL_SECONDS then Some(username) else None)
        && r.value.1 == GetSettings(conn.db, username, {}).value
      ensures Valid(old(conn.db)) ==> Valid(conn.db)
    {
      var actor := Actor(token, now);
      var refusal := RegisterUsernameRefusal(conn.db, actor, username, password);
      if refusal.Some? {
        return Err(Catchall(refusal.value));
      }
      ghost var before := conn.db;
      var err := conn.RegisterUsername(username, NewHashedPassword(kdf, password, salt), passwordId);
      if err.Some? {
        return Err(Raised(err.value));
      }
      NewUserKeepsValid(before, username, NewHashedPassword(kdf, password, salt), passwordId);
      // Logging in: the password just stored checks, so a token is minted.
      var minted := MintToken(mint, username, REGISTRATION_TOKEN_TTL_SECONDS, now);
      r := Ok((minted, GetSettings(conn.db, username, {}).value));
    }
  }
}
