/** The file-backed servicer: the whole world is one state value that each
  * endpoint reads, changes in place and writes back. An endpoint either
  * refuses with a message and leaves the state as it was, raises (nothing
  * is written back), or makes exactly the change its result function
  * names. */
module FsServicing {
  import opened Wrappers
  import opened Messages
  import opened Text
  import opened Core
  import opened Betting
  import opened Sorting
  import opened Emailer

  /** Prediction ids are integers, drawn below 2^32. */
  type PredictionNumber = int

  /** An invitation a user has handed out; `acceptedBy` is empty until it is
    * used. */
  datatype Invitation = Invitation(createdUnixtime: int, notes: string, acceptedBy: Username, acceptedUnixtime: int)

  /** A user's record: settings, e-mail, trust in other users (by name) and
    * the invitations they have created (by nonce). */
  datatype UserInfo = UserInfo(
    emailRemindersToResolve: bool,
    emailResolutionNotifications: bool,
    loginPassword: Option<HashedPassword>,
    email: Option<EmailFlowState>,
    relationships: map<Username, bool>,
    invitations: map<string, Invitation>)

  /** Past resolution-reminder e-mails: whether each attempt succeeded. */
  datatype ReminderHistory = ReminderHistory(skipped: bool, attempts: seq<bool>)

  datatype WsPrediction = WsPrediction(
    prediction: string,
    certainty: CertaintyRange,
    maximumStakeCents: nat,
    createdUnixtime: int,
    closesUnixtime: int,
    resolvesAtUnixtime: int,
    specialRules: string,
    creator: Username,
    trades: seq<Trade>,
    resolutions: seq<ResolutionEvent>,
    reminderHistory: ReminderHistory)

  datatype WorldState = WorldState(
    userSettings: map<Username, UserInfo>,
    predictions: map<PredictionNumber, WsPrediction>)

  // ---------------------------------------------------------------------
  // Trust.

  /** Whether `a` trusts `b`: everyone trusts themselves; otherwise `a` must
    * be a user whose relationship to `b` exists and is marked trusted. */
  predicate Trusts(ws: WorldState, a: Username, b: Username)
    ensures a == b ==> Trusts(ws, a, b)
    ensures Trusts(ws, a, b) && a != b ==> a in ws.userSettings && b in ws.userSettings[a].relationships
  {
    if a == b then true
    else if a !in ws.userSettings then false
    else if b !in ws.userSettings[a].relationships then false
    else ws.userSettings[a].relationships[b]
  }

  /** Trust is reflexive, even for a name that is not a user. */
  lemma TrustIsReflexive(ws: WorldState, a: Username)
    ensures Trusts(ws, a, a)
  {
  }

  /** A name that is not a user trusts nobody but itself. */
  lemma UnknownUserTrustsNobody(ws: WorldState, a: Username, b: Username)
    requires a !in ws.userSettings && a != b
    ensures !Trusts(ws, a, b)
  {
  }

  /** The state after `truster` marks its relationship to `trustee`. */
  function WithTrust(ws: WorldState, truster: Username, trustee: Username, trusted: bool): (r: WorldState)
    requires truster in ws.userSettings
    ensures r.predictions == ws.predictions
    ensures r.userSettings.Keys == ws.userSettings.Keys
  {
    var info := ws.userSettings[truster];
    ws.(userSettings := ws.userSettings[truster := info.(relationships := info.relationships[trustee := trusted])])
  }

  /** Setting trust decides it: afterwards `truster` trusts `trustee` exactly
    * when the new flag says so (or the two are the same user). */
  lemma TrustSetDecidesTrust(ws: WorldState, truster: Username, trustee: Username, trusted: bool)
    requires truster in ws.userSettings
    ensures Trusts(WithTrust(ws, truster, trustee, trusted), truster, trustee) == (truster == trustee || trusted)
  {
  }

  /** Trust is one-way: setting it changes no other ordered pair, in
    * particular not the reverse direction. */
  lemma TrustSetIsOneWay(ws: WorldState, truster: Username, trustee: Username, trusted: bool, a: Username, b: Username)
    requires truster in ws.userSettings
    requires a != truster || b != trustee
    ensures Trusts(WithTrust(ws, truster, trustee, trusted), a, b) == Trusts(ws, a, b)
  {
  }

  /** Setting the same trust twice is the same as setting it once. */
  lemma TrustSetIdempotent(ws: WorldState, truster: Username, trustee: Username, trusted: bool)
    requires truster in ws.userSettings
    ensures WithTrust(WithTrust(ws, truster, trustee, trusted), truster, trustee, trusted)
         == WithTrust(ws, truster, trustee, trusted)
  {
    var once := WithTrust(ws, truster, trustee, trusted);
    var info := once.userSettings[truster];
    assert info.relationships[trustee := trusted] == info.relationships;
    assert once.userSettings[truster := info] == once.userSettings;
  }

  // ---------------------------------------------------------------------
  // Exposure and the prediction view.

  /** The creator's summed stake against bets on one side. */
  function CreatorStakeOnSide(trades: seq<Trade>, skeptic: bool): int {
    if trades == [] then 0
    else
      var own := if trades[0].bettorIsASkeptic == skeptic then trades[0].creatorStakeCents else 0;
      own + CreatorStakeOnSide(trades[1..], skeptic)
  }

  /** A bettor's summed stake on one side. */
  function BettorStakeOnSide(trades: seq<Trade>, bettor: Username, skeptic: bool): nat {
    if trades == [] then 0
    else
      var own := if trades[0].bettor == bettor && trades[0].bettorIsASkeptic == skeptic then trades[0].bettorStakeCents else 0;
      own + BettorStakeOnSide(trades[1..], bettor, skeptic)
  }

  lemma {:induction false} CreatorStakeOnSideAppend(trades: seq<Trade>, t: Trade, skeptic: bool)
    ensures CreatorStakeOnSide(trades + [t], skeptic)
         == CreatorStakeOnSide(trades, skeptic) + (if t.bettorIsASkeptic == skeptic then t.creatorStakeCents else 0)
  {
    if trades != [] {
      assert (trades + [t])[1..] == trades[1..] + [t];
      CreatorStakeOnSideAppend(trades[1..], t, skeptic);
    }
  }

  lemma {:induction false} BettorStakeOnSideAppend(trades: seq<Trade>, t: Trade, bettor: Username, skeptic: bool)
    ensures BettorStakeOnSide(trades + [t], bettor, skeptic)
         == BettorStakeOnSide(trades, bettor, skeptic)
            + (if t.bettor == bettor && t.bettorIsASkeptic == skeptic then t.bettorStakeCents else 0)
  {
    if trades != [] {
      assert (trades + [t])[1..] == trades[1..] + [t];
      BettorStakeOnSideAppend(trades[1..], t, bettor, skeptic);
    }
  }

  /** Neither side's creator stake is over the prediction's maximum. */
  predicate WithinMaximum(p: WsPrediction) {
    && CreatorStakeOnSide(p.trades, true) <= p.maximumStakeCents
    && CreatorStakeOnSide(p.trades, false) <= p.maximumStakeCents
  }

  predicate ExposureOk(ws: WorldState) {
    forall pid :: pid in ws.predictions ==> WithinMaximum(ws.predictions[pid])
  }

  /** No bettor has more than the legal maximum on one side of a prediction. */
  ghost predicate BettorCapOk(ws: WorldState) {
    forall pid, bettor, side :: pid in ws.predictions ==>
      BettorStakeOnSide(ws.predictions[pid].trades, bettor, side) <= MAX_LEGAL_STAKE_CENTS
  }

  /** The invariants the servicer keeps. */
  ghost predicate Valid(ws: WorldState) {
    ExposureOk(ws) && BettorCapOk(ws)
  }

  /** A change that keeps every prediction's trades and maximum, and adds only
    * predictions without trades keeps the invariants. */
  lemma TradesKeptKeepsValid(ws: WorldState, ws': WorldState)
    requires Valid(ws)
    requires ws.predictions.Keys <= ws'.predictions.Keys
    requires forall pid :: pid in ws.predictions ==>
      && ws'.predictions[pid].trades == ws.predictions[pid].trades
      && ws'.predictions[pid].maximumStakeCents == ws.predictions[pid].maximumStakeCents
    requires forall pid :: pid in ws'.predictions && pid !in ws.predictions ==> ws'.predictions[pid].trades == []
    ensures Valid(ws')
  {
    forall pid, bettor, side | pid in ws'.predictions
      ensures BettorStakeOnSide(ws'.predictions[pid].trades, bettor, side) <= MAX_LEGAL_STAKE_CENTS
    {
      if pid in ws.predictions {
        assert BettorStakeOnSide(ws.predictions[pid].trades, bettor, side) <= MAX_LEGAL_STAKE_CENTS;
      }
    }
  }

  /** One user's view of the creator: whether each trusts the other. */
  datatype UserUserView = UserUserView(username: Username, isTrusted: bool, trustsYou: bool)

  datatype FsPredictionView = FsPredictionView(
    prediction: string,
    certainty: CertaintyRange,
    maximumStakeCents: nat,
    remainingStakeCentsVsBelievers: int,
    remainingStakeCentsVsSkeptics: int,
    createdUnixtime: int,
    closesUnixtime: int,
    resolvesAtUnixtime: int,
    specialRules: string,
    creator: UserUserView,
    resolutions: seq<ResolutionEvent>,
    yourTrades: seq<Trade>)

  /** A trade the viewer may see: their own, or any when they are the
    * creator. */
  predicate SeenBy(viewer: Option<Username>, p: WsPrediction, t: Trade) {
    viewer == Some(t.bettor) || viewer == Some(p.creator)
  }

  /** The prediction as `viewer` (None when logged out) sees it. */
  function ViewPrediction(ws: WorldState, viewer: Option<Username>, p: WsPrediction): (v: FsPredictionView)
    ensures v.creator.username == p.creator
    ensures v.creator.isTrusted <==> viewer.Some? && Trusts(ws, viewer.value, p.creator)
    ensures v.creator.trustsYou <==> viewer.Some? && Trusts(ws, p.creator, viewer.value)
    ensures forall t :: t in v.yourTrades <==> t in p.trades && SeenBy(viewer, p, t)
    ensures v.resolutions == p.resolutions
  {
    var yours := Filter(p.trades, t => SeenBy(viewer, p, t));
    FsPredictionView(
      p.prediction, p.certainty, p.maximumStakeCents,
      p.maximumStakeCents - CreatorStakeOnSide(p.trades, false),
      p.maximumStakeCents - CreatorStakeOnSide(p.trades, true),
      p.createdUnixtime, p.closesUnixtime, p.resolvesAtUnixtime, p.specialRules,
      UserUserView(
        p.creator,
        if viewer.Some? then Trusts(ws, viewer.value, p.creator) else false,
        if viewer.Some? then Trusts(ws, p.creator, viewer.value) else false),
      p.resolutions,
      yours)
  }

  /** The creator sees every trade, in order. */
  lemma CreatorSeesEveryTrade(ws: WorldState, p: WsPrediction)
    ensures ViewPrediction(ws, Some(p.creator), p).yourTrades == p.trades
  {
    FilterKeepsAll(p.trades, t => SeenBy(Some(p.creator), p, t));
  }

  /** The remaining stakes a view shows are the maximum less each side's
    * creator stake, and never negative while the exposure invariant holds. */
  lemma RemainingStakeIsUnspentMaximum(ws: WorldState, viewer: Option<Username>, p: WsPrediction)
    ensures var v := ViewPrediction(ws, viewer, p);
      && v.remainingStakeCentsVsSkeptics + CreatorStakeOnSide(p.trades, true) == p.maximumStakeCents
      && v.remainingStakeCentsVsBelievers + CreatorStakeOnSide(p.trades, false) == p.maximumStakeCents
      && (WithinMaximum(p) ==> v.remainingStakeCentsVsSkeptics >= 0 && v.remainingStakeCentsVsBelievers >= 0)
  {
  }

  // ---------------------------------------------------------------------
  // The invariant check.

  /** Prediction ids over either side's maximum, visiting the predictions in
    * `order` (the map's iteration order); an id appears once per side that
    * is over. */
  function FindInvariantViolations(ws: WorldState, order: seq<PredictionNumber>): (r: seq<PredictionNumber>)
    requires forall i :: 0 <= i < |order| ==> order[i] in ws.predictions
    ensures forall pid :: pid in r <==> pid in order && !WithinMaximum(ws.predictions[pid])
  {
    if order == [] then []
    else
      var pid := order[0];
      var p := ws.predictions[pid];
      (if CreatorStakeOnSide(p.trades, true) > p.maximumStakeCents then [pid] else [])
      + (if CreatorStakeOnSide(p.trades, false) > p.maximumStakeCents then [pid] else [])
      + FindInvariantViolations(ws, order[1..])
  }

  /** When `order` visits every prediction, the check reports nothing
    * exactly when the exposure invariant holds. */
  lemma NoViolationsIffExposureOk(ws: WorldState, order: seq<PredictionNumber>)
    requires forall i :: 0 <= i < |order| ==> order[i] in ws.predictions
    requires forall pid :: pid in ws.predictions ==> pid in order
    ensures FindInvariantViolations(ws, order) == [] <==> ExposureOk(ws)
  {
    var r := FindInvariantViolations(ws, order);
    if r != [] {
      assert r[0] in r;
      var i :| 0 <= i < |order| && order[i] == r[0];
      assert !WithinMaximum(ws.predictions[order[i]]);
    } else {
      forall pid | pid in ws.predictions
        ensures WithinMaximum(ws.predictions[pid])
      {
        assert pid in order;
      }
    }
  }

  // ---------------------------------------------------------------------
  // Resolution reminders.

  /** Whether a reminder to resolve should go out: the prediction is past its
    * resolution time, reminders were not skipped, no attempt succeeded, and
    * the last three attempts have not all failed. */
  predicate NeedsEmailReminder(now: real, p: WsPrediction) {
    var attempts := p.reminderHistory.attempts;
    && (p.resolvesAtUnixtime as real) < now
    && !p.reminderHistory.skipped
    && true !in attempts
    && !(|attempts| >= 3 && true !in attempts[|attempts| - 3..])
  }

  /** Reminders stop after three failed attempts: a prediction needs one
    * exactly when it is overdue, not skipped, and has fewer than three
    * attempts, all failed. */
  lemma NeedsEmailReminderIff(now: real, p: WsPrediction)
    ensures NeedsEmailReminder(now, p) <==>
      && (p.resolvesAtUnixtime as real) < now
      && !p.reminderHistory.skipped
      && true !in p.reminderHistory.attempts
      && |p.reminderHistory.attempts| < 3
  {
    var attempts := p.reminderHistory.attempts;
    if |attempts| >= 3 && true in attempts[|attempts| - 3..] {
      var i :| |attempts| - 3 <= i < |attempts| && attempts[i];
      assert attempts[|attempts| - 3..][i - (|attempts| - 3)] == attempts[i];
    }
  }

  /** The address a reminder to resolve goes to: the user's verified
    * address, when they want such reminders. */
  function EmailForResolutionReminder(info: UserInfo): (r: Option<string>)
    ensures r.Some? <==> info.emailRemindersToResolve && info.email.Some? && info.email.value.Verified?
    ensures r.Some? ==> info.email == Some(Verified(r.value))
  {
    if info.emailRemindersToResolve && info.email.Some? && info.email.value.Verified? then
      Some(info.email.value.email)
    else None
  }

  // ---------------------------------------------------------------------
  // Stake.

  /** No resolution yet, or the latest one is "none yet". */
  predicate Unresolved(p: WsPrediction) {
    p.resolutions == [] || p.resolutions[|p.resolutions| - 1].resolution == ResolutionNoneYet
  }

  /** When a bet is accepted: a logged-in bettor bets on an existing
    * prediction someone else created; each trusts the other; betting is
    * open; the prediction has not resolved; the counter-stake is defined;
    * and the bet is within the creator's maximum and the legal maximum. */
  predicate StakeAllowed(ws: WorldState, actor: Option<Username>, request: StakeRequest<PredictionNumber>, now: int) {
    && actor.Some?
    && request.predictionId in ws.predictions
    && var p := ws.predictions[request.predictionId];
       var side := request.bettorIsASkeptic;
       var creatorStake := CreatorStakeCents(request.bettorStakeCents, side, p.certainty);
       && p.creator != actor.value
       && Trusts(ws, p.creator, actor.value)
       && Trusts(ws, actor.value, p.creator)
       && p.createdUnixtime <= now <= p.closesUnixtime
       && Unresolved(p)
       && creatorStake.Some?
       && CreatorStakeOnSide(p.trades, side) + creatorStake.value <= p.maximumStakeCents
       && BettorStakeOnSide(p.trades, actor.value, side) + request.bettorStakeCents <= MAX_LEGAL_STAKE_CENTS
  }

  /** The refusal naming the legal maximum, in whole dollars. */
  function BettorLimitMessage(existing: nat, stake: nat): (m: string)
    ensures |m| > |BETTOR_LIMIT_PREFIX| && m[..|BETTOR_LIMIT_PREFIX|] == BETTOR_LIMIT_PREFIX
  {
    var m := BETTOR_LIMIT_PREFIX + NatToDecimal(existing / 100) + " plus your new stake ~$" + NatToDecimal(stake / 100)
      + " cents would put you over the limit of $" + NatToDecimal(MAX_LEGAL_STAKE_CENTS / 100)
      + " staked in a single prediction";
    assert m[..|BETTOR_LIMIT_PREFIX|] == BETTOR_LIMIT_PREFIX;
    m
  }

  /** The two limit refusals read differently, so a bettor can tell which
    * limit stopped the bet. */
  lemma LimitMessagesDiffer(existing: int, creatorStake: int, maximum: nat, existingBettor: nat, stake: nat)
    ensures ToleranceMessage(existing, creatorStake, maximum) != BettorLimitMessage(existingBettor, stake)
  {
    var t := ToleranceMessage(existing, creatorStake, maximum);
    var b := BettorLimitMessage(existingBettor, stake);
    assert t[0] == TOLERANCE_PREFIX[0] == 'b';
    assert b[0] == BETTOR_LIMIT_PREFIX[0] == 'y';
  }

  /** The first guard of Stake that fails: a refusal message, or the
    * division by zero when the certainty's near end makes the odds
    * infinite. */
  function StakeRefusal(ws: WorldState, actor: Option<Username>, request: StakeRequest<PredictionNumber>, now: int): (f: Option<Failure>)
    ensures f.None? <==> StakeAllowed(ws, actor, request, now)
    ensures f.Some? && f.value.Raised? ==>
      && f.value.exception == ZeroDivisionError
      && request.predictionId in ws.predictions
      && CreatorStakeCents(request.bettorStakeCents, request.bettorIsASkeptic, ws.predictions[request.predictionId].certainty).None?
  {
    if actor.None? then Some(Catchall("must log in to bet"))
    else if request.predictionId !in ws.predictions then Some(Catchall("no such prediction"))
    else
      var p := ws.predictions[request.predictionId];
      var bettor := actor.value;
      var side := request.bettorIsASkeptic;
      if p.creator == bettor then Some(Catchall("can't bet against yourself"))
      else if !Trusts(ws, p.creator, bettor) then Some(Catchall("creator doesn't trust you"))
      else if !Trusts(ws, bettor, p.creator) then Some(Catchall("you don't trust the creator"))
      else if !(p.createdUnixtime <= now <= p.closesUnixtime) then Some(Catchall("prediction is no longer open for betting"))
      else if !Unresolved(p) then Some(Catchall("prediction has already resolved"))
      else
        var creatorStake := CreatorStakeCents(request.bettorStakeCents, side, p.certainty);
        if creatorStake.None? then Some(Raised(ZeroDivisionError))
        else
          var existing := CreatorStakeOnSide(p.trades, side);
          var existingBettor := BettorStakeOnSide(p.trades, bettor, side);
          if existing + creatorStake.value > p.maximumStakeCents then
            Some(Catchall(ToleranceMessage(existing, creatorStake.value, p.maximumStakeCents)))
          else if existingBettor + request.bettorStakeCents > MAX_LEGAL_STAKE_CENTS then
            Some(Catchall(BettorLimitMessage(existingBettor, request.bettorStakeCents)))
          else None
  }

  /** The trade an accepted bet appends. */
  function StakedTrade(ws: WorldState, bettor: Username, request: StakeRequest<PredictionNumber>, now: int): Trade
    requires request.predictionId in ws.predictions
    requires CreatorStakeCents(request.bettorStakeCents, request.bettorIsASkeptic, ws.predictions[request.predictionId].certainty).Some?
  {
    var p := ws.predictions[request.predictionId];
    Trade(bettor, request.bettorIsASkeptic,
      CreatorStakeCents(request.bettorStakeCents, request.bettorIsASkeptic, p.certainty).value,
      request.bettorStakeCents, now)
  }

  /** The state with `t` appended to prediction `pid`'s trades. */
  function WithTrade(ws: WorldState, pid: PredictionNumber, t: Trade): (r: WorldState)
    requires pid in ws.predictions
    ensures r.userSettings == ws.userSettings
    ensures r.predictions.Keys == ws.predictions.Keys
    ensures r.predictions[pid].trades == ws.predictions[pid].trades + [t]
    ensures forall q :: q in ws.predictions && q != pid ==> r.predictions[q] == ws.predictions[q]
  {
    var p := ws.predictions[pid];
    ws.(predictions := ws.predictions[pid := p.(trades := p.trades + [t])])
  }

  /** After an accepted bet the creator's stake on the bet's side is the old
    * one plus the counter-stake and within the maximum, the other side is
    * unchanged, and the bettor's total on the bet's side is within the legal
    * maximum. */
  lemma StakeStaysWithinLimits(ws: WorldState, actor: Option<Username>, request: StakeRequest<PredictionNumber>, now: int)
    requires StakeAllowed(ws, actor, request, now)
    ensures var pid := request.predictionId;
      var side := request.bettorIsASkeptic;
      var t := StakedTrade(ws, actor.value, request, now);
      var trades := WithTrade(ws, pid, t).predictions[pid].trades;
      && CreatorStakeOnSide(trades, side) == CreatorStakeOnSide(ws.predictions[pid].trades, side) + t.creatorStakeCents
      && CreatorStakeOnSide(trades, side) <= ws.predictions[pid].maximumStakeCents
      && CreatorStakeOnSide(trades, !side) == CreatorStakeOnSide(ws.predictions[pid].trades, !side)
      && BettorStakeOnSide(trades, actor.value, side) <= MAX_LEGAL_STAKE_CENTS
  {
    var pid := request.predictionId;
    var t := StakedTrade(ws, actor.value, request, now);
    var old_trades := ws.predictions[pid].trades;
    CreatorStakeOnSideAppend(old_trades, t, request.bettorIsASkeptic);
    CreatorStakeOnSideAppend(old_trades, t, !request.bettorIsASkeptic);
    BettorStakeOnSideAppend(old_trades, t, actor.value, request.bettorIsASkeptic);
  }

  /** An accepted bet keeps both limits on every prediction. */
  lemma StakeKeepsValid(ws: WorldState, actor: Option<Username>, request: StakeRequest<PredictionNumber>, now: int)
    requires Valid(ws) && StakeAllowed(ws, actor, request, now)
    ensures Valid(WithTrade(ws, request.predictionId, StakedTrade(ws, actor.value, request, now)))
  {
    var pid := request.predictionId;
    var t := StakedTrade(ws, actor.value, request, now);
    var ws' := WithTrade(ws, pid, t);
    StakeStaysWithinLimits(ws, actor, request, now);
    forall bettor, side
      ensures BettorStakeOnSide(ws'.predictions[pid].trades, bettor, side) <= MAX_LEGAL_STAKE_CENTS
    {
      BettorStakeOnSideAppend(ws.predictions[pid].trades, t, bettor, side);
      assert BettorStakeOnSide(ws.predictions[pid].trades, bettor, side) <= MAX_LEGAL_STAKE_CENTS;
    }
    forall q, bettor, side | q in ws'.predictions
      ensures BettorStakeOnSide(ws'.predictions[q].trades, bettor, side) <= MAX_LEGAL_STAKE_CENTS
    {
      if q != pid {
        assert BettorStakeOnSide(ws.predictions[q].trades, bettor, side) <= MAX_LEGAL_STAKE_CENTS;
      }
    }
    assert WithinMaximum(ws'.predictions[pid]) by {
      if request.bettorIsASkeptic {
        assert CreatorStakeOnSide(ws.predictions[pid].trades, false) <= ws.predictions[pid].maximumStakeCents;
      } else {
        assert CreatorStakeOnSide(ws.predictions[pid].trades, true) <= ws.predictions[pid].maximumStakeCents;
      }
    }
    forall q | q in ws'.predictions
      ensures WithinMaximum(ws'.predictions[q])
    {
      if q != pid {
        assert WithinMaximum(ws.predictions[q]);
      }
    }
  }

  // ---------------------------------------------------------------------
  // Resolve.

  const MAX_NOTES_LENGTH := 1024

  /** When a resolution is recorded: the caller is logged in, names one of
    * the four outcomes, keeps the notes within the limit, and created the
    * existing prediction. */
  predicate ResolveAllowed(ws: WorldState, actor: Option<Username>, request: ResolveRequest<PredictionNumber>) {
    && actor.Some?
    && request.resolution.Known?
    && |request.notes| <= MAX_NOTES_LENGTH
    && request.predictionId in ws.predictions
    && ws.predictions[request.predictionId].creator == actor.value
  }

  function ResolveRefusal(ws: WorldState, actor: Option<Username>, request: ResolveRequest<PredictionNumber>): (m: Option<string>)
    ensures m.None? <==> ResolveAllowed(ws, actor, request)
  {
    if actor.None? then Some("must log in to resolve a prediction")
    else if request.resolution.Unrecognized? then Some("unrecognized resolution")
    else if |request.notes| > MAX_NOTES_LENGTH then Some("unreasonably long notes")
    else if request.predictionId !in ws.predictions then Some("no such prediction")
    else if ws.predictions[request.predictionId].creator != actor.value then Some("you are not the creator")
    else None
  }

  /** The keyword arguments the file-backed Resolve passes to
    * `send_resolution_notifications`. */
  const RESOLVE_NOTIFICATION_KEYWORDS: set<string> := {"bccs", "prediction_id", "prediction"}

  /** The keywords that call evidently means: the prediction's text and the
    * new resolution in place of the whole prediction. */
  const INTENDED_NOTIFICATION_KEYWORDS: set<string> := {"bccs", "prediction_id", "prediction_text", "resolution"}

  /** The notifier has no parameter `prediction` and is given neither
    * `prediction_text` nor `resolution`, so the call raises TypeError. */
  lemma ResolveNotificationCallRaises()
    ensures BindKeywords(RESOLVE_NOTIFICATION_KEYWORDS, RESOLUTION_NOTIFICATION_PARAMETERS) == Some(TypeError)
  {
    assert "prediction" in RESOLVE_NOTIFICATION_KEYWORDS && "prediction" !in RESOLUTION_NOTIFICATION_PARAMETERS;
  }

  /** With the intended keywords the call binds. */
  lemma IntendedNotificationCallBinds()
    ensures BindKeywords(INTENDED_NOTIFICATION_KEYWORDS, RESOLUTION_NOTIFICATION_PARAMETERS).None?
  {
  }

  /** The state with event `e` appended to prediction `pid`'s resolutions. */
  function WithResolution(ws: WorldState, pid: PredictionNumber, e: ResolutionEvent): (r: WorldState)
    requires pid in ws.predictions
    ensures r.userSettings == ws.userSettings
    ensures r.predictions.Keys == ws.predictions.Keys
    ensures r.predictions[pid].resolutions == ws.predictions[pid].resolutions + [e]
    ensures forall q :: q in ws.predictions ==>
      && r.predictions[q].trades == ws.predictions[q].trades
      && r.predictions[q].maximumStakeCents == ws.predictions[q].maximumStakeCents
    ensures forall q :: q in ws.predictions && q != pid ==> r.predictions[q] == ws.predictions[q]
  {
    var p := ws.predictions[pid];
    ws.(predictions := ws.predictions[pid := p.(resolutions := p.resolutions + [e])])
  }

  /** The latest resolution decides betting: after recording `e`, the
    * prediction takes bets again exactly when `e` is "none yet", and no bet
    * on it is accepted otherwise. */
  lemma ResolutionDecidesBetting(ws: WorldState, pid: PredictionNumber, e: ResolutionEvent,
                                 actor: Option<Username>, request: StakeRequest<PredictionNumber>, now: int)
    requires pid in ws.predictions
    ensures Unresolved(WithResolution(ws, pid, e).predictions[pid]) <==> e.resolution == ResolutionNoneYet
    ensures request.predictionId == pid && e.resolution != ResolutionNoneYet ==>
      !StakeAllowed(WithResolution(ws, pid, e), actor, request, now)
  {
    var rs := WithResolution(ws, pid, e).predictions[pid].resolutions;
    assert rs[|rs| - 1] == e;
  }

  // ---------------------------------------------------------------------
  // SetTrusted.

  function SetTrustedRefusal(ws: WorldState, actor: Option<Username>, who: Username): (m: Option<string>)
    ensures m.None? <==> actor.Some? && who in ws.userSettings
  {
    if actor.None? then Some("must log in to trust folks")
    else if who !in ws.userSettings then Some("no such user")
    else None
  }

  // ---------------------------------------------------------------------
  // UpdateSettings.

  /** The record with the request's two reminder toggles applied; a toggle
    * the request leaves out keeps its value, and nothing else changes. */
  function UpdatedInfo(info: UserInfo, request: UpdateSettingsRequest): (r: UserInfo)
    ensures r.(emailRemindersToResolve := info.emailRemindersToResolve,
               emailResolutionNotifications := info.emailResolutionNotifications) == info
    ensures request.emailRemindersToResolve.Some? ==> r.emailRemindersToResolve == request.emailRemindersToResolve.value
    ensures request.emailRemindersToResolve.None? ==> r.emailRemindersToResolve == info.emailRemindersToResolve
    ensures request.emailResolutionNotifications.Some? ==>
      r.emailResolutionNotifications == request.emailResolutionNotifications.value
    ensures request.emailResolutionNotifications.None? ==>
      r.emailResolutionNotifications == info.emailResolutionNotifications
  {
    info.(emailRemindersToResolve := request.emailRemindersToResolve.UnwrapOr(info.emailRemindersToResolve),
          emailResolutionNotifications := request.emailResolutionNotifications.UnwrapOr(info.emailResolutionNotifications))
  }

  /** Applying the same settings request twice is the same as once. */
  lemma UpdatedInfoIdempotent(info: UserInfo, request: UpdateSettingsRequest)
    ensures UpdatedInfo(UpdatedInfo(info, request), request) == UpdatedInfo(info, request)
  {
  }

  /** The invitation toggles of a settings request have no effect here. */
  lemma UpdatedInfoIgnoresInvitationToggles(info: UserInfo, request: UpdateSettingsRequest, a: Option<bool>, b: Option<bool>)
    ensures UpdatedInfo(info, request.(allowEmailInvitations := a, emailInvitationAcceptanceNotifications := b))
         == UpdatedInfo(info, request)
  {
  }

  // ---------------------------------------------------------------------
  // AcceptInvitation.

  datatype InvitationId = InvitationId(inviter: Username, nonce: string)

  /** The request carries a nonce, which is validated, and an invitation id,
    * whose nonce is the one looked up. */
  datatype AcceptInvitationRequest = AcceptInvitationRequest(nonce: string, invitationId: Option<InvitationId>)

  const INVITATION_UNUSABLE := "invitation is non-existent or already used"

  /** The inviter exists and holds an invitation under the nonce that nobody
    * has accepted. */
  predicate InvitationOpen(ws: WorldState, id: InvitationId) {
    && id.inviter in ws.userSettings
    && id.nonce in ws.userSettings[id.inviter].invitations
    && ws.userSettings[id.inviter].invitations[id.nonce].acceptedBy == ""
  }

  predicate AcceptAllowed(ws: WorldState, actor: Option<Username>, request: AcceptInvitationRequest) {
    && actor.Some?
    && request.nonce != ""
    && request.invitationId.Some?
    && request.invitationId.value.inviter != ""
    && InvitationOpen(ws, request.invitationId.value)
  }

  function AcceptRefusal(ws: WorldState, actor: Option<Username>, request: AcceptInvitationRequest): (m: Option<string>)
    ensures m.None? <==> AcceptAllowed(ws, actor, request)
  {
    if actor.None? then Some("must log in to create an invitation")
    else if DescribeAcceptInvitationRequestProblems(request.nonce).Some? then
      DescribeAcceptInvitationRequestProblems(request.nonce)
    else if request.invitationId.None? || request.invitationId.value.inviter == "" then Some("malformed invitation")
    else if !InvitationOpen(ws, request.invitationId.value) then Some(INVITATION_UNUSABLE)
    else None
  }

  /** The state after `accepter` uses open invitation `id` at `now`: the
    * invitation records its acceptance, then the accepter trusts the
    * inviter, then the inviter trusts the accepter. */
  function AcceptedState(ws: WorldState, accepter: Username, id: InvitationId, now: int): (r: WorldState)
    requires accepter in ws.userSettings && InvitationOpen(ws, id)
    ensures r.predictions == ws.predictions
    ensures r.userSettings.Keys == ws.userSettings.Keys
    ensures r.userSettings[id.inviter].invitations
         == ws.userSettings[id.inviter].invitations[id.nonce := Invitation(
              ws.userSettings[id.inviter].invitations[id.nonce].createdUnixtime,
              ws.userSettings[id.inviter].invitations[id.nonce].notes,
              accepter, now)]
  {
    var inviterInfo := ws.userSettings[id.inviter];
    var used := inviterInfo.invitations[id.nonce].(acceptedBy := accepter, acceptedUnixtime := now);
    var marked := ws.(userSettings := ws.userSettings[id.inviter := inviterInfo.(invitations := inviterInfo.invitations[id.nonce := used])]);
    WithTrust(WithTrust(marked, accepter, id.inviter, true), id.inviter, accepter, true)
  }

  /** Accepting an invitation leaves trust mutual between the two users. */
  lemma AcceptMakesTrustMutual(ws: WorldState, accepter: Username, id: InvitationId, now: int)
    requires accepter in ws.userSettings && InvitationOpen(ws, id)
    ensures Trusts(AcceptedState(ws, accepter, id, now), accepter, id.inviter)
    ensures Trusts(AcceptedState(ws, accepter, id, now), id.inviter, accepter)
  {
    var inviterInfo := ws.userSettings[id.inviter];
    var used := inviterInfo.invitations[id.nonce].(acceptedBy := accepter, acceptedUnixtime := now);
    var marked := ws.(userSettings := ws.userSettings[id.inviter := inviterInfo.(invitations := inviterInfo.invitations[id.nonce := used])]);
    var once := WithTrust(marked, accepter, id.inviter, true);
    TrustSetDecidesTrust(marked, accepter, id.inviter, true);
    TrustSetDecidesTrust(once, id.inviter, accepter, true);
    if accepter != id.inviter {
      TrustSetIsOneWay(once, id.inviter, accepter, true, accepter, id.inviter);
    }
  }

  /** Accepting touches only the accepter's and the inviter's records. */
  lemma AcceptTouchesOnlyTheTwo(ws: WorldState, accepter: Username, id: InvitationId, now: int, u: Username)
    requires accepter in ws.userSettings && InvitationOpen(ws, id)
    requires u in ws.userSettings && u != accepter && u != id.inviter
    ensures AcceptedState(ws, accepter, id, now).userSettings[u] == ws.userSettings[u]
  {
  }

  /** An invitation is used once: after it is accepted (by a user with a
    * non-empty name), the same request is refused. */
  lemma SecondAcceptRefused(ws: WorldState, actor: Option<Username>, request: AcceptInvitationRequest, now: int)
    requires AcceptAllowed(ws, actor, request)
    requires actor.value in ws.userSettings && actor.value != ""
    ensures AcceptRefusal(AcceptedState(ws, actor.value, request.invitationId.value, now), actor, request)
         == Some(INVITATION_UNUSABLE)
  {
    var id := request.invitationId.value;
    var r := AcceptedState(ws, actor.value, id, now);
    assert r.userSettings[id.inviter].invitations[id.nonce].acceptedBy == actor.value;
  }

  // ---------------------------------------------------------------------
  // CreatePrediction.

  /** The prediction a request creates at `now`: no trades or resolutions
    * yet, betting open for the requested seconds. */
  function NewPrediction(request: CreatePredictionRequest, creator: Username, now: int): (p: WsPrediction)
    requires request.certainty.Some?
    ensures p.trades == [] && p.resolutions == [] && p.creator == creator
    ensures p.closesUnixtime - p.createdUnixtime == request.openSeconds
    ensures ValidCreatePredictionRequest(request, now) ==>
      && p.createdUnixtime == now < p.closesUnixtime < p.resolvesAtUnixtime
      && 0.0 < p.certainty.low <= p.certainty.high <= 1.0
      && p.maximumStakeCents <= MAX_LEGAL_STAKE_CENTS
  {
    WsPrediction(
      request.prediction, request.certainty.value, request.maximumStakeCents,
      now, now + request.openSeconds, request.resolvesAtUnixtime, request.specialRules,
      creator, [], [], ReminderHistory(false, []))
  }

  // ---------------------------------------------------------------------
  // The servicer.

  class FsBackedServicer {
    var wstate: WorldState
    const mint: TokenMint

    constructor(initial: WorldState, mint: TokenMint)
      ensures wstate == initial && this.mint == mint
    {
      wstate := initial;
      this.mint := mint;
    }

    /** The user a request acts for: the owner of its token, if the token
      * checks out at `now`. */
    function Actor(token: Option<AuthToken>, now: int): Option<Username> {
      TokenOwner(CheckToken(mint, token, now))
    }

    method Stake(token: Option<AuthToken>, request: StakeRequest<PredictionNumber>, now: int)
      returns (r: Result<FsPredictionView, Failure>)
      requires Actor(token, now).Some? ==> Actor(token, now).value in wstate.userSettings
      modifies this
      ensures r.Ok? <==> StakeAllowed(old(wstate), Actor(token, now), request, now)
      ensures r.Err? ==> wstate == old(wstate) && r.error == StakeRefusal(old(wstate), Actor(token, now), request, now).value
      ensures r.Ok? ==>
        var trade := StakedTrade(old(wstate), Actor(token, now).value, request, now);
        && wstate == WithTrade(old(wstate), request.predictionId, trade)
        && r.value == ViewPrediction(wstate, Actor(token, now), wstate.predictions[request.predictionId])
      ensures Valid(old(wstate)) ==> Valid(wstate)
    {
      var actor := Actor(token, now);
      var refusal := StakeRefusal(wstate, actor, request, now);
      if refusal.Some? {
        return Err(refusal.value);
      }
      ghost var before := wstate;
      var trade := StakedTrade(wstate, actor.value, request, now);
      var p := wstate.predictions[request.predictionId];
      p := p.(trades := p.trades + [trade]);
      wstate := wstate.(predictions := wstate.predictions[request.predictionId := p]);
      if Valid(before) {
        StakeKeepsValid(before, actor, request, now);
      }
      r := Ok(ViewPrediction(wstate, actor, p));
    }

    /** `Resolve` as written: once the resolution is stored, the call that
      * starts the notification e-mail raises TypeError, so a permitted
      * resolution is persisted but answered with an exception. */
    method Resolve(token: Option<AuthToken>, request: ResolveRequest<PredictionNumber>, now: int)
      returns (r: Result<FsPredictionView, Failure>)
      requires Actor(token, now).Some? ==> Actor(token, now).value in wstate.userSettings
      modifies this
      ensures r.Err?
      ensures !ResolveAllowed(old(wstate), Actor(token, now), request) ==>
        wstate == old(wstate) && r.error == Catchall(ResolveRefusal(old(wstate), Actor(token, now), request).value)
      ensures ResolveAllowed(old(wstate), Actor(token, now), request) ==>
        && wstate == WithResolution(old(wstate), request.predictionId,
                                    ResolutionEvent(now, request.resolution.resolution, request.notes))
        && r.error == Raised(TypeError)
      ensures Valid(old(wstate)) ==> Valid(wstate)
    {
      var actor := Actor(token, now);
      var refusal := ResolveRefusal(wstate, actor, request);
      if refusal.Some? {
        return Err(Catchall(refusal.value));
      }
      var _ := RecordResolution(actor, request, now);
      var raised := BindKeywords(RESOLVE_NOTIFICATION_KEYWORDS, RESOLUTION_NOTIFICATION_PARAMETERS);
      ResolveNotificationCallRaises();
      r := Err(Raised(raised.value));
    }

    /** `Resolve` with the notifier called as intended: a permitted
      * resolution is stored and the caller gets the updated view. */
    method ResolveAsIntended(token: Option<AuthToken>, request: ResolveRequest<PredictionNumber>, now: int)
      returns (r: Result<FsPredictionView, Failure>)
      requires Actor(token, now).Some? ==> Actor(token, now).value in wstate.userSettings
      modifies this
      ensures r.Ok? <==> ResolveAllowed(old(wstate), Actor(token, now), request)
      ensures r.Err? ==> wstate == old(wstate) && r.error == Catchall(ResolveRefusal(old(wstate), Actor(token, now), request).value)
      ensures r.Ok? ==>
        && wstate == WithResolution(old(wstate), request.predictionId,
                                    ResolutionEvent(now, request.resolution.resolution, request.notes))
        && r.value == ViewPrediction(wstate, Actor(token, now), wstate.predictions[request.predictionId])
      ensures Valid(old(wstate)) ==> Valid(wstate)
    {
      var actor := Actor(token, now);
      var refusal := ResolveRefusal(wstate, actor, request);
      if refusal.Some? {
        return Err(Catchall(refusal.value));
      }
      var p := RecordResolution(actor, request, now);
      IntendedNotificationCallBinds();
      r := Ok(ViewPrediction(wstate, actor, p));
    }

    /** The part of `Resolve` inside the storage transaction: append the
      * resolution event to the prediction. */
    method RecordResolution(actor: Option<Username>, request: ResolveRequest<PredictionNumber>, now: int)
      returns (p: WsPrediction)
      requires ResolveAllowed(wstate, actor, request)
      modifies this
      ensures wstate == WithResolution(old(wstate), request.predictionId,
                                       ResolutionEvent(now, request.resolution.resolution, request.notes))
      ensures p == wstate.predictions[request.predictionId]
      ensures Valid(old(wstate)) ==> Valid(wstate)
    {
      ghost var before := wstate;
      p := wstate.predictions[request.predictionId];
      p := p.(resolutions := p.resolutions + [ResolutionEvent(now, request.resolution.resolution, request.notes)]);
      wstate := wstate.(predictions := wstate.predictions[request.predictionId := p]);
      if Valid(before) {
        TradesKeptKeepsValid(before, wstate);
      }
    }

    method SetTrusted(token: Option<AuthToken>, who: Username, trusted: bool, now: int)
      returns (r: Result<UserInfo, Failure>)
      requires Actor(token, now).Some? ==> Actor(token, now).value in wstate.userSettings
      modifies this
      ensures r.Ok? <==> Actor(token, now).Some? && who in old(wstate).userSettings
      ensures r.Err? ==> wstate == old(wstate) && r.error == Catchall(SetTrustedRefusal(old(wstate), Actor(token, now), who).value)
      ensures r.Ok? ==>
        && wstate == WithTrust(old(wstate), Actor(token, now).value, who, trusted)
        && r.value == wstate.userSettings[Actor(token, now).value]
      ensures Valid(old(wstate)) ==> Valid(wstate)
    {
      var actor := Actor(token, now);
      var refusal := SetTrustedRefusal(wstate, actor, who);
      if refusal.Some? {
        return Err(Catchall(refusal.value));
      }
      var info := wstate.userSettings[actor.value];
      info := info.(relationships := info.relationships[who := trusted]);
      wstate := wstate.(userSettings := wstate.userSettings[actor.value := info]);
      r := Ok(info);
    }

    method UpdateSettings(token: Option<AuthToken>, request: UpdateSettingsRequest, now: int)
      returns (r: Result<UserInfo, Failure>)
      requires Actor(token, now).Some? ==> Actor(token, now).value in wstate.userSettings
      modifies this
      ensures r.Ok? <==> Actor(token, now).Some?
      ensures r.Err? ==> wstate == old(wstate) && r.error == Catchall("must log in to update your settings")
      ensures r.Ok? ==>
        var user := Actor(token, now).value;
        && r.value == UpdatedInfo(old(wstate).userSettings[user], request)
        && wstate == old(wstate).(userSettings := old(wstate).userSettings[user := r.value])
      ensures Valid(old(wstate)) ==> Valid(wstate)
    {
      var actor := Actor(token, now);
      if actor.None? {
        return Err(Catchall("must log in to update your settings"));
      }
      var info := wstate.userSettings[actor.value];
      if request.emailRemindersToResolve.Some? {
        info := info.(emailRemindersToResolve := request.emailRemindersToResolve.value);
      }
      if request.emailResolutionNotifications.Some? {
        info := info.(emailResolutionNotifications := request.emailResolutionNotifications.value);
      }
      wstate := wstate.(userSettings := wstate.userSettings[actor.value := info]);
      r := Ok(info);
    }

    method AcceptInvitation(token: Option<AuthToken>, request: AcceptInvitationRequest, now: int)
      returns (r: Result<UserInfo, Failure>)
      requires Actor(token, now).Some? ==> Actor(token, now).value in wstate.userSettings
      modifies this
      ensures r.Ok? <==> AcceptAllowed(old(wstate), Actor(token, now), request)
      ensures r.Err? ==> wstate == old(wstate) && r.error == Catchall(AcceptRefusal(old(wstate), Actor(token, now), request).value)
      ensures r.Ok? ==>
        && wstate == AcceptedState(old(wstate), Actor(token, now).value, request.invitationId.value, now)
        && r.value == wstate.userSettings[Actor(token, now).value]
      ensures Valid(old(wstate)) ==> Valid(wstate)
    {
      var actor := Actor(token, now);
      var refusal := AcceptRefusal(wstate, actor, request);
      if refusal.Some? {
        return Err(Catchall(refusal.value));
      }
      var accepter := actor.value;
      var id := request.invitationId.value;
      var inviterInfo := wstate.userSettings[id.inviter];
      var invitation := inviterInfo.invitations[id.nonce];
      invitation := invitation.(acceptedBy := accepter, acceptedUnixtime := now);
      inviterInfo := inviterInfo.(invitations := inviterInfo.invitations[id.nonce := invitation]);
      wstate := wstate.(userSettings := wstate.userSettings[id.inviter := inviterInfo]);
      var accepterInfo := wstate.userSettings[accepter];
      accepterInfo := accepterInfo.(relationships := accepterInfo.relationships[id.inviter := true]);
      wstate := wstate.(userSettings := wstate.userSettings[accepter := accepterInfo]);
      inviterInfo := wstate.userSettings[id.inviter];
      inviterInfo := inviterInfo.(relationships := inviterInfo.relationships[accepter := true]);
      wstate := wstate.(userSettings := wstate.userSettings[id.inviter := inviterInfo]);
      r := Ok(wstate.userSettings[accepter]);
    }

    /** `draws` are the successive outputs of the random generator, each
      * below 2^32; some draw is a fresh id. */
    method CreatePrediction(token: Option<AuthToken>, request: CreatePredictionRequest, draws: seq<int>, now: int)
      returns (r: Result<PredictionNumber, Failure>)
      requires Actor(token, now).Some? ==> Actor(token, now).value in wstate.userSettings
      requires forall i :: 0 <= i < |draws| ==> 0 <= draws[i] < 0x1_0000_0000
      requires exists i :: 0 <= i < |draws| && draws[i] !in wstate.predictions
      modifies this
      ensures r.Ok? <==> Actor(token, now).Some? && ValidCreatePredictionRequest(request, now)
      ensures r.Err? ==> wstate == old(wstate) && r.error == Catchall(CreatePredictionRefusal(Actor(token, now), request, now).value)
      ensures r.Ok? ==>
        && 0 <= r.value < 0x1_0000_0000
        && r.value !in old(wstate).predictions
        && wstate == old(wstate).(predictions := old(wstate).predictions[r.value := NewPrediction(request, Actor(token, now).value, now)])
      ensures Valid(old(wstate)) ==> Valid(wstate)
    {
      var actor := Actor(token, now);
      var refusal := CreatePredictionRefusal(actor, request, now);
      if refusal.Some? {
        return Err(Catchall(refusal.value));
      }
      ghost var before := wstate;
      var id, _ := WeakRandNotIn(draws, 0x1_0000_0000, wstate.predictions.Keys);
      wstate := wstate.(predictions := wstate.predictions[id := NewPrediction(request, actor.value, now)]);
      if Valid(before) {
        TradesKeptKeepsValid(before, wstate);
      }
      r := Ok(id);
    }
  }
}
