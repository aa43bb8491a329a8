/** The database behind the SQL servicer, one value per table as the
  * servicer's queries use them, and the read-only queries over it. */
module SqlModel {
  import opened Wrappers
  import opened Messages
  import opened Sorting
  import opened Core
  import opened Betting

  type PredictionId = string
  type PasswordId = string
  type Nonce = string

  datatype UserRow = UserRow(
    emailRemindersToResolve: bool,
    emailResolutionNotifications: bool,
    allowEmailInvitations: bool,
    emailInvitationAcceptanceNotifications: bool,
    loginPasswordId: PasswordId,
    emailFlowState: EmailFlowState)

  datatype PredictionRow = PredictionRow(
    prediction: string,
    certainty: CertaintyRange,
    maximumStakeCents: nat,
    createdAtUnixtime: int,
    closesAtUnixtime: int,
    resolvesAtUnixtime: int,
    specialRules: string,
    creator: Username,
    resolutionReminderSent: bool)

  datatype TradeRow = TradeRow(
    predictionId: PredictionId,
    bettor: Username,
    bettorIsASkeptic: bool,
    bettorStakeCents: nat,
    creatorStakeCents: int,
    transactedAtUnixtime: int)

  datatype QueuedTradeRow = QueuedTradeRow(
    predictionId: PredictionId,
    bettor: Username,
    bettorIsASkeptic: bool,
    bettorStakeCents: nat,
    creatorStakeCents: int,
    enqueuedAtUnixtime: int)
  {
    /** The columns a queued trade is fetched and deleted by. */
    function Key(): (PredictionId, Username, int) {
      (predictionId, bettor, enqueuedAtUnixtime)
    }

    /** The trade a queued trade becomes when committed: same columns,
      * transacted at the time it was enqueued. */
    function AsTrade(): TradeRow {
      TradeRow(predictionId, bettor, bettorIsASkeptic, bettorStakeCents, creatorStakeCents, enqueuedAtUnixtime)
    }
  }

  datatype ResolutionRow = ResolutionRow(
    predictionId: PredictionId,
    resolution: Resolution,
    resolvedAtUnixtime: int,
    notes: string)

  datatype InvitationRow = InvitationRow(inviter: Username, recipient: Username)

  /** The tables. Keyed tables are maps from their primary key; trades,
    * queued trades and resolutions are sequences of rows. Relationships map
    * (subject, object) to the `trusted` column. */
  datatype Database = Database(
    users: map<Username, UserRow>,
    passwords: map<PasswordId, HashedPassword>,
    relationships: map<(Username, Username), bool>,
    predictions: map<PredictionId, PredictionRow>,
    trades: seq<TradeRow>,
    queuedTrades: seq<QueuedTradeRow>,
    resolutions: seq<ResolutionRow>,
    emailInvitations: map<Nonce, InvitationRow>)

  // ---------------------------------------------------------------------
  // The constraints the database enforces on every row it stores.

  /** The CHECK constraints of the predictions table. */
  predicate PredictionRowOk(p: PredictionRow) {
    && |p.prediction| > 0
    && 0.0 < p.certainty.low < 1.0
    && p.certainty.low <= p.certainty.high <= 1.0
    && p.maximumStakeCents > 0
    && p.closesAtUnixtime > p.createdAtUnixtime
    && p.resolvesAtUnixtime > p.createdAtUnixtime
  }

  predicate TradeRowOk(db: Database, t: TradeRow) {
    && t.predictionId in db.predictions
    && t.bettor in db.users
    && t.bettorStakeCents > 0
    && t.creatorStakeCents > 0
  }

  predicate QueuedTradeRowOk(db: Database, q: QueuedTradeRow) {
    TradeRowOk(db, q.AsTrade())
  }

  /** CHECK constraints, foreign keys, and the primary key
    * (prediction, resolved-at time) of the resolutions table. */
  predicate SchemaOk(db: Database) {
    && (forall pid :: pid in db.predictions ==>
          PredictionRowOk(db.predictions[pid]) && db.predictions[pid].creator in db.users)
    && (forall u :: u in db.users ==> db.users[u].loginPasswordId in db.passwords)
    && RelationshipUsersExist(db)
    && (forall t :: t in db.trades ==> TradeRowOk(db, t))
    && (forall q :: q in db.queuedTrades ==> QueuedTradeRowOk(db, q))
    && (forall r :: r in db.resolutions ==> r.predictionId in db.predictions)
    && ResolutionKeysUnique(db.resolutions)
    && InvitationUsersExist(db)
  }

  /** Both columns of a relationship row are foreign keys into users. */
  predicate RelationshipUsersExist(db: Database) {
    forall k :: k in db.relationships ==> k.0 in db.users && k.1 in db.users
  }

  /** The inviter and recipient of an invitation row are foreign keys into
    * users. */
  predicate InvitationUsersExist(db: Database) {
    forall n :: n in db.emailInvitations ==>
      db.emailInvitations[n].inviter in db.users && db.emailInvitations[n].recipient in db.users
  }

  predicate ResolutionKeysUnique(rs: seq<ResolutionRow>) {
    forall r1, r2 ::
      (r1 in rs && r2 in rs && r1.predictionId == r2.predictionId && r1.resolvedAtUnixtime == r2.resolvedAtUnixtime)
      ==> r1 == r2
  }

  // ---------------------------------------------------------------------
  // Trust.

  /** Everyone trusts themself; otherwise `a` trusts `b` when a relationship
    * row (a, b) exists with `trusted` set. */
  predicate Trusts(db: Database, a: Username, b: Username)
    ensures a == b ==> Trusts(db, a, b)
    ensures a != b ==> (Trusts(db, a, b) <==> (a, b) in db.relationships && db.relationships[(a, b)])
  {
    a == b || ((a, b) in db.relationships && db.relationships[(a, b)])
  }

  // ---------------------------------------------------------------------
  // Exposure: the sums the betting limits are checked against.

  predicate OnSide(t: TradeRow, pid: PredictionId, skeptics: bool) {
    t.predictionId == pid && t.bettorIsASkeptic == skeptics
  }

  /** The creator's total stake against the skeptics (or the believers) of
    * one prediction: the SUM over its trades on that side, 0 when none. */
  function CreatorExposure(trades: seq<TradeRow>, pid: PredictionId, againstSkeptics: bool): (e: int)
    ensures (forall t :: t in trades ==> t.creatorStakeCents > 0) ==> e >= 0
    ensures e != 0 ==> exists t :: t in trades && OnSide(t, pid, againstSkeptics)
  {
    if trades == [] then 0
    else
      var last := trades[|trades| - 1];
      var e0 := CreatorExposure(trades[..|trades| - 1], pid, againstSkeptics);
      assert forall t :: t in trades[..|trades| - 1] ==> t in trades;
      e0 + (if OnSide(last, pid, againstSkeptics) then last.creatorStakeCents else 0)
  }

  /** One bettor's total stake on one side of one prediction. */
  function BettorExposure(trades: seq<TradeRow>, pid: PredictionId, bettor: Username, skeptic: bool): (e: nat)
    ensures e != 0 ==> exists t :: t in trades && OnSide(t, pid, skeptic) && t.bettor == bettor
  {
    if trades == [] then 0
    else
      var last := trades[|trades| - 1];
      var e0 := BettorExposure(trades[..|trades| - 1], pid, bettor, skeptic);
      assert forall t :: t in trades[..|trades| - 1] ==> t in trades;
      e0 + (if OnSide(last, pid, skeptic) && last.bettor == bettor then last.bettorStakeCents else 0)
  }

  /** A new trade adds its creator stake to its own side's exposure and
    * leaves every other exposure as it was. */
  lemma CreatorExposureAppend(trades: seq<TradeRow>, t: TradeRow, pid: PredictionId, side: bool)
    ensures CreatorExposure(trades + [t], pid, side) ==
      CreatorExposure(trades, pid, side) + (if OnSide(t, pid, side) then t.creatorStakeCents else 0)
  {
    assert (trades + [t])[..|trades|] == trades;
  }

  lemma BettorExposureAppend(trades: seq<TradeRow>, t: TradeRow, pid: PredictionId, bettor: Username, side: bool)
    ensures BettorExposure(trades + [t], pid, bettor, side) ==
      BettorExposure(trades, pid, bettor, side) + (if OnSide(t, pid, side) && t.bettor == bettor then t.bettorStakeCents else 0)
  {
    assert (trades + [t])[..|trades|] == trades;
  }

  /** No side of any prediction has the creator staking more than the
    * prediction's maximum. */
  predicate ExposureOk(db: Database) {
    forall pid, side :: pid in db.predictions ==>
      CreatorExposure(db.trades, pid, side) <= db.predictions[pid].maximumStakeCents
  }

  /** No bettor has more than the legal maximum on one side of a prediction. */
  ghost predicate BettorCapOk(db: Database) {
    forall pid, bettor, side :: BettorExposure(db.trades, pid, bettor, side) <= MAX_LEGAL_STAKE_CENTS
  }

  /** The invariants the servicer keeps on top of the schema's. */
  ghost predicate Valid(db: Database) {
    SchemaOk(db) && ExposureOk(db) && BettorCapOk(db)
  }

  /** The invitations table takes part in no invariant but its own foreign
    * keys. */
  lemma InvitationsTableIsFree(db: Database, d: Database)
    requires d == db.(emailInvitations := d.emailInvitations)
    requires InvitationUsersExist(d)
    ensures SchemaOk(db) ==> SchemaOk(d)
    ensures Valid(db) ==> Valid(d)
  {
    assert forall t :: TradeRowOk(db, t) == TradeRowOk(d, t);
  }

  /** The creator's counter-stake for a bet on prediction row `p`. */
  function CounterStake(p: PredictionRow, skeptic: bool, bettorStakeCents: nat): (r: int)
    requires PredictionRowOk(p)
    ensures r >= 0
  {
    CreatorStakeDefined(bettorStakeCents, skeptic, p.certainty);
    CreatorStakeCents(bettorStakeCents, skeptic, p.certainty).value
  }

  // ---------------------------------------------------------------------
  // Resolutions.

  function ResolutionsOf(db: Database, pid: PredictionId): (rs: seq<ResolutionRow>)
    ensures forall r :: r in rs <==> r in db.resolutions && r.predictionId == pid
  {
    Filter(db.resolutions, (r: ResolutionRow) => r.predictionId == pid)
  }

  /** The resolution with the latest time, the first such one in `rs` when
    * several share it (the `max` by time of a sequence). */
  function Latest(rs: seq<ResolutionRow>): (r: Option<ResolutionRow>)
    ensures r.None? <==> rs == []
    ensures r.Some? ==> r.value in rs
    ensures r.Some? ==> forall x :: x in rs ==> x.resolvedAtUnixtime <= r.value.resolvedAtUnixtime
  {
    if rs == [] then None
    else
      var init := rs[..|rs| - 1];
      var last := rs[|rs| - 1];
      assert rs == init + [last];
      var m := Latest(init);
      if m.None? || last.resolvedAtUnixtime > m.value.resolvedAtUnixtime then Some(last) else m
  }

  /** A prediction has resolved when its latest resolution exists and is
    * anything other than "none yet"; betting stops then. */
  predicate HasResolved(db: Database, pid: PredictionId)
    ensures HasResolved(db, pid) ==> exists r :: r in db.resolutions && r.predictionId == pid && r.resolution != ResolutionNoneYet
  {
    var latest := Latest(ResolutionsOf(db, pid));
    latest.Some? && latest.value.resolution != ResolutionNoneYet
  }

  /** With the primary key on (prediction, time), the latest resolution is
    * the one row with the greatest time: which one `max` picks does not
    * depend on the order the rows come back in. */
  lemma LatestIsTheGreatest(db: Database, pid: PredictionId, x: ResolutionRow)
    requires ResolutionKeysUnique(db.resolutions)
    requires x in db.resolutions && x.predictionId == pid
    requires forall y :: y in db.resolutions && y.predictionId == pid ==> y.resolvedAtUnixtime <= x.resolvedAtUnixtime
    ensures Latest(ResolutionsOf(db, pid)) == Some(x)
  {
    var rs := ResolutionsOf(db, pid);
    var l := Latest(rs).value;
    assert l in db.resolutions && l.predictionId == pid;
    assert x in rs;
    assert l.resolvedAtUnixtime == x.resolvedAtUnixtime;
  }

  // ---------------------------------------------------------------------
  // The prediction view.

  datatype PredictionView = PredictionView(
    prediction: string,
    certainty: CertaintyRange,
    maximumStakeCents: nat,
    remainingStakeCentsVsBelievers: int,
    remainingStakeCentsVsSkeptics: int,
    createdUnixtime: int,
    closesUnixtime: int,
    resolvesAtUnixtime: int,
    specialRules: string,
    creator: Username,
    allowEmailInvitations: bool,
    resolutions: seq<ResolutionEvent>,
    yourTrades: seq<Trade>,
    yourQueuedTrades: seq<QueuedTrade>)

  function ResolutionEventOf(r: ResolutionRow): ResolutionEvent {
    ResolutionEvent(r.resolvedAtUnixtime, r.resolution, r.notes)
  }

  function TradeOf(t: TradeRow): Trade {
    Trade(t.bettor, t.bettorIsASkeptic, t.creatorStakeCents, t.bettorStakeCents, t.transactedAtUnixtime)
  }

  function QueuedTradeOf(q: QueuedTradeRow): QueuedTrade {
    QueuedTrade(q.bettor, q.bettorIsASkeptic, q.creatorStakeCents, q.bettorStakeCents, q.enqueuedAtUnixtime)
  }

  function MapSeq<A, B>(s: seq<A>, f: A -> B): (r: seq<B>)
    ensures |r| == |s| && forall i :: 0 <= i < |s| ==> r[i] == f(s[i])
  {
    seq(|s|, i requires 0 <= i < |s| => f(s[i]))
  }

  /** Whether a row of prediction `pid` by `bettor` is shown to `viewer`:
    * the creator sees every row, anyone else only their own. */
  predicate ShownTo(viewer: Option<Username>, creator: Username, pid: PredictionId, rowPid: PredictionId, bettor: Username) {
    rowPid == pid && (viewer == Some(creator) || viewer == Some(bettor))
  }

  /** The prediction's resolutions, oldest first. */
  function ViewedResolutions(db: Database, pid: PredictionId): (es: seq<ResolutionEvent>)
    ensures SortedBy(es, (e: ResolutionEvent) => e.unixtime)
  {
    SortBy(MapSeq(ResolutionsOf(db, pid), ResolutionEventOf), (e: ResolutionEvent) => e.unixtime)
  }

  /** The trades of prediction `pid` shown to `viewer`, oldest first. */
  function ViewedTrades(db: Database, viewer: Option<Username>, creator: Username, pid: PredictionId): (ts: seq<Trade>)
    ensures SortedBy(ts, (t: Trade) => t.transactedUnixtime)
  {
    SortBy(
      MapSeq(Filter(db.trades, (t: TradeRow) => ShownTo(viewer, creator, pid, t.predictionId, t.bettor)), TradeOf),
      (t: Trade) => t.transactedUnixtime)
  }

  /** The queued trades of prediction `pid` shown to `viewer`, oldest first. */
  function ViewedQueuedTrades(db: Database, viewer: Option<Username>, creator: Username, pid: PredictionId): (qs: seq<QueuedTrade>)
    ensures SortedBy(qs, (q: QueuedTrade) => q.enqueuedAtUnixtime)
  {
    SortBy(
      MapSeq(Filter(db.queuedTrades, (q: QueuedTradeRow) => ShownTo(viewer, creator, pid, q.predictionId, q.bettor)), QueuedTradeOf),
      (q: QueuedTrade) => q.enqueuedAtUnixtime)
  }

  /** The view lists every resolution of the prediction and nothing else. */
  lemma {:induction false} ViewedResolutionsAreThePredictions(db: Database, pid: PredictionId)
    ensures forall e :: e in ViewedResolutions(db, pid) <==>
      exists r :: r in db.resolutions && r.predictionId == pid && e == ResolutionEventOf(r)
  {
    var rs := ResolutionsOf(db, pid);
    var mapped := MapSeq(rs, ResolutionEventOf);
    SortByMembers(mapped, (e: ResolutionEvent) => e.unixtime);
    forall e ensures e in mapped <==> exists r :: r in db.resolutions && r.predictionId == pid && e == ResolutionEventOf(r) {
      if e in mapped {
        var i :| 0 <= i < |mapped| && mapped[i] == e;
        assert rs[i] in rs;
      }
      if exists r :: r in db.resolutions && r.predictionId == pid && e == ResolutionEventOf(r) {
        var r :| r in db.resolutions && r.predictionId == pid && e == ResolutionEventOf(r);
        assert r in rs;
        var i :| 0 <= i < |rs| && rs[i] == r;
        assert mapped[i] == e;
      }
    }
  }

  /** The creator sees every trade of the prediction; anyone else sees
    * exactly their own. */
  lemma {:induction false} ViewedTradesAreTheViewers(db: Database, viewer: Option<Username>, creator: Username, pid: PredictionId)
    ensures forall t :: t in ViewedTrades(db, viewer, creator, pid) <==>
      exists row :: row in db.trades && ShownTo(viewer, creator, pid, row.predictionId, row.bettor) && t == TradeOf(row)
  {
    var rows := Filter(db.trades, (t: TradeRow) => ShownTo(viewer, creator, pid, t.predictionId, t.bettor));
    var mapped := MapSeq(rows, TradeOf);
    SortByMembers(mapped, (t: Trade) => t.transactedUnixtime);
    forall t ensures t in mapped <==> exists row :: row in db.trades && ShownTo(viewer, creator, pid, row.predictionId, row.bettor) && t == TradeOf(row) {
      if t in mapped {
        var i :| 0 <= i < |mapped| && mapped[i] == t;
        assert rows[i] in rows;
      }
      if exists row :: row in db.trades && ShownTo(viewer, creator, pid, row.predictionId, row.bettor) && t == TradeOf(row) {
        var row :| row in db.trades && ShownTo(viewer, creator, pid, row.predictionId, row.bettor) && t == TradeOf(row);
        assert row in rows;
        var i :| 0 <= i < |rows| && rows[i] == row;
        assert mapped[i] == t;
      }
    }
  }

  /** The creator sees every queued trade of the prediction; anyone else
    * sees exactly their own. */
  lemma {:induction false} ViewedQueuedTradesAreTheViewers(db: Database, viewer: Option<Username>, creator: Username, pid: PredictionId)
    ensures forall q :: q in ViewedQueuedTrades(db, viewer, creator, pid) <==>
      exists row :: row in db.queuedTrades && ShownTo(viewer, creator, pid, row.predictionId, row.bettor) && q == QueuedTradeOf(row)
  {
    var rows := Filter(db.queuedTrades, (q: QueuedTradeRow) => ShownTo(viewer, creator, pid, q.predictionId, q.bettor));
    var mapped := MapSeq(rows, QueuedTradeOf);
    SortByMembers(mapped, (q: QueuedTrade) => q.enqueuedAtUnixtime);
    forall q ensures q in mapped <==> exists row :: row in db.queuedTrades && ShownTo(viewer, creator, pid, row.predictionId, row.bettor) && q == QueuedTradeOf(row) {
      if q in mapped {
        var i :| 0 <= i < |mapped| && mapped[i] == q;
        assert rows[i] in rows;
      }
      if exists row :: row in db.queuedTrades && ShownTo(viewer, creator, pid, row.predictionId, row.bettor) && q == QueuedTradeOf(row) {
        var row :| row in db.queuedTrades && ShownTo(viewer, creator, pid, row.predictionId, row.bettor) && q == QueuedTradeOf(row);
        assert row in rows;
        var i :| 0 <= i < |rows| && rows[i] == row;
        assert mapped[i] == q;
      }
    }
  }

  /** The prediction as `viewer` sees it: its columns, what the creator can
    * still stake on each side (the maximum less the trades' exposure), its
    * resolutions, and the viewer's trades and queued trades. */
  function ViewPrediction(db: Database, viewer: Option<Username>, pid: PredictionId): (v: Option<PredictionView>)
    requires pid in db.predictions ==> db.predictions[pid].creator in db.users
    ensures v.None? <==> pid !in db.predictions
    ensures v.Some? ==>
      && v.value.remainingStakeCentsVsBelievers == db.predictions[pid].maximumStakeCents - CreatorExposure(db.trades, pid, false)
      && v.value.remainingStakeCentsVsSkeptics == db.predictions[pid].maximumStakeCents - CreatorExposure(db.trades, pid, true)
    ensures v.Some? ==> v.value.creator == db.predictions[pid].creator
    ensures v.Some? ==> v.value.resolutions == ViewedResolutions(db, pid)
    ensures v.Some? ==> v.value.yourTrades == ViewedTrades(db, viewer, v.value.creator, pid)
    ensures v.Some? ==> v.value.yourQueuedTrades == ViewedQueuedTrades(db, viewer, v.value.creator, pid)
    ensures v.Some? ==>
      (v.value.allowEmailInvitations <==>
        db.users[v.value.creator].allowEmailInvitations && db.users[v.value.creator].emailFlowState.Verified?)
    ensures v.Some? ==>
      var row := db.predictions[pid];
      && v.value.prediction == row.prediction && v.value.certainty == row.certainty
      && v.value.maximumStakeCents == row.maximumStakeCents && v.value.specialRules == row.specialRules
      && v.value.createdUnixtime == row.createdAtUnixtime && v.value.closesUnixtime == row.closesAtUnixtime
      && v.value.resolvesAtUnixtime == row.resolvesAtUnixtime
  {
    if pid !in db.predictions then None
    else
      var row := db.predictions[pid];
      var creatorRow := db.users[row.creator];
      Some(PredictionView(
        row.prediction,
        row.certainty,
        row.maximumStakeCents,
        row.maximumStakeCents - CreatorExposure(db.trades, pid, false),
        row.maximumStakeCents - CreatorExposure(db.trades, pid, true),
        row.createdAtUnixtime,
        row.closesAtUnixtime,
        row.resolvesAtUnixtime,
        row.specialRules,
        row.creator,
        creatorRow.allowEmailInvitations && creatorRow.emailFlowState.Verified?,
        ViewedResolutions(db, pid),
        ViewedTrades(db, viewer, row.creator, pid),
        ViewedQueuedTrades(db, viewer, row.creator, pid)))
  }

  /** Under the servicer's invariants the creator can still stake a
    * non-negative amount on each side. */
  lemma RemainingStakeNonNegative(db: Database, viewer: Option<Username>, pid: PredictionId)
    requires Valid(db) && pid in db.predictions
    ensures ViewPrediction(db, viewer, pid).value.remainingStakeCentsVsBelievers >= 0
    ensures ViewPrediction(db, viewer, pid).value.remainingStakeCentsVsSkeptics >= 0
  {
    var max := db.predictions[pid].maximumStakeCents;
    assert CreatorExposure(db.trades, pid, false) <= max;
    assert CreatorExposure(db.trades, pid, true) <= max;
  }

  /** Queued trades are kept apart from trades: they never reduce what the
    * creator can still stake. */
  lemma QueuedTradesDoNotReduceRemaining(db: Database, queued: seq<QueuedTradeRow>, viewer: Option<Username>, pid: PredictionId)
    requires pid in db.predictions && db.predictions[pid].creator in db.users
    ensures var v, w := ViewPrediction(db, viewer, pid).value, ViewPrediction(db.(queuedTrades := queued), viewer, pid).value;
      v.remainingStakeCentsVsBelievers == w.remainingStakeCentsVsBelievers &&
      v.remainingStakeCentsVsSkeptics == w.remainingStakeCentsVsSkeptics
  {
  }

  // ---------------------------------------------------------------------
  // Settings.

  datatype GenericUserInfo = GenericUserInfo(
    emailRemindersToResolve: bool,
    emailResolutionNotifications: bool,
    allowEmailInvitations: bool,
    emailInvitationAcceptanceNotifications: bool,
    email: Option<EmailFlowState>,
    relationships: map<Username, Relationship>,
    invitations: set<Username>)

  /** The settings message with every field at its default; its e-mail
    * sub-message is unset (`HasField('email')` is false). */
  const EMPTY_USER_INFO := GenericUserInfo(false, false, false, false, None, map[], {})

  /** The users `user` has a relationship row about. */
  function OutgoingObjects(db: Database, user: Username): (r: set<Username>)
    ensures forall who :: who in r <==> (user, who) in db.relationships
  {
    set k | k in db.relationships.Keys && k.0 == user :: k.1
  }

  /** `user`'s settings, with a relationship entry for every user in
    * `alsoInclude` and every user `user` has a relationship row about, and the
    * recipients of `user`'s outstanding invitations. */
  function GetSettings(db: Database, user: Username, alsoInclude: set<Username>): (r: Option<GenericUserInfo>)
    ensures r.None? <==> user !in db.users
    ensures r.Some? ==>
      var row := db.users[user];
      && r.value.emailRemindersToResolve == row.emailRemindersToResolve
      && r.value.emailResolutionNotifications == row.emailResolutionNotifications
      && r.value.allowEmailInvitations == row.allowEmailInvitations
      && r.value.emailInvitationAcceptanceNotifications == row.emailInvitationAcceptanceNotifications
      && r.value.email == Some(row.emailFlowState)
    ensures r.Some? ==> r.value.relationships.Keys == alsoInclude + OutgoingObjects(db, user)
    ensures r.Some? ==> forall who :: who in r.value.invitations <==>
      exists nonce :: nonce in db.emailInvitations && db.emailInvitations[nonce] == InvitationRow(user, who)
  {
    if user !in db.users then None
    else
      var row := db.users[user];
      var whos := alsoInclude + OutgoingObjects(db, user);
      var invited := set nonce | nonce in db.emailInvitations && db.emailInvitations[nonce].inviter == user
        :: db.emailInvitations[nonce].recipient;
      assert forall who :: who in invited <==>
        exists nonce :: nonce in db.emailInvitations && db.emailInvitations[nonce] == InvitationRow(user, who) by {
        forall who ensures who in invited ==>
          exists nonce :: nonce in db.emailInvitations && db.emailInvitations[nonce] == InvitationRow(user, who) {
          if who in invited {
            var nonce :| nonce in db.emailInvitations && db.emailInvitations[nonce].inviter == user &&
              db.emailInvitations[nonce].recipient == who;
            assert db.emailInvitations[nonce] == InvitationRow(user, who);
          }
        }
      }
      Some(GenericUserInfo(
        row.emailRemindersToResolve,
        row.emailResolutionNotifications,
        row.allowEmailInvitations,
        row.emailInvitationAcceptanceNotifications,
        Some(row.emailFlowState),
        map who | who in whos ::
          Relationship(
            (user, who) in db.relationships && db.relationships[(user, who)],
            (who, user) in db.relationships && db.relationships[(who, user)]),
        invited))
  }

  /** Every relationship the settings list agrees with `Trusts` in both
    * directions, for everyone other than the user themself. */
  lemma SettingsAgreeWithTrusts(db: Database, user: Username, alsoInclude: set<Username>, who: Username)
    requires user in db.users && who != user && who in GetSettings(db, user, alsoInclude).value.relationships
    ensures GetSettings(db, user, alsoInclude).value.relationships[who] ==
      Relationship(Trusts(db, user, who), Trusts(db, who, user))
  {
  }

  // ---------------------------------------------------------------------
  // The invariant check.

  datatype Violation = ExposureExceeded(
    predictionId: PredictionId,
    bettorIsASkeptic: bool,
    maximumStakeCents: nat,
    actualExposure: int)

  /** One violation per (prediction, side) group of trades whose summed
    * creator stake exceeds the prediction's maximum. */
  function FindInvariantViolations(db: Database): (vs: set<Violation>)
    ensures forall v :: v in vs ==>
      && v.predictionId in db.predictions
      && v.maximumStakeCents == db.predictions[v.predictionId].maximumStakeCents
      && v.actualExposure == CreatorExposure(db.trades, v.predictionId, v.bettorIsASkeptic)
      && v.actualExposure > v.maximumStakeCents
  {
    set t | t in db.trades && t.predictionId in db.predictions &&
        CreatorExposure(db.trades, t.predictionId, t.bettorIsASkeptic) > db.predictions[t.predictionId].maximumStakeCents
      :: ExposureExceeded(
        t.predictionId,
        t.bettorIsASkeptic,
        db.predictions[t.predictionId].maximumStakeCents,
        CreatorExposure(db.trades, t.predictionId, t.bettorIsASkeptic))
  }

  /** A side over its maximum shows up in the check's report. */
  lemma ExceededIsReported(db: Database, pid: PredictionId, side: bool)
    requires pid in db.predictions
    requires CreatorExposure(db.trades, pid, side) > db.predictions[pid].maximumStakeCents
    ensures ExposureExceeded(pid, side, db.predictions[pid].maximumStakeCents, CreatorExposure(db.trades, pid, side))
      in FindInvariantViolations(db)
  {
    var t :| t in db.trades && OnSide(t, pid, side);
  }

  /** The check reports nothing exactly when no side of any prediction is
    * over its maximum. */
  lemma {:induction false} NoViolationsIffExposureOk(db: Database)
    ensures FindInvariantViolations(db) == {} <==> ExposureOk(db)
  {
    if FindInvariantViolations(db) == {} {
      forall pid, side | pid in db.predictions
        ensures CreatorExposure(db.trades, pid, side) <= db.predictions[pid].maximumStakeCents
      {
        var e := CreatorExposure(db.trades, pid, side);
        if e > db.predictions[pid].maximumStakeCents {
          ExceededIsReported(db, pid, side);
          assert false;
        }
      }
    }
  }
}
