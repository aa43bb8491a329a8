/** The connection layer of the SQL servicer: each method runs its inserts,
  * updates and deletes against the tables, and the functions beside them
  * say what the tables are afterwards. */
module SqlConnection {
  import opened Wrappers
  import opened Messages
  import opened Sorting
  import opened Core
  import opened SqlModel

  // ---------------------------------------------------------------------
  // Queued trades.

  /** The queued trades by `bettor` on predictions `creator` created. */
  function QueuedTradesOf(db: Database, bettor: Username, creator: Username): (qs: seq<QueuedTradeRow>)
    ensures forall q :: q in qs <==>
      q in db.queuedTrades && q.bettor == bettor && q.predictionId in db.predictions &&
      db.predictions[q.predictionId].creator == creator
  {
    Filter(db.queuedTrades, (q: QueuedTradeRow) =>
      q.bettor == bettor && q.predictionId in db.predictions && db.predictions[q.predictionId].creator == creator)
  }

  /** The queued trades each of two users placed on the other's predictions. */
  function QueuedBetween(db: Database, user1: Username, user2: Username): (qs: seq<QueuedTradeRow>)
    ensures forall q :: q in qs <==> q in db.queuedTrades && IsBetween(db, q, user1, user2)
  {
    QueuedTradesOf(db, user1, user2) + QueuedTradesOf(db, user2, user1)
  }

  predicate IsBetween(db: Database, q: QueuedTradeRow, user1: Username, user2: Username) {
    && q.predictionId in db.predictions
    && var creator := db.predictions[q.predictionId].creator;
       (q.bettor == user1 && creator == user2) || (q.bettor == user2 && creator == user1)
  }

  /** Deletes every queued row with the given key. */
  function DeleteQueued(db: Database, key: (PredictionId, Username, int)): (d: Database)
    ensures d == db.(queuedTrades := d.queuedTrades)
    ensures forall q :: q in d.queuedTrades <==> q in db.queuedTrades && q.Key() != key
  {
    db.(queuedTrades := Filter(db.queuedTrades, (q: QueuedTradeRow) => q.Key() != key))
  }

  /** Moves a queued trade into the trades table. */
  function CommitQueued(db: Database, q: QueuedTradeRow): (d: Database)
    ensures d == db.(trades := db.trades + [q.AsTrade()], queuedTrades := d.queuedTrades)
    ensures forall x :: x in d.queuedTrades <==> x in db.queuedTrades && x.Key() != q.Key()
  {
    DeleteQueued(db.(trades := db.trades + [q.AsTrade()]), q.Key())
  }

  /** Whether committing `q` keeps the creator within the prediction's
    * maximum and the bettor within the legal maximum, on `q`'s side. */
  predicate Fits(db: Database, q: QueuedTradeRow)
    requires q.predictionId in db.predictions
  {
    && CreatorExposure(db.trades, q.predictionId, q.bettorIsASkeptic) + q.creatorStakeCents
         <= db.predictions[q.predictionId].maximumStakeCents
    && BettorExposure(db.trades, q.predictionId, q.bettor, q.bettorIsASkeptic) + q.bettorStakeCents
         <= MAX_LEGAL_STAKE_CENTS
  }

  /** One queued trade leaves the queue: committed if it fits, deleted
    * otherwise. */
  function DequeueStep(db: Database, q: QueuedTradeRow): (d: Database)
    requires q.predictionId in db.predictions
    ensures d == db.(trades := d.trades, queuedTrades := d.queuedTrades)
    ensures d.trades == if Fits(db, q) then db.trades + [q.AsTrade()] else db.trades
    ensures forall x :: x in d.queuedTrades <==> x in db.queuedTrades && x.Key() != q.Key()
  {
    if Fits(db, q) then CommitQueued(db, q) else DeleteQueued(db, q.Key())
  }

  /** The queued trades `qs` leave the queue one after another, each judged
    * against the trades committed before it. */
  function DequeueAll(db: Database, qs: seq<QueuedTradeRow>): (d: Database)
    requires forall q :: q in qs ==> q.predictionId in db.predictions
    ensures d == db.(trades := d.trades, queuedTrades := d.queuedTrades)
    decreases |qs|
  {
    if qs == [] then db
    else
      assert forall q :: q in qs[1..] ==> q in qs;
      DequeueAll(DequeueStep(db, qs[0]), qs[1..])
  }

  /** Every row with the key of a dequeued trade is gone, and nothing else
    * left the queue. */
  lemma {:induction false} DequeueAllRemovesKeys(db: Database, qs: seq<QueuedTradeRow>)
    requires forall q :: q in qs ==> q.predictionId in db.predictions
    ensures forall x :: x in DequeueAll(db, qs).queuedTrades <==>
      x in db.queuedTrades && forall q :: q in qs ==> x.Key() != q.Key()
    decreases |qs|
  {
    if qs != [] {
      var d1 := DequeueStep(db, qs[0]);
      assert forall q :: q in qs[1..] ==> q in qs;
      DequeueAllRemovesKeys(d1, qs[1..]);
      assert forall q :: q in qs <==> q == qs[0] || q in qs[1..];
    }
  }

  /** The trades that dequeuing `qs` may commit: the queued rows themselves. */
  function CommittedForms(qs: seq<QueuedTradeRow>): (ts: set<TradeRow>)
    ensures forall q :: q in qs ==> q.AsTrade() in ts
  {
    set q | q in qs :: q.AsTrade()
  }

  /** Dequeuing only appends to the trades. */
  lemma {:induction false} DequeueAllExtendsTrades(db: Database, qs: seq<QueuedTradeRow>)
    requires forall q :: q in qs ==> q.predictionId in db.predictions
    ensures db.trades <= DequeueAll(db, qs).trades
    decreases |qs|
  {
    if qs != [] {
      var d1 := DequeueStep(db, qs[0]);
      assert forall q :: q in qs[1..] ==> q in qs;
      DequeueAllExtendsTrades(d1, qs[1..]);
      assert db.trades <= d1.trades;
    }
  }

  /** Every trade dequeuing appends is one of the dequeued rows, committed. */
  lemma {:induction false} DequeueAllAppendsFromQueue(db: Database, qs: seq<QueuedTradeRow>)
    requires forall q :: q in qs ==> q.predictionId in db.predictions
    ensures var d := DequeueAll(db, qs);
      forall i :: |db.trades| <= i < |d.trades| ==> d.trades[i] in CommittedForms(qs)
    decreases |qs|
  {
    if qs != [] {
      var d1 := DequeueStep(db, qs[0]);
      assert forall q :: q in qs[1..] ==> q in qs;
      DequeueAllAppendsFromQueue(d1, qs[1..]);
      DequeueAllExtendsTrades(d1, qs[1..]);
      var t := DequeueAll(d1, qs[1..]).trades;
      assert CommittedForms(qs[1..]) <= CommittedForms(qs);
      forall i | |db.trades| <= i < |d1.trades|
        ensures t[i] in CommittedForms(qs)
      {
        assert t[i] == d1.trades[i];
      }
    }
  }

  /** Appending a trade that passes the two limit checks keeps the
    * servicer's invariants. */
  lemma AppendTradeKeepsValid(db: Database, t: TradeRow)
    requires Valid(db) && TradeRowOk(db, t)
    requires CreatorExposure(db.trades, t.predictionId, t.bettorIsASkeptic) + t.creatorStakeCents
      <= db.predictions[t.predictionId].maximumStakeCents
    requires BettorExposure(db.trades, t.predictionId, t.bettor, t.bettorIsASkeptic) + t.bettorStakeCents
      <= MAX_LEGAL_STAKE_CENTS
    ensures Valid(db.(trades := db.trades + [t]))
  {
    var d := db.(trades := db.trades + [t]);
    AppendTradeKeepsSchema(db, t);
    forall pid, side | pid in d.predictions
      ensures CreatorExposure(d.trades, pid, side) <= d.predictions[pid].maximumStakeCents
    {
      CreatorExposureAppend(db.trades, t, pid, side);
    }
    forall pid, bettor, side
      ensures BettorExposure(d.trades, pid, bettor, side) <= MAX_LEGAL_STAKE_CENTS
    {
      BettorExposureAppend(db.trades, t, pid, bettor, side);
    }
  }

  lemma AppendTradeKeepsSchema(db: Database, t: TradeRow)
    requires SchemaOk(db) && TradeRowOk(db, t)
    ensures SchemaOk(db.(trades := db.trades + [t]))
  {
  }

  lemma AppendQueuedKeepsSchema(db: Database, q: QueuedTradeRow)
    requires SchemaOk(db) && QueuedTradeRowOk(db, q)
    ensures SchemaOk(db.(queuedTrades := db.queuedTrades + [q]))
  {
  }

  /** A resolution of an existing prediction at a time it has no other
    * resolution at keeps the schema, primary key included. */
  lemma AppendResolutionKeepsSchema(db: Database, r: ResolutionRow)
    requires SchemaOk(db) && r.predictionId in db.predictions
    requires forall x :: x in db.resolutions && x.predictionId == r.predictionId ==> x.resolvedAtUnixtime != r.resolvedAtUnixtime
    ensures SchemaOk(db.(resolutions := db.resolutions + [r]))
  {
  }

  lemma DequeueStepKeepsValid(db: Database, q: QueuedTradeRow)
    requires Valid(db) && QueuedTradeRowOk(db, q)
    ensures Valid(DequeueStep(db, q))
  {
    var mid := db;
    if Fits(db, q) {
      AppendTradeKeepsValid(db, q.AsTrade());
      mid := db.(trades := db.trades + [q.AsTrade()]);
    }
    QueueShrinkKeepsValid(mid, DequeueStep(db, q));
  }

  /** Removing queued rows keeps every invariant: the betting invariants do
    * not read the queue, and the rows left were well-formed before. */
  lemma QueueShrinkKeepsValid(db: Database, d: Database)
    requires Valid(db)
    requires d == db.(queuedTrades := d.queuedTrades)
    requires forall x :: x in d.queuedTrades ==> x in db.queuedTrades
    ensures Valid(d)
  {
    assert forall x :: QueuedTradeRowOk(db, x) == QueuedTradeRowOk(d, x);
  }

  /** Dequeuing keeps every invariant: a trade is committed only when it
    * fits both limits. */
  lemma {:induction false} DequeueAllKeepsValid(db: Database, qs: seq<QueuedTradeRow>)
    requires Valid(db)
    requires forall q :: q in qs ==> q.predictionId in db.predictions && QueuedTradeRowOk(db, q)
    ensures Valid(DequeueAll(db, qs))
    decreases |qs|
  {
    if qs != [] {
      DequeueStepKeepsValid(db, qs[0]);
      var d1 := DequeueStep(db, qs[0]);
      assert forall q :: q in qs[1..] ==> q in qs;
      DequeueAllKeepsValid(d1, qs[1..]);
    }
  }

  /** A change to the trades and queued trades alone keeps the schema when
    * every row left in them is well-formed. */
  lemma TradeTablesKeepSchema(db: Database, d: Database)
    requires SchemaOk(db)
    requires d == db.(trades := d.trades, queuedTrades := d.queuedTrades)
    requires forall t :: t in d.trades ==> TradeRowOk(db, t)
    requires forall q :: q in d.queuedTrades ==> QueuedTradeRowOk(db, q)
    ensures SchemaOk(d)
  {
  }

  /** One dequeued trade keeps the schema: a committed row was a well-formed
    * queued row, and deleting rows leaves only rows that were there. */
  lemma DequeueStepKeepsSchema(db: Database, q: QueuedTradeRow)
    requires SchemaOk(db) && q.predictionId in db.predictions && QueuedTradeRowOk(db, q)
    ensures SchemaOk(DequeueStep(db, q))
  {
    var d := DequeueStep(db, q);
    forall t | t in d.trades
      ensures TradeRowOk(db, t)
    {
      if t !in db.trades {
        assert t == q.AsTrade();
      }
    }
    TradeTablesKeepSchema(db, d);
  }

  /** Dequeuing keeps the schema. */
  lemma {:induction false} DequeueAllKeepsSchema(db: Database, qs: seq<QueuedTradeRow>)
    requires SchemaOk(db)
    requires forall q :: q in qs ==> q.predictionId in db.predictions && QueuedTradeRowOk(db, q)
    ensures SchemaOk(DequeueAll(db, qs))
    decreases |qs|
  {
    if qs != [] {
      DequeueStepKeepsSchema(db, qs[0]);
      var d1 := DequeueStep(db, qs[0]);
      assert forall q :: q in qs[1..] ==> q in qs;
      DequeueAllKeepsSchema(d1, qs[1..]);
    }
  }

  // ---------------------------------------------------------------------
  // Trust.

  /** The tables after `set_trusted(subject, objectUser, trusted)`: the
    * relationship row is inserted or updated, and if trust is then mutual
    * every queued trade between the two leaves the queue. */
  function SetTrustedResult(db: Database, subject: Username, objectUser: Username, trusted: bool): (d: Database)
    ensures d == db.(relationships := d.relationships, trades := d.trades, queuedTrades := d.queuedTrades)
    ensures d.relationships == db.relationships[(subject, objectUser) := trusted]
  {
    var d1 := db.(relationships := db.relationships[(subject, objectUser) := trusted]);
    if Trusts(d1, subject, objectUser) && Trusts(d1, objectUser, subject) then
      DequeueAll(d1, QueuedBetween(d1, subject, objectUser))
    else d1
  }

  /** Setting trust decides the one relationship it names and no other:
    * trust is one-way. */
  lemma SetTrustedDecidesTrust(db: Database, subject: Username, objectUser: Username, trusted: bool, a: Username, b: Username)
    ensures Trusts(SetTrustedResult(db, subject, objectUser, trusted), a, b) ==
      if a == subject && b == objectUser then a == b || trusted else Trusts(db, a, b)
  {
  }

  /** After the queued trades between two users leave the queue, none
    * between them is left. */
  lemma DequeueBetweenEmpties(db: Database, user1: Username, user2: Username)
    ensures QueuedBetween(DequeueAll(db, QueuedBetween(db, user1, user2)), user1, user2) == []
  {
    var rest := QueuedBetween(DequeueAll(db, QueuedBetween(db, user1, user2)), user1, user2);
    if rest != [] {
      DequeuedRowIsNotBetween(db, user1, user2, rest[0]);
      assert false;
    }
  }

  lemma DequeuedRowIsNotBetween(db: Database, user1: Username, user2: Username, x: QueuedTradeRow)
    requires x in DequeueAll(db, QueuedBetween(db, user1, user2)).queuedTrades
    ensures !IsBetween(DequeueAll(db, QueuedBetween(db, user1, user2)), x, user1, user2)
  {
    var qs := QueuedBetween(db, user1, user2);
    DequeueAllRemovesKeys(db, qs);
    assert x !in qs;
  }

  /** Once trust is mutual, no queued trade between the two remains. */
  lemma SetTrustedEmptiesQueue(db: Database, subject: Username, objectUser: Username, trusted: bool)
    requires var d := SetTrustedResult(db, subject, objectUser, trusted);
      Trusts(d, subject, objectUser) && Trusts(d, objectUser, subject)
    ensures QueuedBetween(SetTrustedResult(db, subject, objectUser, trusted), subject, objectUser) == []
  {
    var d1 := db.(relationships := db.relationships[(subject, objectUser) := trusted]);
    DequeueBetweenEmpties(d1, subject, objectUser);
  }

  /** Setting the same trust twice is the same as setting it once. */
  lemma SetTrustedIdempotent(db: Database, subject: Username, objectUser: Username, trusted: bool)
    ensures var d := SetTrustedResult(db, subject, objectUser, trusted);
      SetTrustedResult(d, subject, objectUser, trusted) == d
  {
    var d := SetTrustedResult(db, subject, objectUser, trusted);
    assert d.relationships[(subject, objectUser) := trusted] == d.relationships;
    assert d.(relationships := d.relationships[(subject, objectUser) := trusted]) == d;
    if Trusts(d, subject, objectUser) && Trusts(d, objectUser, subject) {
      SetTrustedEmptiesQueue(db, subject, objectUser, trusted);
    }
  }

  /** Setting trust keeps the servicer's invariants. */
  /** A relationship row between two existing users keeps the schema; no
    * other table reads the relationships. */
  lemma RelationshipRowKeepsSchema(db: Database, subject: Username, objectUser: Username, trusted: bool)
    requires SchemaOk(db) && subject in db.users && objectUser in db.users
    ensures SchemaOk(db.(relationships := db.relationships[(subject, objectUser) := trusted]))
  {
    var d := db.(relationships := db.relationships[(subject, objectUser) := trusted]);
    assert forall t :: TradeRowOk(db, t) == TradeRowOk(d, t);
    assert forall q :: QueuedTradeRowOk(db, q) == QueuedTradeRowOk(d, q);
  }

  lemma SetTrustedKeepsValid(db: Database, subject: Username, objectUser: Username, trusted: bool)
    requires Valid(db) && subject in db.users && objectUser in db.users
    ensures Valid(SetTrustedResult(db, subject, objectUser, trusted))
  {
    var d1 := db.(relationships := db.relationships[(subject, objectUser) := trusted]);
    RelationshipRowKeepsSchema(db, subject, objectUser, trusted);
    if Trusts(d1, subject, objectUser) && Trusts(d1, objectUser, subject) {
      DequeueAllKeepsValid(d1, QueuedBetween(d1, subject, objectUser));
    }
  }

  lemma SetTrustedKeepsSchema(db: Database, subject: Username, objectUser: Username, trusted: bool)
    requires SchemaOk(db) && subject in db.users && objectUser in db.users
    ensures SchemaOk(SetTrustedResult(db, subject, objectUser, trusted))
  {
    var d1 := db.(relationships := db.relationships[(subject, objectUser) := trusted]);
    RelationshipRowKeepsSchema(db, subject, objectUser, trusted);
    if Trusts(d1, subject, objectUser) && Trusts(d1, objectUser, subject) {
      DequeueAllKeepsSchema(d1, QueuedBetween(d1, subject, objectUser));
    }
  }

  // ---------------------------------------------------------------------
  // Invitations.

  /** Whether inserting the relationship row (subject, objectUser) breaks a
    * foreign key: there is no such row yet, so `set_trusted` inserts one,
    * and one of the two users does not exist. */
  predicate RelationshipInsertFails(db: Database, subject: Username, objectUser: Username) {
    (subject, objectUser) !in db.relationships && (subject !in db.users || objectUser !in db.users)
  }

  /** Whether `inviter` has an outstanding invitation to `recipient`. */
  predicate InvitationOutstanding(db: Database, inviter: Username, recipient: Username) {
    exists nonce :: nonce in db.emailInvitations && db.emailInvitations[nonce] == InvitationRow(inviter, recipient)
  }

  /** The tables after deleting `inviter`'s invitations to `recipient`. */
  function WithoutInvitation(db: Database, inviter: Username, recipient: Username): (d: Database)
    ensures d == db.(emailInvitations := d.emailInvitations)
    ensures !InvitationOutstanding(d, inviter, recipient)
    ensures forall n :: n in d.emailInvitations <==>
      n in db.emailInvitations && db.emailInvitations[n] != InvitationRow(inviter, recipient)
  {
    db.(emailInvitations := map n | n in db.emailInvitations && db.emailInvitations[n] != InvitationRow(inviter, recipient)
      :: db.emailInvitations[n])
  }

  /** The tables after accepting the invitation `nonce`: the recipient now
    * trusts the inviter, and the invitation is gone. */
  function AcceptedResult(db: Database, nonce: Nonce): (d: Database)
    requires nonce in db.emailInvitations
    ensures nonce !in d.emailInvitations
    ensures Trusts(d, db.emailInvitations[nonce].recipient, db.emailInvitations[nonce].inviter)
  {
    var inv := db.emailInvitations[nonce];
    var d := SetTrustedResult(db, inv.recipient, inv.inviter, true);
    d.(emailInvitations := d.emailInvitations - {nonce})
  }

  // ---------------------------------------------------------------------
  // Users.

  /** The row a fresh registration inserts: every notification setting on
    * (the columns' defaults) and no e-mail address. */
  function NewUserRow(passwordId: PasswordId): UserRow {
    UserRow(true, true, true, true, passwordId, Unstarted)
  }

  /** Registering a user with a new password row keeps every invariant: the
    * new user row's password exists, and rows that referred to existing
    * users still do. */
  lemma NewUserKeepsValid(db: Database, username: Username, hashed: HashedPassword, passwordId: PasswordId)
    requires SchemaOk(db)
    ensures var d := db.(passwords := db.passwords[passwordId := hashed],
                         users := db.users[username := NewUserRow(passwordId)]);
      SchemaOk(d) && (Valid(db) ==> Valid(d))
  {
    var d := db.(passwords := db.passwords[passwordId := hashed],
                 users := db.users[username := NewUserRow(passwordId)]);
    assert forall t :: TradeRowOk(db, t) ==> TradeRowOk(d, t);
    assert forall q :: QueuedTradeRowOk(db, q) ==> QueuedTradeRowOk(d, q);
  }

  /** The user's row with the settings the request carries changed and the
    * others kept. */
  function UpdatedSettings(row: UserRow, request: UpdateSettingsRequest): (r: UserRow)
    ensures r.loginPasswordId == row.loginPasswordId && r.emailFlowState == row.emailFlowState
    ensures r.emailRemindersToResolve == request.emailRemindersToResolve.UnwrapOr(row.emailRemindersToResolve)
    ensures r.emailResolutionNotifications == request.emailResolutionNotifications.UnwrapOr(row.emailResolutionNotifications)
    ensures r.allowEmailInvitations == request.allowEmailInvitations.UnwrapOr(row.allowEmailInvitations)
    ensures r.emailInvitationAcceptanceNotifications ==
      request.emailInvitationAcceptanceNotifications.UnwrapOr(row.emailInvitationAcceptanceNotifications)
  {
    var r := if request.emailRemindersToResolve.Some? then row.(emailRemindersToResolve := request.emailRemindersToResolve.value) else row;
    var r := if request.emailResolutionNotifications.Some? then r.(emailResolutionNotifications := request.emailResolutionNotifications.value) else r;
    var r := if request.allowEmailInvitations.Some? then r.(allowEmailInvitations := request.allowEmailInvitations.value) else r;
    if request.emailInvitationAcceptanceNotifications.Some? then
      r.(emailInvitationAcceptanceNotifications := request.emailInvitationAcceptanceNotifications.value)
    else r
  }

  // ---------------------------------------------------------------------
  // The connection.

  class SqlConn {
    var db: Database

    constructor(initial: Database)
      ensures db == initial
    {
      db := initial;
    }

    /** Inserts the password row and then the user row. A password id that
      * is already taken violates the passwords table's primary key. */
    method RegisterUsername(username: Username, hashed: HashedPassword, passwordId: PasswordId) returns (err: Option<PyException>)
      modifies this
      ensures err.Some? <==> username in old(db).users || passwordId in old(db).passwords
      ensures username in old(db).users ==> err == Some(UsernameAlreadyRegisteredError)
      ensures username !in old(db).users && err.Some? ==> err == Some(IntegrityError)
      ensures err.Some? ==> db == old(db)
      ensures err.None? ==> db == old(db).(
        passwords := old(db).passwords[passwordId := hashed],
        users := old(db).users[username := NewUserRow(passwordId)])
    {
      if username in db.users {
        return Some(UsernameAlreadyRegisteredError);
      }
      if passwordId in db.passwords {
        return Some(IntegrityError);
      }
      db := db.(passwords := db.passwords[passwordId := hashed]);
      db := db.(users := db.users[username := NewUserRow(passwordId)]);
      return None;
    }

    /** Inserts a prediction row; the primary key, the CHECK constraints and
      * the creator's foreign key decide whether the database accepts it. */
    method CreatePrediction(predictionId: PredictionId, row: PredictionRow) returns (err: Option<PyException>)
      modifies this
      ensures err.None? <==> predictionId !in old(db).predictions && PredictionRowOk(row) && row.creator in old(db).users
      ensures err.Some? ==> err == Some(IntegrityError) && db == old(db)
      ensures err.None? ==> db == old(db).(predictions := old(db).predictions[predictionId := row])
    {
      if predictionId in db.predictions || !PredictionRowOk(row) || row.creator !in db.users {
        return Some(IntegrityError);
      }
      db := db.(predictions := db.predictions[predictionId := row]);
      return None;
    }

    /** Inserts a trade row, subject to its CHECK constraints and foreign keys. */
    method Stake(trade: TradeRow) returns (err: Option<PyException>)
      modifies this
      ensures err.None? <==> TradeRowOk(old(db), trade)
      ensures err.Some? ==> err == Some(IntegrityError) && db == old(db)
      ensures err.None? ==> db == old(db).(trades := old(db).trades + [trade])
    {
      if !TradeRowOk(db, trade) {
        return Some(IntegrityError);
      }
      db := db.(trades := db.trades + [trade]);
      return None;
    }

    /** Inserts a queued-trade row. */
    method QueueStake(queued: QueuedTradeRow) returns (err: Option<PyException>)
      modifies this
      ensures err.None? <==> QueuedTradeRowOk(old(db), queued)
      ensures err.Some? ==> err == Some(IntegrityError) && db == old(db)
      ensures err.None? ==> db == old(db).(queuedTrades := old(db).queuedTrades + [queued])
    {
      if !QueuedTradeRowOk(db, queued) {
        return Some(IntegrityError);
      }
      db := db.(queuedTrades := db.queuedTrades + [queued]);
      return None;
    }

    /** Inserts a resolution row; a second resolution of the same prediction
      * in the same second violates the primary key. */
    method Resolve(resolution: ResolutionRow) returns (err: Option<PyException>)
      modifies this
      ensures err.None? <==> (
        && resolution.predictionId in old(db).predictions
        && forall r :: r in old(db).resolutions && r.predictionId == resolution.predictionId ==>
             r.resolvedAtUnixtime != resolution.resolvedAtUnixtime)
      ensures err.Some? ==> err == Some(IntegrityError) && db == old(db)
      ensures err.None? ==> db == old(db).(resolutions := old(db).resolutions + [resolution])
    {
      if resolution.predictionId !in db.predictions {
        return Some(IntegrityError);
      }
      if exists r :: r in db.resolutions && r.predictionId == resolution.predictionId &&
          r.resolvedAtUnixtime == resolution.resolvedAtUnixtime {
        return Some(IntegrityError);
      }
      db := db.(resolutions := db.resolutions + [resolution]);
      return None;
    }

    /** `set_trusted`: insert or update the relationship row, then dequeue
      * the trades between the two users if trust has become mutual. A new
      * row naming a user who does not exist breaks a foreign key. */
    method SetTrusted(subject: Username, objectUser: Username, trusted: bool) returns (err: Option<PyException>)
      modifies this
      ensures err.Some? <==> RelationshipInsertFails(old(db), subject, objectUser)
      ensures err.Some? ==> err == Some(IntegrityError) && db == old(db)
      ensures err.None? ==> db == SetTrustedResult(old(db), subject, objectUser, trusted)
    {
      if RelationshipInsertFails(db, subject, objectUser) {
        return Some(IntegrityError);
      }
      err := None;
      db := db.(relationships := db.relationships[(subject, objectUser) := trusted]);
      if Trusts(db, subject, objectUser) && Trusts(db, objectUser, subject) {
        DequeueTradesBetween(subject, objectUser);
      }
    }

    /** Walks the queued trades between two users, committing each that
      * fits the limits given the trades committed so far and deleting the
      * others. */
    method DequeueTradesBetween(user1: Username, user2: Username)
      modifies this
      ensures db == DequeueAll(old(db), QueuedBetween(old(db), user1, user2))
    {
      var queued := QueuedBetween(db, user1, user2);
      DequeueEach(queued);
    }

    /** The dequeue loop over an already-fetched list of queued trades. */
    method DequeueEach(queued: seq<QueuedTradeRow>)
      requires forall q :: q in queued ==> q.predictionId in db.predictions
      modifies this
      ensures db == DequeueAll(old(db), queued)
    {
      var i := 0;
      while i < |queued|
        invariant 0 <= i <= |queued|
        invariant db.predictions == old(db).predictions
        invariant DequeueAll(db, queued[i..]) == DequeueAll(old(db), queued)
      {
        var q := queued[i];
        assert queued[i..][1..] == queued[i + 1..];
        DequeueOne(q);
        i := i + 1;
      }
    }

    /** One iteration of the dequeue loop: the creator's tolerance is checked
      * first, then the bettor's legal maximum. */
    method DequeueOne(q: QueuedTradeRow)
      requires q.predictionId in db.predictions
      modifies this
      ensures db == DequeueStep(old(db), q)
    {
      var info := db.predictions[q.predictionId];
      var existingCreatorExposure := CreatorExposure(db.trades, q.predictionId, q.bettorIsASkeptic);
      var existingBettorExposure := BettorExposure(db.trades, q.predictionId, q.bettor, q.bettorIsASkeptic);
      if existingCreatorExposure + q.creatorStakeCents > info.maximumStakeCents {
        DeleteQueuedTrade(q.Key());
      } else if existingBettorExposure + q.bettorStakeCents > MAX_LEGAL_STAKE_CENTS {
        DeleteQueuedTrade(q.Key());
      } else {
        CommitQueuedTrade(q);
      }
    }

    method CommitQueuedTrade(q: QueuedTradeRow)
      modifies this
      ensures db == CommitQueued(old(db), q)
    {
      db := db.(trades := db.trades + [q.AsTrade()]);
      DeleteQueuedTrade(q.Key());
    }

    method DeleteQueuedTrade(key: (PredictionId, Username, int))
      modifies this
      ensures db == DeleteQueued(old(db), key)
    {
      db := db.(queuedTrades := Filter(db.queuedTrades, (q: QueuedTradeRow) => q.Key() != key));
    }

    /** Replaces the user's e-mail flow state; no row, no change. */
    method SetEmail(user: Username, state: EmailFlowState)
      modifies this
      ensures user in old(db).users ==>
        db == old(db).(users := old(db).users[user := old(db).users[user].(emailFlowState := state)])
      ensures user !in old(db).users ==> db == old(db)
    {
      if user in db.users {
        db := db.(users := db.users[user := db.users[user].(emailFlowState := state)]);
      }
    }

    /** Updates the settings columns the request carries; no row, no change. */
    method UpdateSettings(user: Username, request: UpdateSettingsRequest)
      modifies this
      ensures user in old(db).users ==>
        db == old(db).(users := old(db).users[user := UpdatedSettings(old(db).users[user], request)])
      ensures user !in old(db).users ==> db == old(db)
    {
      if user in db.users {
        db := db.(users := db.users[user := UpdatedSettings(db.users[user], request)]);
      }
    }

    /** Inserts an invitation row; the nonce is unique and (inviter,
      * recipient) is the primary key. */
    method CreateInvitation(nonce: Nonce, inviter: Username, recipient: Username) returns (err: Option<PyException>)
      modifies this
      ensures err.None? <==>
        && nonce !in old(db).emailInvitations && !InvitationOutstanding(old(db), inviter, recipient)
        && inviter in old(db).users && recipient in old(db).users
      ensures err.Some? ==> err == Some(IntegrityError) && db == old(db)
      ensures err.None? ==> db == old(db).(emailInvitations := old(db).emailInvitations[nonce := InvitationRow(inviter, recipient)])
    {
      if nonce in db.emailInvitations || InvitationOutstanding(db, inviter, recipient)
         || inviter !in db.users || recipient !in db.users
      {
        return Some(IntegrityError);
      }
      db := db.(emailInvitations := db.emailInvitations[nonce := InvitationRow(inviter, recipient)]);
      return None;
    }

    /** Accepts the invitation `nonce`, if there is one: the recipient comes
      * to trust the inviter and the invitation row is deleted. */
    method AcceptInvitation(nonce: Nonce) returns (r: Option<InvitationRow>, err: Option<PyException>)
      modifies this
      ensures err.Some? <==>
        nonce in old(db).emailInvitations
        && RelationshipInsertFails(old(db), old(db).emailInvitations[nonce].recipient, old(db).emailInvitations[nonce].inviter)
      ensures err.Some? ==> err == Some(IntegrityError) && db == old(db)
      ensures err.None? ==> (r.None? <==> nonce !in old(db).emailInvitations)
      ensures err.None? && r.None? ==> db == old(db)
      ensures err.None? && r.Some? ==> r.value == old(db).emailInvitations[nonce] && db == AcceptedResult(old(db), nonce)
    {
      if nonce !in db.emailInvitations {
        return None, None;
      }
      var inv := db.emailInvitations[nonce];
      err := SetTrusted(inv.recipient, inv.inviter, true);
      if err.Some? {
        return None, err;
      }
      db := db.(emailInvitations := db.emailInvitations - {nonce});
      return Some(inv), None;
    }

    method DeleteInvitation(inviter: Username, recipient: Username)
      modifies this
      ensures db == WithoutInvitation(old(db), inviter, recipient)
    {
      db := WithoutInvitation(db, inviter, recipient);
    }
  }
}
