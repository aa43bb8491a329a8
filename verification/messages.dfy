/** The protocol's message types, with the fields the servicers read and
  * write. Integer fields are unbounded; unsigned ones are `nat`. */
module Messages {
  import opened Wrappers

  type Username = string
  type Bytes = seq<bv8>

  /** The believed probability range of a prediction's creator. */
  datatype CertaintyRange = CertaintyRange(low: real, high: real)

  datatype CreatePredictionRequest = CreatePredictionRequest(
    prediction: string,
    certainty: Option<CertaintyRange>,
    maximumStakeCents: nat,
    openSeconds: int,
    resolvesAtUnixtime: int,
    specialRules: string)

  datatype HashedPassword = HashedPassword(salt: Bytes, scrypt: Bytes)

  datatype AuthToken = AuthToken(
    owner: Username,
    ownerDepr: Option<string>,
    mintedUnixtime: int,
    expiresUnixtime: int,
    hmacOfRest: Bytes)

  /** The four outcomes a prediction can be resolved to. */
  datatype Resolution = ResolutionNoneYet | ResolutionYes | ResolutionNo | ResolutionInvalid

  /** A resolution as it arrives on the wire: an enum field may also carry a
    * number that names none of the four outcomes. */
  datatype ResolutionValue = Known(resolution: Resolution) | Unrecognized(number: int)

  /** Where a user's e-mail address stands in its verification. */
  datatype EmailFlowState =
    | Unstarted
    | CodeSent(email: string, code: HashedPassword)
    | Verified(email: string)

  /** A bet: the prediction, the side, and the bettor's stake in cents. */
  datatype StakeRequest<Id> = StakeRequest(predictionId: Id, bettorIsASkeptic: bool, bettorStakeCents: nat)

  datatype ResolveRequest<Id> = ResolveRequest(predictionId: Id, resolution: ResolutionValue, notes: string)

  /** The exceptions a servicer call can raise out of its transaction. */
  datatype PyException = IntegrityError | ZeroDivisionError | UsernameAlreadyRegisteredError | TypeError

  /** How a servicer call fails: an error response carrying one message, or
    * an exception that aborts the call. */
  datatype Failure = Catchall(message: string) | Raised(exception: PyException)

  /** A committed bet as the views show it. */
  datatype Trade = Trade(
    bettor: Username,
    bettorIsASkeptic: bool,
    creatorStakeCents: int,
    bettorStakeCents: nat,
    transactedUnixtime: int)

  /** A bet waiting for the creator's trust. */
  datatype QueuedTrade = QueuedTrade(
    bettor: Username,
    bettorIsASkeptic: bool,
    creatorStakeCents: int,
    bettorStakeCents: nat,
    enqueuedAtUnixtime: int)

  datatype ResolutionEvent = ResolutionEvent(unixtime: int, resolution: Resolution, notes: string)

  /** One user's view of another: whether each trusts the other. */
  datatype Relationship = Relationship(trustedByYou: bool, trustsYou: bool)

  /** The settings toggles a request may change; None leaves one as it is. */
  datatype UpdateSettingsRequest = UpdateSettingsRequest(
    emailRemindersToResolve: Option<bool>,
    emailResolutionNotifications: Option<bool>,
    allowEmailInvitations: Option<bool>,
    emailInvitationAcceptanceNotifications: Option<bool>)
}
