/** The server's shared core: the stake ceiling, password hashing, the
  * request validators, the collision-avoiding random draw, and the signed
  * authentication tokens. */
module Core {
  import opened Wrappers
  import opened Text
  import opened Messages

  /** The largest total a bettor may stake on one side of one prediction. */
  const MAX_LEGAL_STAKE_CENTS: nat := 500000

  /** Byte-by-byte comparison of two secrets. */
  function SecretEq(a: Bytes, b: Bytes): (r: bool)
    ensures r <==> a == b
  {
    |a| == |b| && forall i :: 0 <= i < |a| ==> a[i] == b[i]
  }

  // ---------------------------------------------------------------------
  // Passwords. The key-derivation function is a parameter: the model
  // fixes no particular scrypt.

  type Scrypt = (string, Bytes) -> Bytes

  /** Hashes `password` under a freshly drawn four-byte `salt`. */
  function NewHashedPassword(kdf: Scrypt, password: string, salt: Bytes): (h: HashedPassword)
    requires |salt| == 4
    ensures h.salt == salt
    ensures CheckPassword(kdf, password, h)
  {
    HashedPassword(salt, kdf(password, salt))
  }

  /** Whether `password` hashes, under the stored salt, to the stored hash. */
  function CheckPassword(kdf: Scrypt, password: string, hashed: HashedPassword): (r: bool)
    ensures r <==> hashed.scrypt == kdf(password, hashed.salt)
  {
    SecretEq(hashed.scrypt, kdf(password, hashed.salt))
  }

  // ---------------------------------------------------------------------
  // Validators. Each collects the messages of the checks that fail, in a
  // fixed order, and joins them with "; "; no failing check means None.

  function DescribeProblems(problems: seq<string>): (r: Option<string>)
    ensures r.None? <==> problems == []
    ensures r.Some? ==> r.value == Join(problems, "; ")
  {
    if problems == [] then None else Some(Join(problems, "; "))
  }

  predicate IsAsciiLetter(c: char) {
    'a' <= c <= 'z' || 'A' <= c <= 'Z'
  }

  predicate IsAlnumChar(c: char) {
    IsAsciiLetter(c) || IsDigit(c)
  }

  /** `str.isalnum()`: non-empty and every character a letter or a digit. */
  predicate IsAlnum(s: string) {
    |s| > 0 && forall i :: 0 <= i < |s| ==> IsAlnumChar(s[i])
  }

  const USERNAME_EMPTY := "username must be non-empty"
  const USERNAME_TOO_LONG := "username must be no more than 64 characters"
  const USERNAME_NOT_ALNUM := "username must be alphanumeric"

  predicate ValidUsername(username: string) {
    0 < |username| <= 64 && forall i :: 0 <= i < |username| ==> IsAlnumChar(username[i])
  }

  function UsernameProblems(username: string): (ps: seq<string>)
    ensures USERNAME_EMPTY in ps <==> username == ""
    ensures USERNAME_TOO_LONG in ps <==> |username| > 64
    ensures USERNAME_NOT_ALNUM in ps <==> !IsAlnum(username)
    ensures ps == [] <==> ValidUsername(username)
  {
    (if username == "" then [USERNAME_EMPTY] else [])
    + (if |username| > 64 then [USERNAME_TOO_LONG] else [])
    + (if !IsAlnum(username) then [USERNAME_NOT_ALNUM] else [])
  }

  function DescribeUsernameProblems(username: string): (r: Option<string>)
    ensures r.None? <==> ValidUsername(username)
    ensures r.Some? ==> r.value == Join(UsernameProblems(username), "; ")
  {
    DescribeProblems(UsernameProblems(username))
  }

  const PASSWORD_EMPTY := "password must be non-empty"
  const PASSWORD_TOO_LONG := "password must not exceed 256 characters, good lord"

  function PasswordProblems(password: string): (ps: seq<string>)
    ensures PASSWORD_EMPTY in ps <==> password == ""
    ensures PASSWORD_TOO_LONG in ps <==> |password| > 256
    ensures ps == [] <==> 1 <= |password| <= 256
  {
    (if password == "" then [PASSWORD_EMPTY] else [])
    + (if |password| > 256 then [PASSWORD_TOO_LONG] else [])
  }

  function DescribePasswordProblems(password: string): (r: Option<string>)
    ensures r.None? <==> 1 <= |password| <= 256
    ensures r.Some? ==> r.value == Join(PasswordProblems(password), "; ")
  {
    DescribeProblems(PasswordProblems(password))
  }

  /** The certainty a request carries; an absent sub-message reads as zeros. */
  function RequestCertainty(request: CreatePredictionRequest): CertaintyRange {
    if request.certainty.Some? then request.certainty.value else CertaintyRange(0.0, 0.0)
  }

  predicate ValidCertainty(c: CertaintyRange) {
    0.0 < c.low <= c.high <= 1.0
  }

  const PREDICTION_MISSING := "must have a prediction field"
  /** The validator tests `not request.certainty`, but a protobuf
    * sub-message is always truthy, so this message is never produced. */
  const CERTAINTY_MISSING := "must have a certainty"
  const CERTAINTY_OUT_OF_RANGE := "must have 0 < lowProb <= highProb <= 1"
  const STAKE_TOO_LARGE := "stake must not exceed $5000"
  const OPEN_NOT_POSITIVE := "prediction must be open for a positive number of seconds"
  const RESOLVES_TOO_EARLY := "prediction must resolve after betting closes"

  /** A prediction may be created when it has text and a sane certainty,
    * caps the creator's stake at the legal maximum, is open for some time,
    * and resolves after betting closes. */
  predicate ValidCreatePredictionRequest(request: CreatePredictionRequest, now: int) {
    && request.prediction != ""
    && request.certainty.Some?
    && ValidCertainty(request.certainty.value)
    && request.maximumStakeCents <= MAX_LEGAL_STAKE_CENTS
    && request.openSeconds > 0
    && request.resolvesAtUnixtime > now + request.openSeconds
  }

  /** The stake message names the legal maximum in whole dollars. */
  lemma StakeMessageNamesTheLimit()
    ensures STAKE_TOO_LARGE == "stake must not exceed $" + NatToDecimal(MAX_LEGAL_STAKE_CENTS / 100)
  {
    assert NatToDecimal(5) == "5";
    assert NatToDecimal(50) == "50";
    assert NatToDecimal(500) == "500";
  }

  /** The six problem messages are pairwise different. */
  lemma ProblemMessagesDiffer()
    ensures PREDICTION_MISSING !in [CERTAINTY_MISSING, CERTAINTY_OUT_OF_RANGE, STAKE_TOO_LARGE, OPEN_NOT_POSITIVE, RESOLVES_TOO_EARLY]
    ensures CERTAINTY_MISSING !in [CERTAINTY_OUT_OF_RANGE, STAKE_TOO_LARGE, OPEN_NOT_POSITIVE, RESOLVES_TOO_EARLY]
    ensures CERTAINTY_OUT_OF_RANGE !in [STAKE_TOO_LARGE, OPEN_NOT_POSITIVE, RESOLVES_TOO_EARLY]
    ensures STAKE_TOO_LARGE !in [OPEN_NOT_POSITIVE, RESOLVES_TOO_EARLY]
    ensures OPEN_NOT_POSITIVE != RESOLVES_TOO_EARLY
  {
    assert |PREDICTION_MISSING| == 28 && |CERTAINTY_MISSING| == 21 && |CERTAINTY_OUT_OF_RANGE| == 38;
    assert |STAKE_TOO_LARGE| == 27 && |OPEN_NOT_POSITIVE| == 56 && |RESOLVES_TOO_EARLY| == 44;
  }

  function CreatePredictionRequestProblems(request: CreatePredictionRequest, now: int): (ps: seq<string>)
    ensures PREDICTION_MISSING in ps <==> request.prediction == ""
    ensures CERTAINTY_MISSING !in ps
    ensures CERTAINTY_OUT_OF_RANGE in ps <==> !ValidCertainty(RequestCertainty(request))
    ensures STAKE_TOO_LARGE in ps <==> request.maximumStakeCents > MAX_LEGAL_STAKE_CENTS
    ensures OPEN_NOT_POSITIVE in ps <==> request.openSeconds <= 0
    ensures RESOLVES_TOO_EARLY in ps <==> request.resolvesAtUnixtime <= now + request.openSeconds
    ensures ps == [] <==> ValidCreatePredictionRequest(request, now)
  {
    ProblemMessagesDiffer();
    (if request.prediction == "" then [PREDICTION_MISSING] else [])
    + (if !ValidCertainty(RequestCertainty(request)) then [CERTAINTY_OUT_OF_RANGE] else [])
    + (if request.maximumStakeCents > MAX_LEGAL_STAKE_CENTS then [STAKE_TOO_LARGE] else [])
    + (if request.openSeconds <= 0 then [OPEN_NOT_POSITIVE] else [])
    + (if request.resolvesAtUnixtime <= now + request.openSeconds then [RESOLVES_TOO_EARLY] else [])
  }

  function DescribeCreatePredictionRequestProblems(request: CreatePredictionRequest, now: int): (r: Option<string>)
    ensures r.None? <==> ValidCreatePredictionRequest(request, now)
    ensures r.Some? ==> r.value == Join(CreatePredictionRequestProblems(request, now), "; ")
  {
    DescribeProblems(CreatePredictionRequestProblems(request, now))
  }

  /** A request without a certainty, otherwise valid: the sub-message reads
    * as its all-zero default, so the only problem reported is the range. */
  lemma AbsentCertaintyIsOutOfRange(request: CreatePredictionRequest, now: int)
    requires request.certainty.None?
    requires request.prediction != "" && request.maximumStakeCents <= MAX_LEGAL_STAKE_CENTS
    requires request.openSeconds > 0 && request.resolvesAtUnixtime > now + request.openSeconds
    ensures DescribeCreatePredictionRequestProblems(request, now) == Some(CERTAINTY_OUT_OF_RANGE)
  {
    assert CreatePredictionRequestProblems(request, now) == [CERTAINTY_OUT_OF_RANGE];
  }

  const LOG_IN_TO_CREATE := "must log in to create predictions"

  /** Why CreatePrediction is refused, in both servicers: a caller who is not
    * logged in first, then the request's own problems. */
  function CreatePredictionRefusal(actor: Option<Username>, request: CreatePredictionRequest, now: int): (m: Option<string>)
    ensures m.None? <==> actor.Some? && ValidCreatePredictionRequest(request, now)
    ensures actor.None? ==> m == Some(LOG_IN_TO_CREATE)
  {
    if actor.None? then Some(LOG_IN_TO_CREATE)
    else DescribeCreatePredictionRequestProblems(request, now)
  }

  // ---------------------------------------------------------------------
  // E-mail addresses: `^[a-zA-Z0-9_.+-]+@[a-zA-Z0-9_.-]+$` under Python's
  // `re.match`, where `$` also matches just before a final newline.

  predicate IsLocalPartChar(c: char) {
    IsAlnumChar(c) || c == '_' || c == '.' || c == '+' || c == '-'
  }

  predicate IsDomainChar(c: char) {
    IsAlnumChar(c) || c == '_' || c == '.' || c == '-'
  }

  /** Reference definition: one or more local-part characters, an `@`, one
    * or more domain characters, and nothing else. */
  ghost predicate EmailShaped(s: string) {
    exists at :: 0 < at < |s| - 1 && s[at] == '@'
      && (forall i :: 0 <= i < at ==> IsLocalPartChar(s[i]))
      && (forall i :: at < i < |s| ==> IsDomainChar(s[i]))
  }

  /** Length of the longest prefix of `s` made of local-part characters. */
  function LocalPartLength(s: string): (n: nat)
    ensures n <= |s|
    ensures forall i :: 0 <= i < n ==> IsLocalPartChar(s[i])
    ensures n < |s| ==> !IsLocalPartChar(s[n])
  {
    if s == [] || !IsLocalPartChar(s[0]) then 0 else 1 + LocalPartLength(s[1..])
  }

  /** Scans `s` as the regular expression does: a maximal run of local-part
    * characters, then an `@`, then domain characters up to the end. */
  predicate ScanEmail(s: string) {
    var at := LocalPartLength(s);
    0 < at < |s| - 1 && s[at] == '@' && forall i :: at < i < |s| ==> IsDomainChar(s[i])
  }

  lemma ScanEmailIsEmailShaped(s: string)
    ensures ScanEmail(s) <==> EmailShaped(s)
  {
    if EmailShaped(s) {
      var at :| 0 < at < |s| - 1 && s[at] == '@'
        && (forall i :: 0 <= i < at ==> IsLocalPartChar(s[i]))
        && (forall i :: at < i < |s| ==> IsDomainChar(s[i]));
      var n := LocalPartLength(s);
      assert !IsLocalPartChar(s[at]);
      assert n == at;
    }
  }

  /** Whether `re.match` finds the address pattern in `s`. */
  predicate MatchesEmailPattern(s: string) {
    ScanEmail(s) || (|s| > 0 && s[|s| - 1] == '\n' && ScanEmail(s[..|s| - 1]))
  }

  const EMAIL_INVALID := "invalid-looking email address"

  function SetEmailRequestProblems(email: string): (ps: seq<string>)
    ensures ps == [] <==> email == "" || MatchesEmailPattern(email)
    ensures ps != [] ==> ps == [EMAIL_INVALID]
  {
    if email != "" && !MatchesEmailPattern(email) then [EMAIL_INVALID] else []
  }

  function DescribeSetEmailRequestProblems(email: string): (r: Option<string>)
    ensures r.None? <==> email == "" || MatchesEmailPattern(email)
    ensures r.Some? ==> r.value == EMAIL_INVALID
  {
    DescribeProblems(SetEmailRequestProblems(email))
  }

  /** An address accepted by the validator is either pattern-shaped or
    * pattern-shaped followed by exactly one newline. */
  lemma AcceptedEmailShape(email: string)
    requires email != "" && DescribeSetEmailRequestProblems(email).None?
    ensures EmailShaped(email) || (email[|email| - 1] == '\n' && EmailShaped(email[..|email| - 1]))
  {
    ScanEmailIsEmailShaped(email);
    if |email| > 0 {
      ScanEmailIsEmailShaped(email[..|email| - 1]);
    }
  }

  /** Because `$` matches before a final newline, an address with a trailing
    * newline passes the validator. */
  lemma TrailingNewlineAccepted()
    ensures DescribeSetEmailRequestProblems("a@b\n").None?
    ensures !EmailShaped("a@b\n")
  {
    var s := "a@b\n";
    assert LocalPartLength(s[..3]) == 1 by {
      assert s[..3][1..] == "@b";
    }
    assert ScanEmail(s[..3]);
  }

  const NONCE_MISSING := "no nonce given"

  function DescribeAcceptInvitationRequestProblems(nonce: string): (r: Option<string>)
    ensures r.None? <==> nonce != ""
    ensures r.Some? ==> r.value == NONCE_MISSING
  {
    DescribeProblems(if nonce == "" then [NONCE_MISSING] else [])
  }

  // ---------------------------------------------------------------------
  // Random identifiers that avoid existing ones.

  /** Draws from `draws` (the successive outputs of `rng.randrange(0, limit)`)
    * until one is not in `xs`; returns it and the index of that draw. */
  method WeakRandNotIn(draws: seq<int>, limit: int, xs: set<int>) returns (result: int, used: nat)
    requires forall i :: 0 <= i < |draws| ==> 0 <= draws[i] < limit
    requires exists i :: 0 <= i < |draws| && draws[i] !in xs
    ensures 0 <= result < limit && result !in xs
    ensures used < |draws| && result == draws[used]
    ensures forall j :: 0 <= j < used ==> draws[j] in xs
  {
    used := 0;
    result := draws[0];
    while result in xs
      invariant 0 <= used < |draws| && result == draws[used]
      invariant forall j :: 0 <= j < used ==> draws[j] in xs
      invariant exists k :: used <= k < |draws| && draws[k] !in xs
      decreases |draws| - used
    {
      used := used + 1;
      result := draws[used];
    }
  }

  // ---------------------------------------------------------------------
  // Authentication tokens.

  /** A token mint: a secret key and the keyed digest (HMAC-SHA256 of the
    * token's serialisation) it signs tokens with. */
  datatype TokenMint = TokenMint(secretKey: Bytes, digest: (Bytes, AuthToken) -> Bytes)

  /** The signature of a token: the digest of the token with its signature
    * field emptied. */
  function ComputeTokenHmac(mint: TokenMint, token: AuthToken): (h: Bytes)
    ensures forall sig :: h == mint.digest(mint.secretKey, token.(hmacOfRest := sig).(hmacOfRest := []))
  {
    mint.digest(mint.secretKey, token.(hmacOfRest := []))
  }

  /** The signature field takes no part in the HMAC: writing a signature
    * into a token leaves the HMAC the check recomputes for it unchanged. */
  lemma TokenHmacIgnoresSignature(mint: TokenMint, token: AuthToken, sig: Bytes)
    ensures ComputeTokenHmac(mint, token.(hmacOfRest := sig)) == ComputeTokenHmac(mint, token)
  {
  }

  /** The owner named by a checked token, if any. */
  function TokenOwner(token: Option<AuthToken>): (r: Option<Username>)
    ensures r.Some? <==> token.Some?
    ensures r.Some? ==> r.value == token.value.owner
  {
    if token.Some? then Some(token.value.owner) else None
  }

  predicate IsLegacyToken(token: AuthToken) {
    token.ownerDepr.Some? && token.owner == ""
  }

  /** The token, if it is present, not a legacy token without an owner,
    * within its validity window at `now`, and correctly signed. */
  function CheckToken(mint: TokenMint, token: Option<AuthToken>, now: int): (r: Option<AuthToken>)
    ensures r.Some? ==> r == token
    ensures r.Some? <==>
      && token.Some?
      && !IsLegacyToken(token.value)
      && token.value.mintedUnixtime <= now < token.value.expiresUnixtime
      && SecretEq(token.value.hmacOfRest, ComputeTokenHmac(mint, token.value))
  {
    if token.None? then None
    else if IsLegacyToken(token.value) then None
    else if !(token.value.mintedUnixtime <= now < token.value.expiresUnixtime) then None
    else if !SecretEq(token.value.hmacOfRest, ComputeTokenHmac(mint, token.value)) then None
    else token
  }

  /** Mints a token for `owner`, valid from `now` for `ttlSeconds` seconds. */
  method MintToken(mint: TokenMint, owner: Username, ttlSeconds: int, now: int) returns (token: AuthToken)
    ensures token.owner == owner && token.ownerDepr.None?
    ensures token.mintedUnixtime == now && token.expiresUnixtime == now + ttlSeconds
    ensures forall t :: CheckToken(mint, Some(token), t) == if now <= t < now + ttlSeconds then Some(token) else None
  {
    var unsigned := AuthToken(owner, None, now, now + ttlSeconds, []);
    token := unsigned.(hmacOfRest := ComputeTokenHmac(mint, unsigned));
    TokenHmacIgnoresSignature(mint, unsigned, token.hmacOfRest);
  }
}
