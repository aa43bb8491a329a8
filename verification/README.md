# biatob: a verified model of the betting rules

biatob ("bet I am that on being") is a prediction-market server. A creator
publishes a prediction with a believed probability range `[low, high]` and a
maximum stake in cents. Friends bet against it: a skeptic bets that it will
not come true, and a believer bets that it will. The creator stakes against
them at the odds given by the range.

A bet is accepted only when all of these hold:

- trust runs in both directions between the creator and the bettor;
- the creator's total stake on that side stays within the maximum;
- the bettor's total stake on that side stays within the legal maximum of
  $5000;
- betting is open (`created <= now <= closes`);
- the latest resolution is "none yet".

Around this core sit several other features:

- A bettor whom the creator does not yet trust can queue a bet. When the two
  come to trust each other, every queued bet between them is either
  committed or dropped.
- An e-mail invitation makes trust mutual once its nonce is accepted. A
  nonce can be used only once.
- An e-mail address moves from unstarted, to code sent, to verified.

The server has two implementations of the same endpoints. The model covers
both:

- `SqlServicer` over `SqlConn`. Each endpoint is one transaction over
  tables: users, passwords, relationships, predictions, trades, queued
  trades, resolutions and e-mail invitations.
- `FsBackedServicer`. It holds one in-memory `WorldState` and mutates it in
  place.

Modules:

| file | module | what it holds |
|---|---|---|
| wrappers.dfy | `Wrappers` | `Option` and `Result` |
| messages.dfy | `Messages` | the protocol's requests, tokens, resolutions and e-mail states |
| text.dfy | `Text` | decimal digits, `Join`, and the decimal round trip |
| sorting.dfy | `Sorting` | `Filter`, and a stable insertion sort by key (the `ORDER BY` of the views) |
| core.dfy | `Core` | the request validators, password checks, `weak_rand_not_in`, and token minting and checking |
| betting.dfy | `Betting` | the counter-stake a bet asks of the creator, with its truncation toward zero |
| emailer.dfy | `Emailer` | the headers of a message, BCC de-duplication and chunking, and the resolution verb |
| web_server.dfy | `WebServer` | `format_cents` with its parser, and the static-file guard |
| fs_servicer.dfy | `FsServicing` | the file-backed servicer: a `WorldState`, its query functions, and a `FsBackedServicer` class whose methods update `wstate` |
| sql_model.dfy | `SqlModel` | the tables as a `Database` value, the schema's constraints, exposures, and the prediction and settings views |
| sql_conn.dfy | `SqlConnection` | the `SqlConn` class whose methods insert, update and delete rows, and the queue-draining loop |
| sql_servicer.dfy | `SqlServicing` | the SQL endpoints' guard chains, and a `SqlServicer` class whose methods run them against its `SqlConn` |

The parts of each endpoint relate in the same way:

- Each endpoint's guard chain is a function (`StakeRefusal`,
  `ResolveRefusal`, …). It returns the first refusal, or `None` exactly
  when a predicate naming every condition holds.
- The new state is a function of the old one (`WithTrade`,
  `SetTrustedResult`, `AcceptedResult`, …).
- The servicer methods are proved against both. Each method succeeds iff
  the guard holds. On a refusal it changes nothing and returns that
  refusal. On success the new state is the result function. The
  file-backed Resolve is the exception: after storing the resolution it
  raises TypeError (see Findings).
- Each method keeps the table constraints (`SchemaOk`). It also keeps the
  two betting invariants (`Valid`): the creator's exposure stays within the
  maximum, and each bettor's total stays within the legal maximum.
- Lemmas about the result functions state what the endpoint promises.

## Model

| member | source | states |
|---|---|---|
| Core.SecretEq | server/core.py:25-26 | the comparison is true exactly when both byte strings have the same length and the same bytes |
| Core.CheckPassword | server/core.py:32-33 | a password matches a stored hash exactly when scrypt of it under the stored salt equals the stored digest |
| Core.NewHashedPassword | server/core.py:29-31 | a fresh hash keeps the salt it was made with, and the password it was made from checks against it |
| Core.DescribeProblems | server/core.py:52 | no message exactly when the problem list is empty; otherwise the problems joined with "; " |
| Core.UsernameProblems | server/core.py:44-51 | each of the three messages is present iff its condition holds (empty, over 64 characters, not alphanumeric); no problems iff the name is valid |
| Core.DescribeUsernameProblems | server/core.py:44-52 | no message iff the name is non-empty, at most 64 characters and alphanumeric; otherwise the problems joined in order |
| Core.PasswordProblems | server/core.py:54-59 | "non-empty" and "too long" appear iff the password is empty or over 256 characters |
| Core.DescribePasswordProblems | server/core.py:54-60 | no message iff 1 <= length <= 256 |
| Core.StakeMessageNamesTheLimit | server/core.py:70-71 | the stake message names the legal maximum in whole dollars ($5000) |
| Core.CreatePredictionRequestProblems | server/core.py:62-75 | each message is present iff its own condition fails: prediction text, 0 < low <= high <= 1 (an absent certainty reading as all zeros), stake within the legal maximum, open for a positive time, resolving after betting closes; "must have a certainty" never appears, as a protobuf sub-message is always truthy |
| Core.DescribeCreatePredictionRequestProblems | server/core.py:62-76 | no message iff the request is valid; otherwise the problems joined with "; " |
| Core.AbsentCertaintyIsOutOfRange | server/core.py:66-69 | a request without a certainty but otherwise valid is refused with the range message alone |
| Core.CreatePredictionRefusal | server/sql_servicer.py:823-832 | no refusal iff logged in and the request is valid; not being logged in is reported first; fs_servicer.py:225-234 is worded the same |
| Core.MatchesEmailPattern | server/core.py:80 | `re.match` with a final `$`: the scanned shape, optionally followed by one newline |
| Core.LocalPartLength | server/core.py:80 | the length of the longest prefix made of `[a-zA-Z0-9_.+-]` characters |
| Core.ScanEmailIsEmailShaped | server/core.py:80 | the scanner accepts exactly the strings that are a non-empty local part, one `@`, and a non-empty domain over the pattern's character classes |
| Core.SetEmailRequestProblems | server/core.py:78-81 | no problem iff the address is empty or matches the pattern; otherwise exactly the one "invalid-looking" message |
| Core.DescribeSetEmailRequestProblems | server/core.py:78-82 | no message iff the address is empty or matches the pattern |
| Core.AcceptedEmailShape | server/core.py:80 | every accepted non-empty address has the pattern's shape, or has it once a final newline is removed |
| Core.TrailingNewlineAccepted | server/core.py:80 | `re.match` with `$` accepts "a@b\n", which does not have the pattern's shape |
| Core.DescribeAcceptInvitationRequestProblems | server/core.py:84-88 | no message iff the nonce is non-empty; otherwise "no nonce given" |
| Core.WeakRandNotIn | server/core.py:35-39 | the loop returns a draw in [0, limit) that is not in `xs`: the first draw that is not in `xs`, every earlier draw having been in it |
| Core.ComputeTokenHmac | server/core.py:128-131 | whatever the signature field holds, the HMAC is the keyed digest of the token with that field emptied |
| Core.TokenHmacIgnoresSignature | server/core.py:128-134 | writing a signature into a token leaves the HMAC recomputed for it unchanged, so a signed token still matches its own HMAC |
| Core.TokenOwner | server/core.py:95-96 | an owner exactly when there is a token, and then the token's owner |
| Core.CheckToken | server/core.py:146-160 | the token comes back unchanged iff it is present, is not a legacy owner-less token, minted <= now < expires, and its HMAC matches; otherwise nothing |
| Core.MintToken | server/core.py:133-144 | the token names the owner, is minted now and expires after ttl seconds, and passes the check at exactly the times in [now, now + ttl) |
| Betting.Truncate | server/sql_servicer.py:930 | `int()` of a real truncates toward zero: the result is within 1 of the value, on the zero side |
| Betting.ToleranceMessage | server/sql_servicer.py:942 | the creator-tolerance refusal begins "bet would exceed creator tolerance (" and names the existing, new and maximum stakes |
| Betting.CreatorStakeCents | server/sql_servicer.py:928-933 | the counter-stake is undefined (division by zero) exactly when a skeptic bets at low = 1 or a believer at high = 0 |
| Betting.TruncatedQuotientBounds | server/sql_servicer.py:930 | for a non-negative dividend and positive divisor, the truncated quotient s satisfies s*k <= p < (s+1)*k |
| Betting.ScaledQuotientBounds | server/sql_servicer.py:930 | `int(b * num / den)` is the whole quotient of b*num by den |
| Betting.SkepticCounterStakeAtCreatorOdds | server/sql_servicer.py:928-930 | against a skeptic the creator stakes the whole part of stake*low/(1-low) |
| Betting.BelieverCounterStakeAtCreatorOdds | server/sql_servicer.py:931-933 | against a believer the creator stakes the whole part of stake*(1-high)/high |
| Betting.CreatorStakeDefined | server/sql_servicer.py:928-933 | under a valid certainty with low < 1 on the skeptic side, the counter-stake is defined and non-negative |
| Text.Join | server/core.py:52 | joining no parts gives ""; joining one part gives that part |
| Text.JoinAppend | server/core.py:52 | joining one more part appends the separator and that part, so the parts appear in order with one separator between neighbours |
| Text.JoinLength | server/core.py:52 | the joined length is the parts' total length plus one separator per gap |
| Text.NatToDecimal | server/web_server.py:129 | `str(n)`: a non-empty digit string, longer than one digit iff n >= 10 |
| Text.IntToDecimal | server/sql_servicer.py:942 | `str(i)`: a non-negative number is a digit string that reads back as i; a negative one is "-" before a digit string that reads back as -i |
| Text.DecimalRoundTrip | server/sql_servicer.py:834 | reading back the decimal text of n gives n |
| Sorting.Filter | server/sql_servicer.py:128-132 | `WHERE`: the kept rows are exactly the rows that satisfy the condition, and no more of them than the input has |
| Sorting.FilterCounts | server/sql_servicer.py:128-132 | each kept row occurs as often as in the table; no other row occurs |
| Sorting.FilterAppend | server/sql_servicer.py:128-132 | filtering a concatenation is the concatenation of the filtered parts, so kept rows keep their relative order |
| Sorting.FilterSingleton | server/sql_servicer.py:128-132 | a single row is kept exactly when it satisfies the condition |
| Sorting.FilterKeepsAll | server/sql_servicer.py:128-132 | a condition every row satisfies keeps the sequence as it is |
| Sorting.SortBy | server/sql_servicer.py:131 | `ORDER BY`: the result is sorted by the key and is a permutation of the input |
| Sorting.SortByMembers | server/sql_servicer.py:131 | sorting keeps exactly the same rows |
| Sorting.InsertLast | server/sql_servicer.py:131 | inserting into a sorted sequence keeps it sorted and adds exactly that one element |
| Emailer.NamesHeaderConcat | server/emailer.py:53-59 | a header is named in two header lists put together iff it is named in one of them |
| Emailer.Compose | server/emailer.py:50-59 | From comes first; a To header exists iff a non-empty recipient was given (or an extra header is To); Reply-To and Subject are set; the extra headers come last |
| Emailer.Dedup | server/emailer.py:73 | the result has no duplicates and holds exactly the addresses of the input |
| Emailer.Chunks | server/emailer.py:74-75 | the `range(0, n, 32)` slicing as a reference definition: the first 32 addresses, then the chunks of the rest; its properties are the lemmas below |
| Emailer.ChunkAt | server/emailer.py:74-75 | there are ceil(n/32) chunks, and chunk i is the slice [32i, min(32i+32, n)) |
| Emailer.FlattenChunks | server/emailer.py:74-75 | the chunks put together in order give back the list |
| Emailer.ChunkSizes | server/emailer.py:74-75 | every chunk holds between 1 and 32 addresses |
| Emailer.ExactlyOneChunk | server/emailer.py:73-75 | in a list without duplicates every address lies in exactly one chunk |
| Emailer.BccSends | server/emailer.py:74-81 | one send per chunk |
| Emailer.BccSendHeaders | server/emailer.py:76-81 | a BCC send has no To header, and its Bcc header is the chunk joined with ", " |
| Emailer.BccSendsAppend | server/emailer.py:74-81 | sending one more chunk adds exactly its message at the end |
| Emailer.SendBccs | server/emailer.py:72-81 | the loop sends exactly one message per 32-address chunk of a de-duplication of the addresses, in order |
| Emailer.ResolutionVerb | server/emailer.py:96-101 | YES gives "came true", NO gives "did not come true", INVALID gives "resolved INVALID", and anything else gives "UN-resolved" |
| Emailer.ResolutionVerbDistinguishes | server/emailer.py:96-101 | two resolutions with the same verb are equal, unless both read "UN-resolved" |
| WebServer.TwoDigits | server/web_server.py:129 | `:02d` of a number below 100 is exactly two digits |
| WebServer.FormatCents | server/web_server.py:127-129 | a negative amount is "-" and its magnitude; whole dollars are "$D"; otherwise "$D.CC" with two-digit cents |
| WebServer.TwoDigitsRoundTrip | server/web_server.py:129 | the two-digit text reads back as the number |
| WebServer.FormatCentsRoundTrip | server/web_server.py:127-129 | parsing the rendered amount gives back the amount: rendering loses nothing |
| WebServer.NegatedRoundTrip | server/web_server.py:128 | a minus sign before a rendered amount reads back as its negation |
| WebServer.NonNegativeRoundTrip | server/web_server.py:129 | a non-negative amount renders as "$…" and reads back |
| WebServer.WholeDollarsRoundTrip | server/web_server.py:129 | a whole-dollar amount reads back from "$D" |
| WebServer.DollarsAndCentsRoundTrip | server/web_server.py:129 | an amount with cents reads back from "$D.CC" |
| WebServer.FormatCentsInjective | server/web_server.py:127-129 | different amounts render differently |
| WebServer.GetStatic | server/web_server.py:57-61 | a bad request iff the name is empty or starts with "."; otherwise the file static/name, which is then never "." or ".." |
| FsServicing.Trusts | server/fs_servicer.py:52-61 | everyone trusts themselves; otherwise trust needs the user and a stored relationship, whose flag decides |
| FsServicing.TrustIsReflexive | server/fs_servicer.py:52-54 | everyone trusts themselves |
| FsServicing.UnknownUserTrustsNobody | server/fs_servicer.py:55-57 | an unknown user trusts nobody but themselves |
| FsServicing.WithTrust | server/fs_servicer.py:414 | setting a trust flag leaves the predictions and the set of users as they were |
| FsServicing.TrustSetDecidesTrust | server/fs_servicer.py:52-61 | after setting the flag, the truster trusts the trustee iff the flag is set or they are the same user |
| FsServicing.TrustSetIsOneWay | server/fs_servicer.py:52-61 | setting one pair's flag changes no other pair's trust, the reverse pair included |
| FsServicing.TrustSetIdempotent | server/fs_servicer.py:414 | setting the same flag twice is the same as setting it once |
| FsServicing.CreatorStakeOnSideAppend | server/fs_servicer.py:334 | one more trade adds its creator stake to its own side's total only |
| FsServicing.BettorStakeOnSideAppend | server/fs_servicer.py:342-343 | one more trade adds its bettor stake to that bettor's same-side total only |
| FsServicing.TradesKeptKeepsValid | server/fs_servicer.py:121-126 | a change that keeps every prediction's trades and maximum, and adds only predictions without trades, keeps both betting invariants |
| FsServicing.ViewPrediction | server/fs_servicer.py:63-92 | the creator's name; "is trusted" and "trusts you" iff the viewer trusts the creator and the creator trusts the viewer; the viewer's trades are those they made, or all trades for the creator; the resolutions as stored |
| FsServicing.CreatorSeesEveryTrade | server/fs_servicer.py:81-91 | the creator's view lists every trade, in order |
| FsServicing.RemainingStakeIsUnspentMaximum | server/fs_servicer.py:69-70 | remaining stake on each side is the maximum minus the creator's stakes against that side |
| FsServicing.FindInvariantViolations | server/fs_servicer.py:642-649 | a prediction is reported iff, on either side, the creator's stakes exceed its maximum |
| FsServicing.NoViolationsIffExposureOk | server/fs_servicer.py:642-649 | nothing is reported iff every prediction is within its maximum on both sides |
| FsServicing.NeedsEmailReminder | server/fs_servicer.py:678-685 | the four conditions as written: overdue, not skipped, no success, and not three failures in the last three attempts |
| FsServicing.NeedsEmailReminderIff | server/fs_servicer.py:678-685 | a reminder is due iff the resolve time is past, reminders were not skipped, no attempt succeeded, and fewer than three attempts were made |
| FsServicing.EmailForResolutionReminder | server/fs_servicer.py:687-693 | an address iff reminders are on and the e-mail is verified, and then that verified address |
| FsServicing.StakeRefusal | server/fs_servicer.py:304-346 | no refusal iff the bet is allowed; a raised error is the division by zero of an undefined counter-stake |
| FsServicing.StakeAllowed | server/fs_servicer.py:304-346 | a bet is accepted iff logged in, the prediction exists, the bettor is not the creator, each trusts the other, betting is open, it is unresolved, the counter-stake is defined, and both limits hold |
| FsServicing.BettorLimitMessage | server/fs_servicer.py:346 | the bettor-limit refusal begins "your existing stake of ~$" |
| FsServicing.LimitMessagesDiffer | server/fs_servicer.py:340-346 | the tolerance and the bettor-limit refusals never coincide |
| FsServicing.WithTrade | server/fs_servicer.py:347-353 | the trade is appended to that prediction only; users and every other prediction are unchanged |
| FsServicing.StakeStaysWithinLimits | server/fs_servicer.py:331-346 | an accepted bet raises its side's creator stake by the counter-stake and stays within the maximum, leaves the other side alone, and keeps the bettor within the legal maximum |
| FsServicing.StakeKeepsValid | server/fs_servicer.py:304-355 | an accepted bet keeps both betting invariants on every prediction |
| FsServicing.ResolveRefusal | server/fs_servicer.py:359-378 | no refusal iff logged in, the resolution is recognised, notes are at most 1024 characters, and the caller created the existing prediction |
| FsServicing.WithResolution | server/fs_servicer.py:379 | the event is appended to that prediction's resolutions only; its trades and every other prediction are unchanged |
| FsServicing.ResolutionDecidesBetting | server/fs_servicer.py:327-329 | after a resolution, betting is open iff it was "none yet"; any other outcome makes the next bet refused as already resolved |
| FsServicing.SetTrustedRefusal | server/fs_servicer.py:401-412 | no refusal iff logged in and the other user exists |
| FsServicing.UpdatedInfo | server/fs_servicer.py:535-538 | only the two reminder and notification flags change, each to the requested value when one is given |
| FsServicing.UpdatedInfoIdempotent | server/fs_servicer.py:535-538 | applying the same settings twice is the same as once |
| FsServicing.UpdatedInfoIgnoresInvitationToggles | server/fs_servicer.py:535-538 | the invitation toggles in the request have no effect on this servicer |
| FsServicing.AcceptRefusal | server/fs_servicer.py:590-626 | no refusal iff logged in, the nonce is non-empty, and the invitation id names an existing inviter and an invitation not yet accepted |
| FsServicing.AcceptedState | server/fs_servicer.py:619-622 | the invitation is marked accepted by the accepter at now; predictions and the set of users are unchanged |
| FsServicing.AcceptMakesTrustMutual | server/fs_servicer.py:621-622 | after accepting, the accepter and the inviter trust each other |
| FsServicing.AcceptTouchesOnlyTheTwo | server/fs_servicer.py:619-622 | no user other than the accepter and the inviter changes |
| FsServicing.SecondAcceptRefused | server/fs_servicer.py:616-618 | accepting the same invitation again is refused |
| FsServicing.NewPrediction | server/fs_servicer.py:238-249 | no trades or resolutions; it closes open_seconds after creation; a valid request gives created = now < closes < resolves, certainty in (0, 1] and maximum within the legal one |
| FsServicing.FsBackedServicer.Stake | server/fs_servicer.py:304-355 | succeeds iff the bet is allowed; a refusal or the division by zero leaves the state unchanged; success appends exactly the staked trade; keeps both invariants |
| FsServicing.FsBackedServicer.Resolve | server/fs_servicer.py:359-397 | never succeeds: a refusal leaves the state unchanged and returns it; an allowed resolution is stored (exactly one event appended at now) and then TypeError is raised |
| FsServicing.FsBackedServicer.ResolveAsIntended | server/fs_servicer.py:359-397 | succeeds iff allowed; a refusal leaves the state unchanged; success appends exactly one resolution event at now and returns the updated view |
| FsServicing.FsBackedServicer.RecordResolution | server/fs_servicer.py:371-380 | the transaction appends the one resolution event to the prediction and keeps both betting invariants |
| FsServicing.ResolveNotificationCallRaises | server/fs_servicer.py:392-396 | the notifier call passes `prediction`, which is not a parameter, and leaves `prediction_text` and `resolution` unset, so binding it raises TypeError |
| FsServicing.IntendedNotificationCallBinds | server/emailer.py:83-89 | passing the prediction's text and the resolution instead binds every parameter |
| Emailer.BindKeywords | server/emailer.py:83-89 | a keyword-only call binds iff its keywords are exactly the parameters; otherwise TypeError |
| FsServicing.FsBackedServicer.SetTrusted | server/fs_servicer.py:401-415 | succeeds iff logged in and the other user exists; success sets exactly that one trust flag |
| FsServicing.FsBackedServicer.UpdateSettings | server/fs_servicer.py:526-540 | succeeds iff logged in; success replaces the caller's settings with the updated ones |
| FsServicing.FsBackedServicer.AcceptInvitation | server/fs_servicer.py:590-626 | succeeds iff allowed; a refusal leaves the state unchanged; success is the accepted state, with trust now mutual |
| FsServicing.FsBackedServicer.CreatePrediction | server/fs_servicer.py:225-252 | succeeds iff logged in with a valid request; the new id is below 2^32 and was not a prediction before; only that prediction is added |
| SqlModel.CreatorExposure | server/sql_servicer.py:354-368 | the creator's same-side exposure is non-negative when stakes are positive, and non-zero only if there is a trade on that side |
| SqlModel.BettorExposure | server/sql_servicer.py:370-386 | a bettor's exposure is non-zero only if they have a trade on that side |
| SqlModel.CreatorExposureAppend | server/sql_servicer.py:354-368 | one more trade adds its creator stake to its own side and prediction only |
| SqlModel.BettorExposureAppend | server/sql_servicer.py:370-386 | one more trade adds its bettor stake to its own bettor, side and prediction only |
| SqlModel.InvitationsTableIsFree | server/sql_schema.py:80-86 | changing only the invitations table, to rows whose inviter and recipient exist, keeps the schema and the betting invariants |
| SqlModel.CounterStake | server/sql_servicer.py:928-933 | for a row meeting the predictions table's checks the counter-stake is defined and non-negative |
| SqlModel.ResolutionsOf | server/sql_servicer.py:337-352 | exactly the resolution rows of that prediction |
| SqlModel.Trusts | server/sql_servicer.py:96-109 | everyone trusts themselves; another user is trusted iff a relationship row says so |
| SqlModel.HasResolved | server/sql_servicer.py:923-926 | resolved only when some resolution row of the prediction is not NONE_YET (the latest one) |
| SqlModel.Latest | server/sql_servicer.py:924 | `max` by time: nothing iff there are no rows; otherwise a row with the greatest time |
| SqlModel.LatestIsTheGreatest | server/sql_servicer.py:924 | with (prediction, time) unique, a row whose time is the greatest among its prediction's rows is the latest, whatever order the rows come in |
| SqlModel.MapSeq | server/sql_servicer.py:128-150 | the rows converted one by one, in order |
| SqlModel.ViewedResolutions | server/sql_servicer.py:128-132 | the view's resolutions are sorted by time |
| SqlModel.ViewedTrades | server/sql_servicer.py:137-141 | the view's trades are sorted by transaction time |
| SqlModel.ViewedQueuedTrades | server/sql_servicer.py:143-150 | the view's queued trades are sorted by enqueue time |
| SqlModel.ViewedQueuedTradesAreTheViewers | server/sql_servicer.py:143-150 | the view lists exactly the viewer's queued trades on the prediction, or all of them for the creator |
| SqlModel.ViewedResolutionsAreThePredictions | server/sql_servicer.py:128-132 | the view lists exactly that prediction's resolutions |
| SqlModel.ViewedTradesAreTheViewers | server/sql_servicer.py:133-141 | the view lists exactly the viewer's trades on the prediction, or all of them for the creator |
| SqlModel.ViewPrediction | server/sql_servicer.py:111-207 | nothing iff the prediction does not exist; the row's own columns are copied; remaining stake is the maximum minus the creator's exposure on each side; e-mail invitations are allowed iff the creator allows them and has a verified address; the creator, resolutions, trades and queued trades as viewed |
| SqlModel.RemainingStakeNonNegative | server/sql_servicer.py:152-165 | when exposure is within the maximum, the remaining stake on each side is non-negative |
| SqlModel.QueuedTradesDoNotReduceRemaining | server/sql_servicer.py:152-165 | queued trades do not change the remaining stake on either side |
| SqlModel.OutgoingObjects | server/sql_servicer.py:566-573 | exactly the users the given user has a relationship row with |
| SqlModel.GetSettings | server/sql_servicer.py:548-589 | nothing iff the user does not exist; the four e-mail toggles and the e-mail state are the user row's; relationships cover the requested users and every outgoing row; an invitation is listed iff one is outstanding |
| SqlModel.SettingsAgreeWithTrusts | server/sql_servicer.py:548-589 | each relationship the settings list for another user agrees with `trusts` in both directions |
| SqlModel.FindInvariantViolations | server/sql_servicer.py:1280-1306 | every reported violation names a prediction whose side exposure exceeds its maximum |
| SqlModel.ExceededIsReported | server/sql_servicer.py:1298-1305 | every side over its maximum is reported, with the maximum and the actual exposure |
| SqlModel.NoViolationsIffExposureOk | server/sql_servicer.py:1280-1306 | nothing is reported iff every prediction's exposure is within its maximum on both sides |
| SqlConnection.QueuedTradesOf | server/sql_servicer.py:286-303 | exactly the queued rows of this bettor on predictions this creator made |
| SqlConnection.QueuedBetween | server/sql_servicer.py:466-469 | exactly the queued rows between the two users, in either direction |
| SqlConnection.DeleteQueued | server/sql_servicer.py:327-335 | only the queued rows with the key are removed; no other table changes |
| SqlConnection.CommitQueued | server/sql_servicer.py:305-325 | the queued row's trade is appended and its key leaves the queue; no other table changes |
| SqlConnection.DequeueStep | server/sql_servicer.py:477-499 | the trade is appended iff it fits the creator's tolerance and the bettor's cap; the row leaves the queue either way |
| SqlConnection.DequeueAll | server/sql_servicer.py:476-499 | draining touches only the trades and the queue |
| SqlConnection.DequeueAllRemovesKeys | server/sql_servicer.py:476-499 | after draining, a queued row remains iff it was queued and its key is not among the drained rows |
| SqlConnection.CommittedForms | server/sql_servicer.py:305-325 | each queued row's committed trade is among the forms |
| SqlConnection.DequeueAllExtendsTrades | server/sql_servicer.py:476-499 | draining only appends trades; the old ones stay as a prefix |
| SqlConnection.DequeueAllAppendsFromQueue | server/sql_servicer.py:476-499 | every trade draining appends is the committed form of a drained row |
| SqlConnection.AppendTradeKeepsValid | server/sql_servicer.py:388-404 | appending a trade within both limits keeps both betting invariants |
| SqlConnection.AppendTradeKeepsSchema | server/sql_schema.py:54-61 | appending a well-formed trade keeps the table constraints |
| SqlConnection.AppendQueuedKeepsSchema | server/sql_servicer.py:406-422 | appending a well-formed queued trade keeps the table constraints |
| SqlConnection.AppendResolutionKeepsSchema | server/sql_schema.py:70-77 | appending a resolution with a new (prediction, time) key keeps the table constraints |
| SqlConnection.DequeueStepKeepsValid | server/sql_servicer.py:477-499 | one step of draining keeps both betting invariants |
| SqlConnection.QueueShrinkKeepsValid | server/sql_servicer.py:327-335 | deleting queued rows keeps the table constraints and both betting invariants |
| SqlConnection.DequeueAllKeepsValid | server/sql_servicer.py:476-499 | draining keeps both betting invariants |
| SqlConnection.DequeueStepKeepsSchema | server/sql_servicer.py:477-499 | one step of draining keeps the table constraints |
| SqlConnection.DequeueAllKeepsSchema | server/sql_servicer.py:476-499 | draining keeps the table constraints |
| SqlConnection.SetTrustedResult | server/sql_servicer.py:436-463 | the relationship row is set to the flag; only relationships, trades and the queue change |
| SqlConnection.SetTrustedDecidesTrust | server/sql_servicer.py:436-460 | afterwards the subject trusts the object iff the flag is set (or they are the same user); every other pair keeps its trust |
| SqlConnection.DequeueBetweenEmpties | server/sql_servicer.py:465-499 | after draining, nothing is queued between the two users |
| SqlConnection.SetTrustedEmptiesQueue | server/sql_servicer.py:462-463 | when trust becomes mutual, no queued trade between the two remains |
| SqlConnection.SetTrustedIdempotent | server/sql_servicer.py:436-463 | setting the same trust twice is the same as once |
| SqlConnection.SetTrustedKeepsValid | server/sql_servicer.py:436-463 | setting trust keeps both betting invariants |
| SqlConnection.RelationshipRowKeepsSchema | server/sql_schema.py:28-34 | a relationship row between two existing users keeps the table constraints, its foreign keys included |
| SqlConnection.SetTrustedKeepsSchema | server/sql_servicer.py:436-463 | setting trust keeps the table constraints, draining included |
| SqlConnection.WithoutInvitation | server/sql_servicer.py:642-649 | afterwards no invitation from the inviter to the recipient is outstanding; every other invitation stays |
| SqlConnection.AcceptedResult | server/sql_servicer.py:631-640 | the nonce is gone and the recipient trusts the inviter |
| SqlConnection.UpdatedSettings | server/sql_servicer.py:591-607 | each of the four toggles is the requested value if one is given and the old one otherwise; password and e-mail state are kept |
| SqlConnection.SqlConn.RegisterUsername | server/sql_servicer.py:45-58 | an existing name raises UsernameAlreadyRegisteredError and a used password id an IntegrityError, with nothing changed; otherwise exactly the password row and the user row are added |
| SqlConnection.NewUserKeepsValid | server/sql_servicer.py:45-58 | adding a password row and a user row pointing at it keeps the table constraints and both betting invariants |
| SqlConnection.SqlConn.CreatePrediction | server/sql_servicer.py:72-91 | adds the row iff its id is new, it meets the schema's checks, and the creator exists; otherwise IntegrityError with nothing changed |
| SqlConnection.SqlConn.Stake | server/sql_servicer.py:388-404 | appends the trade iff it meets the trade table's checks; otherwise IntegrityError with nothing changed |
| SqlConnection.SqlConn.QueueStake | server/sql_servicer.py:406-422 | appends the queued trade iff it is well formed; otherwise IntegrityError with nothing changed |
| SqlConnection.SqlConn.Resolve | server/sql_servicer.py:424-434 | appends the resolution iff its prediction exists and no resolution has the same time; otherwise IntegrityError with nothing changed |
| SqlConnection.SqlConn.SetTrusted | server/sql_servicer.py:436-463 | IntegrityError with nothing changed iff a new relationship row would name a user who does not exist; otherwise the tables become the set-trusted result, the queue drained when trust is mutual |
| SqlConnection.SqlConn.DequeueTradesBetween | server/sql_servicer.py:465-499 | the tables become the queued trades between the two, drained in order |
| SqlConnection.SqlConn.DequeueEach | server/sql_servicer.py:476-499 | the loop commits or deletes each queued row in order, as the draining function does |
| SqlConnection.SqlConn.DequeueOne | server/sql_servicer.py:477-499 | one row is committed if it fits and deleted otherwise |
| SqlConnection.SqlConn.CommitQueuedTrade | server/sql_servicer.py:305-325 | the commit moves the row from the queue to the trades |
| SqlConnection.SqlConn.DeleteQueuedTrade | server/sql_servicer.py:327-335 | the queued rows with that key are removed |
| SqlConnection.SqlConn.SetEmail | server/sql_servicer.py:515-520 | only the user's e-mail state changes |
| SqlConnection.SqlConn.UpdateSettings | server/sql_servicer.py:591-607 | only the user's row changes, to the updated settings |
| SqlConnection.SqlConn.CreateInvitation | server/sql_servicer.py:609-617 | adds the invitation iff the nonce is new, none is outstanding for the pair, and both users exist; otherwise IntegrityError with nothing changed |
| SqlConnection.SqlConn.AcceptInvitation | server/sql_servicer.py:631-640 | nothing for an unknown nonce, with nothing changed; IntegrityError with nothing changed iff setting the trust breaks a foreign key; otherwise the invitation row, its nonce deleted and the recipient trusting the inviter |
| SqlConnection.SqlConn.DeleteInvitation | server/sql_servicer.py:642-649 | the pair's outstanding invitation is removed |
| SqlServicing.LimitRefusal | server/sql_servicer.py:935-947 | no refusal iff the counter-stake is positive, within the creator's tolerance, and within the bettor's legal maximum |
| SqlServicing.BettorCapMessage | server/sql_servicer.py:947 | the bettor-limit refusal begins "your existing stake of ~$" and ends with the apology for Big Bets |
| SqlServicing.LimitMessagesDiffer | server/sql_servicer.py:935-947 | the zero-stake, tolerance and bettor-limit refusals are pairwise different |
| SqlServicing.StakeRefusal | server/sql_servicer.py:896-947 | no refusal iff every guard of Stake holds |
| SqlServicing.StakeAllowed | server/sql_servicer.py:896-947 | a bet is accepted iff logged in, a positive stake on an existing prediction of someone else, mutual trust, betting open, unresolved, and within the limits |
| SqlServicing.StakeStaysWithinLimits | server/sql_servicer.py:935-947 | an accepted bet keeps the creator's same-side exposure within the maximum and the bettor's same-side total within the legal maximum |
| SqlServicing.StakeKeepsValid | server/sql_servicer.py:896-956 | an accepted bet keeps both betting invariants |
| SqlServicing.QueueStakeRefusal | server/sql_servicer.py:963-1014 | no refusal iff every guard of QueueStake holds |
| SqlServicing.StakeAndQueueStakeExclusive | server/sql_servicer.py:980-988 | a bet is never allowed by both endpoints; when it may be queued, Stake refuses it because the creator does not trust the bettor |
| SqlServicing.ResolveRefusal | server/sql_servicer.py:1030-1048 | no refusal iff logged in, the resolution is recognised, notes are at most 1024 characters, and the caller created the existing prediction |
| SqlServicing.ResolveDecidesBetting | server/sql_servicer.py:923-926 | after a resolution at a new latest time, betting is open iff it was "none yet" |
| SqlServicing.SetTrustedRefusal | server/sql_servicer.py:1065-1076 | no refusal iff logged in, the other user is someone else, and they exist |
| SqlServicing.TrustSetResult | server/sql_servicer.py:1078-1080 | afterwards the user trusts the other iff the flag is set; on distrust no invitation to them is outstanding |
| SqlServicing.TrustSetKeepsValid | server/sql_servicer.py:1078-1080 | setting trust keeps both betting invariants |
| SqlServicing.TrustSetKeepsSchema | server/sql_servicer.py:1078-1080 | setting trust keeps the table constraints |
| SqlServicing.SendInvitationRefusal | server/sql_servicer.py:1203-1228 | no refusal iff logged in, the inviter's e-mail is verified, the recipient exists, accepts invitations and has a verified e-mail, and no invitation is outstanding |
| SqlServicing.InvitedResult | server/sql_servicer.py:1230-1238 | the invitation is recorded under its nonce |
| SqlServicing.SecondInvitationRefused | server/sql_servicer.py:1226-1228 | a second invitation to the same recipient is refused |
| SqlServicing.InvitationMakesTrustMutual | server/sql_servicer.py:1226-1238 | after the invitation and its acceptance, each of the two trusts the other |
| SqlServicing.InvitedKeepsSchema | server/sql_servicer.py:1230-1238 | sending an invitation keeps the table constraints |
| SqlServicing.InvitedKeepsValid | server/sql_servicer.py:1230-1238 | sending an invitation keeps both betting invariants |
| SqlServicing.AcceptedKeepsSchema | server/sql_servicer.py:631-640 | accepting keeps the table constraints |
| SqlServicing.AcceptedKeepsValid | server/sql_servicer.py:631-640 | accepting keeps both betting invariants |
| SqlServicing.SetEmailRefusal | server/sql_servicer.py:1126-1133 | no refusal iff logged in and the address passes the validator |
| SqlServicing.NewEmailState | server/sql_servicer.py:1135-1144 | unstarted iff the address is empty; never verified; otherwise a code was sent to that address and the code checks against its hash |
| SqlServicing.VerifyEmailRefusal | server/sql_servicer.py:1153-1168 | no refusal iff logged in, a code was sent, and the code matches; any state other than code-sent gives "no pending email-verification flow" |
| SqlServicing.EmailVerificationRoundTrip | server/sql_servicer.py:1135-1173 | setting an address and then verifying with the sent code ends verified at that address |
| SqlServicing.UpdateSettingsIdempotent | server/sql_servicer.py:591-607 | applying the same settings twice is the same as once |
| SqlServicing.ValidRequestsTheSchemaRejects | server/sql_schema.py:43-45 | a valid request is stored iff low < 1 and the maximum is positive; otherwise the schema rejects it |
| SqlServicing.RegisterUsernameRefusal | server/sql_servicer.py:770-785 | no refusal iff logged out, the name and password are valid, and the name is not taken |
| SqlServicing.SqlServicer.Stake | server/sql_servicer.py:896-958 | succeeds iff the bet is allowed; a refusal or IntegrityError leaves the tables unchanged; success appends exactly the staked trade; keeps the schema and both invariants |
| SqlServicing.SqlServicer.QueueStake | server/sql_servicer.py:963-1025 | succeeds iff the bet may be queued; success appends exactly one queued trade and no trade |
| SqlServicing.SqlServicer.Resolve | server/sql_servicer.py:1030-1060 | succeeds iff allowed and the time is new; a refusal or IntegrityError leaves the tables unchanged; success appends exactly one resolution |
| SqlServicing.SqlServicer.SetTrusted | server/sql_servicer.py:1065-1082 | succeeds iff allowed; success sets the trust, drains the queue when trust is mutual, and on distrust deletes the outstanding invitation |
| SqlServicing.SqlServicer.SendInvitation | server/sql_servicer.py:1203-1246 | succeeds iff allowed and the nonce is new; on failure nothing changes; success sets inviter-to-recipient trust and records the invitation |
| SqlServicing.SqlServicer.AcceptInvitation | server/sql_servicer.py:1263-1276 | succeeds iff the nonce is known, logged in or not; success deletes the invitation and makes the recipient trust the inviter, and answers with the caller's settings, or with default settings whose e-mail is unset when logged out |
| SqlServicing.SqlServicer.SetEmail | server/sql_servicer.py:1126-1148 | succeeds iff allowed; success stores the new e-mail state, and changes nothing else |
| SqlServicing.SqlServicer.VerifyEmail | server/sql_servicer.py:1153-1173 | succeeds iff a code was sent and matches; success stores the verified address; otherwise nothing changes |
| SqlServicing.SqlServicer.UpdateSettings | server/sql_servicer.py:1191-1198 | succeeds iff logged in; success stores the updated settings row |
| SqlServicing.SqlServicer.CreatePrediction | server/sql_servicer.py:823-842 | succeeds iff logged in, the request is valid, the id is new and the row meets the table's checks; the id is the decimal text of a draw below 2^64; success adds exactly that prediction, failure changes nothing |
| SqlServicing.SqlServicer.RegisterUsername | server/sql_servicer.py:770-814 | succeeds iff allowed and the password id is new; success adds the password and user rows, the password checks against the stored hash, and the returned token authenticates the user for exactly the year from now |

## Left out

- I/O and concurrency are not modelled: SMTP, `asyncio.create_task`, the
  reminder, invariant and backup loops, file locking in `FsStorage`,
  protobuf and base64 serialisation, and logging.
- The clock, the random number generator, `secrets.token_urlsafe`, scrypt
  and HMAC are parameters. Each servicer method takes `now`, the draws,
  the nonce, the code and the salt it uses. Scrypt and the HMAC digest are
  function-valued parameters.
- Timestamps are integers. The source uses float seconds. The file-backed
  Stake reads the clock twice (once for the window and once for the
  trade's time); the model uses one `now` for both.
- Certainty is a `real`. The counter-stake is the truncation of the exact
  real quotient, where the source computes it in floating point.
- An absent certainty in a CreatePrediction request reads as the protobuf
  default of all zeros, as in the source, and so fails the range check.
  The source's `not request.certainty` test is never true, because a
  protobuf sub-message is always truthy; the model never reports "must have
  a certainty" (Core.AbsentCertaintyIsOutOfRange).
- The schema differs from the code: there is no queued-trades table, and
  the trades table has extra non-null columns. Tables are modelled as the
  code uses them. Primary-key, foreign-key and CHECK constraints are kept
  where they match the code's columns; the foreign keys are enforced, as
  the connection turns them on. A violated key or check is an IntegrityError
  outcome that changes nothing.
- SqlConnection.SqlConn.DequeueEach: a drained row commits its own columns.
  The source re-reads the first queued row with the same (prediction,
  bettor, enqueued time) key, and committing or deleting that key removes
  every row carrying it. When a key repeats, a later row with that key that
  fits the limits finds no row on re-reading, and the source raises
  TypeError, aborting the enclosing SetTrusted, AcceptInvitation or
  SendInvitation. The model commits that row where the source raises. The
  first such row commits the columns of whichever row the re-read returns,
  which need not be its own.
- SqlConnection.SqlConn.DequeueEach: the queued rows are drained in table
  order. `get_queued_trades` has no `ORDER BY`, so the source's order is
  whatever the database returns; SqlConnection.SqlConn.SetTrusted's
  contract fixes the table order.
- Sorting.SortBy: rows with equal keys keep their table order. An SQL
  `ORDER BY` leaves the order of ties unspecified, so views of rows with
  equal times may list them differently in the source.
- `str.isalnum` is ASCII letters and digits here. Python also accepts other
  Unicode letters and digits.
- FsServicing.FindInvariantViolations: the order of a map's items is the
  `order` parameter. A prediction over its maximum on both sides is
  reported once per side in the source; the contract speaks of membership
  only.
- Emailer.Dedup: `list(set(...))` has an unspecified order. The contract
  fixes the members and that there are no duplicates, not the order.
- Core.WeakRandNotIn: the random stream is a finite sequence of draws, and
  the method requires one of them to be a value that is not yet taken.
  When `xs` covers every value in [0, limit), the source loops forever;
  the model does not capture that non-termination.
- Servicer methods require a logged-in caller to exist in the tables. The
  token decorator raises ForgottenTokenError otherwise, which the model
  does not represent.
- LogInUsername is modelled only through RegisterUsername: a password
  just registered always checks, so RegisterUsername mints the year-long
  token directly.
- The resolution e-mail after a SQL Resolve, the invitation e-mail and the
  acceptance notification e-mail are not modelled. Each is an asynchronous
  send after the state change. After a file-backed Resolve no e-mail is
  ever sent: the call that would start it raises TypeError (see Findings).
- FsServicing.FsBackedServicer.Resolve: the list of addresses gathered
  before the failing call is not modelled; it does not affect the outcome.
  FsServicing.FsBackedServicer.ResolveAsIntended does not model the
  notification it would then send.
- The file-backed AcceptInvitation checks that `request.nonce` is
  non-empty, but looks up `request.invitation_id.nonce`. The model keeps
  both fields, as the source does.
- These endpoints are not modelled: ChangePassword, GetSettings, GetUser,
  ListMyStakes, ListPredictions, GetPrediction, Whoami, SignOut,
  CreateInvitation, CheckInvitation, revoking a token, and the file-backed
  RegisterUsername, SetEmail and VerifyEmail.
- HTTP routing, the page templates and the rendered image in
  `web_server.py` are not modelled. Only `format_cents` and the
  static-file guard are.

## Findings

| source | as written | input that shows it | evidently intended | confidence | as-written member | corrected member |
|---|---|---|---|---|---|---|
| server/fs_servicer.py:392-396 | after storing the resolution, Resolve calls `send_resolution_notifications(bccs=..., prediction_id=..., prediction=...)`, whose parameters are `prediction_text` and `resolution`; binding the call raises TypeError | any Resolve by a prediction's creator with a recognised resolution and notes of at most 1024 characters: the resolution is stored, then the request fails with TypeError and no e-mail is sent | pass `prediction_text` and `resolution` and answer with the updated view | high; not executed | FsServicing.FsBackedServicer.Resolve | FsServicing.FsBackedServicer.ResolveAsIntended |
