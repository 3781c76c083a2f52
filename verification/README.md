# The credential lifecycle, in Dafny

A model of the credential lifecycle of `go-auth-template` and proofs about it: registration, login by
password and by mailed code, refresh-token rotation, password recovery, and the database
transactions and SQL statements that carry them.

`dafny verify dfyconfig.toml` checks the whole project.

## How it is built

| module | what it holds |
|---|---|
| `Schema`, `Sql` | the four tables, their constraints, and the effect of every SQL statement on them |
| `Database` | the class `Db`: one method per statement, changing the stored tables in place |
| `UnitOfWork`, `Transactions` | `Exec` for an arbitrary callback, and the three callbacks the services use |
| `Machine` | the service as a state machine: each transaction, and each statement outside one, is one atomic step; a call that needs several stays in flight between them |
| `Calls`, `Backends`, `RefreshTokens`, `OtpCodes`, `Auth` | the service classes, and the machine's events that each of their calls consists of |
| `Rotation`, `Lineage`, `Chains`, `Sessions`, `Ending` | refresh tokens over whole runs |
| `Recovery`, `Provenance`, `Guarantees`, `Accounting`, `RoundTrip` | codes, reset tokens and password changes over whole runs |
| `Lingering` | what a password reset leaves behind: calls past their check, other reset tokens, codes |
| `Ledger` | the exact accounts of the challenges stored and consumed |
| `Guessing`, `GuessBound`, `Racing` | the attempt counter, and how many wrong codes either path compares with a challenge |
| `Continuing` | what can always happen next: recovery from every reachable state, and everything that outlives a reset |
| `Example` | one run from registration to a login under the recovered password, and a login that lingers |
| `Codes` | the text of a code |

The services appear twice, on purpose. The classes follow the Go methods branch by branch and say
exactly when a call succeeds, which error it reports otherwise, and what it leaves in the tables.
Their class invariant says that the stored tables are those of the machine after the recorded
history, and each public method's contract names the events it adds. The machine then lets the
events of any number of calls fall between each other, and the theorems about runs are about
every sequence of events. An event that is not possible where it stands is not taken, so that no
theorem carries a well-formedness condition on the run.

Two observers are used to state what happened in a run: `Lineage.Family` (which login a token
descends from, and in which order) and `Recovery.Log` (which code was sent, which call consumed it,
and what came of it). They are functions of the run and do not influence it.

## What is assumed

- `uuid.New()` and `GenerateResetToken` return values that were never returned before: an event
  that would reuse one is not taken.
- Hashes are free constructors: equal hashes come from equal inputs. `CheckPassword` holds exactly
  of the password that was hashed.
- A statement, or a commit, that reports an error had no effect. A failed statement inside a
  transaction makes PostgreSQL refuse the rest of it.
- Transactions and single statements take effect one after the other in some order. The code asks
  for the default isolation level, so this is a hypothesis about the database.
- Clocks are arbitrary. `NOW()` and `time.Now()` are independent readings carried by each event,
  and may even decrease. Two statements about order are named and used only where they appear as a
  precondition: `Rotation.InOrder` (successful refreshes take effect in the order of their
  `NOW()`), used by `RefreshIsSingleUse`, the lemmas of `Chains` and the refinement in `Sessions`; and
  `GuessBound.StatementsInOrder` (the recovery statements on one challenge that reach the database do
  so), used by the guess bound and in `Racing`.
  Everything else is free of clocks: single use of codes and reset tokens, provenance,
  conservation, replacement, that a reset ends sessions, and the round trip.
- `rand.Int` returns a number below `MaxValue`.

## What turned out

- A refresh token is single-use only because `NOW()` is assumed ordered. `Ending.SecondUseExactly`
  gives the exact condition: a second presentation succeeds if and only if its transaction began
  before the first one did, and `Ending.DoubleUseOutOfOrder` is such a run.
- `OTP_MAX_ATTEMPTS` limits recovery only. `LoginWithOtp` compares codes with the same challenges,
  looks at no counter and counts nothing: any number of wrong codes can be compared that way while
  the counter reads zero (`Racing.LoginGuessesAreFree`), and a challenge that recovery has locked
  still logs its user in (`Racing.LockedCodeLogsIn`, `RoundTrip.MailedCodeLogsInExactly`). For the
  wrong codes presented to `VerifyPasswordResetCode`, and with their statements in order, the bound
  is `limit - 1 + in flight + lost increments`; with statements out of order there is none
  (`Racing.GuessesOutOfOrder`). Over both paths together, the configured number is a bound if and only
  if there are only wrong logins, and no more than that number, or only recovery calls, one at a time,
  none losing its increment, and with their statements in order (`Racing.LimitHoldsExactly`, where all
  four are parameters, for numbers from 1 to 32767; `Racing.NumberHoldsExactly` for any).
  `Racing.GuessBoundIsReached` attains the worst case.
- The configured limit reaches the database through `int16(...)`; it is the number meant exactly
  when it is between 0 and 32767 (`Guessing.ConfiguredLimitExactly`); from 32768 to 65535 recovery
  accepts no code at all (`GuessBound.NumberBeyondColumnRefuses`).
- Codes have six characters exactly when `MaxValue` is at most a million
  (`Codes.SixCharactersExactly`).
- A reset ends all sessions stored before it commits. The sessions stored after it are opened with a
  password set since, however the run goes on, if and only if no login of the user is between its
  check and its session when the reset commits (`Lingering.LoginsAfterResetExactly`); the same holds
  for logins by code and the consumption of the code (`Lingering.CodeLoginsAfterResetExactly`).
  `Example.FormerPasswordOpensLater` is a run in which the former password opens a session after the
  reset.
- A reset uses up the token presented to it and no other: the user's other tokens change the password
  again as long as they are in time (`Lingering.OtherTokenOutlivesReset`), and codes that were mailed
  stay good (`Lingering.CodesOutliveReset`).
- All of this can happen from every reachable state, to every registered user: an older token that
  changes the password again (`Continuing.OlderTokenChangesAgain`), a code mailed before the reset that
  logs in after it (`Continuing.MailedCodeLogsInAfterReset`), and a login by code that the reset does
  not stop (`Continuing.HeldCodeOpensAfterReset`). So can recovery (`Continuing.EveryUserRecovers`).
  The lifetimes must be positive, and the limit at least 1.
- A consumed challenge that became neither a session nor a reset token is held by a call in flight, or
  was stranded by a lost statement or a call that ended early (`Ledger.ConsumedAreAccounted`,
  `Ledger.StrandedByFault`).
- The user lookup after a consumed challenge never comes back empty, so the permission-denied
  answer of `VerifyPasswordResetCode` is never given.

## Model

| member | source | states |
|---|---|---|
| `Schema.Int16` | internal/repository/otp.go:87 | the conversion keeps the low sixteen bits and is the identity exactly on the range of SMALLINT |
| `Sql.SaveUser` | internal/infra/database/sqlc/users.sql.go:50-73 | keeps uniqueness, foreign keys and column ranges; a failed statement changes nothing; an email is too long exactly beyond 255 characters |
| `Sql.UpdateUserPassword` | internal/infra/database/sqlc/users.sql.go:75-90 | keeps uniqueness, foreign keys and column ranges; a failed statement changes nothing |
| `Sql.SaveRefreshToken` | internal/infra/database/sqlc/refresh_token.sql.go:74-97 | keeps uniqueness, foreign keys and column ranges; a failed statement changes nothing |
| `Sql.ConsumeRefreshToken` | internal/infra/database/sqlc/refresh_token.sql.go:15-33 | keeps uniqueness, foreign keys and column ranges; a failed statement changes nothing |
| `Sql.DeleteRefreshToken` | internal/infra/database/sqlc/refresh_token.sql.go:35-43 | keeps uniqueness, foreign keys and column ranges; a failed statement changes nothing |
| `Sql.DeleteRefreshTokensByUserID` | internal/infra/database/sqlc/refresh_token.sql.go:45-53 | keeps uniqueness, foreign keys and column ranges; a failed statement changes nothing |
| `Sql.SavePasswordResetToken` | internal/infra/database/sqlc/password_reset_tokens.sql.go:80-103 | keeps uniqueness, foreign keys and column ranges; a failed statement changes nothing |
| `Sql.ConsumePasswordResetToken` | internal/infra/database/sqlc/password_reset_tokens.sql.go:15-36 | keeps uniqueness, foreign keys and column ranges; a failed statement changes nothing |
| `Sql.SaveOtpCode` | internal/infra/database/sqlc/otp.sql.go:99-126 | keeps uniqueness, foreign keys and column ranges; a failed statement changes nothing |
| `Sql.InvalidateOtpCodesByIdentifier` | internal/infra/database/sqlc/otp.sql.go:89-97 | keeps uniqueness, foreign keys and column ranges; a failed statement changes nothing |
| `Sql.ConsumeOtpCode` | internal/infra/database/sqlc/otp.sql.go:15-40 | keeps uniqueness, foreign keys and column ranges; a failed statement changes nothing |
| `Sql.ConsumeOtpCodeByChallengeID` | internal/infra/database/sqlc/otp.sql.go:42-69 | keeps uniqueness, foreign keys and column ranges; a failed statement changes nothing |
| `Sql.IncreaseOtpAttempts` | internal/infra/database/sqlc/otp.sql.go:71-87 | keeps uniqueness, foreign keys and column ranges; a failed statement changes nothing |
| `Database.Db.SaveUser` | internal/infra/database/sqlc/users.sql.go:50-73 | the in-place insert has exactly the statement's effect and reply, or none and an error if it is lost; it refuses an email as too long exactly beyond 255 characters |
| `Database.Db.GetByEmail` | internal/infra/database/sqlc/users.sql.go:14-30 | finds the user with the email, if there is one |
| `Database.Db.UpdateUserPassword` | internal/infra/database/sqlc/users.sql.go:75-90 | the in-place update has exactly the statement's effect and reply |
| `Database.Db.SaveRefreshToken` | internal/infra/database/sqlc/refresh_token.sql.go:74-97 | the same for the insert of a refresh token |
| `Database.Db.ConsumeRefreshToken` | internal/infra/database/sqlc/refresh_token.sql.go:15-33 | the same for spending a token: an unexpired row expires at `NOW()` and stays |
| `Database.Db.DeleteRefreshToken` | internal/infra/database/sqlc/refresh_token.sql.go:35-43 | the same for revoking a token |
| `Database.Db.DeleteRefreshTokensByUserID` | internal/infra/database/sqlc/refresh_token.sql.go:45-53 | the same for revoking a user's tokens |
| `Database.Db.SavePasswordResetToken` | internal/infra/database/sqlc/password_reset_tokens.sql.go:80-103 | the same for the insert of a reset token |
| `Database.Db.ConsumePasswordResetToken` | internal/infra/database/sqlc/password_reset_tokens.sql.go:15-36 | the same for using a reset token |
| `Database.Db.SaveOtpCode` | internal/infra/database/sqlc/otp.sql.go:99-126 | the same for the insert of a challenge |
| `Database.Db.InvalidateOtpCodesByIdentifier` | internal/infra/database/sqlc/otp.sql.go:89-97 | the same for dropping an identifier's challenges |
| `Database.Db.ConsumeOtpCode` | internal/infra/database/sqlc/otp.sql.go:15-40 | the same for consuming a challenge by code and identifier |
| `Database.Db.ConsumeOtpCodeByChallengeID` | internal/infra/database/sqlc/otp.sql.go:42-69 | the same for consuming a challenge by id, below the attempt limit |
| `Database.Db.IncreaseOtpAttempts` | internal/infra/database/sqlc/otp.sql.go:71-87 | the same for counting an attempt |
| `UnitOfWork.Transactor.Exec` | internal/repository/transaction.go:62-87 | begin, callback on a private view, commit or roll back, for every callback and every fault |
| `UnitOfWork.ExecIsAtomic` | internal/repository/transaction.go:62-87 | nil exactly when the callback completes a sequence of operations no fault strikes, and then the database is their sequential effect; otherwise it is unchanged |
| `UnitOfWork.ExecAnswers` | internal/repository/transaction.go:62-87 | once begun, an error of the callback is answered as it is; a failed begin or commit is answered as internal and changes no table |
| `UnitOfWork.LostOperationFails` | internal/repository/transaction.go:78-84 | a lost operation that the callback reached is answered with an error and changes no table |
| `UnitOfWork.EndsWellSequentially` | internal/repository/transaction.go:78-84 | a callback that ends well ran some fault-free sequence of operations to its end |
| `UnitOfWork.SequenceIsConducted` | internal/repository/transaction.go:78-84 | such a sequence is what is run when no fault strikes it |
| `UnitOfWork.AbortedStays` | internal/repository/transaction.go:78-84 | a transaction with a failed operation cannot be committed |
| `Transactions.RefreshEffect` | internal/service/refresh_token.go:74-107 | the transaction of `Refresh`: accepted, rejected as unauthenticated, or failed, and its tables in each case |
| `Transactions.SendEffect` | internal/service/otp.go:111-123 | the transaction of `SendCode` replaces the identifier's challenge or changes nothing |
| `Transactions.ResetEffect` | internal/service/auth.go:143-164 | the transaction of `ResetPassword`: token, password and sessions together or nothing |
| `Machine.RunIsSound` | internal/infra/database/schema/001_init.sql:2-29 | every run keeps the keys, uniqueness, foreign keys, email length and counter range of the schema (so there is at most one challenge per identifier); the users, sessions and reset tokens stored were drawn before |
| `Accounting.StoredChallengesFit` | internal/infra/database/schema/001_init.sql:22-29 | in every run the stored challenges were drawn before, and their identifiers fit the column |
| `Calls.LoginCallEffect` | internal/service/auth.go:81-106 | the events of `Login`, run on their own, have the tables of the call |
| `Calls.OtpCallEffect` | internal/service/auth.go:108-133 | the same for `LoginWithOtp` |
| `Calls.SendCallEffect` | internal/service/otp.go:77-126 | the same for `SendCode` |
| `Calls.VerifyCallEffect` | internal/service/otp.go:142-190 | the same for the four statements of `VerifyPasswordResetCode` |
| `RefreshTokens.RefreshTokenService.GenerateRefreshToken` | internal/service/refresh_token.go:52-65 | stores the session, or reports an error and stores nothing |
| `RefreshTokens.RefreshTokenService.Refresh` | internal/service/refresh_token.go:67-112 | the whole answer: tokens of the owner exactly for an unexpired token with nothing failing, unauthenticated exactly when the token is malformed, unknown or expired, internal exactly when something else fails; the rows after success, and no change on any error |
| `RefreshTokens.RefreshTokenService.Rotate` | internal/service/refresh_token.go:74-109 | the body of the transaction, on any tables: its rows and its answer |
| `RefreshTokens.RefreshAnswersExactly` | internal/service/refresh_token.go:67-112 | the answer of a refresh, and what it leaves, as a function of any tables that were reached |
| `RefreshTokens.RefreshTokenService.Revoke` | internal/service/refresh_token.go:114-125 | removes exactly the presented token, spent or not |
| `OtpCodes.LookupFindsExactly` | internal/repository/user.go:70-86 | a lookup answers with a row exactly when the email is known and the statement is not lost |
| `OtpCodes.OtpService.SendCode` | internal/service/otp.go:77-126 | answers with the challenge id for known and unknown addresses alike, and with an internal error otherwise; mails exactly the code whose hash it stores; the stored row column by column; on any error, tables unchanged |
| `OtpCodes.OtpService.Deliver` | internal/service/otp.go:89-125 | formats, mails, then stores, in this order |
| `OtpCodes.OtpService.VerifyLoginCode` | internal/service/otp.go:128-140 | consumes the challenge that matches, or reports that none does |
| `OtpCodes.OtpService.VerifyPasswordResetCode` | internal/service/otp.go:142-190 | the whole answer: a token exactly when the code is accepted and nothing fails, not found exactly when it is not accepted and the attempt is counted, internal exactly when a statement is lost or no token can be drawn, never permission denied; and the tables in each case |
| `OtpCodes.VerifyAnswersExactly` | internal/service/otp.go:147-189 | the same for the answer as a function of any tables that were reached |
| `OtpCodes.FreshTokenIsStored` | internal/service/otp.go:161-187 | in a reached state the challenge's address belongs to a user, and a fresh token is stored unless the statement is lost |
| `OtpCodes.FreshChallengeIsStored` | internal/service/otp.go:111-123 | in a reached state a fresh challenge is stored unless the connection fails |
| `Auth.AuthService.RegisterUser` | internal/service/auth.go:61-79 | the whole answer: already exists exactly when email or username is taken, internal exactly when hashing or the statement fails or the email exceeds 255 characters; overwrites the caller's id and password as the code does, even on failure; hashes whatever text the caller's struct holds |
| `Auth.AuthService.Login` | internal/service/auth.go:81-106 | the whole answer: succeeds exactly with the password of the user with that email, unauthenticated exactly without it, internal exactly when a statement or signing fails; on any error, tables unchanged |
| `Auth.AuthService.LoginWithOtp` | internal/service/auth.go:108-133 | the whole answer: succeeds exactly with a live code for the address, which it uses up; unauthenticated, not found and internal exactly when the address is unknown, no code matches, or a statement or signing fails; and the tables in each case |
| `Auth.AuthService.ResetPassword` | internal/service/auth.go:135-167 | the whole answer: succeeds exactly with a stored, unused, unexpired token, unauthenticated exactly without one, internal exactly when hashing or the transaction fails; after success the token is used, its user has the new password and no session, and nothing else changed; on any error, tables unchanged |
| `Auth.LoginAnswersExactly` | internal/service/auth.go:81-106 | the answer of a login as a function of any tables that were reached |
| `Auth.OtpAnswersExactly` | internal/service/auth.go:108-133 | the same for a login by code |
| `Auth.ResetAnswersExactly` | internal/service/auth.go:143-162 | the same for a reset |
| `Auth.LiveCodeHasUser` | internal/service/otp.go:102-109 | a code that could be presented belongs to a registered address |
| `Rotation.AcceptedAgainOnlyEarlier` | internal/infra/database/sqlc/refresh_token.sql.go:15-21 | without any clock hypothesis: a token accepted once is accepted again only at an earlier `NOW()` |
| `Rotation.RefreshIsSingleUse` | internal/service/refresh_token.go:67-112 | with refreshes in order, no token is accepted by two successful calls of a run |
| `Rotation.SpentForGood` | internal/infra/database/sqlc/refresh_token.sql.go:15-21 | a token that can be accepted only before some time stays so for the rest of the run |
| `Lineage.RunIsKin` | internal/service/refresh_token.go:89-98 | every stored token descends from exactly one login, stands once in its chain, and carries that login's user |
| `Chains.RefreshSpendsTheNewest` | internal/service/refresh_token.go:74-107 | every successful refresh spends the newest token of its login |
| `Chains.RunIsLinked` | internal/service/refresh_token.go:74-107 | each token of a chain but the first replaced the one before it |
| `Chains.OnlyTheNewestLives` | internal/service/refresh_token.go:74-107 | at any time not before the refreshes so far, only the newest token of a login can be unexpired |
| `Sessions.TableRefinesSessions` | internal/service/refresh_token.go:52-125 | every run of the refresh-token table is a run of a plain map from logins to one current token: login opens, refresh replaces, revoke closes only by the current token, reset wipes a user |
| `Sessions.TableAcceptsAsSessions` | internal/service/refresh_token.go:67-112 | at every point of a run `Refresh` succeeds exactly when the plain map accepts the token and nothing fails |
| `Ending.ResetEndsSessions` | internal/service/auth.go:143-162 | after a successful reset no token descending from a session stored before it for that user is accepted again, whatever the clocks read |
| `Lingering.LoginsAfterResetExactly` | internal/service/auth.go:81-106 | every later session by password was opened with a password set by that reset or since, if and only if no login of the user was between its check and its session when the reset committed |
| `Lingering.CodeLoginsAfterResetExactly` | internal/service/auth.go:108-133 | the same for logins by code: the code was consumed after the reset, if and only if none was between the two |
| `Lingering.AcceptedWasOpenedLater` | internal/service/auth.go:143-162 | a token accepted after a reset of its user descends from a session stored after it |
| `Lingering.AcceptedAfterResetIsNew` | internal/service/auth.go:81-162 | if no such call was in flight, that session was opened with a password set since or by a code consumed since |
| `Lingering.OtherTokenOutlivesReset` | internal/service/auth.go:143-162 | another unused token of the user changes the password again after a reset if and only if it is in time |
| `Lingering.CodesOutliveReset` | internal/service/auth.go:143-162 | a reset touches no challenge, and a code mailed before it logs in if and only if it is in time |
| `Continuing.OlderTokenChangesAgain` | internal/service/auth.go:143-162 | from every reachable state a registered user can reset with a newer token and then change the password again with an older one |
| `Continuing.MailedCodeLogsInAfterReset` | internal/service/auth.go:108-162 | from every reachable state a code mailed before a reset can log its user in after it |
| `Continuing.HeldCodeOpensAfterReset` | internal/service/auth.go:108-162 | from every reachable state a login by code can be between its code and its session when a reset commits, and store the session after it |
| `Example.FormerPasswordOpensLater` | internal/service/auth.go:81-106 | a concrete run: a login checks the former password, a reset commits, and the login stores its session |
| `Ending.SecondUseExactly` | internal/infra/database/sqlc/refresh_token.sql.go:15-21 | a spent token that is still stored is accepted again if and only if the later transaction reads an earlier clock |
| `Ending.DoubleUseOutOfOrder` | internal/infra/database/sqlc/refresh_token.sql.go:15-21 | a concrete run in which it is |
| `Recovery.RunIsTraced` | internal/service/otp.go:102-125 | every stored challenge is one that was sent, with the code and address that were mailed, and every call in flight is accounted for |
| `Recovery.UsersStay` | internal/infra/database/sqlc/users.sql.go:75-90 | users are never removed and their emails never change |
| `Provenance.RunIsSourced` | internal/service/otp.go:170-187 | every session by code and every reset token is the one product of its own consumed challenge, for the user of that address; every password change spent one reset token, unexpired and unused |
| `Guarantees.ChallengeConsumedOnce` | internal/infra/database/sqlc/otp.sql.go:15-49 | a challenge is consumed at most once, counting the login and the recovery path together |
| `Guarantees.ChallengeMintsOnce` | internal/service/otp.go:142-190 | a challenge yields at most one reset token |
| `Guarantees.ResetTokenUsedOnce` | internal/infra/database/sqlc/password_reset_tokens.sql.go:15-22 | a reset token changes a password at most once |
| `Guarantees.ResetProvenance` | internal/service/otp.go:148-187 | every password change goes back, in order, to one token, one challenge consumed by id with the very code that was mailed, and one `SendCode` to the address of the user changed |
| `Guarantees.ProvenanceIsInjective` | internal/service/otp.go:148-187 | different changes go back to different tokens, challenges and sends |
| `Accounting.ChallengesAreConserved` | internal/service/auth.go:108-133 | sessions by code plus reset tokens never exceed challenges consumed, which never exceed challenges stored |
| `Ledger.ConsumedAreAccounted` | internal/service/auth.go:108-133 | the challenges consumed are exactly the sessions by code, the reset tokens, those that calls in flight hold, and those stranded |
| `Ledger.StrandedByFault` | internal/service/otp.go:161-187 | a consumed challenge is stranded only by a lost statement or a call that ends early |
| `Ledger.StoredAreAccounted` | internal/service/otp.go:111-125 | the challenges stored are exactly those consumed, those still stored, and those dropped for a newer one |
| `Accounting.ConsumedChallengeHasUser` | internal/service/otp.go:161-168 | the lookup after a consumption always finds the user that the code was sent to |
| `Accounting.SendReplaces` | internal/service/otp.go:102-125 | just after `SendCode` the address has exactly the returned challenge, its row given column by column, and other addresses keep theirs |
| `Accounting.ReplacedIsNeverConsumed` | internal/service/otp.go:111-125 | a replaced challenge is never consumed afterwards |
| `Accounting.ResetTimeWindow` | internal/service/otp.go:102-109 | a password change happens within the code's and the token's lifetimes plus the time the verification took |
| `Accounting.SecretsAreDistinct` | internal/service/otp.go:170-179 | no two stored reset tokens are the same secret |
| `RoundTrip.MailedCodeAcceptedExactly` | internal/service/otp.go:147-159 | the mailed code with its challenge id is accepted if and only if it is in time and fewer attempts than the limit were counted |
| `RoundTrip.MailedCodeLogsInExactly` | internal/infra/database/sqlc/otp.sql.go:15-21 | the mailed code with its address is accepted by `LoginWithOtp` if and only if it is in time, whatever was counted |
| `RoundTrip.TokenRedeemedExactly` | internal/service/auth.go:143-162 | an unused token sets its user's password if and only if it is in time |
| `RoundTrip.LoginChecksPassword` | internal/service/auth.go:82-93 | a login passes the check exactly with the user's current password |
| `RoundTrip.CodeYieldsToken` | internal/service/otp.go:142-190 | the mailed code yields a reset token for the user it was mailed to, whatever other calls do in between |
| `RoundTrip.TokenYieldsLogin` | internal/service/auth.go:81-167 | an unused token yields a session of its user under the new password, whatever other calls do in between |
| `RoundTrip.RecoveryWorks` | internal/service/otp.go:77-190 | from the mailed code to a session under the new password, whatever other calls do in between |
| `Example.StoryRecovers` | internal/service/otp.go:77-190 | a concrete run that meets all hypotheses of the round trip |
| `Continuing.EveryUserRecovers` | internal/service/otp.go:77-190 | from every reachable state every registered user can, with any drawn code, set any password and open a session with it |
| `Guessing.AttemptsAreCounted` | internal/repository/otp.go:107-116 | a stored challenge's attempts are the increments executed on it before its expiry, capped at the limit |
| `Guessing.IncrementNeverOverflows` | internal/infra/database/sqlc/otp.sql.go:71-87 | the increment never leaves the range of SMALLINT |
| `Guessing.ConfiguredLimitExactly` | internal/repository/otp.go:107-111 | the configured number is the cap exactly when it fits the column |
| `Guessing.LimitThatArrives` | internal/repository/otp.go:87 | the limit is the configured number's low sixteen bits, read as a signed number |
| `GuessBound.NumberBeyondColumnRefuses` | internal/repository/otp.go:83-88 | with a number from 32768 to 65535 recovery accepts no code at all |
| `GuessBound.WrongGuessesAreBounded` | internal/service/otp.go:147-159 | with statements in order, `VerifyPasswordResetCode` compares at most limit - 1 + in flight + lost wrong codes with a challenge while it is below the limit |
| `GuessBound.SequentialGuesses` | internal/service/otp.go:147-159 | one recovery call at a time, without losses and with statements in order: `VerifyPasswordResetCode` compares at most the limit |
| `GuessBound.GuessesAreAccounted` | internal/service/otp.go:147-159 | every wrong code compared by `VerifyPasswordResetCode` is an attempt counted, an increment lost, or one still owed |
| `Racing.WrongLoginChangesNothing` | internal/service/otp.go:128-140 | a wrong code presented to `LoginWithOtp` changes no table and counts nothing |
| `Racing.LoginGuessesAreFree` | internal/infra/database/sqlc/otp.sql.go:15-21 | for every n some run compares n wrong codes with one challenge by `LoginWithOtp`, its counter still at zero |
| `Racing.LockedCodeLogsIn` | internal/infra/database/sqlc/otp.sql.go:15-21 | some run locks a challenge for recovery, and the code still logs in |
| `Racing.GuessBoundIsReached` | internal/service/otp.go:147-159 | for all limits, recovery calls in flight, losses and wrong logins some run compares as many wrong codes as all of them allow |
| `Racing.GuessesOutOfOrder` | internal/infra/database/sqlc/otp.sql.go:71-87 | with statements out of order, for every n some run with one recovery call at a time and nothing lost compares n wrong codes, the counter still at zero |
| `Racing.AllGuessesAreBounded` | internal/service/otp.go:128-159 | by both paths together, with recovery statements in order, at most limit - 1 + in flight + lost + wrong logins; only the wrong logins when no recovery call is ever in flight |
| `Racing.NumberHoldsExactly` | internal/repository/otp.go:83-116 | whatever number is configured, it bounds the wrong codes of both paths if and only if the worst case of the limit that reaches the database stays within it, and there is a worst case: statements in order, or no comparison by recovery |
| `Racing.LimitHoldsExactly` | internal/service/otp.go:128-159 | for every limit from 1 to 32767, all numbers of recovery calls in flight, lost increments and wrong logins, and whether or not statements are in order: the configured limit bounds the wrong codes of both paths if and only if there are only wrong logins, no more than the limit, or only recovery calls, one at a time, none losing its increment, with their statements in order |
| `Racing.LimitIsNoBoundUnderConcurrency` | internal/service/otp.go:147-159 | without losses and with statements in order, the configured limit bounds the wrong codes presented to `VerifyPasswordResetCode` if and only if one such call is in flight at a time |
| `Codes.FormatCodeLength` | internal/service/otp.go:94 | the length of a code is that of its numeral, but at least six |
| `Codes.FormatCodeDigits` | internal/service/otp.go:94 | every character of a code is a digit |
| `Codes.FormatCodeExactly` | internal/service/otp.go:94 | the code is the only text of digits of its length that reads as the number drawn |
| `Codes.FormatCodeRoundTrip` | internal/service/otp.go:94 | the code is made of digits, and reading it gives back the number drawn, so the format is injective |
| `Codes.SixCharactersExactly` | internal/service/otp.go:89-94 | all codes have six characters exactly when MaxValue is at most a million |

## Left out

- HTTP server, routes, handlers, cookies, payload validation and the mapping of errors to status codes.
- JWT signing and parsing: a token is its subject, and signing either works or fails.
- HMAC-SHA-256, bcrypt (its 72-byte limit among it) and the random generators: see the assumptions; a failure of hashing or drawing is an input of the call.
- The text form of identifiers: one that does not parse is an input without an identifier, so the empty-string sentinel of the consume method and the parsing of the user id it returns do not appear.
- Email delivery: a message is recorded with its address and code, or sending fails before the transaction.
- PostgreSQL's locking and what READ COMMITTED lets a transaction see: steps are atomic and in serial order.
- A statement that took effect although its reply was lost.
- Machine.RunIsSound: says nothing of the VARCHAR limits on password and code_hash, because the text of a hash has a fixed length that the hashes of the model do not have; the length of an identifier is `Accounting.StoredChallengesFit`.
- Text encodings and collation.
- Configuration, migrations, port probing, profile lookup and the queries that no service uses.
- A `MaxValue` of zero or less, with which drawing a code does not return: no code is drawn then.
- Interleaving inside the service classes: they run one call at a time; what interleaved calls do is stated on the machine.
