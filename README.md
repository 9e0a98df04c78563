# WalletPoint points wallet — a Dafny model

WalletPoint is a campus points wallet. Users hold a point balance, send
points to each other, pay by scanning signed QR codes, buy from a
marketplace and earn points by completing missions. This project models the
money-moving core of the system and proves properties of it. It covers three
code bases, each as its own group of modules; they disagree in places and
are not merged.

- **The older Go backend** (`backend/`). Amounts are integers. Every flow is
  one SQL transaction.
  - `BackendEntities` and `BackendTables`: the tables as sequences of rows in
    insertion order, with the row-level reads and writes of the repositories.
  - `BackendDatabase.Database`: a class with one field per table and one
    method per repository call.
  - `BackendWalletService`, `BackendQrService`, `BackendProductService` and
    `BackendMissionService`: the service flows (transfer, adjustment, QR
    payment and cancellation, marketplace purchase, the mission life-cycle).
    Each flow is a method that makes the repository calls in the source's
    order. Its contract ties the result and the new database to a
    specification function, and the lemmas prove what that function does.
  - `BackendValidation` and the `Backend*Dto` modules: the request
    validators and response mappings.
  - `BackendUtils`: the QR signature payload and transaction codes.
- **The rewrite** (`walletpoint-backend/`). Amounts are integers here too
  (the source uses `float64`).
  - `WpModels` and `WpTables`: the rows and the row-level operations.
  - `WpStore.Store`: a class holding the live database.
  - `WpWalletService`, `WpQrService`, `WpMarketplace` and `WpMission`: the
    services and HTTP handlers.
  - `WpHelpers`: pagination, `Deref` and QR code signing.
- **The web and mobile clients** (JavaScript). `FeMarketplace`, `FeTransfer`,
  `FeNotifications`, `FeStorage` and `FeUtils` cover:
  - the cart and the pending QRIS payment;
  - the `WPUSER:` QR parser, the transfer history and `simpleHash`;
  - the in-app notification list;
  - the mobile offline queue and cache;
  - small formatting helpers.

  The page objects that keep state become classes, and `localStorage`
  becomes their fields.

Flows run one at a time, each as one atomic step. A rejected step leaves
the state as it was, unless the source writes before it rejects; those
writes are modelled. Clocks, random numbers, generated ids and the HMAC
primitive are parameters.

## Model

| member | source | states |
|---|---|---|
| BackendAuthDto.ValidateLogin | backend/internal/modules/auth/dto.go:9-18 | the login form is valid exactly when username and password are both non-empty; each field is reported exactly when it is empty |
| BackendAuthDto.ValidateChangePassword | backend/internal/modules/auth/dto.go:32-47 | valid exactly when the current password is given, the new one has at least 8 bytes of UTF-8 (Go's `len`) and equals the confirmation; each field is reported exactly when its rule fails |
| BackendAuthDto.NewPasswordErrorCount | backend/internal/modules/auth/dto.go:37-42 | an empty new password yields two errors on the same field (missing and too short) |
| BackendAuthDto.ValidateRegister | backend/internal/modules/auth/dto.go:59-77 | valid exactly when username, email and full name are non-empty and the password has at least 8 bytes of UTF-8 (Go's `len`); nim_nip and role are never checked |
| BackendAuthDto.RegisterPasswordErrorCount | backend/internal/modules/auth/dto.go:66-71 | an empty password yields two errors on the password field |
| BackendAuthDto.Utf8Length | backend/internal/modules/auth/dto.go:37-42 | Go's `len` of a string: at least one and at most four bytes per character, zero exactly for the empty string |
| BackendAuthDto.AsciiUtf8Length | backend/internal/modules/auth/dto.go:37-42 | an ASCII string is as many bytes long as it has characters, so for ASCII passwords the rule counts characters |
| BackendAuthDto.PasswordLengthInBytes | backend/internal/modules/auth/dto.go:37-42 | a seven-character password with one non-ASCII letter is eight bytes long and passes both the register and the change-password length rule |
| BackendAuthDto.ToUserResponse | backend/internal/modules/auth/dto.go:121-136 | the response copies id, username, email and role name; nim_nip and avatar_url are present exactly when the user has them |
| BackendDatabase.Page | backend/internal/modules/wallet/repository.go:234-235 | LIMIT/OFFSET fails exactly when the limit or the offset is negative; otherwise the page is the run of min(limit, rows left) consecutive rows starting at row offset, empty past the end |
| BackendDatabase.Newest | backend/internal/modules/wallet/repository.go:234 | ORDER BY created_at DESC over insertion order is the reversed table: same length, row i is the i-th from the end |
| BackendDatabase.Database.Rollback | backend/internal/modules/wallet/service.go:126 | a rolled-back transaction leaves the whole database as it was when the transaction began |
| BackendDatabase.Database.constructor | backend/internal/modules/wallet/repository.go:27-29 | a repository opened over a database sees exactly that database |
| BackendDatabase.Database.GetByUserID | backend/internal/modules/wallet/repository.go:31-75 | no wallet exactly when no row has the user id; a found wallet is a row of the table with that user id |
| BackendDatabase.Database.UpdateBalanceWithStats | backend/internal/modules/wallet/repository.go:83-98 | the wallet rows with the id get the amount added to the balance and to total_earned or total_spent by direction; all other rows are unchanged |
| BackendDatabase.Database.UpdateBalance | backend/internal/modules/wallet/repository.go:77-81 | the wallet rows with the id get the amount added to the balance, lifetime counters unchanged |
| BackendDatabase.Database.CreateLedgerEntry | backend/internal/modules/wallet/repository.go:100-123 | the entry is appended with the next AUTO_INCREMENT id, which is returned |
| BackendDatabase.Database.GetTransactionByIdempotencyKey | backend/internal/modules/wallet/repository.go:164-186 | no transaction exactly when no row carries the key |
| BackendDatabase.Database.CreateTransaction | backend/internal/modules/wallet/repository.go:188-212 | the transaction is appended with the next AUTO_INCREMENT id, which is returned |
| BackendDatabase.Database.GetTransactionsByWalletID | backend/internal/modules/wallet/repository.go:220-258 | an error exactly for a negative limit or offset; otherwise exactly the LIMIT/OFFSET page of the wallet's transactions, newest first, and the count of all rows involving it |
| BackendDatabase.Database.CreateQr | backend/internal/modules/qr/repository.go:16-38 | the code is appended with the next AUTO_INCREMENT id, which is returned |
| BackendDatabase.Database.GetByCode | backend/internal/modules/qr/repository.go:40-88 | no code exactly when no row has the code string |
| BackendDatabase.Database.GetQrByID | backend/internal/modules/qr/repository.go:90-113 | no code exactly when no row has the id |
| BackendDatabase.Database.MarkAsUsed | backend/internal/modules/qr/repository.go:115-123 | the rows with the id become USED with scanner, time and one more use, whatever their prior status; other rows unchanged |
| BackendDatabase.Database.UpdateQrStatus | backend/internal/modules/qr/repository.go:125-129 | the rows with the id get the new status; other rows unchanged |
| BackendDatabase.Database.GetByCreatorID | backend/internal/modules/qr/repository.go:131-169 | an error exactly for a negative limit or offset; otherwise exactly the LIMIT/OFFSET page of the creator's codes, newest first (at most limit rows), and the count of all of them |
| BackendDatabase.Database.GetProductByID | backend/internal/modules/product/repository.go:42-68 | no product exactly when every row with the id is soft-deleted or none exists |
| BackendDatabase.Database.UpdateProduct | backend/internal/modules/product/repository.go:151-162 | the rows with the product's id take its editable fields; other rows unchanged |
| BackendDatabase.Database.DeleteProduct | backend/internal/modules/product/repository.go:164-168 | the rows with the id are marked deleted; other rows unchanged |
| BackendDatabase.Database.DecrementStock | backend/internal/modules/product/repository.go:170-181 | succeeds exactly when some row has the id and unlimited stock or stock of at least the quantity; only such rows lose the quantity and gain it in sold_count |
| BackendDatabase.Database.CreateOrder | backend/internal/modules/product/repository.go:184-214 | the order is appended with the next AUTO_INCREMENT id and the notes as the repository builds them, with product id and quantity each written as one character |
| BackendDatabase.Database.GetMissionByID | backend/internal/modules/mission/repository.go:42-65 | no mission exactly when every row with the id is soft-deleted or none exists |
| BackendDatabase.Database.UpdateMission | backend/internal/modules/mission/repository.go:150-162 | the rows with the mission's id take its editable fields; other rows unchanged |
| BackendDatabase.Database.DeleteMission | backend/internal/modules/mission/repository.go:164-168 | the rows with the id are marked deleted; other rows unchanged |
| BackendDatabase.Database.IncrementParticipants | backend/internal/modules/mission/repository.go:170-174 | the rows with the id count one more participant; other rows unchanged |
| BackendDatabase.Database.CreateLog | backend/internal/modules/mission/repository.go:177-201 | the log is appended with the next AUTO_INCREMENT id, which is returned |
| BackendDatabase.Database.GetLogByMissionAndUser | backend/internal/modules/mission/repository.go:203-225 | no log exactly when the user has no log for the mission; otherwise the first one in table order |
| BackendDatabase.Database.SubmitLog | backend/internal/modules/mission/repository.go:237-241 | the rows with the id become SUBMITTED with the answers and time; other rows unchanged |
| BackendDatabase.Database.GradeLog | backend/internal/modules/mission/repository.go:243-257 | the rows with the id take score, notes, COMPLETED or FAILED, grading user, reward and time; other rows unchanged |
| BackendDatabase.Database.GetLogsByMissionID | backend/internal/modules/mission/repository.go:302-336 | exactly the logs of the mission, each as often as in the table, ordered by submitted_at descending with NULLs last |
| BackendDatabase.SortBySubmitted | backend/internal/modules/mission/repository.go:312 | ORDER BY submitted_at DESC: the result is a permutation of the rows, ordered newest first with NULLs last |
| BackendDatabase.InsertSorted | backend/internal/modules/mission/repository.go:312 | inserting one log into a list ordered by submitted_at descending keeps it ordered |
| BackendMissionDto.ValidateCreateMission | backend/internal/modules/mission/dto.go:23-46 | an empty difficulty becomes MEDIUM first; valid exactly when the title is set, the type is one of the five known, the reward is positive and the difficulty is EASY, MEDIUM or HARD |
| BackendMissionDto.ValidateCreateMissionReports | backend/internal/modules/mission/dto.go:23-46 | title, mission type, reward and difficulty are each reported exactly when their own rule fails |
| BackendMissionDto.MissionTypeErrorCount | backend/internal/modules/mission/dto.go:28-34 | an empty mission type yields two errors on that field (missing and invalid) |
| BackendMissionDto.ToMissionResponse | backend/internal/modules/mission/dto.go:129-168 | the response carries the mission's fields; a NULL description becomes "" |
| BackendProductDto.ValidateCreateProduct | backend/internal/modules/product/dto.go:17-33 | an empty product type becomes OTHER first; valid exactly when the name is set, the type is known and the price is positive |
| BackendProductDto.EmptyProductTypeAccepted | backend/internal/modules/product/dto.go:22-24 | an empty product type is never reported and leaves as OTHER |
| BackendProductDto.ValidateCreateOrder | backend/internal/modules/product/dto.go:53-62 | only a zero product id is an error; the quantity leaving is at least 1 and unchanged when it already was |
| BackendProductDto.ToProductResponse | backend/internal/modules/product/dto.go:104-129 | stock is exposed as stored and the item is unlimited exactly when stock is NULL |
| BackendQrDto.NormalizeCreateQr | backend/internal/modules/qr/dto.go:17-19 | an empty QR type becomes PAYMENT; nothing else in the request changes |
| BackendQrDto.ValidateCreateQr | backend/internal/modules/qr/dto.go:13-28 | valid exactly when the amount is positive, the (rewritten) type is PAYMENT or PRODUCT, and a PRODUCT code names a product; each field is reported exactly when its rule fails |
| BackendQrDto.EmptyQrTypeIsPayment | backend/internal/modules/qr/dto.go:14-22 | a request without a type and with a positive amount is a valid PAYMENT request |
| BackendQrDto.ValidateProcessQr | backend/internal/modules/qr/dto.go:36-45 | valid exactly when both the QR code and the idempotency key are non-empty |
| BackendQrDto.ToQrCodeResponse | backend/internal/modules/qr/dto.go:93-115 | the remaining time is never negative, positive exactly while the code has not expired, and then reaches the expiry from now |
| BackendWalletDto.ValidateTransfer | backend/internal/modules/wallet/dto.go:24-36 | valid exactly when the recipient is set, the amount is positive and the key is non-empty; at most three errors |
| BackendWalletDto.TransferErrorsInOrder | backend/internal/modules/wallet/dto.go:24-36 | the errors come out in field order to_user_id, amount, idempotency_key |
| BackendWalletDto.ValidateAdjust | backend/internal/modules/wallet/dto.go:46-61 | valid exactly when user, non-zero amount, reason and key are all given; at most four errors |
| BackendWalletDto.AdjustErrorsInOrder | backend/internal/modules/wallet/dto.go:46-61 | the errors come out in field order user_id, amount, reason, idempotency_key |
| BackendWalletDto.AdjustAcceptsNegative | backend/internal/modules/wallet/dto.go:50-52 | a negative adjustment with every other field set passes validation |
| BackendWalletDto.ToTransactionResponse | backend/internal/modules/wallet/dto.go:116-135 | the response carries the transaction's code, type, amounts and status, a NULL description as "", and the given direction and counterparty |
| BackendWalletDto.ToLedgerResponse | backend/internal/modules/wallet/dto.go:138-150 | the response carries the entry's balance before and after unchanged |
| BackendUtils.GenerateHmac | backend/pkg/utils/utils.go:40-44 | the signature is the HMAC of the data under the secret |
| BackendUtils.VerifyHmac | backend/pkg/utils/utils.go:47-50 | a signature verifies exactly when it equals the freshly generated one |
| BackendUtils.GenerateQrSignature | backend/pkg/utils/utils.go:53-56 | the QR signature is the HMAC of the payload code, amount and creator joined by '\|' |
| BackendUtils.VerifyQrSignature | backend/pkg/utils/utils.go:59-62 | a QR signature verifies exactly when it is the HMAC of that payload |
| BackendUtils.QrSignatureRoundTrip | backend/pkg/utils/utils.go:53-62 | a signature generated for a code, amount and creator verifies for the same three values |
| BackendUtils.QrPayloadRoundTrip | backend/pkg/utils/utils.go:54 | for a code without '\|', the payload parses back to the code, amount and creator |
| BackendUtils.QrPayloadInjective | backend/pkg/utils/utils.go:54 | two payloads of '\|'-free codes are equal only when code, amount and creator all agree, so one signature cannot cover two codes |
| BackendUtils.DecimalRoundTrip | backend/pkg/utils/utils.go:54 | the decimal rendering of an integer reads back as that integer |
| BackendUtils.TransactionCode | backend/pkg/utils/utils.go:33-37 | the code is the prefix, '-', eight date digits, '-', four digits |
| BackendUtils.TransactionCodeRoundTrip | backend/pkg/utils/utils.go:33-37 | the code parses back to its prefix, date stamp and random number |
| BackendTables.WalletByUser | backend/internal/modules/wallet/repository.go:31-52 | no wallet exactly when no row has the user id; a found wallet is a row with that user id |
| BackendTables.TxByKey | backend/internal/modules/wallet/repository.go:164-186 | no transaction exactly when no row carries the idempotency key; a found one carries it |
| BackendTables.QrByCode | backend/internal/modules/qr/repository.go:40-63 | no code exactly when no row has the code string; a found one has it |
| BackendTables.QrById | backend/internal/modules/qr/repository.go:90-113 | no code exactly when no row has the id; a found one has it |
| BackendTables.ProductById | backend/internal/modules/product/repository.go:42-68 | no product exactly when every row with the id is soft-deleted; a found one is live and has the id |
| BackendTables.MissionById | backend/internal/modules/mission/repository.go:42-65 | no mission exactly when every row with the id is soft-deleted; a found one is live and has the id |
| BackendTables.LogOf | backend/internal/modules/mission/repository.go:203-225 | no log exactly when the user has none for the mission; a found one is the user's log for that mission |
| BackendTables.NextId | backend/internal/modules/wallet/repository.go:188-212 | the AUTO_INCREMENT id handed out is positive and larger than every id already in the table |
| BackendTables.WithStats | backend/internal/modules/wallet/repository.go:83-98 | a credit adds \|amount\| to balance and lifetime_earned, a debit takes it from balance and adds it to lifetime_spent, whatever the sign of amount; no other column changes |
| BackendTables.StatsRowsTotal | backend/internal/modules/wallet/repository.go:83-98 | UpdateBalanceWithStats keeps the row count and moves the total balance by \|amount\| once per row it rewrites |
| BackendTables.StatsRowsKeys | backend/internal/modules/wallet/repository.go:83-98 | UpdateBalanceWithStats keeps every row's id and user id |
| BackendTables.DebitCreditConserves | backend/internal/modules/wallet/service.go:178-186 | a debit of one existing wallet and a credit of the same amount to another leave the points in circulation unchanged |
| BackendTables.SingleStatsTotal | backend/internal/modules/wallet/repository.go:83-98 | one UpdateBalanceWithStats on an existing wallet of a well-keyed table moves the total by exactly \|amount\| |
| BackendTables.StatsRowsEffect | backend/internal/modules/wallet/repository.go:83-98 | only the rows with the wallet id change, and each changes as WithStats says |
| BackendTables.StatsRowsNonNegative | backend/internal/modules/wallet/service.go:139-141 | balances stay non-negative after a debit only when the caller saw at least \|amount\| in that wallet |
| BackendTables.UniqueLookup | backend/internal/modules/wallet/repository.go:31-52 | with unique user ids, the lookup by a wallet's owner finds that wallet |
| BackendTables.StatsRowsUpdate | backend/internal/modules/wallet/repository.go:83-98 | on a well-keyed table the wallet is replaced by its updated row, every other wallet kept, keys stay unique and the owner lookup finds the new row |
| BackendTables.DebitCreditKeeps | backend/internal/modules/wallet/service.go:139-186 | a covered debit of one wallet and credit of another keep keys unique and balances non-negative and move exactly the amount from one to the other |
| BackendTables.DebitCanOverdraw | backend/internal/modules/wallet/repository.go:88 | the debit statement itself has no balance guard: a zero balance debited by one goes negative |
| BackendTables.StatsRowsAt | backend/internal/modules/wallet/repository.go:83-98 | after the update, the row with the wallet's id is exactly its WithStats row |
| BackendTables.LedgerNetAppend | backend/internal/modules/wallet/repository.go:100-123 | appending a ledger entry adds its signed amount to the ledger's net |
| BackendTables.InsertNewKey | backend/internal/modules/wallet/repository.go:188-212 | after inserting a transaction with a new key, the lookup by that key finds it and keys stay unique |
| BackendTables.MarkedUsed | backend/internal/modules/qr/repository.go:115-123 | a row after MarkAsUsed is USED with scanner and time and one more use, other columns unchanged |
| BackendTables.QrStatusEffect | backend/internal/modules/qr/repository.go:125-129 | UpdateStatus rewrites the status of the rows with the id and of no other row, and no other column |
| BackendTables.MarkAsUsedLookup | backend/internal/modules/qr/repository.go:115-123 | on a well-keyed table the code is found by its code string marked used and every other code is kept |
| BackendTables.QrStatusLookup | backend/internal/modules/qr/repository.go:125-129 | on a well-keyed table the code is found by its code string with the new status |
| BackendTables.DecrementStockRows | backend/internal/modules/product/repository.go:170-181 | only rows the guarded WHERE matches change (stock down, sold up by the quantity, NULL stock stays NULL); no match leaves the table unchanged |
| BackendTables.DecrementStockLookup | backend/internal/modules/product/repository.go:170-181 | a covered limited product is then found with stock lowered and sold count raised by the quantity |
| BackendTables.SoftDeleteHides | backend/internal/modules/product/repository.go:164-168 | after a soft delete the product is no longer found and every other product is found as before |
| BackendTables.OrderNotesLoseProductId | backend/internal/modules/product/repository.go:193-197 | the notes as written do not carry the product id: product 65 is written as the letter A, and products 0xD800 and 0xD801 give the same notes |
| BackendTables.OrderNotesAsWrittenUnreadable | backend/internal/modules/product/repository.go:193-197 | the notes stored for product 65 do not parse as decimal notes at all: the product id is lost |
| BackendTables.OrderNotesRoundTrip | backend/internal/modules/product/repository.go:193-197 | the corrected notes parse back to the product id and quantity they were built from |
| BackendTables.IncrementLookup | backend/internal/modules/mission/repository.go:170-174 | a live mission of a well-keyed table is then found with exactly one more participant |
| BackendTables.SoftDeleteMissionHides | backend/internal/modules/mission/repository.go:164-168 | after a soft delete the mission is no longer found and every other mission is found as before |
| BackendTables.FirstIndexAppend | backend/internal/modules/mission/repository.go:203-225 | a row appended to the table does not change the first match of a lookup that already matched |
| BackendTables.LatestLogOf | backend/internal/modules/mission/repository.go:203-225 | the latest log of a user's mission: none exactly when there is no log, else one of the user's logs for the mission |
| BackendTables.Graded | backend/internal/modules/mission/repository.go:243-257 | a graded log is COMPLETED with a completion time and reward_claimed when approved, FAILED without both otherwise, with the score, notes, grading user and reward written |
| BackendWalletService.TransferChecks | backend/internal/modules/wallet/service.go:117-153 | on success the locked source and destination wallets of distinct users, the source live and covering the amount, the destination live |
| BackendWalletService.Transfer | backend/internal/modules/wallet/service.go:104-231 | the service's calls, in order, produce exactly the response and the database the transfer specification gives |
| BackendWalletService.CommitTransfer | backend/internal/modules/wallet/service.go:155-229 | the writes after the checks produce exactly the transaction, balance and ledger changes of the specification |
| BackendWalletService.TransferRejections | backend/internal/modules/wallet/service.go:117-153 | with a new key, each refusal (self-transfer, no source wallet, frozen, insufficient balance, no recipient, recipient frozen) happens exactly under its condition in check order, and a refusal writes nothing |
| BackendWalletService.TransferReplay | backend/internal/modules/wallet/service.go:106-115 | a key already on file is answered from the stored transaction and nothing is written |
| BackendWalletService.TransferWrites | backend/internal/modules/wallet/service.go:155-218 | a success inserts one COMPLETED transaction with fee 0 and net equal to the amount, plus a debit and a credit ledger entry whose balances step by the amount |
| BackendWalletService.TransferConserves | backend/internal/modules/wallet/service.go:178-186 | a transfer never changes the points in circulation |
| BackendWalletService.CommitKeepsInvariant | backend/internal/modules/wallet/service.go:155-218 | the writes keep the wallet invariant (unique keys, non-negative balances) when the source covers a non-negative amount |
| BackendWalletService.TransferKeepsInvariant | backend/internal/modules/wallet/service.go:104-231 | with a validated request a transfer keeps the wallet invariant, and the reported new balance is the source's stored balance |
| BackendWalletService.TransferIdempotent | backend/internal/modules/wallet/service.go:106-115 | repeating a successful transfer with the same key writes nothing and returns the same transaction, but reports a new balance of 0 |
| BackendWalletService.AdjustRecord | backend/internal/modules/wallet/service.go:263-283 | the adjustment record names the wallet as receiver for a positive amount and as sender otherwise, with fee 0 and status COMPLETED |
| BackendWalletService.CommitAdjust | backend/internal/modules/wallet/service.go:265-320 | the writes after the checks produce exactly the transaction, the balance and counter update, and the ledger entry of the specification |
| BackendWalletService.AdjustBalance | backend/internal/modules/wallet/service.go:233-328 | the service's calls produce exactly the response and database of the adjustment specification |
| BackendWalletService.AdjustEffect | backend/internal/modules/wallet/service.go:263-320 | a fresh adjustment moves the points in circulation by exactly the signed amount and records one consistent ledger entry ending at the wallet's new balance |
| BackendWalletService.AdjustIgnoresFrozen | backend/internal/modules/wallet/service.go:248-260 | a frozen wallet is credited all the same: adjustment never looks at the frozen flag |
| BackendWalletService.AdjustKeepsInvariant | backend/internal/modules/wallet/service.go:257-260 | an adjustment keeps the wallet invariant, because a debit that would overdraw is refused |
| BackendWalletService.HistoryDirection | backend/internal/modules/wallet/service.go:70-74 | the direction is DEBIT exactly when the caller's wallet sent the transaction, CREDIT otherwise |
| BackendWalletService.HistoryResponses | backend/internal/modules/wallet/service.go:67-75 | one response per transaction, in order, each with DEBIT exactly when the wallet sent it and CREDIT otherwise |
| BackendWalletService.GetHistory | backend/internal/modules/wallet/service.go:52-78 | no wallet gives WALLET_NOT_FOUND, a negative LIMIT or OFFSET gives INTERNAL_ERROR, otherwise exactly the requested LIMIT/OFFSET page of the wallet's transactions, newest first, each mapped with its direction, and the total count |
| BackendQrService.NewQr | backend/internal/modules/qr/service.go:34-62 | a new code is ACTIVE, single-use with no uses, carries the generated UUID, the amount and creator, a verifying signature, and expires after the configured minutes |
| BackendQrService.CreateQr | backend/internal/modules/qr/service.go:34-76 | the service's calls produce exactly the response and database of the creation specification |
| BackendQrService.CreateQrEffect | backend/internal/modules/qr/service.go:34-76 | a created code is found by its code, ACTIVE with a valid signature, and a validated request keeps the QR invariant |
| BackendQrService.CancelQr | backend/internal/modules/qr/service.go:112-130 | the service's calls produce exactly the outcome and database of the cancel specification |
| BackendQrService.CancelQrOutcomes | backend/internal/modules/qr/service.go:112-130 | not found, forbidden to anyone but the creator, QR_NOT_ACTIVE unless ACTIVE, in that order; a success leaves the code CANCELLED with nothing else changed |
| BackendQrService.PaymentChecks | backend/internal/modules/qr/service.go:171-206 | on success the code is ACTIVE, the payer is not the creator, the payer's wallet is live and covers the amount, and the payee's wallet exists |
| BackendQrService.CommitPayment | backend/internal/modules/qr/service.go:208-275 | the writes after the checks produce exactly the transaction, balances, ledger entries and used mark of the specification |
| BackendQrService.ProcessPayment | backend/internal/modules/qr/service.go:132-294 | the service's calls produce exactly the response and database of the payment specification |
| BackendQrService.PaymentCheckOrder | backend/internal/modules/qr/service.go:150-182 | with a new key the first failing check among existence, signature, expiry, USED, other status and self-payment decides the error; a refusal writes nothing, because the EXPIRED update outside the transaction waits on the row lock the transaction holds and its failure is ignored |
| BackendQrService.PayeeFrozenIgnored | backend/internal/modules/qr/service.go:198-206 | a code whose creator's wallet is frozen can still be paid |
| BackendQrService.PaymentEffect | backend/internal/modules/qr/service.go:208-275 | a payment debits the payer and credits the payee by the code's amount with paired ledger entries; points in circulation and the ledger's net do not move |
| BackendQrService.PaymentOneShot | backend/internal/modules/qr/service.go:166-177 | after a successful payment any later payment of the same code under a new key fails |
| BackendQrService.UsedCodeReportedExpired | backend/internal/modules/qr/service.go:166-173 | a used code presented after its expiry is refused as QR_EXPIRED, not QR_ALREADY_USED, since expiry is checked first, and it stays USED |
| BackendQrService.PaymentKeepsInvariants | backend/internal/modules/qr/service.go:132-294 | payment keeps the wallet invariant and the QR invariant |
| BackendProductService.ProductChecks | backend/internal/modules/product/service.go:159-178 | the product is returned exactly when it is found, active, not the buyer's own and, when limited, has stock for the quantity |
| BackendProductService.WalletChecks | backend/internal/modules/product/service.go:189-211 | on success the buyer's wallet is live and covers the total and the seller's wallet exists; the seller's frozen flag is not consulted |
| BackendProductService.CreateOrder | backend/internal/modules/product/service.go:157-278 | the service's calls produce exactly the response and database of the order specification |
| BackendProductService.CommitOrder | backend/internal/modules/product/service.go:213-274 | the writes after the checks produce exactly the specification's effect, and everything is rolled back if the stock decrement fails |
| BackendProductService.OrderRejections | backend/internal/modules/product/service.go:159-211 | each refusal (not found, inactive, own product, out of stock, no buyer wallet, frozen, insufficient balance, no seller wallet) happens exactly under its condition in check order, and a refusal writes nothing |
| BackendProductService.StockRecheckPasses | backend/internal/modules/product/service.go:176-178 | the guarded stock UPDATE always matches a product that passed the stock check |
| BackendProductService.SellerFrozenIgnored | backend/internal/modules/product/service.go:204-211 | a frozen seller wallet does not stop a sale |
| BackendProductService.OrderEffect | backend/internal/modules/product/service.go:213-274 | a success writes one COMPLETED PURCHASE transaction keyed by the order code and one COMPLETED order priced price × quantity with the notes as the repository builds them, and moves that amount from buyer to seller |
| BackendProductService.Int64 | backend/internal/modules/product/service.go:180 | Go's int64 wrap-around: the result is in the int64 range and congruent to the input modulo 2^64 |
| BackendProductService.OrderTotalAsWritten | backend/internal/modules/product/service.go:180 | the total as written is price × quantity wrapped to int64, and equals the exact product whenever that is in range |
| BackendProductService.OrderTotalOverflows | backend/internal/modules/product/service.go:180 | price 4 and quantity 2^62 wrap to a total of 0, which passes a balance check the exact total fails; price 3 and quantity (2^64 - 1) / 3 wrap to -1, which passes and leaves the buyer at -1 |
| BackendProductService.OrderStock | backend/internal/modules/product/service.go:265-270 | stock moves only for a limited product, down by the quantity with the sold count up by it |
| BackendProductService.CommitProducts | backend/internal/modules/product/service.go:265-270 | after an order that passed the stock check the product table is exactly the decremented table |
| BackendProductService.OrderIgnoresPriorTransactions | backend/internal/modules/product/service.go:213-233 | whether an order goes through does not depend on the transactions already on file, so retries are not recognised |
| BackendProductService.OrderKeepsInvariant | backend/internal/modules/product/service.go:157-278 | with positive prices, a validated quantity and a fresh order code, an order keeps every balance non-negative |
| BackendProductService.MergeUpdate | backend/internal/modules/product/service.go:113-136 | the fields the request sets replace the product's, absent fields keep their values, id, seller and type never change |
| BackendProductService.UnlimitedFlagIgnored | backend/internal/modules/product/service.go:125-127 | the is_unlimited field of an update has no effect on the stored product; only the stock column decides |
| BackendProductService.UpdateProduct | backend/internal/modules/product/service.go:101-139 | the service's calls produce exactly the outcome and database of the update specification |
| BackendProductService.UpdateProductOutcomes | backend/internal/modules/product/service.go:101-139 | only the seller updates, and only a product that is not deleted; otherwise nothing is written |
| BackendProductService.UpdateCheckedKeepsPrices | backend/internal/modules/product/service.go:119-121 | the corrected update, which refuses a non-positive price, keeps every price positive |
| BackendProductService.NegativePriceOverdraws | backend/internal/modules/product/service.go:119-121 | as written, a seller sets a price of -5 and a buyer with no points buys the product and is left at -5 |
| BackendProductService.DeleteProduct | backend/internal/modules/product/service.go:141-154 | the service's calls produce exactly the outcome and database of the delete specification |
| BackendProductService.DeleteProductOutcomes | backend/internal/modules/product/service.go:141-154 | only the seller deletes; afterwards the product is not found and every other product is found as before |
| BackendProductService.DeletedNotForSale | backend/internal/modules/product/service.go:159-165 | a deleted product cannot be ordered: the order fails with PRODUCT_NOT_FOUND |
| BackendMissionService.StartChecks | backend/internal/modules/mission/service.go:171-198 | on success the mission is found, not the caller's own, active, not already joined unless repeatable, and below its participant maximum |
| BackendMissionService.StartMission | backend/internal/modules/mission/service.go:171-229 | the service's calls produce exactly the response and database of the start specification |
| BackendMissionService.StartRejections | backend/internal/modules/mission/service.go:171-198 | each refusal (not found, own mission, inactive, already participated, maximum reached) happens exactly under its condition in check order, and writes nothing |
| BackendMissionService.StartEffect | backend/internal/modules/mission/service.go:207-221 | a start appends one STARTED log for the user and raises the participant count by exactly one, never past the maximum |
| BackendMissionService.SubmitMission | backend/internal/modules/mission/service.go:231-246 | the service's calls produce exactly the outcome and database of the submit specification |
| BackendMissionService.SubmitOutcomes | backend/internal/modules/mission/service.go:231-246 | submission needs the user's log in STARTED or IN_PROGRESS and marks it SUBMITTED with the answers; the mission row is never consulted |
| BackendMissionService.SubmitLookup | backend/internal/modules/mission/service.go:245 | after SubmitLog on the log a lookup returned, the same lookup returns it SUBMITTED |
| BackendMissionService.RepeatAttemptCannotSubmit | backend/internal/modules/mission/service.go:189-193 | a repeatable mission started again gets a new STARTED log, but submission finds the first, graded log and is refused |
| BackendMissionService.StartThenSubmitLatest | backend/internal/modules/mission/service.go:231-246 | when submission picks the most recent attempt, every successful start can be submitted |
| BackendMissionService.GradeChecks | backend/internal/modules/mission/service.go:248-272 | on success the mission is the grading user's and the participant's log is SUBMITTED |
| BackendMissionService.Reward | backend/internal/modules/mission/service.go:281-285 | an approved grading grants the mission's points, a rejected one 0 |
| BackendMissionService.GradeMission | backend/internal/modules/mission/service.go:248-322 | the service's calls, with a missing wallet handled, produce exactly the outcome and database of the grading specification |
| BackendMissionService.GradeAsWrittenAgrees | backend/internal/modules/mission/service.go:292-302 | the service as written agrees with the corrected one except for an approved grading of a participant without a wallet, where it panics |
| BackendMissionService.GradeNilWalletPanics | backend/internal/modules/mission/service.go:292-302 | a concrete approved grading of a submitted user without a wallet panics as written |
| BackendMissionService.GradeRejections | backend/internal/modules/mission/service.go:248-272 | each refusal (not found, forbidden, no submission, not submitted) happens exactly under its condition and writes nothing |
| BackendMissionService.GradeEffect | backend/internal/modules/mission/service.go:281-320 | a rejection is graded FAILED and touches no wallet or ledger; an approval is COMPLETED, credits the participant with the reward and records a matching ledger entry |
| BackendMissionService.GradeKeepsInvariant | backend/internal/modules/mission/service.go:248-322 | with a non-negative reward, grading keeps every balance non-negative |
| BackendMissionService.MergeMission | backend/internal/modules/mission/service.go:122-151 | the fields the request sets replace the mission's, absent fields keep their values, id, creator and type never change |
| BackendMissionService.UpdateMission | backend/internal/modules/mission/service.go:110-154 | the service's calls produce exactly the outcome and database of the update specification |
| BackendMissionService.DeleteMission | backend/internal/modules/mission/service.go:156-169 | the service's calls produce exactly the outcome and database of the delete specification |
| BackendMissionService.CreatorOnlyEdits | backend/internal/modules/mission/service.go:110-169 | only the creator edits or deletes; anyone else gets FORBIDDEN and nothing is written; a deleted mission can no longer be started |
| BackendMissionService.ToParticipant | backend/internal/modules/mission/service.go:360-375 | a participant row carries the log's user, status and score |
| BackendMissionService.GetParticipants | backend/internal/modules/mission/service.go:340-381 | creator only; otherwise one participant per log of the mission, ordered by submitted_at descending with NULLs last |
| WpHelpers.GoDiv | walletpoint-backend/internal/shared/utils/helpers.go:73 | Go's integer division truncates toward zero: Euclidean division for a non-negative dividend, negated division of the negation otherwise |
| WpHelpers.EffectivePage | walletpoint-backend/internal/shared/utils/helpers.go:62-64 | a page below 1 is page 1, any other page is kept |
| WpHelpers.EffectiveLimit | walletpoint-backend/internal/shared/utils/helpers.go:65-70 | a limit below 1 becomes 10, above 100 becomes 100, otherwise it is kept |
| WpHelpers.CalculatePagination | walletpoint-backend/internal/shared/utils/helpers.go:61-76 | the offset is non-negative and is exactly (effective page - 1) effective limits |
| WpHelpers.TotalPagesIsCeiling | walletpoint-backend/internal/shared/utils/helpers.go:73 | for a non-negative total the page count is the ceiling of total over the effective limit: the pages hold every row and the last is not empty; zero pages exactly when there are no rows |
| WpHelpers.PageStartsInside | walletpoint-backend/internal/shared/utils/helpers.go:72-73 | the requested page starts inside the rows exactly when it is one of the totalPages pages |
| WpHelpers.Deref | walletpoint-backend/internal/shared/utils/helpers.go:53-58 | the referenced value when it is not nil, otherwise the default |
| WpHelpers.HmacSignatureRoundTrip | walletpoint-backend/internal/shared/utils/helpers.go:23-33 | a signature created over a payload verifies, and only that signature does |
| WpHelpers.GenerateQrCode | walletpoint-backend/internal/shared/utils/helpers.go:36-38 | the code is "QR_" followed by the first 12 characters of the UUID, 15 characters in all |
| WpTables.WalletByUser | walletpoint-backend/internal/modules/wallet/repository.go:24-34 | no wallet exactly when no row has the user id; a found one has it |
| WpTables.LockedWalletByUser | walletpoint-backend/internal/modules/wallet/repository.go:37-50 | the locking read finds a wallet only when the plain lookup does and its id is non-empty |
| WpTables.BalanceRows | walletpoint-backend/internal/modules/wallet/repository.go:59-64 | UpdateBalance sets the balance of exactly the rows with the wallet id |
| WpTables.AddRows | walletpoint-backend/internal/modules/wallet/repository.go:59-64 | adding to one wallet's balance changes only the rows with that id, and only their balance |
| WpTables.AddRowsTotal | walletpoint-backend/internal/modules/wallet/repository.go:59-64 | adding delta to one wallet id moves the total balance by delta once per row with that id |
| WpTables.MoveConserves | walletpoint-backend/internal/modules/wallet/repository.go:59-64 | a debit of an amount from one wallet and a credit of it to another of a well-keyed table leave the sum of balances unchanged |
| WpTables.TxByKey | walletpoint-backend/internal/modules/wallet/repository.go:131-141 | no transaction exactly when no row carries the key; a found one carries it |
| WpTables.UserTransactions | walletpoint-backend/internal/modules/wallet/repository.go:71-77 | exactly the transactions the user sent or received, of the requested type when one is given |
| WpTables.WalletLedgers | walletpoint-backend/internal/modules/wallet/repository.go:96-116 | exactly the ledger rows of the wallet |
| WpTables.QrByCode | walletpoint-backend/internal/modules/qr/repository.go:31-41 | no code exactly when no row has the code; a found one has it |
| WpTables.QrByCodeAfterUpdate | walletpoint-backend/internal/modules/qr/repository.go:86-112 | an update that keeps every row's code keeps which row GetByCode finds |
| WpTables.LockedQrByCode | walletpoint-backend/internal/modules/qr/repository.go:44-56 | the locking read finds a code only when the plain lookup does and its id is non-empty |
| WpTables.QrById | walletpoint-backend/internal/modules/qr/repository.go:59-69 | no code exactly when no row has the id; a found one has it |
| WpTables.WithStatus | walletpoint-backend/internal/modules/qr/repository.go:86-98 | the status is written, and used_at only when the status is USED; nothing else changes |
| WpTables.QrStatusRows | walletpoint-backend/internal/modules/qr/repository.go:86-98 | exactly the rows with the id take the new status |
| WpTables.WithTransaction | walletpoint-backend/internal/modules/qr/repository.go:101-112 | the transaction id, USED and used_at are written together; nothing else changes |
| WpTables.QrTransactionRows | walletpoint-backend/internal/modules/qr/repository.go:101-112 | exactly the rows with the id are linked to the transaction and marked USED |
| WpTables.ExpireRows | walletpoint-backend/internal/modules/qr/repository.go:120-125 | exactly the ACTIVE rows past their expiry become EXPIRED |
| WpTables.ExpireRowsEffect | walletpoint-backend/internal/modules/qr/repository.go:120-125 | afterwards no ACTIVE code is past its expiry, only overdue ACTIVE codes changed, and running it again at the same time changes nothing |
| WpTables.ProductById | walletpoint-backend/internal/modules/marketplace/module.go:178 | no product exactly when no row has the id |
| WpTables.ActiveProduct | walletpoint-backend/internal/modules/marketplace/module.go:293 | no product exactly when no row has the id with status active; a found one is active |
| WpTables.Sold | walletpoint-backend/internal/modules/marketplace/module.go:370-373 | stock falls by the quantity only when it is positive, total_sold rises by the quantity, nothing else changes |
| WpTables.SoldRows | walletpoint-backend/internal/modules/marketplace/module.go:370-373 | exactly the rows with the product id are updated as Sold says |
| WpTables.ProductRows | walletpoint-backend/internal/modules/marketplace/module.go:225 | exactly the rows with the product's id are replaced |
| WpTables.OrderQrRows | walletpoint-backend/internal/modules/marketplace/module.go:383 | exactly the order rows with the id are linked to the QR code |
| WpTables.MissionById | walletpoint-backend/internal/modules/mission/module.go:177 | no mission exactly when no row has the id |
| WpTables.MissionRows | walletpoint-backend/internal/modules/mission/module.go:244 | exactly the rows with the mission's id are replaced |
| WpTables.ProgressOf | walletpoint-backend/internal/modules/mission/module.go:264 | no progress exactly when the user has no row for the mission; a found one is the user's for that mission |
| WpTables.ProgressIn | walletpoint-backend/internal/modules/mission/module.go:296 | no progress exactly when the user has no row for the mission in that status |
| WpTables.ProgressRows | walletpoint-backend/internal/modules/mission/module.go:301-304 | exactly the rows with the progress id are replaced |
| WpStore.PageRows | walletpoint-backend/internal/modules/wallet/repository.go:83-90 | GORM's Offset/Limit: the run of rows starting at row offset, of min(limit, rows left) rows, all remaining rows for a negative limit, empty past the end |
| WpStore.Store.constructor | walletpoint-backend/internal/modules/wallet/repository.go:19-21 | a repository opened over a database sees exactly that database |
| WpStore.Store.Rollback | walletpoint-backend/internal/modules/wallet/repository.go:144-146 | a rolled-back transaction restores the database as it was when the transaction began |
| WpStore.Store.GetByUserID | walletpoint-backend/internal/modules/wallet/repository.go:24-34 | no wallet exactly when no row has the user id |
| WpStore.Store.GetByUserIDForUpdate | walletpoint-backend/internal/modules/wallet/repository.go:37-50 | a locked wallet is a row with the user id and a non-empty id |
| WpStore.Store.CreateWallet | walletpoint-backend/internal/modules/wallet/repository.go:53-56 | the insert succeeds exactly when the user has no wallet yet, and then appends the wallet with its new id; otherwise nothing changes |
| WpStore.Store.UpdateBalance | walletpoint-backend/internal/modules/wallet/repository.go:59-64 | the balance of exactly the rows with the wallet id is overwritten |
| WpStore.Store.GetTransactionsByUserID | walletpoint-backend/internal/modules/wallet/repository.go:67-93 | exactly the requested page (offset from the page and limit) of the user's transactions of the type, newest first, and the count of all of them |
| WpStore.Store.GetLedgersByWalletID | walletpoint-backend/internal/modules/wallet/repository.go:96-116 | exactly the requested page (offset from the page and limit) of the wallet's ledger rows, newest first, and the count of all of them |
| WpStore.Store.CreateLedgerEntry | walletpoint-backend/internal/modules/wallet/repository.go:119-122 | the entry is appended with its new id |
| WpStore.Store.CreateTransaction | walletpoint-backend/internal/modules/wallet/repository.go:125-128 | the insert succeeds exactly when its key is not already stored, and then appends the record; otherwise nothing changes |
| WpStore.Store.GetTransactionByIdempotencyKey | walletpoint-backend/internal/modules/wallet/repository.go:131-141 | no transaction exactly when no row carries the key |
| WpStore.Store.CreateQr | walletpoint-backend/internal/modules/qr/repository.go:25-28 | the code is appended with its new id |
| WpStore.Store.GetByCode | walletpoint-backend/internal/modules/qr/repository.go:31-41 | no code exactly when no row has the code |
| WpStore.Store.GetByCodeForUpdate | walletpoint-backend/internal/modules/qr/repository.go:44-56 | a locked code is a row with the code and a non-empty id |
| WpStore.Store.GetQrByID | walletpoint-backend/internal/modules/qr/repository.go:59-69 | no code exactly when no row has the id |
| WpStore.Store.UpdateStatus | walletpoint-backend/internal/modules/qr/repository.go:86-98 | exactly the rows with the id take the status, and used_at when it is USED |
| WpStore.Store.UpdateTransactionID | walletpoint-backend/internal/modules/qr/repository.go:101-112 | exactly the rows with the id are linked to the transaction and marked USED |
| WpStore.Store.ExpireOldQRCodes | walletpoint-backend/internal/modules/qr/repository.go:120-125 | every ACTIVE code past its expiry becomes EXPIRED and nothing else changes |
| WpStore.Store.GetActiveProduct | walletpoint-backend/internal/modules/marketplace/module.go:293 | the first product with the id and status active, if any |
| WpStore.Store.InsertProduct | walletpoint-backend/internal/modules/marketplace/module.go:160 | the product is appended |
| WpStore.Store.SaveProduct | walletpoint-backend/internal/modules/marketplace/module.go:225 | the rows with the product's id are replaced by it |
| WpStore.Store.SellProduct | walletpoint-backend/internal/modules/marketplace/module.go:370-373 | the rows with the id lose the quantity from positive stock and gain it in total_sold |
| WpStore.Store.InsertOrder | walletpoint-backend/internal/modules/marketplace/module.go:356 | the order is appended |
| WpStore.Store.SetOrderQr | walletpoint-backend/internal/modules/marketplace/module.go:383 | the order rows with the id are linked to the QR code |
| WpStore.Store.InsertOrderItem | walletpoint-backend/internal/modules/marketplace/module.go:363 | the item is appended |
| WpStore.Store.InsertProgress | walletpoint-backend/internal/modules/mission/module.go:281 | the progress row is appended |
| WpStore.Store.SaveProgress | walletpoint-backend/internal/modules/mission/module.go:301-304 | the rows with the progress id are replaced |
| WpStore.Store.SaveMission | walletpoint-backend/internal/modules/mission/module.go:244 | the rows with the mission's id are replaced |
| WpWalletService.KeyReplay | walletpoint-backend/internal/modules/wallet/service.go:166-174 | an empty key is never looked up; any other key finds the stored transaction carrying it, if any |
| WpWalletService.TransferChecks | walletpoint-backend/internal/modules/wallet/service.go:185-210 | on success the locked sender wallet covers the amount and the receiver wallet exists; the only refusals are WALLET_NOT_FOUND and insufficient balance |
| WpWalletService.TransferPoints | walletpoint-backend/internal/modules/wallet/service.go:164-263 | the service's calls, in order, produce exactly the result and database of the transfer specification |
| WpWalletService.CommitTransfer | walletpoint-backend/internal/modules/wallet/service.go:212-262 | the inserts inside the database transaction produce exactly the specification's rows, and a refused insert rolls everything back |
| WpWalletService.TransferReplay | walletpoint-backend/internal/modules/wallet/service.go:166-174 | a non-empty key already on file returns the stored row and writes nothing; an empty key is never treated as a replay |
| WpWalletService.TransferRejections | walletpoint-backend/internal/modules/wallet/service.go:185-225 | with no replay, each refusal (no sender wallet, insufficient balance, no receiver wallet, key already stored) happens exactly under its condition in check order, and writes nothing |
| WpWalletService.SelfTransferAccepted | walletpoint-backend/internal/modules/wallet/service.go:185-210 | there is no self-transfer check: a user with enough balance may pay themself |
| WpWalletService.TransferWrites | walletpoint-backend/internal/modules/wallet/service.go:212-255 | a transfer inserts one SUCCESS transaction from sender to receiver and two ledger rows referencing it, a debit ending at the sender's balance minus the amount and a credit ending at the receiver's plus it |
| WpWalletService.TransferLeavesBalances | walletpoint-backend/internal/modules/wallet/service.go:212-262 | no wallet balance is written: the credit row's balance_after disagrees with the receiver's wallet, and the sender still shows the old balance |
| WpWalletService.EmptyKeyTransferOnlyOnce | walletpoint-backend/internal/modules/wallet/service.go:219 | once an empty-key transfer is stored, every later empty-key transfer whose checks pass is refused by the unique index |
| WpWalletService.CreditPoints | walletpoint-backend/internal/modules/wallet/service.go:266-332 | the service's calls produce exactly the result and database of the credit specification |
| WpWalletService.CreditOutcomes | walletpoint-backend/internal/modules/wallet/service.go:266-332 | a used non-empty key returns the stored row, a missing wallet fails, otherwise one transaction naming only the receiver and one CREDIT ledger row referencing it are written |
| WpWalletService.Direction | walletpoint-backend/internal/modules/wallet/service.go:101-104 | a listed transaction is DEBIT exactly when the user sent it, CREDIT otherwise |
| WpWalletService.ListedDirections | walletpoint-backend/internal/modules/wallet/service.go:93-132 | a completed transfer is listed as DEBIT for the sender and as CREDIT for a distinct receiver; a credit is listed as CREDIT for its user |
| WpWalletService.SumsSplit | walletpoint-backend/internal/modules/wallet/service.go:60-67 | every ledger row is counted once, as credit or as debit |
| WpWalletService.WalletSummarySpec | walletpoint-backend/internal/modules/wallet/service.go:48-90 | the summary fails exactly when the user has no wallet |
| WpWalletService.AddUpLedgers | walletpoint-backend/internal/modules/wallet/service.go:60-67 | the loop adds CREDIT rows to the credit total and every other row to the debit total |
| WpWalletService.GetWalletSummary | walletpoint-backend/internal/modules/wallet/service.go:48-90 | the service's calls give exactly the summary the specification describes |
| WpWalletService.LatestIsFirstOfPage | walletpoint-backend/internal/modules/wallet/service.go:55-73 | the first page of one row holds a transaction exactly when the user has any, and then it is the newest |
| WpWalletService.CreateWalletForUser | walletpoint-backend/internal/modules/wallet/service.go:335-347 | the service's call produces exactly the result and database of the creation specification |
| WpWalletService.CreateWalletEffect | walletpoint-backend/internal/modules/wallet/service.go:335-347 | a new wallet starts at zero and is what the user's lookup then finds; a second wallet for the same user is refused and changes nothing |
| WpWalletService.StoredKey | walletpoint-backend/internal/modules/wallet/service.go:219 | the corrected key column holds NULL exactly for an empty key |
| WpWalletService.CorrectedTransferMoves | walletpoint-backend/internal/modules/wallet/service.go:212-255 | the corrected transfer keeps the sum of balances, the sender loses the amount and the receiver gains it, as the two ledger rows say |
| WpWalletService.CorrectedEmptyKeyRepeats | walletpoint-backend/internal/modules/wallet/service.go:219 | with empty keys stored as NULL, an empty-key transfer whose checks pass is completed whatever was stored before |
| WpWalletService.CorrectedCreditRaises | walletpoint-backend/internal/modules/wallet/service.go:297-324 | the corrected credit raises the sum of balances by exactly the amount, as its ledger row says |
| WpQrService.NewQr | walletpoint-backend/internal/modules/qr/service.go:49-86 | a new code is ACTIVE, unused and unlinked, expires after the configured minutes, and is signed over code, owner, amount and expiry |
| WpQrService.GenerateQR | walletpoint-backend/internal/modules/qr/service.go:49-86 | a PAYMENT code with the request's description is appended, and nothing else changes |
| WpQrService.GenerateCheckoutQR | walletpoint-backend/internal/modules/qr/service.go:89-122 | a CHECKOUT code for the order, described as "Checkout payment", is appended, and nothing else changes |
| WpQrService.QrCheck | walletpoint-backend/internal/modules/qr/service.go:191-220 | a code may be paid exactly when it is ACTIVE, unexpired, correctly signed and not the scanner's own; USED, EXPIRED or overdue, and other statuses give their errors in that order |
| WpQrService.ValidateQR | walletpoint-backend/internal/modules/qr/service.go:191-220 | the verdict is QrCheck's, and the only write is the EXPIRED mark on an expired code |
| WpQrService.FreshQrValidates | walletpoint-backend/internal/modules/qr/service.go:49-86 | a code just generated passes validation for anyone but its owner until it expires, because the validator rebuilds the signed payload |
| WpQrService.PaymentKey | walletpoint-backend/internal/modules/qr/service.go:127-130 | the key is never empty, and a key given by the request is used as is |
| WpQrService.GeneratedKeysDiffer | walletpoint-backend/internal/modules/qr/service.go:129 | two scans without a key in different seconds get different keys and are not deduplicated |
| WpQrService.ProcessPayment | walletpoint-backend/internal/modules/qr/service.go:125-188 | the service's calls produce exactly the result and database of the payment specification |
| WpQrService.Pay | walletpoint-backend/internal/modules/qr/service.go:147-187 | the transfer and the follow-up writes produce exactly the specification's result |
| WpQrService.PaymentRejections | walletpoint-backend/internal/modules/qr/service.go:132-169 | an unknown code, a failed validation (writing only the EXPIRED mark), and the transfer's errors (writing nothing), first failure first |
| WpQrService.PaymentEffect | walletpoint-backend/internal/modules/qr/service.go:147-187 | a payment records one QR_PAYMENT transaction from scanner to owner for the code's amount and marks the code USED and linked, but moves no balance |
| WpQrService.UsedCodeFound | walletpoint-backend/internal/modules/qr/service.go:172 | after the code is linked to the transaction, the lookup by code finds it USED |
| WpQrService.ExpiredCodeFound | walletpoint-backend/internal/modules/qr/service.go:199 | after the EXPIRED mark, the lookup by code finds it EXPIRED |
| WpQrService.PaidCodeIsUsedUp | walletpoint-backend/internal/modules/qr/service.go:193-195 | after a payment every later scan of the code, by anyone, with any key and at any time, is refused as already used |
| WpQrService.ExpiredCodeStaysExpired | walletpoint-backend/internal/modules/qr/service.go:198-201 | once a scan found a code expired, later scans find it EXPIRED whatever the clock says |
| WpQrService.ReusedKeyIsDuplicate | walletpoint-backend/internal/modules/qr/service.go:157-164 | a key already on file answers a scan of a valid code with success flagged as duplicate, the stored transaction's id, and no write |
| WpMarketplace.NewProduct | walletpoint-backend/internal/modules/marketplace/module.go:141-158 | a new product is active with nothing sold, stock 10 when the form says 0 and the form's stock otherwise, and stores every text field even when empty |
| WpMarketplace.CreateProduct | walletpoint-backend/internal/modules/marketplace/module.go:125-167 | exactly the new product row is appended |
| WpMarketplace.CreatedProductOrderable | walletpoint-backend/internal/modules/marketplace/module.go:157 | a product just created with a new id is found by the active-product lookup, so it can be ordered at once |
| WpMarketplace.EditableProduct | walletpoint-backend/internal/modules/marketplace/module.go:176-185 | an admin may edit any existing product, anyone else only one they sell; not found exactly when no such row exists |
| WpMarketplace.Patched | walletpoint-backend/internal/modules/marketplace/module.go:200-222 | the patch never changes id, seller, file or total sold |
| WpMarketplace.PatchIdempotent | walletpoint-backend/internal/modules/marketplace/module.go:200-225 | applying the same patch twice is applying it once, and an empty patch changes nothing |
| WpMarketplace.PatchKeepsPricePositive | walletpoint-backend/internal/modules/marketplace/module.go:207-209 | a patch cannot make a positive price zero or negative; a positive patch price is taken |
| WpMarketplace.UpdateProduct | walletpoint-backend/internal/modules/marketplace/module.go:170-235 | the handler's calls produce exactly the result and database of the update specification |
| WpMarketplace.UpdateProductOutcomes | walletpoint-backend/internal/modules/marketplace/module.go:170-235 | a refused update writes nothing; an accepted one rewrites only the product's row, and reloading it by id gives the patched row |
| WpMarketplace.Quantity | walletpoint-backend/internal/modules/marketplace/module.go:297-300 | a quantity below one is ordered as one, any other is kept |
| WpMarketplace.PriceItems | walletpoint-backend/internal/modules/marketplace/module.go:291-311 | an accepted request yields one line per requested item |
| WpMarketplace.PricedLines | walletpoint-backend/internal/modules/marketplace/module.go:291-311 | each line is for the product the item names, at that active product's price and the clamped quantity |
| WpMarketplace.PriceRefused | walletpoint-backend/internal/modules/marketplace/module.go:293-295 | a request is refused exactly when some item names no active product |
| WpMarketplace.FirstRefusal | walletpoint-backend/internal/modules/marketplace/module.go:293-295 | the product reported missing is the first item naming no active product |
| WpMarketplace.PricedTotal | walletpoint-backend/internal/modules/marketplace/module.go:310 | the total charged is the sum over the request of price times clamped quantity |
| WpMarketplace.PriceItemsStops | walletpoint-backend/internal/modules/marketplace/module.go:291-295 | once a prefix of the request is refused, the whole request is refused the same way |
| WpMarketplace.PriceOrderItems | walletpoint-backend/internal/modules/marketplace/module.go:288-311 | the loop gives exactly the priced lines of the specification, and the total is their sum |
| WpMarketplace.ChargeBuyer | walletpoint-backend/internal/modules/marketplace/module.go:314-340 | the balance path gives exactly the outcome and database of the charge specification |
| WpMarketplace.WithOrder | walletpoint-backend/internal/modules/marketplace/module.go:361-364 | every item takes the new order's id, nothing else changes |
| WpMarketplace.SoldAll | walletpoint-backend/internal/modules/marketplace/module.go:367-375 | the stock statement runs once per item and keeps the product table's length |
| WpMarketplace.CreateOrder | walletpoint-backend/internal/modules/marketplace/module.go:263-414 | the handler's calls produce exactly the result and database of the order specification |
| WpMarketplace.PlaceOrder | walletpoint-backend/internal/modules/marketplace/module.go:342-385 | the order, its items, the stock updates and the checkout code are written exactly as the specification says |
| WpMarketplace.InsertItems | walletpoint-backend/internal/modules/marketplace/module.go:361-364 | exactly the items are appended |
| WpMarketplace.SellItems | walletpoint-backend/internal/modules/marketplace/module.go:367-375 | the product table becomes exactly the sold-all table |
| WpMarketplace.OrderRejections | walletpoint-backend/internal/modules/marketplace/module.go:278-322 | every refusal (no items, missing product, no wallet, insufficient balance) comes before the first write, in the handler's order, and leaves the database unchanged |
| WpMarketplace.PlaceKeepsMoney | walletpoint-backend/internal/modules/marketplace/module.go:342-385 | placing the order never touches wallets, ledgers or transactions |
| WpMarketplace.SaveIsDebit | walletpoint-backend/internal/modules/marketplace/module.go:325-326 | with one row per wallet id, saving balance minus total is a debit of the total |
| WpMarketplace.ChargeDebits | walletpoint-backend/internal/modules/marketplace/module.go:314-340 | the balance path takes exactly the total out of the sum of balances, writes no ledger entry and one PURCHASE transaction |
| WpMarketplace.BalanceOrderDestroysPoints | walletpoint-backend/internal/modules/marketplace/module.go:313-339 | a balance order is PAID for the items' total, debits the buyer by it and credits nobody, so the sum of balances falls by the total |
| WpMarketplace.DeferredOrderEffect | walletpoint-backend/internal/modules/marketplace/module.go:342-385 | an order paid any other way touches no wallet, stays PENDING and leaves stock alone; a qris order carries a checkout code owned by the buyer and linked from the order |
| WpMarketplace.CheckoutQrRefusesBuyer | walletpoint-backend/internal/modules/marketplace/module.go:379-384 | the checkout code belongs to the buyer, so the buyer scanning it before expiry is refused as paying themself |
| WpMarketplace.PaidOrderOversells | walletpoint-backend/internal/modules/marketplace/module.go:370-373 | stock is not checked when ordering: any accepted paid one-item order for more than a product's positive stock leaves that stock at stock - quantity, below zero |
| WpMarketplace.PaySellers | walletpoint-backend/internal/modules/marketplace/module.go:302-308 | the corrected credit of each line's subtotal to its seller keeps the wallet table's length |
| WpMarketplace.PaySellersTotal | walletpoint-backend/internal/modules/marketplace/module.go:302-308 | when every seller has a wallet, paying them adds exactly the lines' total to the sum of balances |
| WpMarketplace.SettleMoves | walletpoint-backend/internal/modules/marketplace/module.go:320-339 | debiting the buyer by a total and crediting each seller by their lines moves the sum by the difference |
| WpMarketplace.CorrectedChargeConserves | walletpoint-backend/internal/modules/marketplace/module.go:313-339 | with every seller holding a wallet, the corrected payment keeps the sum of all balances |
| WpMarketplace.OrderById | walletpoint-backend/internal/modules/marketplace/module.go:466 | a found order is a row with that id |
| WpMarketplace.GroupKeys | walletpoint-backend/internal/modules/marketplace/module.go:472-491 | there is one group per order id among the seller's items |
| WpMarketplace.GroupLines | walletpoint-backend/internal/modules/marketplace/module.go:472-505 | each group carries its order's header and exactly that order's lines, in item order |
| WpMarketplace.GroupItems | walletpoint-backend/internal/modules/marketplace/module.go:472-505 | the grouping loop builds exactly the grouping the specification describes |
| WpMarketplace.GetSellerOrders | walletpoint-backend/internal/modules/marketplace/module.go:449-515 | the handler gives exactly the seller's grouped orders |
| WpMarketplace.SellerSeesEveryItem | walletpoint-backend/internal/modules/marketplace/module.go:449-515 | every order item of one of the seller's products is listed under its own order with its subtotal |
| WpMission.ActiveMission | walletpoint-backend/internal/modules/mission/module.go:258 | the mission is found exactly when a row has the id and status active |
| WpMission.ManagedMission | walletpoint-backend/internal/modules/mission/module.go:232-241 | an admin may cancel any existing mission, anyone else only one they created; not found exactly when no such row exists |
| WpMission.ProgressAfterSave | walletpoint-backend/internal/modules/mission/module.go:301-357 | rewriting a progress row by its id, keeping user and mission, makes the user's lookup for that mission return the rewritten row |
| WpMission.MissionAfterSave | walletpoint-backend/internal/modules/mission/module.go:243-246 | after a mission row is rewritten by its id, the id lookup returns the new row and the active lookup returns it exactly when it is active |
| WpMission.JoinMission | walletpoint-backend/internal/modules/mission/module.go:252-288 | the handler's calls produce exactly the result and database of the join specification |
| WpMission.JoinOutcomes | walletpoint-backend/internal/modules/mission/module.go:252-288 | NOT_FOUND for a missing or inactive mission, CONFLICT when already joined, "Mission is full" at the limit, otherwise exactly one IN_PROGRESS row for the user; the missions table is never written |
| WpMission.FullMissionAdmitsSecond | walletpoint-backend/internal/modules/mission/module.go:268-287 | a mission for one participant admits a second one, because the first join does not raise the count the second join checks |
| WpMission.CorrectedJoinCounts | walletpoint-backend/internal/modules/mission/module.go:268-287 | the corrected join raises the mission's count by exactly one, so a count within its limit stays within it |
| WpMission.CorrectedSecondJoinRefused | walletpoint-backend/internal/modules/mission/module.go:268-271 | under the corrected join, a mission for one participant refuses the second participant as full |
| WpMission.MyProgress | walletpoint-backend/internal/modules/mission/module.go:378-390 | the caller's row for the mission, or "Not joined this mission" exactly when there is none |
| WpMission.JoinThenProgress | walletpoint-backend/internal/modules/mission/module.go:273-287 | after an accepted join the caller's progress is the new IN_PROGRESS row |
| WpMission.CompleteMission | walletpoint-backend/internal/modules/mission/module.go:291-309 | the handler's calls produce exactly the result and database of the completion specification |
| WpMission.CompleteOutcomes | walletpoint-backend/internal/modules/mission/module.go:295-304 | completion needs an IN_PROGRESS row and leaves it COMPLETED with the completion time; wallets and missions are untouched |
| WpMission.ClaimKey | walletpoint-backend/internal/modules/mission/module.go:315-319 | the header's key when one is given, otherwise one built from mission, user and the request's second |
| WpMission.ClaimKeyPerSecond | walletpoint-backend/internal/modules/mission/module.go:317-319 | without a header key, claims stamped with different seconds get different keys, so a retry is not recognised as a replay |
| WpMission.ClaimReward | walletpoint-backend/internal/modules/mission/module.go:312-375 | the handler's calls produce exactly the outcome and database of the claim specification |
| WpMission.CreditKeepsRest | walletpoint-backend/internal/modules/mission/module.go:336-343 | the credit step writes only the transaction and ledger tables |
| WpMission.ClaimRejections | walletpoint-backend/internal/modules/mission/module.go:322-333 | no progress gives NOT_FOUND, CLAIMED gives "Reward already claimed", any other status but COMPLETED gives "Mission not completed yet", and a refused claim writes nothing |
| WpMission.ClaimedOnce | walletpoint-backend/internal/modules/mission/module.go:327-357 | a paid claim marks the row CLAIMED so the next claim is refused, and the wallet table is untouched because the credit writes no balance |
| WpMission.ClaimWithoutMissionPanics | walletpoint-backend/internal/modules/mission/module.go:323-339 | a progress row whose mission row is missing makes a claim crash instead of answering |
| WpMission.DeleteMission | walletpoint-backend/internal/modules/mission/module.go:226-249 | the handler's calls produce exactly the result and database of the cancel specification |
| WpMission.UnlistedNotPaged | walletpoint-backend/internal/modules/mission/module.go:62-76 | a mission that is not listed appears on no listing page |
| WpMission.CancelledMissionHidden | walletpoint-backend/internal/modules/mission/module.go:226-249 | a cancelled mission drops out of every listing page, yet its row keeps the reward and title that a claim reads |
| FeMarketplace.SpliceStart | walletpoint/www/js/pages/marketplace.js:1094 | the index splice starts at is within the cart and equals the given index when that is one |
| FeMarketplace.CartAfterRemove | walletpoint/www/js/pages/marketplace.js:1093-1094 | an index inside the cart drops exactly that line, an index past the end keeps the cart |
| FeMarketplace.TotalSplit | walletpoint/www/js/pages/marketplace.js:1034 | the cart total is additive over concatenation |
| FeMarketplace.BumpTotal | walletpoint/www/js/pages/marketplace.js:1008-1034 | raising one line's quantity by one raises the total by that line's stored price |
| FeMarketplace.AddToCartTotal | walletpoint/www/js/pages/marketplace.js:1003-1034 | adding raises the total by one unit's price (the stored price for an existing line, the listed price for a new one); an unknown product leaves the cart as it was |
| FeMarketplace.AddToCartLines | walletpoint/www/js/pages/marketplace.js:1007-1012 | the cart keeps one line per product, and after adding a known product it has a line for it |
| FeMarketplace.MiddleTotal | walletpoint/www/js/pages/marketplace.js:1034 | a line between two parts of the cart adds its subtotal to theirs |
| FeMarketplace.RemoveFromCartTotal | walletpoint/www/js/pages/marketplace.js:1034-1094 | removing the line at an index lowers the total by exactly that line's subtotal |
| FeMarketplace.RemoveFromCartLines | walletpoint/www/js/pages/marketplace.js:1093-1094 | removing a line keeps one line per product |
| FeMarketplace.AddThenRemoveLast | walletpoint/www/js/pages/marketplace.js:1003-1012 | adding a product new to the cart and removing the last line (by its index or by -1) gives the cart back |
| FeMarketplace.RemoveKeepsBalanceOption | walletpoint/www/js/pages/marketplace.js:1093-1104 | with non-negative prices and quantities, a removal never takes away the option to pay with the balance |
| FeMarketplace.Browsable | walletpoint/www/js/pages/marketplace.js:628-631 | the browse list holds exactly the products with unlimited (-1) or positive stock |
| FeMarketplace.ProgressStep | walletpoint/www/js/pages/marketplace.js:266-270 | three steps exactly for a ready fulfilment or a READY/COMPLETED order, two for one being processed, one for a PAID order not yet processed, none otherwise |
| FeMarketplace.IncludesMeans | walletpoint/www/js/pages/marketplace.js:1562 | the substring test holds exactly when the pattern occurs at some position |
| FeMarketplace.ScanOutcomes | walletpoint/www/js/pages/marketplace.js:1553-1583 | a scan is accepted exactly when an entry is pending, the data carries the order marker and the deadline has not passed; an accepted or expired scan drops the pending entry, a refused one for lack of marker keeps it |
| FeMarketplace.DeadlineDisagreement | walletpoint/www/js/pages/marketplace.js:1567 | at the deadline itself the pending check already drops the entry while a scan still pays it |
| FeMarketplace.LiveEntryScans | walletpoint/www/js/pages/marketplace.js:1567 | whenever the pending check keeps an entry, a scan at the same moment with the marker pays it |
| FeMarketplace.OtherOrderQrAccepted | walletpoint/www/js/pages/marketplace.js:1562 | a code naming any other order still pays the pending one, since only the marker is checked |
| FeMarketplace.MarketplacePage.constructor | walletpoint/www/js/pages/marketplace.js:4-7 | the page starts with no products, an empty cart and nothing stored for cart or pending payment |
| FeMarketplace.MarketplacePage.AddToCart | walletpoint/www/js/pages/marketplace.js:1003-1014 | the cart becomes the added cart and is saved; an unknown product changes nothing; one line per product is kept |
| FeMarketplace.MarketplacePage.RemoveFromCart | walletpoint/www/js/pages/marketplace.js:1093-1095 | the cart loses the indexed line and is saved; one line per product is kept |
| FeMarketplace.MarketplacePage.ClearCart | walletpoint/www/js/pages/marketplace.js:48-51 | the cart and its stored copy are gone |
| FeMarketplace.MarketplacePage.ProcessScannedQRPayment | walletpoint/www/js/pages/marketplace.js:1553-1583 | the answer and the stored pending entry follow the scan specification, and an accepted scan sets the order being paid from the pending entry |
| FeMarketplace.MarketplacePage.CheckPendingQRISTransaction | walletpoint/www/js/pages/marketplace.js:1645-1654 | the answer and the stored pending entry follow the check specification: a live entry is returned, an expired one removed |
| FeNotifications.NewEntry | walletpoint/www/js/push-notification.js:184-189 | the new entry carries the input's fields, the given id and time, and is unread |
| FeNotifications.Unread | walletpoint/www/js/push-notification.js:201 | the unread count never exceeds the list length |
| FeNotifications.UnreadSplit | walletpoint/www/js/push-notification.js:201 | the unread count is additive over concatenation |
| FeNotifications.WithEntry | walletpoint/www/js/push-notification.js:191-196 | the new entry goes first, the older entries follow in order, and the list never exceeds 50 |
| FeNotifications.UnreadAfterInsert | walletpoint/www/js/push-notification.js:191-201 | with room, an unread insertion raises the unread count by one; in a full list the entry that falls off the end is no longer counted |
| FeNotifications.NoticeFor | walletpoint/www/js/push-notification.js:252-267 | exactly the four known types produce a notice, each with its own in-app kind |
| FeNotifications.PushNotification.constructor | walletpoint/www/js/push-notification.js:5-7 | notifications start with default permission, no stored preference and no entries |
| FeNotifications.PushNotification.IsEnabled | walletpoint/www/js/push-notification.js:69-71 | enabled exactly when permission is granted and the preference is not explicitly off |
| FeNotifications.PushNotification.SavePreference | walletpoint/www/js/push-notification.js:62-64 | the preference is stored; switching it off disables notifications even with permission |
| FeNotifications.PushNotification.Show | walletpoint/www/js/push-notification.js:76-78 | a notification appears exactly when notifications are enabled |
| FeNotifications.PushNotification.AddInAppNotification | walletpoint/www/js/push-notification.js:181-202 | the stored list gains the new unread entry in front, is cut to 50, and the stored counter equals its unread count |
| FeNotifications.PushNotification.ClearAll | walletpoint/www/js/push-notification.js:222-225 | an empty list and a zero counter, consistent with each other |
| FeNotifications.PushNotification.ProcessServerNotification | walletpoint/www/js/push-notification.js:252-267 | an unknown type changes nothing; a known type shows its notification when enabled and adds its in-app entry |
| FeStorage.DecimalString | mobile/www/js/storage.js:73 | the id is a non-empty string of decimal digits |
| FeStorage.Without | mobile/www/js/storage.js:83-87 | filtering never lengthens the queue |
| FeStorage.WithoutMembers | mobile/www/js/storage.js:83-87 | the filtered queue holds exactly the entries without the id |
| FeStorage.WithoutAppend | mobile/www/js/storage.js:83-87 | filtering a queue with one more entry filters the old queue and keeps the new entry unless it has the id |
| FeStorage.WithoutAbsent | mobile/www/js/storage.js:83-87 | a queue without the id is kept whole |
| FeStorage.MobileStorage.constructor | mobile/www/js/storage.js:5-7 | storage starts empty |
| FeStorage.MobileStorage.SaveAuth | mobile/www/js/storage.js:42-46 | the three session keys hold the given values |
| FeStorage.MobileStorage.ClearAuth | mobile/www/js/storage.js:60-64 | the three session keys are removed |
| FeStorage.MobileStorage.IsLoggedIn | mobile/www/js/storage.js:66-68 | logged in exactly when a non-empty access token is stored |
| FeStorage.MobileStorage.OfflineQueue | mobile/www/js/storage.js:79-81 | the stored queue, or empty when none is stored |
| FeStorage.MobileStorage.AddToOfflineQueue | mobile/www/js/storage.js:71-77 | the action, stamped with the clock's id and time, is appended to the queue |
| FeStorage.MobileStorage.RemoveFromOfflineQueue | mobile/www/js/storage.js:83-87 | every entry with the id is removed and the rest stay in order |
| FeStorage.MobileStorage.ClearOfflineQueue | mobile/www/js/storage.js:89-91 | an empty queue is stored |
| FeStorage.MobileStorage.CacheData | mobile/www/js/storage.js:200-208 | the key maps to the value with the computed expiry and no other key changes |
| FeStorage.MobileStorage.CachedData | mobile/www/js/storage.js:222-230 | a value is returned exactly when the key is cached and not yet expired, and it is the cached value |
| FeStorage.ExpiryOf | mobile/www/js/storage.js:202-204 | no expiry exactly when the lifetime is missing or zero; otherwise now plus the lifetime |
| FeStorage.SameMillisecondCollide | mobile/www/js/storage.js:71-87 | two actions queued in the same millisecond share an id, so removing one removes both |
| FeStorage.AddThenRemove | mobile/www/js/storage.js:71-87 | adding an entry and removing it by its own id restores a queue that did not hold that id |
| FeStorage.ZeroLifetimeNeverExpires | mobile/www/js/storage.js:202-230 | a zero lifetime stores no expiry, so the entry is returned at any later time |
| FeTransfer.Split | walletpoint/www/js/pages/transfer.js:296 | splitting always yields at least one field |
| FeTransfer.SplitJoin | walletpoint/www/js/pages/transfer.js:296 | joining the fields with colons gives the text back |
| FeTransfer.SplitFieldsNoColon | walletpoint/www/js/pages/transfer.js:296 | no field the split produces holds a colon |
| FeTransfer.SplitField | walletpoint/www/js/pages/transfer.js:296 | a colon-free first field splits off ahead of the rest |
| FeTransfer.SplitPlain | walletpoint/www/js/pages/transfer.js:296 | a colon-free text splits to itself |
| FeTransfer.JoinSplit | walletpoint/www/js/pages/transfer.js:296 | colon-free fields joined with colons split back into the same fields |
| FeTransfer.ParseUserQr | walletpoint/www/js/pages/transfer.js:296-303 | a user is read exactly when the first field is WPUSER and there are at least five fields |
| FeTransfer.UserQrRoundTrip | walletpoint/www/js/pages/transfer.js:295-303 | a code written as WPUSER:id:name:email:role, plus any trailing fields, reads back as exactly that user |
| FeTransfer.OtherTagRejected | walletpoint/www/js/pages/transfer.js:297 | text with any other leading tag is not a user code |
| FeTransfer.ConfirmGuard | walletpoint/www/js/pages/transfer.js:320-331 | the confirmation is shown exactly when a recipient is chosen and the amount parsed and is positive; a missing recipient is reported first |
| FeTransfer.Keep | walletpoint/www/js/pages/transfer.js:423-425 | the list keeps its first n entries, or all of them when it is shorter |
| FeTransfer.TransferPage.constructor | walletpoint/www/js/pages/transfer.js:4-6 | the page starts without a recipient and with an empty history |
| FeTransfer.TransferPage.HandleScannedQR | walletpoint/www/js/pages/transfer.js:292-314 | a valid code selects its user as recipient; any other code leaves the choice unchanged |
| FeTransfer.TransferPage.SaveTransferToHistory | walletpoint/www/js/pages/transfer.js:406-427 | the new entry goes first and the history is cut back to 100 |
| FeTransfer.Entry | walletpoint/www/js/pages/transfer.js:410-418 | the entry keeps kind, amount and note, and the counterpart's name fills only the field its direction names |
| FeTransfer.HistoryNewestFirst | walletpoint/www/js/pages/transfer.js:420-425 | saving puts the new entry first, keeps the newest earlier entries in order and never grows past 100 |
| FeTransfer.ToInt32 | walletpoint/www/js/pages/transfer.js:546 | the signed 32-bit value congruent to the input modulo 2^32 |
| FeTransfer.ToInt32Congruent | walletpoint/www/js/pages/transfer.js:545-546 | numbers congruent modulo 2^32 have the same 32-bit value |
| FeTransfer.HashOf | walletpoint/www/js/pages/transfer.js:542-547 | the running hash always fits in a signed 32-bit integer |
| FeTransfer.ShiftStep | walletpoint/www/js/pages/transfer.js:545-546 | the shift-and-subtract step followed by h & h equals h * 31 + c in 32 bits |
| FeTransfer.SimpleHash | walletpoint/www/js/pages/transfer.js:541-549 | the result is the absolute value of the 32-bit hash, so it lies between 0 and 2^31 |
| FeUtils.Truncate | walletpoint/www/js/utils.js:231-235 | empty stays empty, a fitting text is kept, a longer one becomes its prefix plus "...", never longer than the limit plus three |
| FeUtils.TruncateIdempotent | walletpoint/www/js/utils.js:231-235 | truncating a truncated text changes nothing more |
| FeUtils.Deref | walletpoint/www/js/utils.js:240-242 | the value when defined, the default for null or undefined |
| FeUtils.RelativeTimeBuckets | walletpoint/www/js/utils.js:43-58 | the buckets partition elapsed time: "just now" under a minute, whole minutes under an hour, whole hours under a day, whole days under a week, otherwise the formatted date |
| FeUtils.StorageGet | walletpoint/www/js/utils.js:72-79 | nothing for a missing or empty item, the parsed value when it parses, the raw text when parsing fails |
| BackendValidation.Check | backend/internal/modules/wallet/dto.go:24-36 | a validator check contributes exactly one error naming its field when it fails, none otherwise |
| BackendValidation.CountCheck | backend/internal/modules/wallet/dto.go:24-36 | one check adds one error for its own field when it fails and none for any other field |
| BackendValidation.InOrderThen | backend/internal/modules/auth/dto.go:59-77 | appending the next check keeps the errors in the order the checks are written |
| BackendValidation.ReportsCheck | backend/internal/modules/wallet/dto.go:24-36 | a check reports a field exactly when it failed and is about that field |
| BackendValidation.ReportsConcat | backend/internal/modules/auth/dto.go:59-77 | a run of checks reports a field exactly when one of its parts does |
| BackendUtils.QrPayload | backend/pkg/utils/utils.go:54 | the payload's length is the code's, both decimals' and the two separators' |
| BackendUtils.DateStamp | backend/pkg/utils/utils.go:36 | the date stamp is exactly eight digits |
| BackendUtils.Padded | backend/pkg/utils/utils.go:36 | the zero-padded random part has exactly the width and only digits |
| BackendUtils.PaddedValue | backend/pkg/utils/utils.go:35-36 | a number below 10^width reads back from its padded digits |
| BackendUtils.NatDecimalValue | backend/pkg/utils/utils.go:54 | the decimal digits of a natural number read back as that number |
| BackendTables.RuneString | backend/internal/modules/product/repository.go:193-197 | converting an integer to a rune string always gives exactly one character, whatever its size |
| WpMission.Joined | walletpoint-backend/internal/modules/mission/module.go:268-283 | a join as evidently intended keeps the mission and its limit and raises its participant count by one |

## Left out

- Concurrency. Row locks (`FOR UPDATE`), serializable isolation, interleavings and deadlocks cannot be expressed in a sequential model. Each flow is one atomic step, and a locked read is an ordinary read.
- Database and driver failures. A failing `BeginTx`, `Exec`, `Create` or `Save` is not modelled; the calls always succeed. Every error path that the flows' own checks raise is modelled.
- Floating point in the rewrite. Amounts are integers with no rounding. `%.2f` in the signed QR payload is written as a whole number followed by ".00".
- Clocks, randomness, UUIDs and generated codes. `time.Now`, `rand.Intn`, `uuid.New`, `Date.now` and `Math.random` become parameters of the operations that read them.
- HMAC-SHA256. It is an uninterpreted function parameter, and the constant-time comparison is plain equality. QR image generation (`go-qrcode`) is a parameter too.
- Row order. Tables are sequences in insertion order. `ORDER BY created_at DESC` is modelled as reverse insertion order, and the traversal order of Go maps is taken to be insertion order.
- Text formatting of times and dates. Timestamps are opaque strings or integers. `formatDate` and `formatCurrency` are parameters.
- HTTP and framework glue: handlers' JSON binding and routes, middleware, configuration, the users table, and the auth services (bcrypt, JWT, sessions). The validators and response mappings of the auth module are modelled.
- Read-only and CRUD handlers of the rewrite that move no points: `GetProducts` and `GetProductByID`, `DeleteProduct`, `GetMyOrders`, `GetOrderByID`, `GetMissionByID`, `CreateMission`, `UpdateMission`, and the service reads `GetWallet`, `GetTransactions`, `GetLedger`, `GetQRByID` and `GetUserQRCodes`. The repository reads the services depend on are modelled.
- The rewrite's sync, admin, user and audit modules, and the quiz reward handler, which uses a floating-point threshold.
- Client DOM rendering, toasts, fetch, the camera, the service worker and routing. The asynchronous part of `show` is out; only whether a notification appears is modelled.
- Client storage. `JSON.parse` failures are a parameter of `StorageGet`, and the SQLite branches of `mobile/www/js/storage.js` are not modelled (only the `localStorage` fallback is).
- Client strings. A JavaScript string is a sequence of UTF-16 code units, and surrogate pairs are not distinguished.
- BackendProductService.CreateOrder: the flow computes the order total exactly; Go's int64 wrap of `Price * Quantity` is modelled separately by OrderTotalAsWritten and exhibited by OrderTotalOverflows, not by the flow.
- BackendWalletService.AdjustBalance: amounts are unbounded, so the int64 negation `-req.Amount` for an amount of -2^63 (which stays negative and slips past the balance check) is not modelled, nor is MySQL's BIGINT range check on the resulting update.
- BackendQrService.ProcessPayment: only the outcome of the EXPIRED update on an expired code is modelled (nothing is written); the wait for the lock-wait timeout is not.
- BackendDatabase.GetLogsByMissionID: logs with equal submitted_at may come back in any order from MySQL; the model promises only the descending order and the multiset of rows. The INNER JOINs on missions and users are not modelled, so a log whose user row is missing is still returned.
- FeStorage.MobileStorage.CacheData: the expiry is stored as a millisecond count rather than an ISO string, which agrees with the source's `new Date(...)` comparison.

## Findings

| source | as written | input that shows it | evidently intended | confidence | as-written member | corrected member |
|---|---|---|---|---|---|---|
| backend/internal/modules/product/service.go:119-121 | `UpdateProduct` copies any price the request carries, including a negative one | a seller sets the price to -5; a buyer with 0 points passes the balance check (0 >= -5) and the stats update debits the absolute amount, leaving the buyer at -5 | only a positive price replaces the old one | not executed | BackendProductService.NegativePriceOverdraws | BackendProductService.UpdateProductChecked, BackendProductService.UpdateCheckedKeepsPrices, BackendProductService.OrderKeepsInvariant |
| backend/internal/modules/product/repository.go:193-197 | order notes are built with `string(rune(id))` | product id 65 is written as "A", not "65" | the ids are written in decimal | not executed | BackendTables.OrderNotesAsWritten, BackendTables.OrderNotesLoseProductId, BackendTables.OrderNotesAsWrittenUnreadable | BackendTables.OrderNotes, BackendTables.OrderNotesRoundTrip |
| backend/internal/modules/mission/service.go:292-302 | grading dereferences the user's wallet without a nil check | approving a log whose user has no wallet row | a missing wallet is refused with an error | not executed | BackendMissionService.GradeMissionAsWritten, BackendMissionService.GradeNilWalletPanics | BackendMissionService.GradeMissionSpec, BackendMissionService.GradeAsWrittenAgrees |
| backend/internal/modules/mission/service.go:189-193,231-246 | the log lookup has no ORDER BY and returns the first (oldest) log | a repeatable mission started twice: the second attempt's submit finds the first, already submitted log | submit acts on the latest attempt | not executed | BackendMissionService.RepeatAttemptCannotSubmit | BackendMissionService.SubmitLatestSpec, BackendMissionService.StartThenSubmitLatest |
| walletpoint-backend/internal/modules/wallet/service.go:212-262,297-331 | `TransferPoints` and `CreditPoints` write transaction and ledger rows but never the wallet balances | a transfer of 10 points leaves both balances unchanged | the balances move by the amount, as the ledger rows record | not executed | WpWalletService.TransferLeavesBalances | WpWalletService.TransferPointsCorrected, WpWalletService.CorrectedTransferMoves, WpWalletService.CreditPointsCorrected, WpWalletService.CorrectedCreditRaises |
| walletpoint-backend/internal/modules/wallet/service.go:219,303 | an empty idempotency key skips the duplicate lookup but is still stored as "" in the unique idempotency_key column | two keyless transfers: the second one's INSERT fails on the unique index, so only one keyless transfer ever succeeds | a missing key stores no key (NULL) | not executed | WpWalletService.EmptyKeyTransferOnlyOnce | WpWalletService.StoredKey, WpWalletService.CorrectedEmptyKeyRepeats |
| backend/internal/modules/product/service.go:180 | the order total is `product.Price * int64(req.Quantity)`, which wraps around in int64 | price 3 and quantity (2^64 - 1) / 3 give a total of -1: a buyer with 0 points passes the balance check and is left at -1 | the exact total, refused when it exceeds the balance | not executed | BackendProductService.OrderTotalAsWritten, BackendProductService.OrderTotalOverflows | BackendProductService.OrderRejections, BackendProductService.OrderEffect |
| walletpoint-backend/internal/modules/marketplace/module.go:313-339 | a balance order debits the buyer and credits no seller | a 50-point order: the buyer loses 50, the sellers gain nothing | the sellers are credited what the buyer pays | not executed | WpMarketplace.BalanceOrderDestroysPoints | WpMarketplace.ChargeCorrected, WpMarketplace.CorrectedChargeConserves |
| walletpoint-backend/internal/modules/mission/module.go:268-287 | joining never increments `current_participants` | a mission with a limit of one admits a second participant | each join raises the count, so the limit holds | not executed | WpMission.FullMissionAdmitsSecond | WpMission.JoinCorrected, WpMission.CorrectedJoinCounts, WpMission.CorrectedSecondJoinRefused |
