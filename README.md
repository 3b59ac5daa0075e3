# King Charmer streaming analytics backend — verified model

This project models the stateful core of `server.js`, an HTTP backend for a
video platform. The backend:

- records stream, download and view events;
- keeps one running earnings balance per network provider (the Usage
  collection);
- reports global and per-provider analytics;
- gates a withdrawal-request email behind a one-time code mailed to the
  requester.

The document store is modelled as in-memory state in the class
`Server.Backend`:

- the StreamLog, DownloadLog and View collections are sequences of records;
- the Usage collection is a sequence of `{provider, earnings}` documents in
  some order (the sums do not depend on it);
- the process-wide `verificationCodes` object is a map from email to
  `{code, createdAt}`.

Each handler is a method whose contract states the reply and the new state.
The clock reading (`now`, milliseconds) and the outcome of each mail delivery
(`delivered`) are parameters.

Modules:

- `Wrappers`: `Option`, for JSON fields that may be absent.
- `Events`: request bodies and stored records; the validation of each logging
  route and the computation of a stream's `finalEarned`.
- `Ledger`: the Usage documents. It covers the `findOne` lookup, the balance
  route's default of 0, the summary total, and the upsert-increment
  (`findOneAndUpdate` with `$inc` and `upsert`).
- `Analytics`: the provider filters and sums behind `/api/summary` and
  `providerStats`.
- `Codes`: the verification-code store as pure transition functions. It covers
  the withdrawal gate and replay over whole request sequences. It also
  models the gate as written on a plain JavaScript object, for the finding
  below.
- `Server`: the `Backend` class with its invariant and route handlers, plus
  three client scenarios.

The invariant `Backend.Valid` has three parts, and every handler keeps it:

- there is at most one Usage document per provider;
- each provider's balance equals the sum of `earnedNGN` over that provider's
  stream logs;
- the summary total equals the sum of `earnedNGN` over all stream logs.

Modelling choices:

- Amounts, seconds and megabytes are integers in a fixed-point unit.
- The two earning rates (1.8 each in the source, server.js:82-83) are the
  parameter `Rates` of the constructor.
- A string field is "missing" when it is absent or empty, as in the source's
  `!field` test.
- A numeric default (`seconds = 0` and so on) applies only when the field is
  absent.

Two behaviours of the source are worth stating:

- A supplied negative `earnedNGN` lowers the balance (server.js:84, 91); the
  model credits it as is. `Events.ComputedAmountNonNegative` proves that a
  computed amount is non-negative when the rates and the usage figures are.
- Two concurrent withdrawals can both pass line 234 before either one deletes
  the record at line 263; the model is sequential, and its at-most-once
  redemption is for requests handled one after another.

The code is chosen by whoever calls `/api/send-verification-email`
(server.js:199). The lemmas about codes are therefore about the store's
bookkeeping; they do not show that the person withdrawing has read the mail.

## Model

| member | source | states |
|---|---|---|
| Events.Given | server.js:79 | defines the source's `!field` test (also at lines 106, 120 and 200): a string field counts only when present and non-empty; stated by `Events.StreamRecordRules`, `Events.DownloadRecordRules`, `Events.ViewRecordRules` and `Codes.IssueStep` |
| Events.StreamRecord | server.js:78-86 | defines the 400 test and the stored StreamLog; stated by `Events.StreamRecordRules` and `Server.Backend.LogStream` |
| Events.DownloadRecord | server.js:105-108 | defines the 400 test and the stored DownloadLog; stated by `Events.DownloadRecordRules` and `Server.Backend.LogDownload` |
| Events.ViewRecord | server.js:119-122 | defines the 400 test and the stored View document; stated by `Events.ViewRecordRules` and `Server.Backend.LogView` |
| Events.StreamRecordRules | server.js:78-86 | a stream without `videoId` or without `provider` (absent or empty) is rejected whatever else it carries; one with both is stored; absent seconds and megabytes are stored and rated exactly as zeros |
| Events.DownloadRecordRules | server.js:105-108 | a download without `videoId` is rejected; one with it is stored with or without a provider; absent `size` and `ngn` are stored as zeros |
| Events.ViewRecordRules | server.js:119-122 | a view without `videoId` or `provider` is rejected; one with both is stored; absent `dataUsedMB` and `earnedNGN` are stored as zeros |
| Events.FinalEarned | server.js:84 | defines the amount credited: the supplied `earnedNGN` when present, else seconds times the per-second rate plus megabytes times the per-megabyte rate; its properties are the three lemmas below |
| Events.SuppliedAmountWins | server.js:84 | a supplied `earnedNGN` is credited unchanged, whatever the seconds and megabytes |
| Events.ComputedAmountNonNegative | server.js:82-84 | without a supplied amount, non-negative rates and usage give a non-negative `finalEarned` |
| Events.AbsentUsageEarnsNothing | server.js:78-84 | absent seconds and megabytes default to 0, so the computed amount is 0 |
| Ledger.Increment | server.js:89-93 | defines the upsert-increment on the document sequence; what it does is stated by `Ledger.IncrementBalance`, `Ledger.IncrementTotal` and `Ledger.IncrementProviders` |
| Ledger.Balance | server.js:274-275 | defines the reported balance: the found document's earnings, else 0; stated by `Ledger.UnknownProviderHasZeroBalance` and `Ledger.IncrementBalance` |
| Ledger.Total | server.js:137-138 | defines the summary's reduce over all documents; stated by `Ledger.IncrementTotal` |
| Ledger.Find | server.js:274 | `findOne` finds nothing exactly when no document has that provider; otherwise it returns the earnings of a document for it |
| Ledger.UnknownProviderHasZeroBalance | server.js:274-275 | the balance of a provider without a document is 0 |
| Ledger.IncrementBalance | server.js:89-93 | the upsert-increment raises the named provider's balance by the amount, from 0 if it had no document, and leaves every other balance as it was |
| Ledger.IncrementTotal | server.js:89-93 | the upsert-increment raises the sum of all documents' earnings by exactly the amount |
| Ledger.IncrementProviders | server.js:89-93 | the upsert creates a document only for a provider that had none, the set of providers gains exactly that provider, and one document per provider is kept |
| Analytics.StreamsOf | server.js:156 | `find({provider})` on streams keeps exactly the records of that provider, and no more than there are |
| Analytics.DownloadsOf | server.js:157 | `find({provider})` on downloads keeps exactly the records whose provider is that name |
| Analytics.StreamsOfCounts | server.js:156 | every stream record of the provider is kept as many times as the log holds it, and no other record is kept |
| Analytics.DownloadsOfCounts | server.js:157 | every download record of the provider is kept as many times as the log holds it, and no other record is kept |
| Analytics.SumSeconds | server.js:159 | defines the watch-seconds reduce; stated by `Analytics.SumSecondsAppend` |
| Analytics.SumDataMB | server.js:160 | defines the data reduce; stated by `Analytics.SumDataMBAppend` |
| Analytics.SumEarned | server.js:161 | defines the stream-earnings reduce; stated by `Analytics.SumEarnedAppend` |
| Analytics.SumNgn | server.js:162 | defines the download-earnings reduce; stated by `Analytics.SumNgnAppend` |
| Analytics.UserIds | server.js:155 | the distinct user ids are those present on some stream of the provider; there are no more of them than such streams |
| Analytics.ProviderStats | server.js:154-170 | the users are the distinct user ids of the provider's streams (no more than its streams), the watch seconds and data are the sums over its streams, the downloads count its downloads, and the earnings are its stream earnings plus its download earnings |
| Analytics.SummaryOf | server.js:139-144 | defines the summary JSON: the three log counts and the Usage total; stated by `Server.Backend.GetSummary` |
| Analytics.StreamsOfAppend | server.js:86 | appending a stream extends the provider's filtered streams by that record iff it has that provider |
| Analytics.DownloadsOfAppend | server.js:108 | appending a download extends the provider's filtered downloads by that record iff it has that provider |
| Analytics.SumEarnedAppend | server.js:161 | the earnings sum over streams is additive over an appended record |
| Analytics.SumSecondsAppend | server.js:159 | the seconds sum over streams is additive over an appended record |
| Analytics.SumDataMBAppend | server.js:160 | the megabyte sum over streams is additive over an appended record |
| Analytics.SumNgnAppend | server.js:162 | the `ngn` sum over downloads is additive over an appended record |
| Analytics.StreamEarningsAppend | server.js:159-161 | logging a stream adds its `earnedNGN` to its own provider's stream earnings and to no other's |
| Analytics.DownloadEarningsAppend | server.js:161-162 | logging a download adds its `ngn` to its provider's download earnings and to no other's |
| Analytics.UserIdsAppend | server.js:155 | a logged stream adds its user id, when it has one, to its own provider's distinct users and to no other's |
| Analytics.ProviderStatsAfterStream | server.js:154-170 | logging a stream adds its seconds, megabytes and amount to its own provider's entry alone, and adds its user id to that provider's users; download figures stay |
| Analytics.ProviderStatsAfterDownload | server.js:154-170 | logging a download adds one to its provider's download count and its `ngn` to that provider's earnings; every stream figure stays |
| Analytics.NoStreamsNoEarnings | server.js:161 | a provider with no stream logs has stream earnings 0 |
| Codes.Accepts | server.js:233-235 | defines the intended gate: a record exists for the email, the code matches exactly, and at most 600000 ms have elapsed; stated by `Codes.WithdrawStep` and the lemmas below |
| Codes.IssueStep | server.js:199-226 | a missing email or code gives 400 and leaves the store unchanged; otherwise the email's record becomes exactly `{code, now}` and no other email's record changes; the reply is 200 or 500 by delivery |
| Codes.IssueKeepsCodeOnFailedDelivery | server.js:203-226 | the store after issuing is the same whether the mail was delivered or not |
| Codes.WithdrawStep | server.js:233-267 | 400 iff there is no record, the code differs or more than 600000 ms have elapsed; 200 iff it passes and the mail goes out, and then only that email's record is deleted; otherwise the store is unchanged |
| Codes.IssuedCodeWindow | server.js:203-235 | right after an issue, a withdrawal passes iff it supplies that code and at most 600000 ms have elapsed |
| Codes.WindowBoundary | server.js:234 | an elapsed time of exactly 600000 ms passes; 600001 ms fails |
| Codes.ReissueInvalidatesEarlierCode | server.js:203-235 | after re-issuing code c2 for an email, an earlier code c1 different from c2 fails at any time |
| Codes.AtMostOneLiveCode | server.js:203-234 | two codes that both pass for the same email are the same code |
| Codes.NoReplayAfterWithdrawal | server.js:256-264 | after a delivered withdrawal mail the record is gone, so any later withdrawal for that email gives 400 and changes nothing |
| Codes.RetryAfterFailedDelivery | server.js:233-266 | a failed withdrawal mail gives 500 and keeps the record, so a retry inside the window succeeds |
| Codes.ExpiredStaysExpired | server.js:234-235 | once a record has expired, every later withdrawal against it gives 400 and leaves the store unchanged |
| Codes.Key | server.js:233 | defines the property key an email becomes, "undefined" for an absent email; stated by `Codes.AcceptsAsWritten` |
| Codes.LookupAsWritten | server.js:233 | defines the plain-object lookup `verificationCodes[email]`: an own record, an inherited `Object.prototype` member, or undefined; stated by `Codes.AcceptsAsWritten` and `Codes.PrototypeMemberOpensTheGate` |
| Codes.AcceptsAsWritten | server.js:233-234 | the gate as written on a plain object: an own record passes as `Codes.Accepts` does, an inherited `Object.prototype` member passes exactly when no code is sent, and nothing else passes |
| Codes.WithdrawStepAsWritten | server.js:233-267 | the withdrawal route as written, using `Codes.AcceptsAsWritten`; deleting an inherited member leaves the store unchanged |
| Codes.PrototypeMemberOpensTheGate | server.js:233-263 | with no code ever issued, a withdrawal for the email "constructor" that sends no code is mailed and can be replayed, while `Codes.WithdrawStep` refuses it |
| Codes.AsWrittenAgreesOffPrototype | server.js:233-267 | for an email that names no inherited member, the as-written gate and route are exactly the intended ones |
| Codes.NoWithdrawalWithoutIssue | server.js:233-263 | over any sequence of requests with no successful issue (email and code both given) for an email that has no record, every withdrawal for it gives 400 and it still has no record |
| Codes.AtMostOneRedemption | server.js:233-263 | after a delivered withdrawal, no later withdrawal for that email succeeds until a code is issued again; an issue request rejected for a missing code does not count as one |
| Server.Backend.Valid | server.js:86-93 | the ledger invariant: one Usage document per provider, each balance equal to that provider's stream earnings, and the total equal to all stream earnings |
| Server.Backend.constructor | server.js:59-66 | the logs, the Usage collection and the code store start empty, and the ledger invariant holds |
| Server.Backend.LogStream | server.js:76-100 | 400 and no change when `videoId` or `provider` is missing; otherwise exactly one record is appended, the reply carries `finalEarned`, that provider's balance grows by it and the others stay; the ledger invariant is kept |
| Server.Backend.LogDownload | server.js:103-114 | 400 iff `videoId` is missing; otherwise exactly one record is appended; the ledger and stream logs never change |
| Server.Backend.LogView | server.js:117-128 | 400 iff `videoId` or `provider` is missing; otherwise exactly one record is appended; the ledger and stream logs never change |
| Server.Backend.GetSummary | server.js:131-148 | the counts are the log lengths; the earnings are the sum over the Usage documents, and they equal the sum of `earnedNGN` over all stream logs |
| Server.Backend.GetAnalytics | server.js:151-185 | the five entries are the stats of the hard-coded providers, and every provider's analytics earnings equal its ledger balance plus its download earnings |
| Server.Backend.ProviderBalance | server.js:271-279 | the balance reported equals the provider's stream earnings, and is 0 for a provider with no streams |
| Server.Backend.SendVerificationEmail | server.js:198-227 | the reply and the new code store are those of `Codes.IssueStep` |
| Server.Backend.SendWithdrawEmail | server.js:230-268 | the reply and the new code store are those of `Codes.WithdrawStep`; for every email that names no `Object.prototype` member they are also those of the route as written, `Codes.WithdrawStepAsWritten` |
| Server.StreamScenario | server.js:84-95 | 100 s and 10 MB at rates 10 and 5 earn 1050, which becomes MTN's balance |
| Server.CodeScenario | server.js:203-263 | issuing then redeeming at once sends the withdrawal and clears the record; an immediate replay gives 400 |
| Server.UnissuedCodeScenario | server.js:233-235 | a withdrawal for an email that never received a code gives 400 |

## Left out

- Express routing, CORS, JSON parsing, configuration loading, the database connection and server start-up (server.js:1-16, 282-283) are framework plumbing.
- Server.Backend.constructor: the model starts from an empty database. In the source the collections are persistent (server.js:59-63) and only `verificationCodes` starts empty with each process (server.js:66); restarts (which keep every collection and drop pending codes, so a retry after a restart fails) and pre-existing documents are not modelled. Records carry no `timestamp` or `_id` (server.js:27, 36, 49), so two identical requests store equal records.
- Failures of the document store: the 500 replies from the catch blocks are not modelled. A stream log whose ledger update fails after the record was stored (a partial write) is therefore not captured either.
- Mail transport, the sender and recipient addresses and the HTML and text bodies are left out. Each delivery is the boolean `delivered`.
- The withdrawal request's `provider`, bank details, `amount`, `currentBalance`, `phone` and `companyEmail` are used only to address and fill the withdrawal mail (server.js:237-261). The source never checks them against the ledger, so the model does not carry them.
- Floating point: the rates 1.8 are replaced by integer rates in a fixed-point unit. The `hours` field, `(watchSeconds / 3600).toFixed(2)`, is left out; `Stats.watchSeconds` carries the raw sum instead.
- The `|| 0` guards in the folds matter only for stored values that are not numbers. Every stored amount here is an integer, so they are not modelled.
- Concurrency: the await between the code check and the delete, and the `Promise.all` over the five providers, are left out. All guarantees are for requests handled one at a time.
- Video listing (`/api/videos`, sorted by the database) and the home route are left out: catalog reads unrelated to accounting.
- Server.Backend.SendWithdrawEmail: it uses the intended gate, so it refuses a withdrawal for an email naming an `Object.prototype` member (such as "constructor", with no code) that the source mails; its contract matches the source only off those names.
- Codes.WithdrawStep: its guarantees, and those of the lemmas built on it, hold for emails that do not name an `Object.prototype` member. The store in the source is a plain object (server.js:66), so such a name finds an inherited member; this is the finding below, modelled by `Codes.WithdrawStepAsWritten`. `Codes.AsWrittenAgreesOffPrototype` proves the two agree off those names.
- Codes.IssueStep: issuing a code for the email "__proto__" in the source replaces the store's prototype instead of storing a record (server.js:203), and the later delete does not remove it. The model stores an ordinary record for that key.
- JavaScript key coercion in the intended model is left out. With `email` absent, the source looks up the key "undefined"; `Codes.WithdrawStep` treats that as having no record, while `Codes.Key` gives the as-written key. Type coercion of non-string codes or ids is not modelled.
- The way Mongo's `distinct` treats explicit `null` or array-valued user ids is left out. Only present string ids are counted.
- Expired records are never swept, as in the source. The map can keep them until the email is issued a new code.

## Findings

| source | as written | input that shows it | evidently intended | confidence | as-written member | corrected member |
|---|---|---|---|---|---|---|
| server.js:233-235 | `verificationCodes[email]` also finds members inherited from `Object.prototype`; for one, `record.code` is undefined and the age is NaN, so the test passes, and the delete at line 263 removes nothing | a withdrawal with email "constructor" and no code, when no code was ever issued: the mail is sent, and again on every replay | only an email holding an issued, matching, unexpired code passes, once | not executed | Codes.PrototypeMemberOpensTheGate | Codes.WithdrawStep |
