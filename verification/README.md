# CSVoyant: a verified model of its protocols

CSVoyant takes the URL of a data file, ingests it into ClickHouse in the background and serves a
dashboard and the rows. This project models the parts of it whose correctness cannot be seen in any
single function, and proves what they promise:

- **The ingestion protocol.** A submission writes a job and an outbox row; relays publish outbox rows
  to a queue; workers run each delivery through a staged pipeline over Postgres and ClickHouse, and
  retry, acknowledge or dead-letter it. `Protocol.dfy` is a step system over all four stores, in which
  every interleaving, failure and crash is a choice of events. `Safety`, `Outbox`, `Quiescence`,
  `Windows`, `Exclusive` and `Isolation` prove its invariants over every run; `Witnesses` shows exactly where it
  promises less. `Stores`, `Intake`, `Relay`, `Worker` and `Consumer` are the code itself, as classes
  and loops over mutable stores, each method proved to be a run of that step system.
- **Refresh-token rotation.** `Tokens` is the server's protocol, `Auth` its handlers, `Session` the
  browser client composed with it.
- **The text that is sent to ClickHouse.** `Sql` reads the printed statements back with a lexer,
  `ColumnTypes` peels and classifies column types, `Stats` matches positional aliases with the reader.
- **Reading back.** `ReadApi` is the dashboard and data endpoints with their paging, `Histogram` the
  client's binning. `Domain` and `Sums` hold shared vocabulary and arithmetic.

`dafny verify dfyconfig.toml` checks everything.

## Assumptions of the model

- A publication ends accepted and confirmed, accepted but reported as an error, or not accepted and
  reported as an error. That a confirmed publication is in the queue is an assumption about the broker:
  `crates/api/src/jobs/publisher.rs:12-23` awaits the publication, but nothing asks the channel for
  publisher confirms.
- A worker that crashes stops; its delivery is requeued only after that. An ack or nack may get lost,
  and then the message stays unacked until it is requeued.
- A database or ClickHouse call that reports an error may still have taken effect. A failing `INSERT`
  leaves any part of the source rows behind. Errors are permanent or retryable at will.
- What ClickHouse infers and reads from one source URL does not change. Nothing expires by TTL.
- The attempt limit is a parameter `n >= 1`; the code's constant is 3 (`crates/shared/src/lib.rs:28`).
- Outbox rows are numbered in `created_at` order. Job identifiers and tokens are never reused, and
  distinct tokens have distinct hashes. One clock serves the database and the handlers.
- Every message in the queue comes from a committed job.
- Some fields only record history and are read by no step: `holders`, `faults`, `origin`, `root`,
  `restarted`, `lineage`, `redeemed`, and the ghost fields `log`, `acks`, `misses`, `losses`, `errors`
  and `failures`, which record what the broker accepted, confirmed, did not confirm and never heard,
  and which calls failed.
- A SQL dialect decides what a backslash before a character means inside quotes: one character, nothing,
  or the two characters themselves. It must read `\\` as a backslash and `\'` as a quote, a backslash
  before a backtick as a backtick or as both characters, and nothing else as a backslash.
- A refresh request the client has given up on may still reach the server at any later time.

## Where the code promises less than its comments

- `crates/worker/src/ingest.rs:68` says that dropping the old table avoids duplicate rows. Two deliveries
  of one message that overlap can leave a ready job with every row twice
  (`Witnesses.OverlapBreaksAgreement`). `Witnesses.AgreementLostIff` gives the exact steps at which the
  stores of a job stop agreeing, the step that makes it ready included. What a caller would have to
  ensure is in `Windows.OrderlyStoresAgree`: that no delivery drops the table while another is between
  its own drop and its `ready` write, or once the job is ready. One delivery at work at a time is
  enough (`Exclusive.StoresAgree`).
- `crates/shared/src/domain.rs:96` forbids leaving `ready`, but no update looks at the status it
  replaces. `Witnesses.ReadyLostIff` gives the exact steps that undo a ready job, and
  `Witnesses.FailingLookupUndoesReady` a run with one delivery at a time that takes one.
  `Exclusive.ReadyStaysReady` proves the promise when lookups succeed and failing writes have no effect.
- `crates/api/src/jobs/relay.rs:4-8` rules out double publishing by several relays. `Safety.NoDoubleClaim`
  proves what it says about claims; `Outbox.PublishedCopies` counts the copies that failures cause.
- A logout that arrives while a refresh is between its two statements revokes a token that is already
  spent and ends nothing (`Tokens.LogoutEndsIff`, `Tokens.LateLogout`).
- `crates/shared/src/clickhouse.rs:79` escapes identifiers against backticks only.
  `Sql.IdentRoundTrip` says for which names that is enough.

## Model

| member | source | states |
|---|---|---|
| Domain.HexInjective | crates/shared/src/domain.rs:148-150 | equal fixed-width hexadecimal renderings come from equal identifiers |
| Domain.TransitionsExact | crates/shared/src/domain.rs:86-102 | the eight transitions of the state machine, and no others |
| Domain.DatasetTableNameParts | crates/shared/src/domain.rs:148-150 | the table name is `u`, the user's 32 hexadecimal digits, `_j` and the job's |
| Domain.DatasetTableNameInjective | crates/shared/src/domain.rs:148-150 | two jobs, or one job id under two users, never get the same table name |
| Safety.StepInv | crates/worker/src/consumer.rs:46-110 | every step of a submitter, relay, worker, broker or fault keeps the invariant: messages belong to jobs and stay under the attempt limit, relay locks are exclusive, ready rows are complete, every unfinished job has something that answers for it |
| Safety.NoJobLost | crates/api/src/jobs/handlers.rs:44-65 | in every reachable state a committed job is ready or failed, or has an unpublished outbox row or a message that is queued, unacked or dead-lettered |
| Safety.ReadyIsComplete | crates/worker/src/ingest.rs:84-106 | a ready job has its table name, row count, schema and dashboard and no error, and its dashboard is still there after any further steps |
| Safety.AttemptsBounded | crates/worker/src/consumer.rs:69-86 | every message the broker was ever handed has fewer attempts than the limit and carries its job's user and source |
| Safety.NoDoubleClaim | crates/api/src/jobs/relay.rs:58-65 | no two open relay transactions hold the same outbox row |
| Outbox.PublishedCopies | crates/api/src/jobs/relay.rs:73-100 | a committed stamp means the broker accepted at least one copy; copies are at most one plus the faults that hit the row, and exactly the faults while it is unpublished and unclaimed |
| Quiescence.StepCost | crates/worker/src/consumer.rs:69-108 | every step that is not a submission or a fault strictly lowers the measure of remaining attempts and phases, and any other raises it by a bounded amount |
| Quiescence.RunsAreBounded | crates/worker/src/consumer.rs:69-108 | a run is no longer than its submissions and faults pay for, so retries are bounded and nothing spins |
| Quiescence.Progress | crates/api/src/jobs/relay.rs:34-51 | whenever something is left to publish, deliver, settle or requeue, some step other than a fault can be taken |
| Quiescence.Drains | crates/api/src/jobs/relay.rs:34-51 | from every state that satisfies the invariant the system drains by itself, without another fault |
| Quiescence.DrainedOutcome | crates/worker/src/consumer.rs:64-109 | a run that only a fault could extend has empty outbox and queue, and each of its jobs is ready, failed or dead-lettered |
| Windows.OrderlyStoresAgree | crates/worker/src/ingest.rs:68-105 | if a delivery of a job drops the table only while no other is between its own drop and its `ready` write and the job is not ready, a ready job's table holds the source rows exactly once and all three stores agree, whatever else overlaps, fails or is delivered again |
| Windows.StepWindows | crates/worker/src/ingest.rs:68-105 | every such step keeps at most one delivery inside that window, with the table and counts it relies on |
| Exclusive.SoloIsOrderly | crates/worker/src/ingest.rs:36-70 | one delivery at work at a time is enough for that: it drops the table only of a job that is not ready |
| Exclusive.StoresAgree | crates/worker/src/ingest.rs:63-105 | with at most one delivery of a job at work at a time (others may be before their lookup or only settling), a ready job's table holds the source rows exactly once, and table size, row count, dashboard count and the column lists all agree, whatever partial loads, retries and crashes came before |
| Exclusive.ReadyStaysReady | crates/worker/src/ingest.rs:36-43 | with one delivery at work at a time, lookups that succeed and failing writes without effect, a ready job's row, dashboard and table never change again, duplicates included |
| Exclusive.WritesFollowTheStateMachine | crates/shared/src/domain.rs:86-102 | under the same conditions each status write after `downloading` is an edge of the state machine; before it a job that is not ready is restarted or failed |
| Isolation.JobsAreIsolated | crates/worker/src/ingest.rs:33-43 | one job's share of any interleaved run is a legal run of that job alone, ending with the same row, dashboard, table and messages |
| Isolation.RunProjects | crates/worker/src/repo.rs:19-61 | the same for runs from any state that satisfies the invariant |
| Isolation.ClaimIsClaim | crates/api/src/jobs/relay.rs:58-65 | the part of a claimed batch that belongs to a job is a claim of that job's outbox |
| Witnesses.ReadyLostIff | crates/worker/src/repo.rs:19-26 | a step makes a ready job not ready if and only if it is a stage or failure write of one of its deliveries that takes effect |
| Witnesses.AgreementLostIff | crates/worker/src/ingest.rs:68-105 | a step makes a job's table, row and dashboard disagree if and only if one of its deliveries drops the table, loads a row or records a wrong count while the job is ready, or makes it ready although table, count or dashboard are not the source's |
| Witnesses.OverlapBreaksAgreement | crates/worker/src/consumer.rs:33-38 | for any source with columns and rows, two overlapping deliveries can make the job ready with every row twice and a wrong row count |
| Witnesses.FailingLookupUndoesReady | crates/worker/src/consumer.rs:98-107 | for any attempt limit, a duplicate whose readiness lookup fails on every attempt turns a ready job into a failed one with only one delivery at work at a time |
| Intake.CreateJob | crates/api/src/jobs/handlers.rs:44-76 | job and outbox row are written together, as one protocol step, or not at all; the submission is accepted exactly if the transaction does not fail |
| Stores.Postgres.ClaimOldest | crates/api/src/jobs/relay.rs:58-65 | the claimed rows are the oldest unpublished and unlocked ones, in order, at most a batch, and are locked |
| Stores.Postgres.CommitTx | crates/api/src/jobs/relay.rs:79-99 | all pending stamps and attempt counts become visible together or not at all, and the locks are gone |
| Stores.Postgres.IsReady | crates/worker/src/repo.rs:9-16 | a lookup that succeeds says whether the job is ready; an unknown job is not |
| Stores.Postgres.SetStatus | crates/worker/src/repo.rs:19-26 | the status is replaced whatever it was, and nothing else changes |
| Stores.Postgres.MarkFailed | crates/worker/src/repo.rs:52-61 | status and reason are replaced whatever they were, and nothing else changes |
| Stores.Postgres.IncrementAttempts | crates/worker/src/repo.rs:64-72 | the attempt counter goes up by one, and nothing else changes |
| Stores.Broker.Publish | crates/api/src/jobs/publisher.rs:7-25 | an accepted publication adds one queued message under a new tag, confirmed or not; any other adds none |
| Stores.Broker.Settle | crates/worker/src/consumer.rs:64-66 | an ack removes the message and a nack dead-letters it, unless it is lost and changes nothing |
| Stores.Postgres.MarkReady | crates/worker/src/repo.rs:29-49 | the whole row after `mark_ready`, taken effect or not |
| Stores.Postgres.StoreDashboard | crates/worker/src/dashboard.rs:185-201 | the dashboard is inserted or replaced |
| Stores.ClickHouse.Load | crates/worker/src/ingest.rs:75-78 | a load appends the source rows, or part of them if it fails, and only to an existing table |
| Relay.Relay.PublishAll | crates/api/src/jobs/relay.rs:72-97 | the loop goes through the whole batch unless a statement fails; it stamps and counts exactly the rows the broker has confirmed and leaves the others for later |
| Relay.Relay.DispatchBatch | crates/api/src/jobs/relay.rs:55-101 | a batch is a run of the protocol: the oldest free rows, at most 50, are claimed; it succeeds exactly if the database reports no error, and then exactly the rows the broker confirmed are stamped and reported and every other one counts an attempt; otherwise it has all of these effects or none |
| Relay.Relay.Drain | crates/api/src/jobs/relay.rs:34-46 | the drain loop ends, and goes idle exactly if the database reports no error; then no free row is left or it has just tried every row of the oldest batch and published none; if the broker confirmed everything, it got every free row exactly once, oldest first |
| Relay.BatchIsPrefix | crates/api/src/jobs/relay.rs:58-65 | a fully published batch is the head of the free rows, and the rest stay free in order |
| Relay.AscendingUnique | crates/api/src/jobs/relay.rs:61-62 | an ordered batch is determined by its rows |
| Relay.SomethingSent | crates/api/src/jobs/relay.rs:37-40 | a batch with a confirmed row leaves strictly fewer rows unpublished |
| Worker.Ingest.CheckReady | crates/worker/src/ingest.rs:36-43 | the job counts as finished exactly if it is ready; the check fails exactly if the lookup does, and is then retryable |
| Worker.Ingest.DescribeSchema | crates/worker/src/ingest.rs:51-60 | success yields the source's columns, of which there is at least one |
| Worker.Ingest.CountTable | crates/worker/src/ingest.rs:80-82 | the count is the size of the job's table |
| Worker.Ingest.MakeDashboard | crates/worker/src/ingest.rs:84-95 | on success the stored dashboard has the given count and columns |
| Worker.Ingest.RunJob | crates/worker/src/ingest.rs:32-109 | the pipeline is a run of the protocol in which only this delivery moves. It leaves a ready job alone; otherwise it succeeds exactly if no call fails and the source has columns, and then row, dashboard and table tell of the source and nothing else changed; if a call fails the error is that call's, retryable if it was a database call |
| Consumer.Handler.RetryLater | crates/worker/src/consumer.rs:69-97 | the attempt is counted unless that fails; the message is acknowledged exactly if its next attempt is confirmed, and otherwise the job fails with the reason and the message is dead-lettered, unless a settlement is lost |
| Consumer.Handler.GiveUp | crates/worker/src/consumer.rs:98-120 | the job is failed with the reason unless that call fails, and the message is dead-lettered unless the nack is lost |
| Consumer.Handler.Handle | crates/worker/src/consumer.rs:46-110 | handling a delivery is a run of the protocol; what happens to stores, job and message follows from which calls failed: success is acknowledged, a retryable failure with attempts left is counted and requeued, anything else fails the job with the reason and dead-letters the message; a message leaves the broker only if the job is ready or its next attempt is queued |
| Tokens.StepInv | crates/api/src/auth/handlers.rs:99-121 | every step keeps at most one live or owed token per lineage, one user per lineage, and spent tokens revoked |
| Tokens.LineageSafe | crates/api/src/auth/handlers.rs:99-121 | under any interleaving a lineage has at most one live or being-minted token, each token is redeemed at most once, and all tokens of a lineage belong to one user |
| Tokens.LogoutEndsIff | crates/api/src/auth/handlers.rs:139-145 | a logout ends the lineage of the token it is shown if and only if that token was live or the lineage was over |
| Tokens.LogoutIsFinal | crates/api/src/auth/handlers.rs:139-145 | a logout that flips a live token ends its lineage for the rest of the run, against refreshes in progress too |
| Tokens.LateLogout | crates/api/src/auth/handlers.rs:102-121 | a reachable state in which a logout leaves the lineage alive |
| Tokens.UnusableForever | crates/api/src/auth/handlers.rs:102-108 | a revoked or expired token never becomes usable again |
| Auth.AuthState.RevokeUsable | crates/api/src/auth/handlers.rs:99-112 | a usable token is revoked and its owner returned; for any other token nothing changes and there is no owner |
| Auth.AuthState.Refresh | crates/api/src/auth/handlers.rs:87-123 | unless a database call fails, a usable token is exchanged for a new one of the same user and lineage and any other is refused; only a usable token is spent, and no other token changes |
| Auth.AuthState.SignOut | crates/api/src/auth/handlers.rs:130-153 | logging out clears the cookie and, unless the database call fails, revokes the presented token; nothing else changes |
| Auth.AuthState.IssueTokens | crates/api/src/auth/handlers.rs:206-235 | a token is handed out exactly if no database call fails, and it is then stored, unrevoked, for the user and lineage it is owed to |
| Auth.AuthState.SignInUser | crates/api/src/auth/handlers.rs:53-81 | a sign-in starts a new lineage, and hands out its token exactly if no database call fails |
| Session.NoRotationRefused | frontend/lib/api.ts:134-172 | with no logout or expiry, no number of concurrent 401s makes a rotation fail, and the cookie is a usable token of the client's lineage whenever no refresh is in flight, unless an answer to a request the server had acted on was lost or an abandoned request was redeemed |
| Session.TwoRequests | frontend/lib/api.ts:166-172 | in any run a call sends at most two requests and waits only for a refresh that is in flight |
| Session.SessionSurvivesIff | frontend/lib/api.ts:116-148 | a session survives a run if and only if no answer was lost after the server had acted on the request and no abandoned request was redeemed; otherwise its cookie is spent |
| Session.LossIsHarmlessIff | frontend/lib/api.ts:116-132 | losing the answer leaves the session healthy if and only if the server had not yet acted on the refresh; the abandoned request can then still do harm |
| Session.LossIsFinal | crates/api/src/auth/handlers.rs:102-114 | after such a loss no later refresh with that cookie is accepted, whatever the server does |
| Session.SecondFlightRefused | frontend/lib/api.ts:136-148 | of two redemptions of one token the second changes nothing and is refused |
| Session.ServerRuns | crates/api/src/auth/handlers.rs:87-123 | what the server sees of a session is a run of the token protocol |
| Session.ApiClient.OnResponse | frontend/lib/api.ts:143-172 | a first 401 makes the call wait and starts a refresh with the current cookie if none is in flight; any other response ends the call and starts none |
| Session.ApiClient.OnRefreshed | frontend/lib/api.ts:116-148 | when the refresh settles every waiting call is replayed if it succeeded and ends if not, no other call changes, and none is in flight |
| Sql.TwoPassesAreOne | crates/shared/src/clickhouse.rs:84-86 | replacing backslashes and then quotes equals escaping character by character |
| Sql.ScanString | crates/shared/src/clickhouse.rs:84-86 | every string, escaped and quoted, reads back as itself |
| Sql.IdentRoundTrip | crates/shared/src/clickhouse.rs:79-81 | an escaped and quoted identifier reads back as itself if and only if it is legible: each backslash in it stands before a character, not a backtick, that the dialect leaves alone |
| Sql.TrailingBackslash | crates/shared/src/clickhouse.rs:79-81 | a name that ends in a backslash is illegible in every dialect |
| Sql.NoBackslashLegible | crates/shared/src/clickhouse.rs:79-81 | names without a backslash are legible in every dialect |
| Sql.LexList | crates/worker/src/ingest.rs:156-160 | a comma-separated list of quoted names reads back as those names in order if and only if all of them are legible |
| Sql.InsertRoundTrip | crates/worker/src/ingest.rs:155-166 | the INSERT statement reads back as the job's table, the exact columns in order and the source URL, for every URL, if and only if every column name is legible |
| Sql.InsertMeaning | crates/worker/src/ingest.rs:155-166 | the identifiers of that statement are the table and the columns, its only string is the URL |
| Sql.FilterRoundTrip | crates/api/src/jobs/handlers.rs:170-181 | the filter clause reads back as the requested column and text, whatever the text contains, if and only if the column name is legible |
| ColumnTypes.UnwrapThrough | crates/worker/src/dashboard.rs:38-48 | any stack of wrappers with any whitespace around its layers comes off any type |
| ColumnTypes.UnwrapExact | crates/worker/src/dashboard.rs:38-48 | a type unwraps to exactly the bare type that it is a stack of wrappers around |
| ColumnTypes.UnwrapIdempotent | crates/worker/src/dashboard.rs:38-48 | unwrapping twice is unwrapping once |
| ColumnTypes.WrappersByName | crates/worker/src/dashboard.rs:38-48 | the two wrappers that come off, by name |
| ColumnTypes.ClassifyExact | crates/worker/src/dashboard.rs:51-67 | under any wrappers a column is numeric exactly if its bare type begins with int, uint, float or decimal in any case, temporal exactly if with date, boolean exactly if it is bool or boolean, and categorical otherwise |
| ColumnTypes.ClassifyThrough | crates/worker/src/dashboard.rs:51-67 | wrapping a type never changes what kind of column it is |
| ColumnTypes.SuggestCharts | crates/worker/src/dashboard.rs:99-111 | the picks are the first temporal, first numeric and first categorical column, in this order, each exactly if there is one |
| Stats.AliasInjective | crates/worker/src/dashboard.rs:73-86 | no two columns and no two aggregates share an alias |
| Stats.BuildStats | crates/worker/src/dashboard.rs:71-89 | the query has exactly the aggregates each column's kind wants, for every column, all under different aliases |
| Stats.AggregateText | crates/worker/src/dashboard.rs:75-87 | the text of each aggregate of each kind of column, as it reads back |
| Stats.StatsRoundTrip | crates/worker/src/dashboard.rs:90-96 | the stats query reads back as its expressions in order over the job's table if and only if every column name is legible |
| Stats.LookupsAgree | crates/worker/src/dashboard.rs:137-153 | column i of the dashboard gets exactly the aggregates emitted for column i, and none its kind does not want |
| ReadApi.DashboardServed | crates/api/src/jobs/handlers.rs:110-132 | whatever happens between its two reads, the handler never answers "not available yet"; it answers with the stored dashboard exactly if the job is the user's own or the user is an admin, and the job was ready; anyone else learns nothing but "not found" |
| ReadApi.TableServed | crates/api/src/jobs/handlers.rs:148-154 | a ready job has the table name of its owner and itself, and its schema names the source's columns in order |
| ReadApi.Offset | crates/api/src/jobs/handlers.rs:156-161 | the offset fits 64 bits for every 32-bit page and size |
| ReadApi.OnOnePage | crates/api/src/jobs/handlers.rs:161-168 | a row is shown by a page if and only if it is the page its index divides to and starts no deeper than the limit |
| ReadApi.PageExists | crates/api/src/jobs/handlers.rs:156-168 | every row that starts no deeper than the limit is on a page that can be asked for |
| ReadApi.PagesInOrder | crates/api/src/jobs/handlers.rs:210-213 | consecutive pages concatenate to a prefix of the listing, without gaps or repeats |
| ReadApi.SplitOnce | crates/api/src/jobs/handlers.rs:171-174 | the filter is split at its first colon, and not at all if it has none |
| ReadApi.FilterExact | crates/api/src/jobs/handlers.rs:171-175 | the filter is on the column before the first colon, which must be one of the dataset's, and for the whole text after it |
| ReadApi.SortExact | crates/api/src/jobs/handlers.rs:189-208 | a sort is on the requested column, ascending without an order or with asc in any case, descending with desc |
| ReadApi.SelectConcat | crates/api/src/jobs/handlers.rs:170-181 | the filter keeps or drops each row by itself and keeps their order |
| ReadApi.GetData | crates/api/src/jobs/handlers.rs:135-241 | which answer each request gets: only the owner and admins learn that the job exists, each error comes if and only if its reason is the first in the handler's order of checks, and a valid request on a readable job always gets its window of the filtered listing, at the page and clamped size it asked for, if ClickHouse answers |
| ReadApi.TotalAgrees | crates/api/src/jobs/handlers.rs:217-233 | with one delivery at work at a time and calm database calls, `total` is the number of rows the pages run through, filtered or not |
| Histogram.IndexCovers | frontend/components/dashboard-charts.tsx:57-61 | the computed index is in bounds, and is the bin that covers the value |
| Histogram.CoveredOnce | frontend/components/dashboard-charts.tsx:57-61 | every value is covered by exactly one bin |
| Histogram.PrefixSums | frontend/components/dashboard-charts.tsx:52-63 | the first n bins together hold exactly the values below edge n |
| Histogram.Histogram | frontend/components/dashboard-charts.tsx:46-63 | no values give no bins, a constant column gives one, anything else gives twelve that reach from the least to the greatest value and each count exactly the values they cover; the counts add up to the number of values |

## Left out

- HTTP, AMQP, SQL and ClickHouse drivers, TLS, telemetry, response envelopes and roles beyond "may see the job".
- The outer loop of the relay, which waits for a nudge or a poll tick between drains (`crates/api/src/jobs/relay.rs:47-50`), and the publish timeout, which is one of the failing outcomes.
- The prefetch limit of the consumer, which only rules out runs, and the sleep before a retry.
- A message that does not parse is acknowledged and dropped (`crates/worker/src/consumer.rs:47-55`); messages of the model always parse.
- URL validation and blocked addresses, Argon2, SHA-256, JWTs, random generation, and reading the user row.
- Schema inference, parsing and TTL in ClickHouse; the synthetic timestamp column is not among a table's columns.
- Turning error text into permanent or retryable, and rewriting it for users.
- `parse_describe`, `parse_json_lines` and `schema_to_json`: wrappers around a JSON parser.
- `build_create_table` and the bar chart query: the same quoting as the INSERT and stats statements; column types are printed unescaped.
- Chart titles, top values and labels; a dashboard is its row count and columns.
- `numbers`, `perDay` and `format` on the client, and rounding: the histogram is over exact finite reals.
- Escapes of more than one character after a backslash, such as hexadecimal ones, in a SQL dialect.
- The access token's value and lifetime, and a client that signs in again or shares its cookie with another one.
- Session.NoRotationRefused: assumes that no other client uses the lineage and that its tokens do not expire; `Session.SessionSurvivesIff` says which lost answers and late requests end a session.
- Exclusive.StoresAgree: assumes that one delivery of the job is at work at a time; `Witnesses.OverlapBreaksAgreement` shows that something must be assumed, `Windows.OrderlyStoresAgree` assumes less, and `Witnesses.AgreementLostIff` is exact for one step.
- Exclusive.ReadyStaysReady: assumes calm database calls as well; `Witnesses.FailingLookupUndoesReady` shows why.
- ReadApi.TotalAgrees: assumes the same, and a ClickHouse that reads a table in one fixed order for each requested order.
