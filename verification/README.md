# QuantPilot kernels

This project models the stateful kernels of QuantPilot and proves what they are for.

- **Snapshot builder** (`Snapshot*.dfy`, `Pacer.dfy`). A resumable build of all-A-share data: hashed partitions,
  a manifest, reuse of valid partitions, a filter to the point-in-time equity universe, sharded name history, local
  validation with demotion of optional datasets, and paced, retried fetches. `SnapshotModel` says what one attempt
  does as functions on values and `SnapshotValidator` what the validator objects to; `SnapshotBuild` is the builder
  as an object whose methods are proved equal to both. `SnapshotResume`, `SnapshotOptional`, `SnapshotRecovery`,
  `SnapshotStatus` and `SnapshotEquivalence` compare builds on sound directories; `SnapshotFrames` shows what a build
  does not depend on, so that `SnapshotHistory` states crash/resume equivalence over all histories; `SnapshotRerun` and
  `SnapshotPoison` show where it ends; `SnapshotValidate`, `SnapshotNames` and `SnapshotClaims` show what the validator
  cannot object to. `SnapshotMeaning`, `SnapshotKinds`, `SnapshotSteps` and `SnapshotPass` say what keys, listing, kinds,
  lookups, reuse and validation mean in terms of the texts of the rows, and `SnapshotListing` which provider rows a build
  stores, after any history.
- **A-share ledger** (`Lots.dfy`, `Execution*.dfy`) and **manual fills** (`Manual*.dfy`). Cash, positions, average
  costs, first-in-first-out settlement lots and seen order ids. A lot list is understood as a timeline of single
  shares, of which a sale drops the first ones. `ExecutionRounding` says what rounding does to the cash reserve;
  `ExecutionMeaning` and `ManualMeaning` say of every order whether it is accepted, why not, and what it moves, in terms
  of its own numbers and the market row.
- **QMT exporter** (`Exporter*.dfy`). Callbacks of one process as an object over a shared bridge, and a world of any
  number of processes whose events interleave in any order. `ExporterWakeUps` says when a callback starts a cycle and
  what cycles, initialization and stops leave.
- **Reporting stores** (`Store*.dfy`, `DailyFacts.dfy`). A store of dictionaries and a relational store, both refining
  one append-only, first-write-wins, all-or-nothing map. `StoreMeaning` says which bundles agree with what is stored and
  what an accepted one leaves, row by row.
- **Shadow runner** (`Shadow*.dfy`). Call and cost budgets, a persistent cache, and progress over runs.
- **Plan executor** (`Orchestrator*.dfy`). Nested references, dispatch, and spreading of failure.
- **Point-in-time sessions** (`Sessions.dfy`, `Labels.dfy`, `Matching.dfy`). Availability times, reference sessions,
  compounded returns, and matching of assessments.

`Outcomes`, `Texts`, `Rounding` and `MapSums` hold options and results, Python's text order, rounding to decimals, and
sums over maps.

Reading the model: where the source updates state in a loop or an object, a method does the same and is proved equal
to a function on values, and the results are proved about that function. The modules of what these functions mean
describe them from outside, in terms of inputs, stored rows and moved amounts. SHA-256 is injective (snapshot) or an
arbitrary function of the content (stores). Answers of providers, registries and advisory agents, clock readings, and
which requests fail are parameters. Amounts are integers in units of 0.0001 for manual fills and reals elsewhere,
rounded to six or ten decimals where the source rounds them. Dates are integers or texts in their order.

Where the code does less than one might expect, the model follows the code and says exactly when:

- A resumed digest differs from the clean one when a failed shard's time stamp is in it, or when no day with an absent
  symbol is fetched again and local validation demotes a dataset (`CrashResumeEquivalence`, `RerunDiffers`).
- A saved lookup error never heals, and its text is in the digest (`WrongResolutionPoisonsDigest`).
- The cash reserve of a buy misses what rounding up the fill price adds, and up to two micro-units of fees, which is
  enough to stop a call (`ReserveCoversIff`, `NeverStopsIff`, `RaisedFillsStop`).
- A manual sale at zero average cost books no profit (`SaleKeepsIdentityIff`).
- The two stores judge a fact table without rows, and rows without an index, differently (`StoresAcceptIff`).
- A foreign ingestion calendar can jump over a session (`ShiftingRefinesIff`).
- A `stop` inside a cycle repeats a sequence number (`StopSafeIff`, `StopInsideCycleRepeatsNumbers`).
- A negative retry limit makes no call (`Fetch`).

`dafny verify dfyconfig.toml` checks the whole project.

## Model

| member | source | states |
|---|---|---|
| SnapshotHistory.CrashResumeEquivalence | src/quantpilot_core/all_a_share_snapshot/snapshot.py:315-471 | After every finite history of attempts, whatever fetches and lookups failed in them and wherever they died: the final digest of one undisturbed build is that of a clean build if and only if (1) the saved manifest records about historical codes only what a clean build would, error texts included, (2) the clocks agree wherever a shard stays unavailable, and (3) the build fetches a day with an absent symbol, if there is one, or the validator names no optional dataset that is not incomplete already. Under (1) outcome, partition entries and files are the clean ones, and the final status is the clean one if and only if it fetches such a day, if there is one, or the validator names no optional dataset |
| SnapshotHistory.HistoryTrimmed | src/quantpilot_core/all_a_share_snapshot/snapshot.py:103-113 | Over every history whose saved resolutions are right, the files that the saved manifest offers hold their final content and it lists a plan prefix; attempts that recorded something else can only have died unsaved |
| SnapshotFrames.DraftKeeps | src/quantpilot_core/all_a_share_snapshot/snapshot.py:91-113 | No attempt, whatever fails in it, changes a file that the previous manifest offers for reuse |
| SnapshotFrames.DraftMoves | src/quantpilot_core/all_a_share_snapshot/snapshot.py:322-460 | A build writes the same manifest, and the same files for what it lists, whatever unlisted files lie in the directory |
| SnapshotFrames.DraftSame | src/quantpilot_core/all_a_share_snapshot/snapshot.py:266-295 | An attempt that ends with right resolutions does what it would do without the failing lookups that would record something else |
| SnapshotEquivalence.BuildsAlike | src/quantpilot_core/all_a_share_snapshot/snapshot.py:315-471 | The same for a build on any sound directory against a build that has no manifest to resume from |
| SnapshotEquivalence.StatusByEntry | src/quantpilot_core/all_a_share_snapshot/snapshot.py:359-375 | Before local validation a build is completed if and only if it ran through and every listed day whose audit counts an absent symbol was already listed by the manifest it resumed |
| SnapshotStatus.DraftStatus | src/quantpilot_core/all_a_share_snapshot/snapshot.py:451-454 | The same in terms of the provider: completed exactly when no session that is fetched holds a symbol absent from the stock master |
| SnapshotRerun.RerunChangesDigest | src/quantpilot_core/all_a_share_snapshot/snapshot.py:461-471 | If a clean build lists a day with an absent symbol and its validation names an optional dataset that is not incomplete yet, running it twice gives another digest than running it once, whatever the clocks |
| SnapshotRerun.GapChangesDigest | src/quantpilot_core/all_a_share_snapshot/snapshot.py:461-471 | The same from provider data alone: an absent symbol on some day, and price limits that miss a kept daily symbol on some session |
| SnapshotRerun.RerunDiffers | src/quantpilot_core/all_a_share_snapshot/snapshot.py:359-375 | A concrete provider for which this happens, with every request answered and equal clocks |
| SnapshotValidator.ValidateSnapshot | src/quantpilot_core/all_a_share_snapshot/snapshot.py:480-581 | The validator's loops report exactly the complaints that hold of manifest and files: per partition, presence, universe and coverage, ranges, capabilities, name history, unexplained symbols, resolutions, and status |
| SnapshotValidator.NamedIn | src/quantpilot_core/all_a_share_snapshot/snapshot.py:463 | The optional datasets that the complaints name |
| SnapshotRecovery.HistorySound | src/quantpilot_core/all_a_share_snapshot/snapshot.py:103-113 | Whatever the history, every file it left holds its final content and the saved manifest lists a prefix of the required plan (or all of it plus optional partitions) |
| SnapshotRecovery.DraftsAlike | src/quantpilot_core/all_a_share_snapshot/snapshot.py:315-460 | Before local validation, undisturbed builds on two arbitrary sound directories agree on everything the digest covers except failure time stamps |
| SnapshotRecovery.DigestsByStamps | src/quantpilot_core/all_a_share_snapshot/storage.py:10-27 | Alike manifests have equal digests exactly when the stamps of their failed shards agree |
| SnapshotRecovery.BuildLeaves | src/quantpilot_core/all_a_share_snapshot/snapshot.py:315-471 | Every attempt, failed or not, leaves a directory from which the next can resume |
| SnapshotPoison.ResolutionsAreFinal | src/quantpilot_core/all_a_share_snapshot/snapshot.py:266-270 | A historical-code decision in a saved manifest, failures and their texts included, is repeated by every later build |
| SnapshotPoison.WrongResolutionPoisonsDigest | src/quantpilot_core/all_a_share_snapshot/snapshot.py:266-295 | A saved resolution that a clean build would not record keeps the digest of every later build away from the clean one, whatever fails and wherever either build stops |
| SnapshotResume.ReuseAccepted | src/quantpilot_core/all_a_share_snapshot/snapshot.py:91-113 | Over a sound directory the reuse check accepts an old entry if and only if there is one |
| SnapshotResume.RequiredStepLeads | src/quantpilot_core/all_a_share_snapshot/snapshot.py:359-375 | A required step resumes, writes the partition with its final content, or stops the build there, and keeps the run on the plan |
| SnapshotResume.RequiredEnds | src/quantpilot_core/all_a_share_snapshot/snapshot.py:325-389 | The required part ends on the plan: complete, or stopped at a known position |
| SnapshotResume.LookupsRight | src/quantpilot_core/all_a_share_snapshot/snapshot.py:364-366 | Lookups that do not fail only add the resolutions a clean build would make |
| SnapshotResume.DailyFilter | src/quantpilot_core/all_a_share_snapshot/snapshot.py:297-312 | A day's own lookups fix its filter: resolutions of other days change neither its rows nor its audit |
| SnapshotOptional.OptionalStepTries | src/quantpilot_core/all_a_share_snapshot/snapshot.py:393-407 | An optional partition is reused, written with its final content, or noted as failed; none of these disturbs the others |
| SnapshotOptional.ShardStepTries | src/quantpilot_core/all_a_share_snapshot/snapshot.py:420-436 | The same for one shard of the name history |
| SnapshotOptional.RecordsIfAnswered | src/quantpilot_core/all_a_share_snapshot/snapshot.py:425-430 | A shard that is stored although other fetches of the attempt fail has the rows of a clean run |
| SnapshotOptional.NamesAlike | src/quantpilot_core/all_a_share_snapshot/snapshot.py:416-450 | Two undisturbed runs of the name-history phase over different directories agree |
| SnapshotBuild.Builder.BuildSnapshot | src/quantpilot_core/all_a_share_snapshot/snapshot.py:315-471 | The build as an object that updates files and manifest, local validation and demotion included, leaves exactly the state of the specification |
| SnapshotBuild.Builder.WriteDraft | src/quantpilot_core/all_a_share_snapshot/snapshot.py:315-460 | The same up to the manifest that is written before local validation |
| SnapshotBuild.Builder.RequiredPhases | src/quantpilot_core/all_a_share_snapshot/snapshot.py:325-389 | Stock master, calendar, days and benchmark, ended by the first exception |
| SnapshotBuild.Builder.ResolveHistoricalCode | src/quantpilot_core/all_a_share_snapshot/snapshot.py:266-295 | A code already decided stays decided; an external code costs no call; otherwise the name history decides |
| SnapshotBuild.Builder.DayPartitions | src/quantpilot_core/all_a_share_snapshot/snapshot.py:359-375 | Daily bars and factors of every session, in order |
| SnapshotBuild.Builder.OptionalMarketDataset | src/quantpilot_core/all_a_share_snapshot/snapshot.py:391-414 | All sessions of one optional dataset and the capability they earn |
| SnapshotBuild.Builder.CollectRecords | src/quantpilot_core/all_a_share_snapshot/snapshot.py:425-429 | The name histories of a shard's symbols, unless one fetch fails or hits the response cap |
| SnapshotBuild.Builder.NameHistory | src/quantpilot_core/all_a_share_snapshot/snapshot.py:416-450 | Planning, all shards, combination |
| SnapshotRows.Deduplicate | src/quantpilot_core/all_a_share_snapshot/snapshot.py:224-235 | The de-duplication loop computes its specification |
| SnapshotRows.DedupMeaning | src/quantpilot_core/all_a_share_snapshot/snapshot.py:224-235 | De-duplication succeeds exactly on tables without null keys and, outside the name history, without repeats; the result has one row per business key and invents none |
| SnapshotRows.ResolvedInMaster | src/quantpilot_core/all_a_share_snapshot/snapshot.py:280-295 | A resolved code names a row of the stock master |
| SnapshotRows.FilterEquityUniverse | src/quantpilot_core/all_a_share_snapshot/snapshot.py:297-312 | The filter loop computes its specification, audit included |
| SnapshotRows.FilteredMeaning | src/quantpilot_core/all_a_share_snapshot/snapshot.py:297-312 | Each provider row is kept with its multiplicity or dropped entirely |
| SnapshotRows.AuditBalances | src/quantpilot_core/all_a_share_snapshot/snapshot.py:297-312 | Rows kept plus equities outside the point-in-time universe equal equities plus aliases |
| SnapshotRows.FilterReadsRowCodesOnly | src/quantpilot_core/all_a_share_snapshot/snapshot.py:297-312 | Only the resolutions of codes in the table matter |
| SnapshotClaims.BuilderSatisfiesValidator | src/quantpilot_core/all_a_share_snapshot/snapshot.py:527-540 | After any history, in what a build wrote that ran through and recorded right resolutions the validator has no complaint that a market partition holds a symbol outside the stock master, nor that a session holds a daily symbol outside its point-in-time universe |
| SnapshotValidate.KeptKnown | src/quantpilot_core/all_a_share_snapshot/snapshot.py:266-312 | Rows the filter keeps are known to the validator under the resolutions in force |
| SnapshotNames.ShardsPartition | src/quantpilot_core/all_a_share_snapshot/snapshot.py:417 | Joined in order the shards give back the symbols; every shard but the last is full and none is empty |
| SnapshotClaims.CompletedShardsGiveNames | src/quantpilot_core/all_a_share_snapshot/snapshot.py:416-450 | After any history, whatever attempts stored the shards and in whatever order, a build that records right resolutions and whose required part goes through runs to its end; the name history is available if and only if it is wanted and every shard was listed before or is answered now, and then it has one combined row per business key of the shards and draws no complaint |
| SnapshotNames.CombineNeverStops | src/quantpilot_core/all_a_share_snapshot/snapshot.py:441-446 | Combining stored shards never raises, whatever rows the registry answered |
| SnapshotNames.NamesComplete | src/quantpilot_core/all_a_share_snapshot/snapshot.py:416-450 | The name-history phase lists a shard exactly if it was stored before or is answered now, and is available exactly if all are listed |
| SnapshotNames.ConsistentIsFine | src/quantpilot_core/all_a_share_snapshot/snapshot.py:560-575 | A name history with matching counts and one row per business key draws no complaint from the validator |
| SnapshotNames.CombinedRows | src/quantpilot_core/all_a_share_snapshot/snapshot.py:441-445 | The combined table has exactly one row per business key of the shards |
| Texts.SortedSet | src/quantpilot_core/all_a_share_snapshot/pit.py:10-11 | Sorting a set of texts lists each member once |
| Texts.SortSorted | src/quantpilot_core/all_a_share_snapshot/snapshot.py:354 | Sorting yields ascending texts in Python's order |
| Texts.LeMeans | src/quantpilot_core/all_a_share_snapshot/pit.py:8 | The order of texts: a prefix first, else the first differing character decides |
| Texts.SortedSetSorted | src/quantpilot_core/all_a_share_snapshot/snapshot.py:365 | A sorted set is ascending |
| SnapshotListing.StoredIffOnMarket | src/quantpilot_core/all_a_share_snapshot/pit.py:5-8 | No look-ahead, no survivorship: after any history, in a build that ran through with right resolutions, a row the provider gave for a listed market partition, with the code of a stock of the master, is stored as often as it was given exactly from that stock's list date through its delist date, and otherwise not at all; stated on the rows' own dates |
| SnapshotListing.StoredIfResolved | src/quantpilot_core/all_a_share_snapshot/snapshot.py:364-375 | A daily row whose code the master does not have is stored exactly if the manifest resolves the code to a stock that was on the market that day |
| SnapshotListing.StoredRowsAreGiven | src/quantpilot_core/all_a_share_snapshot/snapshot.py:363-375 | Every row of a listed market partition was given by the provider for that day, bears its date, has its key fields, and is the only one of its record; of an optional dataset that is listed, all rows given that day are sound |
| SnapshotListing.FreshMarketIff | src/quantpilot_core/all_a_share_snapshot/snapshot.py:363-404 | When what the provider answers for a day can be stored: an optional answer is sound as a whole, a required one leaves some row, and the rows kept are sound and of the day; then exactly these are stored |
| SnapshotListing.OpenDatesAreStored | src/quantpilot_core/all_a_share_snapshot/snapshot.py:344-388 | A build that ran through rests on a calendar that covers the range asked for, a benchmark row of every open date, and stored bars and factors of every open date |
| SnapshotListing.ResolvesUnknownCodes | src/quantpilot_core/all_a_share_snapshot/snapshot.py:364-366 | The manifest resolves exactly the codes of daily rows of open dates that the master does not have, funds and bonds as external, any other as its name history decides |
| SnapshotListing.CleanRunsThrough | src/quantpilot_core/all_a_share_snapshot/snapshot.py:315-471 | A first build in which nothing fails satisfies the hypotheses of these |
| SnapshotMeaning.ListedDays | src/quantpilot_core/all_a_share_snapshot/pit.py:5-8 | A stock is listed from its list date through its delist date if it has one; never without a list date |
| SnapshotMeaning.ListedFromListDate | src/quantpilot_core/all_a_share_snapshot/pit.py:5-8 | So it is listed on its list date and every later day, on no earlier one, and on no day after its delist date |
| SnapshotListing.PitIs | src/quantpilot_core/all_a_share_snapshot/pit.py:10-11 | A code is in the universe of a day exactly if some stock of the master has it and is on the market that day |
| SnapshotMeaning.NullIffNotKeyed | src/quantpilot_core/all_a_share_snapshot/snapshot.py:226-229 | Which fields a row of each dataset must carry |
| SnapshotMeaning.SameKeyIff | src/quantpilot_core/all_a_share_snapshot/snapshot.py:230 | Which fields tell two rows of a dataset apart; a field that is absent differs from every text |
| SnapshotMeaning.NoIssueIff | src/quantpilot_core/all_a_share_snapshot/snapshot.py:238-244 | A partition is stored without complaint exactly if every row has its key fields, no two are of one record (name history aside), and all bear its date |
| SnapshotMeaning.DedupStores | src/quantpilot_core/all_a_share_snapshot/snapshot.py:224-235 | De-duplication refuses what may not be stored, leaves such a table as it is, and of a name history keeps one row of every record |
| SnapshotMeaning.FirstsStay | src/quantpilot_core/all_a_share_snapshot/snapshot.py:231-234 | The kept rows are the first of their records, in the order of the table |
| SnapshotMeaning.SessionsAre | src/quantpilot_core/all_a_share_snapshot/snapshot.py:354 | The sessions are the open dates of the calendar, ascending |
| SnapshotMeaning.CoversIff | src/quantpilot_core/all_a_share_snapshot/snapshot.py:215-217 | A calendar covers a range exactly with a date at or before its start, one at or after its end, and an exchange named |
| SnapshotKinds.KindIs | src/quantpilot_core/all_a_share_snapshot/snapshot.py:247-256 | The kind of a row from its upper-case code: a stock of the master, or, by exchange and leading digits, fund, listed open fund, convertible bond, other, unknown |
| SnapshotKinds.ExternalIs | src/quantpilot_core/all_a_share_snapshot/snapshot.py:259-263 | Which codes count as funds or bonds and are never looked up |
| SnapshotKinds.MatchIff | src/quantpilot_core/all_a_share_snapshot/snapshot.py:283-284 | A stock matches a historical code exactly if it has the code's exchange suffix, a name of the history, and the history's earliest start date as its list date |
| SnapshotKinds.ResolutionMeans | src/quantpilot_core/all_a_share_snapshot/snapshot.py:279-288 | A lookup below the response cap resolves a code exactly when one row of the master matches, to the code of that row; otherwise it tells how many did |
| SnapshotKinds.KeptIff | src/quantpilot_core/all_a_share_snapshot/snapshot.py:300-311 | A row is kept exactly for a listed stock of the master, or for a historical code that resolves to a listed one |
| SnapshotKinds.ClassIs | src/quantpilot_core/all_a_share_snapshot/snapshot.py:301-307 | What a row counts as: an alias first; in a required dataset anything else outside the master is absent from it; otherwise its own kind |
| SnapshotKinds.FilterInOrder | src/quantpilot_core/all_a_share_snapshot/snapshot.py:300-311 | The filter goes through the rows in order |
| SnapshotKinds.AuditCounts | src/quantpilot_core/all_a_share_snapshot/snapshot.py:308-312 | The audit counts the rows of every kind and the stocks dropped as not listed, and names the first twenty codes of absent and unknown ones |
| SnapshotSteps.ReusedIffTrusted | src/quantpilot_core/all_a_share_snapshot/snapshot.py:91-113 | For any directory: a required partition is taken over exactly if its file has the very content, row count and columns recorded, and, for calendar and benchmark, still covers what is asked; no file is touched then |
| SnapshotSteps.OptionalReusedIffTrusted | src/quantpilot_core/all_a_share_snapshot/snapshot.py:395-423 | The same for optional partitions and shards |
| SnapshotSteps.ChangedIsFetched | src/quantpilot_core/all_a_share_snapshot/snapshot.py:91-113 | A file changed after it was recorded is not trusted; if the fetch succeeds, file and entry are those of the fetched rows |
| SnapshotSteps.LastIsOffered | src/quantpilot_core/all_a_share_snapshot/snapshot.py:322 | Of the entries listed under one key the last is offered for reuse, and nothing that is not listed |
| SnapshotSteps.CapabilityEarned | src/quantpilot_core/all_a_share_snapshot/snapshot.py:408-414 | An optional dataset is available exactly if none of its sessions was noted as failed and each is listed, and unavailable exactly if nothing of it is listed |
| SnapshotSteps.AbsentNoted | src/quantpilot_core/all_a_share_snapshot/snapshot.py:368-372 | A fetched day with codes that count as absent from the master is noted as a required failure with the first twenty of them; any other day is not noted |
| SnapshotSteps.PlannedShards | src/quantpilot_core/all_a_share_snapshot/snapshot.py:416-417 | The shards hold, in order, the codes of the stocks listed by the end of the range, in shards of the configured size, of one if that is not positive |
| SnapshotSteps.RecordsAre | src/quantpilot_core/all_a_share_snapshot/snapshot.py:425-429 | A shard's records are the histories of its codes one after the other; one failed call or one answer at the response cap fails the shard |
| SnapshotSteps.CompletedCount | src/quantpilot_core/all_a_share_snapshot/snapshot.py:439 | The counted symbols are those of the listed shards |
| SnapshotPass.PassesIff | src/quantpilot_core/all_a_share_snapshot/snapshot.py:480-581 | The validation complains of nothing exactly if the stored rows are in order, part by part as below, and a manifest that calls itself completed has no required failure |
| SnapshotPass.PartitionsPass | src/quantpilot_core/all_a_share_snapshot/snapshot.py:486-513 | No complaint about partitions: each listed once, on disk as recorded, with key fields, of different records, and of its date; optional ones only where available |
| SnapshotPass.PresencePasses | src/quantpilot_core/all_a_share_snapshot/snapshot.py:514-526 | None about presence: every required dataset listed, every session with bars and factors on disk |
| SnapshotPass.UniversePasses | src/quantpilot_core/all_a_share_snapshot/snapshot.py:527-545 | None about the universe: every row of the master or resolved to it, every daily row of a stock on the market that day or resolved to one, and every daily code covered by factors and available figures and limits |
| SnapshotPass.RangePasses | src/quantpilot_core/all_a_share_snapshot/snapshot.py:546-554 | None about ranges: the benchmark covers the sessions, which lie in the range asked for and agree with the manifest's calendar |
| SnapshotPass.CapabilityPasses | src/quantpilot_core/all_a_share_snapshot/snapshot.py:555-561 | None about capabilities: what is called available is listed, for every session |
| SnapshotPass.NamesPasses | src/quantpilot_core/all_a_share_snapshot/snapshot.py:562-575 | None about names: planned and completed counts agree, and the combined table has one row of every record of the shards and no other |
| SnapshotPass.LedgerPasses | src/quantpilot_core/all_a_share_snapshot/snapshot.py:576-579 | None about codes: no daily code absent from the master or unknown, every resolution to a code of the master |
| SnapshotPass.DemotionMeans | src/quantpilot_core/all_a_share_snapshot/snapshot.py:461-469 | A completed manifest that does not pass: exactly the optional datasets at fault become incomplete with notes that are not required, or, if none is at fault, the build is not completed and a required note says so; any other manifest is kept as it is |
| Pacer.RateBound | src/quantpilot_core/all_a_share_snapshot/snapshot.py:142-155 | In any window of some length an endpoint starts at most floor(length / interval) + 1 calls |
| Pacer.DefaultQuota | src/quantpilot_core/all_a_share_snapshot/contracts.py:36-37 | At the default 0.35 s no minute sees more than 172 calls of an endpoint, under the documented 200 |
| Pacer.CallPacer.Wait | src/quantpilot_core/all_a_share_snapshot/snapshot.py:149-155 | A call starts no sooner than the interval after the endpoint's previous one, and is delayed no longer than that; spacing of all calls is kept |
| Pacer.Fetch | src/quantpilot_core/all_a_share_snapshot/snapshot.py:166-182 | At most max_retries + 1 calls, all paced, none after the one that settles the fetch; the first non-retryable response decides the outcome, and a negative limit makes no call at all |
| Pacer.DelaysGrow | src/quantpilot_core/all_a_share_snapshot/snapshot.py:174-181 | Whatever the jitter draws: without a rate limit a pause is at most 5 s plus the jitter bound and shorter than the one before by at most that bound; after a rate limit it is at least the cooldown |
| Pacer.DelayIs | src/quantpilot_core/all_a_share_snapshot/snapshot.py:177-181 | The pause doubles with every attempt up to five seconds, is at least the cooldown after a rate limit, and adds what the jitter draws |
| Pacer.OutcomeIs | src/quantpilot_core/all_a_share_snapshot/snapshot.py:168-182 | A fetch ends with the first answer that is no retryable error, else with the last of the errors and the number of attempts |
| Lots.ConsumeLots | src/quantpilot_core/a_share_market_reality_execution/execution.py:587-597 | The consumption loop computes its specification |
| Lots.ConsumeDropsFirstShares | src/quantpilot_core/a_share_market_reality_execution/execution.py:578-597 | Consumption removes exactly the first shares of the symbol's list and leaves other symbols alone |
| Lots.SaleTakesSettledShares | src/quantpilot_core/a_share_market_reality_execution/execution.py:158-160 | On an ordered lot list a sale within the settled quantity only takes shares acquired before the trade date |
| Lots.SaleKeepsOrder | src/quantpilot_core/a_share_market_reality_execution/execution.py:587-597 | Sales keep each symbol's shares ordered by acquisition date |
| Lots.PurchaseKeepsOrder | src/quantpilot_core/a_share_market_reality_execution/execution.py:585-586 | Purchases dated no earlier than any lot keep the order |
| Lots.SettledIsOldEnough | src/quantpilot_core/a_share_market_reality_execution/execution.py:600-603 | On ordered lots a quantity is settled exactly if the first that many shares of the symbol were acquired earlier |
| Execution.NormalizeMeaning | src/quantpilot_core/a_share_market_reality_execution/execution.py:451-478 | A buy is rounded down to whole lots; a sale is never changed and passes only within the position, in whole lots or closing it |
| Execution.ExecuteIntent | src/quantpilot_core/a_share_market_reality_execution/execution.py:108-290 | One turn of the loop: checks in order, fill boundary, ledger, lots, seen ids |
| Execution.ExecuteProposal | src/quantpilot_core/a_share_market_reality_execution/execution.py:86-308 | The whole call over its local variables computes its specification |
| ExecutionLedger.FillBounds | src/quantpilot_core/a_share_market_reality_execution/execution.py:154-162 | A fill is positive and within the order; a sale is within position and sellable quantity; the order id was new |
| ExecutionLedger.StepKeepsBook | src/quantpilot_core/a_share_market_reality_execution/execution.py:249-255 | Every turn keeps lots and positions in agreement and non-negative |
| ExecutionLedger.HistoryKeepsBook | src/quantpilot_core/a_share_market_reality_execution/execution.py:86-308 | So does every history of calls with dates that never go backwards, with the lots of each symbol ordered |
| ExecutionLedger.BareStateBook | src/quantpilot_core/a_share_market_reality_execution/execution.py:606-612 | A first call on positions without lots starts from lots that match them |
| ExecutionLedger.EmptyLotsReadBack | src/quantpilot_core/a_share_market_reality_execution/execution.py:102 | A ledger stored without lots is read back with no lots, since every position is then empty |
| ExecutionLedger.SaleIsSettled | src/quantpilot_core/a_share_market_reality_execution/execution.py:158-160 | A sale under the T+1 rule takes only shares acquired before the trade date |
| ExecutionLedger.StepSettled | src/quantpilot_core/a_share_market_reality_execution/execution.py:578-603 | The settled quantity falls by exactly what is sold; purchases do not raise it |
| ExecutionSafety.SessionSalesWithinOpening | src/quantpilot_core/a_share_market_reality_execution/execution.py:578-603 | T+1 over whole histories: what the calls of one session sell of a symbol never exceeds what was held when the session opened |
| ExecutionSafety.StepReports | src/quantpilot_core/a_share_market_reality_execution/execution.py:165-190 | Every intent yields exactly one outcome and exactly one agreeing trade or rejection, and its id is remembered |
| ExecutionSafety.FilledAtMostOnce | src/quantpilot_core/a_share_market_reality_execution/execution.py:154-155 | In any history each order id is filled at most once, never if it was seen before, and the seen ids only grow |
| ExecutionSafety.ApplyOnce | src/quantpilot_core/a_share_market_reality_execution/execution.py:103 | The same for one call |
| ExecutionSafety.StepStopsIff | src/quantpilot_core/a_share_market_reality_execution/execution.py:979-984 | The consistency check stops a turn exactly when its fill leaves cash below minus one micro-unit |
| ExecutionSafety.BuyCostsReserve | src/quantpilot_core/a_share_market_reality_execution/execution.py:192-198 | A buy, partial fills included, takes at most two micro-units more than the reserve of what it fills, if its fill price is not rounded up |
| ExecutionSafety.StepKeepsFloor | src/quantpilot_core/a_share_market_reality_execution/execution.py:192-198 | A turn whose buy price is not rounded up, or whose sale pays for itself, leaves cash at most two micro-units below the frozen part (three if amounts come with more than six decimals), and is stopped only if less than one micro-unit short of that is frozen |
| ExecutionSafety.CashFloorHolds | src/quantpilot_core/a_share_market_reality_execution/execution.py:100-255 | The same over all intents of a call: the shortfalls of its buys do not add up |
| ExecutionSafety.FloorOverHistory | src/quantpilot_core/a_share_market_reality_execution/execution.py:86-308 | The same over any history of calls: from cash >= frozen cash, cash never falls more than two (or three) micro-units below the frozen part, and with all but one of these frozen no call is ever stopped |
| ExecutionSafety.TradeConserves | src/quantpilot_core/paper_trading/loop.py:69-124 | A trade moves cash plus positions at cost less realized profit by the buy-side stamp tax and at most half a micro-unit, the rounding of the basis, plus once that of cash and profit with more decimals |
| ExecutionSafety.ValueConserved | src/quantpilot_core/a_share_market_reality_execution/execution.py:249-254 | Over any call that identity moves by the buy-side stamp taxes and at most half a micro-unit a trade |
| ExecutionMeaning.TermsOf | src/quantpilot_core/a_share_market_reality_execution/execution.py:109-127 | Every turn has its terms, and only one set of them: the first positive of execution price, close and open; the order's lot size; the whole lots it may buy; what the volume covers; slipped price and reserve |
| ExecutionMeaning.TurnDecided | src/quantpilot_core/a_share_market_reality_execution/execution.py:146-247 | Every turn is decided by the checks in their order: an order that fails none is filled with the quantity of its terms; any other is rejected with the reason of the first it fails, deferred only for want of settled shares, and only the seen ids change |
| ExecutionMeaning.FilledIsTradable | src/quantpilot_core/a_share_market_reality_execution/execution.py:481-519 | Nothing is filled in a suspended stock, in one without volume or price, or against a limit, flagged by the row or, without a flag, when all trading was at the limit price; stated on the row itself |
| ExecutionMeaning.ReadyIsFilled | src/quantpilot_core/a_share_market_reality_execution/execution.py:146-290 | Conversely a new order in whole lots for a stock that trades, with volume for all of it, with cash for a buy and settled shares for a sale, is filled completely |
| ExecutionMeaning.FillMoves | src/quantpilot_core/a_share_market_reality_execution/execution.py:249-255 | A fill adds one trade on its terms: quantity at the slipped price, each fee and tax rounded; cash, positions, average costs, lots and realized profit move as for that purchase or sale |
| ExecutionMeaning.SellableReported | src/quantpilot_core/a_share_market_reality_execution/execution.py:118 | Every outcome tells how many shares could be sold before it: under the T+1 rule those acquired before the trade date, otherwise all |
| ExecutionMeaning.CallStores | src/quantpilot_core/a_share_market_reality_execution/execution.py:98-108 | A call raises for settings that are not positive; otherwise it starts from the stored ledger and stores what its last turn leaves |
| ExecutionMeaning.BareLots | src/quantpilot_core/a_share_market_reality_execution/execution.py:606-612 | A ledger without lots starts with all its positions settled long ago |
| ExecutionRounding.ReserveMonotone | src/quantpilot_core/a_share_market_reality_execution/execution.py:944-953 | The rounded buy reserve is monotone in the quantity |
| ExecutionRounding.CostIs | src/quantpilot_core/a_share_market_reality_execution/execution.py:533-561 | The cash impact of a buy, gross amount and fees rounded one by one, is a whole number of micro-units |
| ExecutionRounding.ReserveCoversIff | src/quantpilot_core/a_share_market_reality_execution/execution.py:944-953 | With fill price and fees rounded to six decimals, the reserve covers a buy of every quantity up to two micro-units if and only if the fill price is not rounded up; if it is, a large enough buy exceeds its reserve by any amount |
| ExecutionRounding.RoundedFloor | src/quantpilot_core/a_share_market_reality_execution/execution.py:192-198 | One buy, partial fills included, leaves cash at most two micro-units below the frozen part, if its fill price is not rounded up |
| ExecutionRounding.WholeCentsNotRaised | src/quantpilot_core/explicit_fill_simulation_boundary/simulation.py:105-109 | Prices in hundredths with slippage in whole basis points are never rounded up |
| ExecutionRounding.NeverStopsIff | src/quantpilot_core/a_share_market_reality_execution/execution.py:979-984 | The consistency check never stops a buy within its reserve, at any price that is not rounded up and with any fees, if and only if at least one micro-unit is frozen |
| ExecutionRounding.RaisedFillsStop | src/quantpilot_core/a_share_market_reality_execution/execution.py:979-984 | At a price that is rounded up it stops some buy within its reserve, however much is frozen |
| ExecutionRounding.RaisedFillStops | src/quantpilot_core/a_share_market_reality_execution/execution.py:979-984 | For instance one hundred shares at 1.0000006 |
| ManualFills.RoundRatioNearest | scripts/record_manual_fill_v1.py:39-40 | Rounding to four decimals is within half a unit, exact on multiples, and positive exactly above half a unit |
| ManualFills.SellableBySymbol | scripts/record_manual_fill_v1.py:166-170 | One pass over the lots gives the settled quantity of every symbol |
| ManualFills.PaperLedger.RecordFill | scripts/record_manual_fill_v1.py:147-300 | Refused with the source's reason and nothing changed, or applied |
| ManualLedger.RecordsKeepSound | scripts/record_manual_fill_v1.py:147-300 | Every sequence of orders keeps lots and positions in agreement and each symbol's lots ordered |
| ManualLedger.SaleIsSettled | scripts/record_manual_fill_v1.py:166-183 | An accepted sale takes only shares acquired before its trade date, oldest first |
| ManualLedger.SessionSalesWithinOpening | scripts/record_manual_fill_v1.py:147-170 | From the opening of a session, whatever orders follow, its sales of a symbol stay within what was held at the opening |
| ManualLedger.RecordCash | scripts/record_manual_fill_v1.py:194-198 | An accepted buy never overdraws; an accepted sale leaves cash non-negative exactly when cash covers what fees exceed the gross |
| ManualLedger.BuyDrift | scripts/record_manual_fill_v1.py:206-212 | A buy moves the accounting identity by at most half a unit per share held afterwards |
| ManualLedger.SellDrift | scripts/record_manual_fill_v1.py:265-282 | A sale moves it by nothing, or, without a positive average cost, by its whole net proceeds |
| ManualLedger.SaleKeepsIdentityIff | scripts/record_manual_fill_v1.py:275-282 | A sale keeps the identity exactly when the average cost is positive or the net proceeds are zero |
| ManualLedger.BuyCostPositiveIff | scripts/record_manual_fill_v1.py:209-212 | A buy leaves a positive average cost exactly when twice the basis exceeds the number of shares |
| ManualLedger.DriftBound | scripts/record_manual_fill_v1.py:190-286 | After any sequence of fills whose sales find positive costs, cash plus positions at cost less realized profit differs from the start by at most half the sum, over the buys, of the shares held afterwards |
| ManualMeaning.AmountsOf | scripts/record_manual_fill_v1.py:43-64 | Every order has its gross, commission and stamp tax, and only one set: quantity times price, 0.03 per cent but at least 5.00, 0.05 per cent, each to the nearest unit, of two the even one |
| ManualMeaning.WholePriceGross | scripts/record_manual_fill_v1.py:186 | At a price of whole units the gross is exactly quantity times price |
| ManualMeaning.AcceptedIff | scripts/record_manual_fill_v1.py:147-196 | Accepted exactly: this session or later, a named symbol, positive whole lots of one hundred, a positive price, and a sale of held shares that are old enough or a buy that cash pays for with its commission; a refused order changes nothing |
| ManualMeaning.RefusedBecause | scripts/record_manual_fill_v1.py:67-91 | The reason of a refusal is the first condition failed |
| ManualMeaning.BuyMeans | scripts/record_manual_fill_v1.py:190-215 | A buy takes gross and commission from cash, adds the shares as a lot of the trade date behind the others, and spreads old cost and payment over all shares held |
| ManualMeaning.SellMeans | scripts/record_manual_fill_v1.py:248-299 | A sale adds gross less commission and stamp tax to cash, takes the oldest shares, and books the proceeds less the shares' cost when there is a positive cost |
| ExporterProtocol.ProtocolSafety | scripts/qmt_builtin_readonly_exporter_v1.py:753-1003 | Over all interleavings of any number of processes with stops between cycles: at most one holds the lock, a process that has just initialized continues from the file, and the n-th published snapshot carries the initial number plus n |
| ExporterProtocol.EveryTraceIsSafe | scripts/qmt_builtin_readonly_exporter_v1.py:753-1054 | The invariant behind it holds after every sequence of events: failed queries and writes, kills at any point, restarts, stale lock files |
| ExporterProtocol.NextSafe | scripts/qmt_builtin_readonly_exporter_v1.py:753-1054 | Every single event keeps the invariant |
| ExporterProtocol.ReplaceSafe | scripts/qmt_builtin_readonly_exporter_v1.py:909-918 | Replacing the file keeps the published numbers consecutive and the invariant of every process |
| ExporterProtocol.InitSafe | scripts/qmt_builtin_readonly_exporter_v1.py:958-1003 | Initialization, successful or not, keeps the invariant |
| ExporterProtocol.StopSafeIff | scripts/qmt_builtin_readonly_exporter_v1.py:1048-1054 | In a safe world stop keeps the invariant if and only if the process is between cycles |
| ExporterProtocol.StopInsideCycleRepeatsNumbers | scripts/qmt_builtin_readonly_exporter_v1.py:1048-1054 | From every safe world, for every querying process and every fresh one, stopping inside the cycle lets the next number be published twice |
| ExporterProtocol.RepeatedFirstNumber | scripts/qmt_builtin_readonly_exporter_v1.py:1048-1054 | For instance number 1, from the start |
| ExporterProtocol.EveryRunningIsDue | scripts/qmt_builtin_readonly_exporter_v1.py:935-955 | In every reachable world a process inside a cycle is still due |
| ExporterProtocol.ViewFollows | scripts/qmt_builtin_readonly_exporter_v1.py:921-1045 | In every interleaving a process goes through the local steps it sees, whatever the others do |
| ExporterProtocol.NoLostWakeUp | scripts/qmt_builtin_readonly_exporter_v1.py:921-955 | After a due mark, one of the two due flags stays set until a cycle that began after it succeeds, through any failed cycles |
| ExporterProtocol.NoLostWakeUpInTrace | scripts/qmt_builtin_readonly_exporter_v1.py:921-955 | The same from every reachable world and through every interleaving with any number of processes, while the process is not stopped, killed or initialized again |
| ExporterProtocol.PendingIsServed | scripts/qmt_builtin_readonly_exporter_v1.py:1023-1045 | A pending mark starts a cycle at the next last bar that is a heartbeat after the previous attempt |
| ExporterProtocol.AttemptsAreSpaced | scripts/qmt_builtin_readonly_exporter_v1.py:1035-1039 | Any two attempts of an epoch are a heartbeat interval apart for each step between them |
| ExporterProtocol.AttemptsInTrace | scripts/qmt_builtin_readonly_exporter_v1.py:1035-1039 | The same in every interleaving, and the recorded attempt is the last one |
| ExporterWakeUps.BarDecided | scripts/qmt_builtin_readonly_exporter_v1.py:1023-1045 | A bar callback starts a cycle, for the next number, exactly in a live idle lock holder on the last bar when it is time: a heartbeat after the last attempt if a query is due or no timer was registered, two otherwise; else it starts none and changes nothing but an overdue mark |
| ExporterWakeUps.HeartbeatPublishes | scripts/qmt_builtin_readonly_exporter_v1.py:1027-1045 | In every reachable world a live idle holder that attempted before starts a cycle at every last bar two heartbeats later, one without a timer, though nobody marked a query due; completed, it publishes the number after the one on disk |
| ExporterWakeUps.CycleCompletes | scripts/qmt_builtin_readonly_exporter_v1.py:943-953 | Replacing and recording publishes the number that is being queried |
| ExporterWakeUps.CycleMeans | scripts/qmt_builtin_readonly_exporter_v1.py:935-955 | A completed cycle of the object publishes its number and leaves the query due only if it was marked while it ran; a raising one publishes nothing and leaves it as due as it was |
| ExporterWakeUps.InitTakesOver | scripts/qmt_builtin_readonly_exporter_v1.py:958-1003 | Initialization takes over exactly with a good account, a free lock, a key, and a file that is absent or carries a number from one up; it continues from that number with nothing due; when it fails the process is stopped and the snapshot untouched |
| ExporterWakeUps.InitWhileHolding | scripts/qmt_builtin_readonly_exporter_v1.py:970-978 | A process that already holds the lock does not take it twice but stops and keeps it |
| ExporterWakeUps.StopGivesUp | scripts/qmt_builtin_readonly_exporter_v1.py:1048-1054 | A stop gives the lock back and clears both due flags |
| ExporterWakeUps.StoppedStaysQuiet | scripts/qmt_builtin_readonly_exporter_v1.py:921-945 | A process stopped between cycles starts nothing until it is initialized again |
| Exporter.QmtExporter.Initialize | scripts/qmt_builtin_readonly_exporter_v1.py:958-1015 | State after a successful or raising initialization |
| Exporter.QmtExporter.CompleteDueQueryCycle | scripts/qmt_builtin_readonly_exporter_v1.py:935-955 | A whole cycle with marks arriving meanwhile and a query or write that may raise |
| Exporter.QmtExporter.HandleBar | scripts/qmt_builtin_readonly_exporter_v1.py:1023-1045 | Overdue marking, spacing and the start of a cycle |
| StoreHistory.TwoStoresAgree | src/quantpilot_core/continuous_paper/store.py:47-166 | For every sequence of bundles with supported tables and keyed rows, both stores accept and reject the same ones and hold the same rows, those of the abstract map |
| StoreHistory.StoresAcceptIff | src/quantpilot_core/continuous_paper/store.py:47-227 | For stores with the same rows and any bundle: the dictionaries accept exactly supported tables without a contradiction among facts filed under the bundle's session, the database exactly rows with an index, in a supported table and of a stored session or the bundle's, without a contradiction among facts filed under their own |
| StoreHistory.EveryDatabaseIsLinked | src/quantpilot_core/continuous_paper/store.py:116-128 | In every reachable database each row refers to a stored session |
| StoreHistory.DatabaseAcceptsIff | src/quantpilot_core/continuous_paper/store.py:90-96 | For rows that carry the bundle's session id, in supported tables, the database accepts exactly what the dictionaries accept with an index in every row |
| StoreHistory.MemoryAcceptsIff | src/quantpilot_core/continuous_paper/store.py:90-92 | And on keyed bundles the dictionaries accept exactly what the database accepts with supported fact tables |
| StoreHistory.StoresCanDisagree | src/quantpilot_core/continuous_paper/store.py:90-96 | One instance of each difference: an unsupported table without rows, and a row without an index |
| StoreHistory.NothingIsReplaced | src/quantpilot_core/continuous_paper/store.py:98-105 | No stored row is ever replaced or removed by later bundles |
| StoreHistory.ReplayChangesNothing | src/quantpilot_core/continuous_paper/store.py:98-105 | A bundle accepted at any time is accepted again at any later time and changes nothing |
| StoreHistory.AcceptedRowsPresent | src/quantpilot_core/continuous_paper/store.py:83-105 | Every row of an accepted bundle is present with its digest |
| StoreRefinement.AcceptedIff | src/quantpilot_core/continuous_paper/store.py:98-105 | A bundle is accepted if and only if no row contradicts the store and no two of its rows contradict each other |
| StoreRefinement.AcceptedMeans | src/quantpilot_core/continuous_paper/store.py:98-105 | An accepted bundle adds, for each new key, the first row written to it, and changes no old row |
| StoreRefinement.DictionariesRefine | src/quantpilot_core/continuous_paper/store.py:47-96 | Copy, validate and swap refines the abstract map |
| StoreRefinement.RelationsRefine | src/quantpilot_core/continuous_paper/store.py:151-227 | Select, insert and commit in a transaction refines the abstract map |
| StoreRefinement.HeadRefines | src/quantpilot_core/continuous_paper/store.py:85-89 | The four session tables are independent of each other |
| Store.InMemoryReportingStore.PersistCycle | src/quantpilot_core/continuous_paper/store.py:47-51 | All or nothing: the swapped tables, or the old ones |
| Store.InMemoryReportingStore.WriteBundle | src/quantpilot_core/continuous_paper/store.py:83-96 | The nested loops over copies compute their specification |
| Store.PostgreSQLReportingStore.PersistCycle | src/quantpilot_core/continuous_paper/store.py:151-166 | Commit makes all rows visible; rollback none |
| Store.PostgreSQLReportingStore.InsertBundle | src/quantpilot_core/continuous_paper/store.py:154-162 | The rows of a bundle in order, inside the transaction |
| StoreMeaning.AcceptedIffAgreeing | src/quantpilot_core/continuous_paper/store.py:98-105 | Both stores accept exactly the bundles none of whose rows is known by another digest than the stored row of its key or another row of the bundle; a row is known by the digest it brings, else by that of its content |
| StoreMeaning.AcceptedIsKept | src/quantpilot_core/continuous_paper/store.py:98-105 | After an accepted bundle old rows stay, each new key holds a row the bundle brings with that content and digest, and nothing else appears |
| StoreMeaning.ContradictionRefused | src/quantpilot_core/continuous_paper/store.py:102-104 | After any run both stores refuse a bundle that contradicts one accepted at any time in it |
| StoreMeaning.SessionsAreFinal | src/quantpilot_core/continuous_paper/store.py:47-105 | With a digest that tells contents apart, neither store lets a later bundle of an accepted session bring another report, learning report or shadow report, nor another session row if neither version brings a digest |
| StoreMeaning.FactsAreFinal | src/quantpilot_core/continuous_paper/store.py:93-105 | Nor another row of facts under the same key, when neither version brings its own digest |
| StoreMeaning.MemoryHolds | src/quantpilot_core/continuous_paper/store.py:47-51 | Over any run the dictionaries hold every row of every accepted bundle |
| StoreMeaning.DatabaseHolds | src/quantpilot_core/continuous_paper/store.py:151-166 | So does the database |
| DailyFacts.ExtractedFactsAreKeyed | src/quantpilot_core/continuous_paper/facts.py:12-47 | Extracted facts use supported tables and carry session id and index, so the stores agree on them |
| DailyFacts.BundleWritesDistinct | src/quantpilot_core/continuous_paper/facts.py:12-47 | No two rows of such a bundle share a key |
| DailyFacts.OnlyStoredRowsConflict | src/quantpilot_core/continuous_paper/facts.py:12-47 | Such a bundle is rejected exactly for a stored row with another digest; a report of a new session is always accepted |
| DailyFacts.RowsOfReport | src/quantpilot_core/continuous_paper/facts.py:12-29 | Every item of a report becomes the row of its kind's table at its own place, with its text and digest |
| DailyFacts.RowOfPosition | src/quantpilot_core/continuous_paper/facts.py:16-20 | Every position becomes one row |
| Shadow.NormalizeRoles | src/quantpilot_core/continuous_paper/active_shadow.py:38-57 | From a list or a comma-separated text: each named role once, in the order of first occurrences, or failure if a value names none; a text that names nothing means all roles |
| Shadow.SplitJoins | src/quantpilot_core/continuous_paper/active_shadow.py:43 | Splitting a text at commas is undone by joining, and leaves no comma in a piece |
| Shadow.ActiveShadowRunner.RunRoles | src/quantpilot_core/continuous_paper/active_shadow.py:65-114 | The loop over roles computes its specification, cache included |
| ShadowRuns.RunIsAccounted | src/quantpilot_core/continuous_paper/active_shadow.py:65-114 | Each configured role ends as exactly one of cached, answered or abstained; counters agree; calls and cost stay in budget, and cost is calls times the price |
| ShadowRuns.StepsAccounted | src/quantpilot_core/continuous_paper/active_shadow.py:76-113 | The same after every number of roles |
| ShadowRuns.CacheOnlyGrows | src/quantpilot_core/continuous_paper/active_shadow.py:77-110 | A readable cache file never changes, and only files of this evidence are written |
| ShadowRuns.CachedAnswersAreFinal | src/quantpilot_core/continuous_paper/active_shadow.py:77-82 | Once cached, an answer is returned by every later run on the evidence |
| ShadowRuns.RunsProgress | src/quantpilot_core/continuous_paper/active_shadow.py:65-114 | After t runs with reliable providers, t times the affordable calls have gone to missing roles, and none to others |
| ShadowRuns.AllCachedInTime | src/quantpilot_core/continuous_paper/active_shadow.py:65-114 | With b affordable calls a run, n roles are all cached after ceil(n / b) runs and the next run makes no call |
| ShadowRuns.StepsProgress | src/quantpilot_core/continuous_paper/active_shadow.py:76-113 | One run spends its affordable calls on missing roles and fills one with each |
| ShadowRuns.AffordableMeans | src/quantpilot_core/continuous_paper/active_shadow.py:86-91 | The two budget checks together allow exactly min(max calls, floor(max cost / price)) calls |
| ShadowRuns.NothingMissing | src/quantpilot_core/continuous_paper/active_shadow.py:77-82 | With nothing missing nobody is asked |
| ShadowRuns.CommitteeSeesTheDesks | src/quantpilot_core/continuous_paper/active_shadow.py:73-103 | The committee is asked only when no desk was turned away by a budget, and is shown the answers of all desks that answered |
| ShadowRuns.NobodyTurnedAway | src/quantpilot_core/continuous_paper/active_shadow.py:83-91 | While a call is still affordable no earlier role was turned away |
| ShadowRuns.TurnMeans | src/quantpilot_core/continuous_paper/active_shadow.py:76-113 | What one role ends with: its readable file, else, if live calls are on and both budgets allow one, the provider's answer, counted, paid for and kept; else abstention for the first of three reasons |
| ShadowRuns.ReportedAnswers | src/quantpilot_core/continuous_paper/active_shadow.py:77-111 | In a run each role reports the answer of the file kept for its key before, or the provider's answer to it on this evidence, which is then kept under its key |
| ShadowRuns.OpinionsAre | src/quantpilot_core/continuous_paper/active_shadow.py:98-102 | The committee is shown, in order, exactly the answers reported so far that do not abstain |
| ShadowRuns.AskedInOrder | src/quantpilot_core/continuous_paper/active_shadow.py:73-75 | Specialists in the configured order, the committee last |
| ShadowRuns.NamedRoles | src/quantpilot_core/continuous_paper/active_shadow.py:43 | A text names its non-blank pieces, stripped, in order |
| Orchestrator.ResolveErrors | src/quantpilot_core/agent_orchestration/orchestrator.py:97-117 | Resolution fails with the first unmet reference at any depth, failed before missing |
| Orchestrator.ResolvedAt | src/quantpilot_core/agent_orchestration/orchestrator.py:97-117 | At every path the result holds the referenced output or the original node |
| Orchestrator.ExecuteAgentPlan | src/quantpilot_core/agent_orchestration/orchestrator.py:36-71 | The executor's loop computes its specification |
| OrchestratorRuns.OneObservationPerCall | src/quantpilot_core/agent_orchestration/orchestrator.py:41-71 | One observation per call in order, and earlier ones do not depend on later calls |
| OrchestratorRuns.TablesMean | src/quantpilot_core/agent_orchestration/orchestrator.py:38-71 | Outputs and failed ids are what the observations say: the latest success, any failure |
| OrchestratorRuns.DispatchedIff | src/quantpilot_core/agent_orchestration/orchestrator.py:41-57 | Dispatched if and only if every nested reference names an earlier call that succeeded and none of that name that failed |
| OrchestratorRuns.DispatchedIffUnique | src/quantpilot_core/agent_orchestration/orchestrator.py:41-57 | With unique ids: if and only if each names an earlier success |
| OrchestratorRuns.DispatchedWith | src/quantpilot_core/agent_orchestration/orchestrator.py:86-117 | The arguments dispatched are the planned ones with each reference replaced by the latest success |
| OrchestratorRuns.FailureSpreads | src/quantpilot_core/agent_orchestration/orchestrator.py:44-55 | Down a chain of references from a failed call nothing is dispatched |
| OrchestratorRuns.ObservedIs | src/quantpilot_core/agent_orchestration/orchestrator.py:41-71 | A dispatched call ends as the registry answers to its tool and the arguments it was given; a blocked one names the first unsettled reference in its arguments, as failed if one of that id failed, else as missing |
| OrchestratorRuns.ReferencesStand | src/quantpilot_core/agent_orchestration/orchestrator.py:97-117 | The references of a value are exactly those that stand somewhere in it |
| OrchestratorRuns.FirstUnmetIs | src/quantpilot_core/agent_orchestration/orchestrator.py:102-106 | The error names the first reference that is not met |
| Sessions.NextSessionOpen | src/quantpilot_core/announcement_intelligence/ingestion.py:519-527 | The first listed session at or after a day, else the first weekday, at its opening |
| Sessions.NextWeekday | src/quantpilot_core/announcement_intelligence/ingestion.py:524-527 | The first weekday at or after a day |
| Sessions.OpeningDayIs | src/quantpilot_core/announcement_intelligence/ingestion.py:519-527 | The first entry at or after the start in the order of the calendar passed; without one, the start itself or the Monday after a weekend |
| Sessions.FirstAvailableTime | src/quantpilot_core/announcement_intelligence/ingestion.py:497-516 | Never before publication, and on a later day for a date without a time |
| Sessions.AvailableIsEarliest | src/quantpilot_core/announcement_intelligence/ingestion.py:504-516 | Available while the market is open: at once, at the same day's opening, or at a later opening |
| Sessions.NextSessionMeans | src/quantpilot_core/real_data_provider/trading_calendar.py:41-45 | The least session after (or at) a day, and none only if there is none |
| Sessions.ReferenceClosesFirst | src/quantpilot_core/announcement_intelligence/event_study.py:226-233 | The reference session is the first whose 15:00 close is strictly later |
| Sessions.ShiftingRefinesIff | src/quantpilot_core/announcement_intelligence/ingestion.py:509-516 | For timestamped publication and any two calendars, shifting then resolving gives the first session closing after publication if and only if the shift jumps over no study session |
| Sessions.SameCalendarRefines | src/quantpilot_core/announcement_intelligence/ingestion.py:519-523 | The same sorted calendar never jumps over a session, also where it runs out |
| Sessions.WeekdayFallbackRefines | src/quantpilot_core/announcement_intelligence/ingestion.py:524-527 | Nor does the weekday fallback when sessions are weekdays |
| Sessions.DateOnlyIsConservative | src/quantpilot_core/announcement_intelligence/ingestion.py:504-508 | With a date only, the reference is the first session after that day |
| Sessions.NoLookAhead | src/quantpilot_core/announcement_intelligence/event_study.py:226-233 | For any calendars the reference session closes after publication and is not earlier than the direct one |
| Labels.ReturnMeans | src/quantpilot_core/announcement_intelligence/event_study.py:245-271 | When a bar has a return, and that it is the percent change over 100 or the growth over the previous close |
| Labels.CompoundSessions | src/quantpilot_core/announcement_intelligence/event_study.py:352-363 | The loop computes the compounded growth less one, or the first session's reason |
| Labels.GrowthConcat | src/quantpilot_core/announcement_intelligence/event_study.py:352-363 | Growth over two stretches is the product |
| Labels.LabelMeans | src/quantpilot_core/announcement_intelligence/event_study.py:274-315 | A label is available exactly when the anchor is valid, the reference is a session, enough sessions follow and both instruments compound over them; then it uses just these, its returns are rounded to ten decimals and its direction is that of the excess before rounding |
| Labels.ReferenceMustBeSession | src/quantpilot_core/announcement_intelligence/event_study.py:290-293 | A reference day that is no session never yields a label: one session too many is found |
| Labels.UsedSessions | src/quantpilot_core/real_data_provider/trading_calendar.py:53-61 | The shifted session and the sessions up to it are the next ones of the calendar |
| Labels.LabelsNest | src/quantpilot_core/announcement_intelligence/event_study.py:274-315 | An available label implies the shorter ones over prefixes of its sessions; before rounding, its growth is theirs times that of the remaining sessions |
| Labels.GrowthTelescopes | src/quantpilot_core/announcement_intelligence/event_study.py:263-268 | With chained previous closes growth is last close over first |
| Labels.LabelTelescopes | src/quantpilot_core/announcement_intelligence/event_study.py:274-315 | Then an available label's return is exit close / reference close - 1, rounded |
| Labels.LabelPoints | src/quantpilot_core/announcement_intelligence/event_study.py:301-315 | An available label points up if the excess exceeds the threshold, down if it falls below the negative one, and is neutral between; its numbers are the compounded returns and their difference to ten decimals |
| Labels.UnavailableBecause | src/quantpilot_core/announcement_intelligence/event_study.py:284-335 | Otherwise its reason is the first thing missing: reference session, the stock's bar, trading and close of that day, the benchmark's, the exit session, a return |
| Labels.NoReturnBecause | src/quantpilot_core/announcement_intelligence/event_study.py:248-271 | Why a session has no return: the first check its bar fails |
| Matching.MatchAssessment | src/quantpilot_core/announcement_intelligence/event_study.py:455-482 | The outcome is decided by which candidates occur how often: none, conflicting, ambiguous by title only, or the one matched with its method |
| Matching.Choose | src/quantpilot_core/announcement_intelligence/event_study.py:471-482 | The same from the list of candidates |
| Matching.DecisionIsUnique | src/quantpilot_core/announcement_intelligence/event_study.py:471-482 | The decision admits one outcome |
| Matching.OrderDoesNotMatter | src/quantpilot_core/announcement_intelligence/event_study.py:455-482 | For any permutation of the assessments the assessment, the method and the reason are the same |
| Matching.FitsIff | src/quantpilot_core/announcement_intelligence/event_study.py:461-470 | A candidate is a structured, validated assessment of the same symbol and availability time that identifies the event |
| Matching.MethodIs | src/quantpilot_core/announcement_intelligence/event_study.py:468-469 | The method is the first way in which it does |
| Matching.OutcomeMeans | src/quantpilot_core/announcement_intelligence/event_study.py:455-482 | Unavailable without an availability time, not found if none fits, conflicting if two different ones fit, ambiguous if only by a title supplied more than once, else the one that fits with its method |

## Left out

- CrashResumeEquivalence: failure notes and counters are outside it, as they are outside the digest; derived counts, ranges, audit totals and the details of a resolution are represented by the values they are computed from.
- CrashResumeEquivalence: all attempts share one configuration, so a changed shard size between attempts is not covered; provider rows are taken to carry the schema's types already.
- ValidateSnapshot: manifests are those the builder writes, so version and digest mismatches, unsafe paths and unreadable files are not modelled; hash, row-count and schema mismatches are one complaint, and dataset names occur in complaints only where the text puts a dataset or a path.
- BuilderSatisfiesValidator: covers the stock-master and point-in-time complaints; which of the others can occur depends on the provider.
- ExecuteIntent: rounding is that of the exact decimal values; binary floating-point error beyond it is not modelled.
- ExecuteProposal: the same.
- DefaultQuota: is per endpoint, as the pacer is.
- ProtocolSafety: assumes `stop` only between cycles, which StopSafeIff shows to be necessary; contents of the snapshot other than its number are not modelled.
- NoLostWakeUpInTrace: says the mark stays pending; that bars keep arriving is up to the terminal.
- TwoStoresAgree: SQL column constraints other than keys and references, extra columns, and text conversion of identities are not modelled; `persist_market_data` only adds rows keyed by their own digest and is left out.
- OnlyStoredRowsConflict: identities that are not text are not modelled.
- NormalizeRoles: stripping of blanks and the reading of one role name are parameters.
- MatchAssessment: symbol canonicalization, timestamp normalization and the extraction of identity tokens from mappings are inputs.
- ShiftingRefinesIff: publication times are Shanghai wall-clock times; conversion of other time zones is not modelled.
- LabelMeans: rounding is that of the exact values, as in ExecuteIntent.
- Parquet, JSON, SQL text, HTTP, file locking calls and the provider clients: kept as atomic replacement, transaction, lock and function of the request.
- Rule diagnostics, metadata availability and summaries of execution, realized profit by symbol and unrealized profit in the execution ledger, order-id formatting.
- Token counts of the shadow runner, and the reports assembled from observations.
- Metrics, coverage and leakage audits of the event study, announcement classification and cleanup, broker research, backtest engines and command-line scripts: reporting and plumbing without hard properties.
