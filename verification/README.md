# ztfp policy pipeline: a Dafny model

This project models how the zero-trust forward proxy gets from an uploaded policy document to a decision about a
live request, and proves what that pipeline keeps, over every input, every run and every interleaving.

Four connected parts are modelled, and `EndToEnd` puts the first two together:

- **The policy compiler and evaluator.** A legacy or envelope document is normalised (`Normalizer`), validated
  (`Validator`), compiled into keyed rows (`PolicyDb`), stored file by file (`Storage`), loaded in `ORDER BY` order
  (`LoadDb`), grouped and sorted into an AST (`Ast`) and evaluated first-match with CONTINUE fall-through
  (`TenantDecide`). `Engine` is the older evaluator; `Pipeline` and `Migration` relate the two ends. What each stage
  has to do is also stated without it: `NormalForm` on the documents before and after, `Acceptance` on the document
  alone, `Schema` as the schema document with an interpreter for it, and `Meaning` from the JSON to the answer.
- **The tenant policy registry.** `Lru` is the cache: a class over a real doubly linked ring and a map. `Registry` is
  the concurrent protocol around it as a step relation of 27 steps: requests, the leaders and joiners of singleflight
  calls, the job queue and its helper goroutines, loader workers, timeouts, reloads, the field-by-field swap under the
  write lock and the field-by-field read under the read lock, while the files on disk change at any moment.
  `RegistrySafety`, `RegistryJobs`, `RegistryCalls`, `RegistryBound`, `RegistryCache`, `RegistryFresh`,
  `RegistryHistory`, `RegistryEffects`, `RegistryRefusals`, `RegistryProgress`, `RegistryStale` and `RegistryWitness`
  prove properties of all its runs. `Watcher` is the debounce in front of reloads.
- **The TLS server-name parser.** `ClientHello` is the offset-driven parser of sections 4.1.2 and 5.1 of RFC 8446 and
  section 3 of RFC 6066, `HelloPrinter` prints well-formed hellos, `HelloMeaning` says what any bytes are answered
  with, and `BufferedConn` is the peeking reader around it.
- **The body path.** `Readers` are byte readers as linked objects with arbitrary pieces, stalls and failures;
  `Inspector` reads a prefix and puts it back; `Forwarding` is the way of a request through MCP detection, the gate
  and the inspection to the upstream server, and `RegistryForwarding` puts the registry behind the gate.

A regular expression engine, the two detectors, JSON decoding of bodies and what identity extraction yields are
parameters. Loops and in-place updates of the source are methods proved against functions; the lemmas are about those
functions. Text is ASCII where case is mapped.

## What came out differently from what one might expect

- *A reload can miss the cache* (`RegistryWitness.ReloadCanMissTheCache`). `ReloadTenant` swaps the object of the entry
  it found; that entry may have been evicted meanwhile, and an older load may have inserted its own object. After the
  reload is back the cache then answers from the older file, with nothing left in flight to repair it.
  `RegistryStale.ReloadSwapSettles` gives the exact condition under which a swap settles its tenant.
- *A policy can validate and still not compile* (`PolicyDb.CompileSucceedsIff`): the one thing validation does not
  check is that priorities fit SQLite's 64-bit INTEGER. `PolicyDb.OversizedPriority` is such a document.
- *Rules go by (priority, id), not by document order* (`Migration.PairGoesByKey`, `Migration.TiesGoById`,
  `Migration.TwoBeforeTen`). `Migration.MeaningKeptIff` says for every accepted faithful document and every request
  when the order of the document is kept all the same: the first rule that takes the request and the least one by
  (priority, id) that takes it say the same.
- *An upload cut off while the meta file is written is final* (`Storage.TornMetaIsFinal`, `Storage.UploadWorksIff`):
  every later upload for that tenant fails when it reads the version.
- *A late timer callback deletes the map entry of a newer timer*, which is then hidden from the map, and an event that
  comes while it is hidden arms a second one (`Watcher.LateCallbackLeavesTwoTimers`). `Watcher.OneTimerIff` shows that
  this is the only way: over whole runs a tenant has one armed timer at most if and only if no event of it comes while a
  timer is hidden. A timer is hidden only by a late callback (`Watcher.NeverHiddenIff`), and a late callback does no
  harm when the timer it hid fires before the next event (`Watcher.LateButHarmless`).
- *The server name can come from behind the list of extensions* (`ClientHello.AnswerFromBehindTheList`), as the source
  bounds an extension by the buffer and not by the list it is in. `ClientHello.AnswerInListIff` says exactly when the
  answer is the one a scan that minds the end of the list gives.
- *`default_deny_on_load_fail = false` does not fail open.* The documentation promises that it does
  (Documentation/ControlPlane_DataPlane/Dataplane/500_Requests_from_Tenant_whose_context_is_not_in_Cache.md:308);
  `evaluate` blocks on the error whatever the setting says (`RegistryForwarding.GateMeans`). The model follows the code.
- *A body that fails to be read on the first pass is not put back*, and what the failure left of it is what gets
  inspected and sent. With a positive limit it gets through the inspection exactly when its first failure passes and
  nothing is found behind that failure (`Forwarding.BrokenBodies`). So a body cut short by a failure that passes
  gets through with nothing left of it (`Forwarding.CutShort`).

## Model

| member | source | states |
|---|---|---|
| `Normalizer.NormalizeActionIdempotent` | controlplane/policy_compiler/normalizer.py:23-30 | normalising an action twice is normalising it once, for every text |
| `NormalForm.NormalizeActionMeans` | controlplane/policy_compiler/normalizer.py:23-30 | a text equal up to case to one of the six names gives that name, "forward" in any case gives FWD, and any other text its upper-case form |
| `NormalForm.NormalizeYieldsNormalForm` | controlplane/policy_compiler/normalizer.py:58-83 | in an envelope every action and the default action become normal and every other value stays where it was; a legacy document becomes one rtp block of its rules with action, inspection and fallback migrated and all other fields kept |
| `NormalForm.NormalizeSucceedsIff` | controlplane/policy_compiler/normalizer.py:58-83 | normalisation raises nothing exactly on documents of the right shape |
| `Normalizer.NormalizeDocument` | controlplane/policy_compiler/normalizer.py:58-83 | the block-by-block rewriting of a deep copy computes `Normalize`, crashes included |
| `Normalizer.NormalizeRulesLoop` | controlplane/policy_compiler/normalizer.py:70-73 | the loop over one block's rules computes `NormalizeRules` |
| `Normalizer.MigrateRulesLoop` | controlplane/policy_compiler/normalizer.py:33-55 | migrating rule by rule computes `MigrateRules` |
| `Normalizer.NormalizeIdempotent` | controlplane/policy_compiler/normalizer.py:58-83 | normalisation is idempotent on every document it accepts, legacy or envelope |
| `Normalizer.EnvelopeKeepsRules` | controlplane/policy_compiler/normalizer.py:60-74 | each block of an envelope keeps the number and order of its rules, and each rule everything but its action |
| `Normalizer.LegacyKeepsRules` | controlplane/policy_compiler/normalizer.py:76-83 | a legacy document becomes one rtp block of its rules, migrated one by one in order |
| `Normalizer.IterRulesLoop` | controlplane/policy_compiler/normalizer.py:86-94 | the nested appending loops yield the (type, rule) pairs in block order |
| `Text.FoldMeans` | policy/tenant_decide.go:70 | two texts are equal up to case exactly when they are of one length and equal letter by letter up to case |
| `Text.CaseOfLetters` | policy/tenant_decide.go:18-19 | case mapping exchanges the letters of the two alphabets and leaves every other character alone |
| `Text.LessMeans` | policy/ast.go:58 | the order on ids: where two texts part, the first has ended or has the smaller character |
| `SchemaMeaning.SchemaValidIff` | controlplane/schema/policy.schema.json:1-251 | the validator's schema check accepts exactly the documents that conform to the schema document |
| `Acceptance.AcceptedIff` | controlplane/policy_compiler/validator.py:72-116 | a document is accepted if and only if its normal form is within the size, conforms to the schema, has 1 to the maximum number of rules and unique ids per block, and each rule has compiling domain, destination and rtp tool-name patterns and an integer priority |
| `Acceptance.RejectedBecause` | controlplane/policy_compiler/validator.py:83-98 | the reason given for a document that is too big, not of the schema, of too many rules or of none |
| `Acceptance.RuleRejected` | controlplane/policy_compiler/validator.py:100-107 | any other document is rejected for its first rule that repeats an id or is not sound, with the reason of its first bad value |
| `Validator.ValidateDocument` | controlplane/policy_compiler/validator.py:72-116 | the checks in their order, with the growing set of seen keys, compute `Validate` |
| `Validator.ValidateAgain` | controlplane/policy_compiler/storage.py:50 | validating again what validation returned gives the same document |
| `Validator.RuleKeyInjective` | controlplane/policy_compiler/validator.py:103 | the key "type:id" is injective, as no type name holds a colon |
| `Validator.CheckRulesMeaning` | controlplane/policy_compiler/validator.py:100-107 | the duplicate loop passes exactly when ids are unique per type and every rule is clean |
| `Validator.ValidMeans` | controlplane/policy_compiler/validator.py:83-107 | a validated document fits the schema, has 1 to the maximum number of rules, unique ids and clean rules |
| `PolicyDb.Connection.InsertRule` | controlplane/policy_compiler/compiler.py:78-99 | an INSERT succeeds exactly on a new key with a 64-bit priority, and adds exactly that row |
| `PolicyDb.Connection.Compile` | controlplane/policy_compiler/compiler.py:37-103 | all rows are inserted and committed, or the file stays as it was |
| `PolicyDb.InsertAllMeaning` | controlplane/policy_compiler/compiler.py:73-99 | inserting a list succeeds exactly when all keys are new and distinct and all priorities fit |
| `PolicyDb.OversizedPriority` | controlplane/policy_compiler/compiler.py:22 | a validated document that does not compile exists: one rule of priority 2^63 |
| `PolicyDb.PriorityDecides` | controlplane/policy_compiler/compiler.py:74 | a document of one rule validates whatever its priority from zero on, and compiles exactly up to 2^63 - 1 |
| `Meaning.CompilesIff` | controlplane/policy_compiler/compiler.py:74 | a validated document compiles if and only if all its priorities are at most 2^63 - 1 |
| `Meaning.MetaMeans` | controlplane/policy_compiler/compiler.py:44-71 | the rows of policy_meta: version "2", the default action, the number of rules, and the order bypass, egress_ip, enterprise_browser, rtp |
| `Meaning.ListedTypes` | controlplane/policy_compiler/compiler.py:58-64 | the listed types are those whose block is there, in order |
| `PolicyDb.CompileSucceedsIff` | controlplane/policy_compiler/compiler.py:73-99 | a validated document compiles exactly when its priorities fit; the primary key never fails |
| `LoadDb.LoadFromDb` | policy/load_db.go:14-98 | the hydration loop and the AST build compute `Load`, with its error cases |
| `Meaning.LoadMeans` | policy/load_db.go:14-98 | a load of any database succeeds exactly with version "2" and compiling patterns, keeps the rows, and replaces an empty order |
| `LoadDb.ScanExists` | policy/load_db.go:45-50 | every table has a scan in (policy_type, priority, id) order |
| `LoadDb.ScanIsTable` | policy/load_db.go:45-50 | a scan yields every row exactly once |
| `LoadDb.GroupsPartition` | policy/ast.go:45-50 | the groups of the AST partition the rules |
| `Ast.StableSortSorts` | policy/ast.go:54-59 | the sort orders by (priority, id) and permutes |
| `Ast.GroupRules` | policy/ast.go:45-50 | appending each row to its type's slice groups the rows in order |
| `Ast.IndexGroup` | policy/ast.go:52-80 | a group is sorted and compiled, and fails exactly when a pattern does not compile |
| `Ast.BuildAstLoop` | policy/ast.go:43-82 | ranging over the groups in any order builds the same AST |
| `TenantDecide.MatchesRuleLoop` | policy/tenant_decide.go:41-80 | the flag loops compute `MatchesRule` |
| `TenantDecide.DecideLoop` | policy/tenant_decide.go:9-39 | the nested loops with fall-through compute `Decide` |
| `TenantDecide.IndexedMatchIsEligible` | policy/tenant_decide.go:54-67 | the branch on destinations is dead after buildAST, so a rule matches exactly when some pattern of its first non-empty list matches, or both are empty, and some method is the request's, or it lists none |
| `TenantDecide.GroupWinner` | policy/tenant_decide.go:25-37 | within a type the first match is the least candidate by (priority, id) |
| `TenantDecide.DecideMeetsSpec` | policy/tenant_decide.go:9-39 | the answer is that of the least matching non-CONTINUE rule by (position of type, priority, id), else the default |
| `TenantDecide.DecideIgnoresRowOrder` | policy/ast.go:43-82 | the answer is the same for every order of the input rows |
| `TenantDecide.TerminalMeans` | policy/tenant_decide.go:83-109 | any record answers with its inspection first, in rtp rules, then by its action in any case, and always with its message |
| `TenantDecide.MappedAction` | policy/load_db.go:118-131 | any action text, in any case and between blanks |
| `TenantDecide.TerminalName` | policy/load_db.go:118-131 | what each schema action becomes, and which one falls through |
| `Engine.EngineDecideLoop` | policy/policy.go:174-228 | the loop that overwrites and breaks computes first match |
| `Engine.EngineDecideMeans` | policy/policy.go:174-260 | the first rule with a compiling pattern that matches, or without patterns, and with the request's method, or without methods, answers; without one the default does |
| `Engine.RuleMatchesLoop` | policy/policy.go:231-260 | the condition loops compute `RuleMatches` |
| `Meaning.LoadedAnswers` | policy/tenant_decide.go:9-39 | compiled, loaded and evaluated, a validated document answers every request as its JSON says: a bypass rule that takes it and is not passed over, else an egress_ip rule, else an enterprise_browser rule, else an rtp rule, by priority and id, else the default |
| `Meaning.LoadsIff` | policy/ast.go:62-76 | a compiled document loads if and only if every domain and destination pattern of its JSON compiles in Go |
| `Pipeline.LoadSucceedsIff` | policy/load_db.go:92-95 | a compiled document loads exactly when all its patterns compile in Go |
| `Pipeline.ScannedRecords` | policy/load_db.go:45-87 | the scanned records are the document's rules, each once |
| `Pipeline.CompileLoadLossless` | controlplane/policy_compiler/compiler.py:54-99 | compile then load yields a record for every rule and a rule for every record, saying the same field by field, in order; the stored count, the row count and the size of the AST agree |
| `Pipeline.RecordSays` | policy/load_db.go:65-86 | the loaded record of a clean rule has its id, action, priority or 0, texts, condition lists and inspection, with absent ones empty |
| `Migration.ActionPreservedIff` | controlplane/policy_compiler/normalizer.py:33-55 | an action survives migration, compilation and evaluation exactly when it is one of five lower-case names |
| `Migration.RuleAgrees` | policy/tenant_decide.go:41-109 | a faithful legacy rule matches and answers alike in both evaluators |
| `Migration.EvaluatorsAgree` | policy/policy.go:174-228 | on sorted rules of unique ids the new evaluator answers as the older one |
| `Migration.MigrationPreservesMeaning` | controlplane/policy_compiler/normalizer.py:76-83 | normalised, validated, compiled, loaded and evaluated, a faithful legacy document answers as the older engine on its rules arranged by (priority, id) |
| `Migration.MigrationHasMeaning` | controlplane/policy_compiler/normalizer.py:76-83 | every accepted faithful legacy document has such an arrangement, and its compiled policy answers every request as the older engine on it |
| `Migration.ArrangedByKeyAscends` | policy/ast.go:54-59 | rules with distinct ids have a strictly ascending arrangement with the same members |
| `Migration.AscendingDocumentKeepsMeaning` | controlplane/policy_compiler/normalizer.py:76-83 | a document whose rules ascend by (priority, id) keeps its own first-match meaning |
| `Migration.MeaningKeptIff` | policy/ast.go:54-59 | for a document of any length and every request the compiled policy answers as the older engine does in document order if and only if the first and the least of the rules that take the request say the same, or none takes it |
| `Migration.HarmlessInversionsKeepMeaning` | policy/ast.go:54-59 | a document of any length in which every pair that the keys put the other way round says the same keeps its first-match meaning on every request |
| `Migration.TakeAllKeptIff` | policy/ast.go:54-59 | rules that all take every request, however many, keep their meaning exactly when the first and the least of them say the same |
| `Migration.PairGoesByKey` | policy/ast.go:54-59 | two rules for every request, of any priorities that fit, keep their document meaning exactly when they ascend by (priority, id) |
| `Migration.TiesGoById` | policy/ast.go:54-59 | of one priority, given or not, they keep it exactly when their ids ascend |
| `Migration.TwoBeforeTen` | policy/ast.go:58 | ids "2" and "10" in document order are such a pair that fails |
| `Storage.TenantDir.StorePolicy` | controlplane/policy_compiler/storage.py:42-94 | the file-system effects in order, cut off after any of them, are `Store`; a tenant id that is not positive is refused with no effect |
| `Storage.CompileFile` | controlplane/policy_compiler/storage.py:68-71 | the temporary database is the whole compile, and verification never fails on it |
| `Storage.CompleteStore` | controlplane/policy_compiler/storage.py:63-94 | an upload that runs to its end leaves document, database and version in agreement and no temporary file |
| `Storage.EffectsInOrder` | controlplane/policy_compiler/storage.py:66-83 | each effect touches one file; the database changes only by the rename of a whole file after the document is whole, and the version only after the database |
| `Storage.DbIsLastPublished` | controlplane/policy_compiler/storage.py:72 | policy.db is the last file moved into place, whatever was cut off |
| `Storage.CrashSafety` | controlplane/policy_compiler/storage.py:66-83 | from empty, policy.db is absent or the whole verified compile of one validated document |
| `Storage.VersionsNeverDecrease` | controlplane/policy_compiler/storage.py:34-39 | versions never go down |
| `Storage.VersionCountsStores` | controlplane/policy_compiler/storage.py:63-83 | the meta file stays whole exactly when no upload is cut off in its write, and then the version goes up by one for every completed upload, whatever was rejected or cut off in between |
| `Storage.TornMetaIsFinal` | controlplane/policy_compiler/storage.py:37-38 | with a torn meta file no later upload changes anything |
| `Storage.UploadWorksIff` | controlplane/policy_compiler/storage.py:63-83 | a good upload works exactly when no earlier one was cut off in the meta write |
| `LruSpec.LruOverRuns` | policy/registry.go:131-139 | after any hits and inserts the cache lists exactly the most recently touched distinct tenants, within its size |
| `LruSpec.CachedIsLastInserted` | policy/registry.go:188-207 | every cached value is the one last inserted for its tenant |
| `Lru.TenantCache.constructor` | policy/registry.go:92-105 | an empty ring and map, with the default size |
| `Lru.TenantCache.GetCached` | policy/registry.go:131-139 | a hit relinks the element to the front of the ring, a miss changes nothing |
| `Lru.TenantCache.Insert` | policy/registry.go:188-207 | overwriting or pushing and the eviction loop compute `Put`, with map and ring in bijection |
| `Lru.TenantCache.EvictBack` | policy/registry.go:199-205 | the entry at the back leaves both list and map |
| `Lru.Replay` | policy/registry.go:73-75 | any history run on the linked cache ends as the specification of the history |
| `Registry.WithDefaults` | policy/registry.go:30-41 | the cache size and the worker count are positive: positive settings are kept, others become 500 and 4 |
| `RegistrySafety.StepSafe` | policy/registry.go:108-224 | every step keeps the invariant: objects, cache, calls, workers and reloads hold whole versions of their own tenant |
| `RegistrySafety.WriterIsAlone` | policy/tenant_decide.go:112-122 | in every run, while a swap writes an object no request is reading it and no other swap is writing it |
| `RegistrySafety.ReloadWriteSafe` | policy/tenant_decide.go:118-121 | copying one field keeps the invariant, which tracks the fields copied so far |
| `RegistrySafety.ReloadUnlockSafe` | policy/tenant_decide.go:117-121 | when the lock is released the object holds one whole version again |
| `RegistrySafety.ReadDefaultSafe` | policy/tenant_decide.go:9-39 | the reads under one read lock together read one whole version |
| `RegistrySafety.AnswersComeFromOneVersion` | policy/registry.go:108-118 | in every run each answer is that of one whole version of the tenant's own file: no mix, no other tenant's rules |
| `RegistryJobs.EachJobInOnePlace` | policy/registry.go:147-178 | each job is with a helper, in the queue, with one worker or answered: exactly one of these, once |
| `RegistryJobs.WorkersNeverBlock` | policy/registry.go:176 | a worker with a result can always send it, even after a timeout |
| `RegistryJobs.LoadsBounded` | policy/registry.go:101-103 | there are always LoadWorkers workers, and no two hold the same job |
| `RegistryJobs.LoaderStepsEnd` | policy/registry.go:168-178 | every loader step brings the outstanding work strictly down |
| `RegistryJobs.LoaderNeverStuck` | policy/registry.go:147-178 | from every reachable state the loader alone can answer all jobs in a bounded number of steps |
| `RegistryCalls.StepCalls` | policy/registry.go:141-166 | every step keeps the bookkeeping of calls, leaders and jobs |
| `RegistryBound.OneLeader` | policy/registry.go:143 | a tenant has at most one call in progress, and exactly one request leads it |
| `RegistryBound.OneOutstandingJob` | policy/registry.go:147-160 | while no load of a tenant has timed out, at most one of its jobs is outstanding |
| `RegistryBound.LeaderTakesTheResult` | policy/registry.go:155-165 | when a call has ended its leader can leave, with the call's result |
| `RegistryBound.JoinersShareTheResult` | policy/registry.go:143-165 | whoever joined a call gets its leader's policy or error, however much later it returns |
| `RegistryBound.ColdLoadBound` | policy/registry.go:141-178 | in every run the jobs made for a tenant are at most 1 + its evictions + failed loads + timeouts |
| `RegistryCache.CacheIsLru` | policy/registry.go:131-139 | in every interleaving the cache is the least-recently-used cache of the hits and inserts that happened, without duplicates and within CacheSize |
| `RegistryEffects.CacheFollowsTheRun` | policy/registry.go:131-139 | the cache is the least-recently-used cache of the hits of lookups and leaders and the inserts of loads and reloads, step by step |
| `RegistryEffects.LoadIsCached` | policy/registry.go:168-178 | a load that succeeded caches exactly what it read, and that object is its result |
| `RegistryEffects.ReloadIsCached` | policy/registry.go:222 | a reload that found its tenant absent caches exactly what it read |
| `RegistryEffects.SwapIsComplete` | policy/tenant_decide.go:112-122 | a swap leaves exactly what the reload read in the object it found |
| `RegistryEffects.QueueBounded` | policy/registry.go:147-153 | in no run does the queue hold more jobs than it has room for |
| `RegistryRefusals.RefusedMeans` | policy/registry.go:108-166 | in every run a request of a positive tenant is refused only when a load of its tenant has failed or timed out |
| `RegistryRefusals.RefusedBecause` | policy/registry.go:141-186 | and then a worker has read for the tenant while its file was missing or broken, or a leader has given up on it |
| `RegistryProgress.MissedIsAnswered` | policy/registry.go:143-146 | a request that missed, of a tenant cached since, is answered from the cached object |
| `RegistryProgress.RequestNeverStuck` | policy/registry.go:108-186 | in every run, at any moment, each request can be brought to an answer or a refusal, with nothing new coming in and nobody giving up |
| `RegistryProgress.ReadableIsAnswered` | policy/registry.go:120-186 | while a file is readable, and no load of its tenant has failed or timed out, every request for it can be answered, by one whole version |
| `RegistryProgress.ReloadNeverStuck` | policy/registry.go:208-224 | in every run each reload can be brought to its end: readers and writers it waits for can finish |
| `RegistryFresh.StepFresh` | policy/registry.go:108-224 | once cache and loads in flight agree with the file, every step but a change of the file keeps that |
| `RegistryFresh.FreshAnswers` | policy/registry.go:180-224 | then every request that starts later is answered as a fresh load would, cached, evicted or reloaded |
| `RegistryFresh.ReloadInsertSettles` | policy/registry.go:222 | a reload that found its tenant absent settles it, when nothing in flight has read another version |
| `RegistryStale.HitAnswers` | policy/registry.go:125-127 | a cached tenant can be answered at once from the object the cache holds |
| `RegistryStale.ReloadSwapSettles` | policy/registry.go:215-220 | a reload that swaps settles its tenant if and only if the tenant is not cached, is answered from the swapped object, or from one that already agrees |
| `RegistryWitness.ReloadCanMissTheCache` | policy/registry.go:215-220 | for any two versions that differ on a request there is a run in which the swap misses the cache |
| `Watcher.Debouncer.ScheduleReload` | policy/watcher.go:36-64 | the map and timer update of schedule is the step of the model |
| `Watcher.Debouncer.ClearEntry` | policy/watcher.go:51-55 | the locked part of a callback is the step of the model |
| `Watcher.NoUpdateLost` | policy/watcher.go:36-64 | when an event came after the last start of a reload, some timer of the tenant is armed or its callback is on its way |
| `Watcher.UpdateCanReload` | policy/watcher.go:49-63 | an event that has not been reloaded yet is reloaded if the timers just go on |
| `Watcher.ReloadsAtMostEvents` | policy/watcher.go:51-63 | reloads of a tenant never outnumber its events |
| `Watcher.HidesIff` | policy/watcher.go:51-55 | from a state without a hidden timer, a step hides an armed timer from the map exactly when it is a late callback |
| `Watcher.StepOneIff` | policy/watcher.go:41-46 | from one armed timer at most, a step leads to two exactly when it is an event while a timer is hidden |
| `Watcher.NextEventIff` | policy/watcher.go:43-51 | from a state without a hidden timer, the event after a step leaves one armed timer at most exactly when the step is not late |
| `Watcher.OneTimerIff` | policy/watcher.go:36-64 | in every run the tenant has one armed timer at most at every moment if and only if no event of it comes while a timer is hidden; runs without a late callback are such runs |
| `Watcher.NeverHiddenIff` | policy/watcher.go:36-64 | in every run no timer of the tenant is ever hidden if and only if no callback of it is late |
| `Watcher.LateButHarmless` | policy/watcher.go:54 | a run with a late callback that never has two armed timers |
| `Watcher.LateCallbackLeavesTwoTimers` | policy/watcher.go:54 | a late callback deletes a newer timer's entry, and two timers end up armed |
| `ClientHello.ParseRecordLoop` | proxy/https_interceptor.go:245-304 | the offset walk stays in bounds and computes `ParseRecord`, every error included |
| `ClientHello.ScanExtensionsLoop` | proxy/https_interceptor.go:305-337 | the nested loops advance strictly, stay in bounds and compute `ScanExtensions` |
| `ClientHello.ParsedNameIsInServerName` | proxy/https_interceptor.go:315-330 | on any bytes a non-empty answer is a host_name entry of a type-0 extension whose header the walk, led by the length fields, arrives at |
| `ClientHello.AnswerInListIff` | proxy/https_interceptor.go:312-315 | the answer is that of a scan that minds the end of the extension list if and only if the answering extension ends where the list does or before |
| `ClientHello.AnswerFromBehindTheList` | proxy/https_interceptor.go:312-315 | a 59-byte record is answered from behind its list of extensions |
| `HelloMeaning.ErrorsMean` | proxy/https_interceptor.go:245-304 | on any bytes each error names the first field that is not there, and a hello is accepted exactly when all its fields are |
| `HelloMeaning.NameIff` | proxy/https_interceptor.go:305-337 | on any bytes the answer is a name if and only if the first extension of type 0 the walk arrives at carries it as its first host_name, inside the buffer |
| `HelloMeaning.PeekMeans` | proxy/https_interceptor.go:229-244 | the peek looks at the first record alone, if it is a handshake, comes whole and fits 4096 bytes |
| `HelloPrinter.ScanNamesUndoesPrint` | proxy/https_interceptor.go:321-332 | the name loop finds the first host_name of a printed list |
| `HelloPrinter.ScanExtensionsUndoesPrint` | proxy/https_interceptor.go:305-336 | over a printed list of extensions the scan answers with the host of the first server_name extension |
| `HelloPrinter.ParseUndoesPrint` | proxy/https_interceptor.go:229-338 | parsing a printed record yields the requested host, whatever the other fields are |
| `BufferedConn.BufReader.Peek` | proxy/https_interceptor.go:231-241 | peeking consumes nothing and succeeds exactly when the bytes fit and come |
| `BufferedConn.PeekClientHelloSNI` | proxy/https_interceptor.go:229-244 | the peek answers from the bytes to come and leaves the whole stream |
| `BufferedConn.PeekThenReadAll` | proxy/https_interceptor.go:217-224 | after the peek the reader still yields the whole original stream |
| `BufferedConn.SniRoundTrip` | proxy/https_interceptor.go:229-338 | a well-formed single-record hello yields its host exactly when it fits the 4096-byte buffer, whatever follows |
| `BufferedConn.SniSound` | proxy/https_interceptor.go:229-338 | on any stream a non-empty answer is a host_name entry of a server_name extension that the walk over its first record arrives at |
| `Readers.Reader.Read` | inspector/dlp.go:112-135 | whatever comes next is the next part of the stream: octets, the end or a failure |
| `Readers.TakeClean` | inspector/dlp.go:112 | a limit lets through exactly the first octets when nothing fails among them |
| `Readers.ReadAll` | inspector/dlp.go:113 | with buffers of any size, everything up to the end or the first failure |
| `Inspector.ThroughLimit` | inspector/dlp.go:112-117 | reading through the limit succeeds exactly when nothing fails within the inspected octets |
| `Inspector.InspectAndPreserve` | inspector/dlp.go:107-125 | exactly the first min(max, length) octets are inspected and the returned body yields every original octet; on an early failure the body is closed |
| `Inspector.InspectAgain` | inspector/dlp.go:107-125 | a second inspection sees the same octets and still loses none |
| `Inspector.Message.Inspect` | inspector/dlp.go:55-81 | the message's body is replaced by one with the same octets, or stays on an error |
| `Forwarding.McpMeans` | proxy/mcp.go:74-118 | a request counts as MCP when it says so or is a supported call, as malformed when it says so and is not |
| `Forwarding.McpReasons` | proxy/mcp.go:74-118 | why a request that says it is MCP is malformed |
| `Forwarding.ExtractMcpInfo` | proxy/mcp.go:64-118 | the body is read and restored octet for octet; after a failure it is left as the failure left it |
| `Forwarding.HandleHttp` | proxy/server.go:235-292 | whatever the policy engine returned, a request whose body can be read is forwarded if and only if it is well-formed, its tenant is neither missing nor unknown, the engine answered other than BLOCK, and neither detector finds anything in its first octets, and then with every octet the client sent |
| `Forwarding.BrokenBodies` | proxy/mcp.go:66-69 | with a positive limit an unreadable body passes the inspection exactly when its first failure passes and nothing is found behind it; with no limit, exactly when nothing is found in no octets |
| `Forwarding.CutShort` | proxy/mcp.go:66-69 | a body cut short after any octets by a failure that passes gets through the inspection, with nothing of it inspected |
| `RegistryForwarding.GateMeans` | proxy/server.go:380-404 | in every run of the registry the gate opens exactly for a known tenant with an answer other than BLOCK; that tenant is positive and one whole version of its own file gave the answer; the load-failure setting never matters |
| `RegistryForwarding.HandleLive` | proxy/server.go:235-292 | in every run of the registry a forwarded request was permitted by one whole version of its own tenant's file, and a body that can be read is inspected and sent octet for octet |
| `RegistryHistory.HistoryIsPublished` | policy/registry.go:180-186 | every version of a file that loads can have seen is one the run published |
| `EndToEnd.LiveAnswersComeFromUploads` | policy/registry.go:108-118 | when the published files are what the tenants' uploads moved into place, each answer of every run is the one that one accepted upload of the request's own tenant stands for, read off its normal form: a bypass rule first, then egress_ip, enterprise_browser and rtp rules by priority and id, else its default; for faithful legacy documents also the older engine's answer |
| `EndToEnd.ForwardedByUpload` | proxy/server.go:380-404 | in every such run a request that passes the gate has a positive tenant and does so by an upload of that tenant that does not block it |
| `EndToEnd.SettledAnswersFollowTheDisk` | policy/registry.go:208-224 | once a tenant is settled, every later request is answered as the upload stands for whose file is on disk, until the file changes |

## Left out

- Registry.Close and everything after it: sending on a closed queue is outside the protocol.
- Regular expression engines: two separate predicates stand for Python's and Go's notion of a valid pattern.
- JSON text: documents are JSON values, and the JSON columns are the values themselves; the order of object keys and Go's case-insensitive field names are not modelled.
- Validator: every exception other than PolicyValidationError is one verdict, because only the fact that it is raised matters.
- SQLite internals and its write-ahead log: a database is its meta rows and a table keyed by (policy_type, id).
- Normalizer.NormalizeActionIdempotent: case mapping is ASCII here and Unicode in the source; letters outside ASCII are left as they are, because the mapping tables are not modelled.
- Unicode elsewhere: text compares by code point, and case folding is ASCII as well.
- Delivery of file events and the choice of watched directories: the model starts at a call to schedule; cancellation of the watch is not modelled.
- TLS handshakes, certificates, revocation checks and JWT signatures: the validated identity is an input.
- targetDomain and FindProtocol: the host name of the request is an input, and the protocol name only reaches logs.
- The CONNECT tunnel loop of handleHTTPS: each request in it takes the same path as a plain one.
- Configuration, metrics, audit records, block pages and logging: straight-line code without a property of its own.
- Overlapping uploads of one tenant: they share a temporary file, and uploads are assumed not to overlap.
- Storage.TenantDir.StorePolicy: the checksum and the time stamp of the meta file are not modelled, because nothing reads them.
- Registry.WithDefaults: the load timeout is left out, because in the model a load may time out at any moment, so its length does not matter.
- Registry: the protocol is a step relation on values rather than a class, because its steps interleave; the linked list behind the cache is the class of module Lru, and RegistryCache relates the two.
- EndToEnd: that the files a run of the registry reads are those the uploads moved into place is a hypothesis about the run, because the two programs share nothing but a directory.
- Registry: RWMutex's preference for waiting writers is not modelled, so the model allows more interleavings than the code.
- Registry: one load or one reload reads one version of a file in one step, as an upload moves a complete file into place.
- Ast.StableSortSorts: the sort is a function with the order and permutation it promises, not Go's algorithm in place.
- Ast.BuildAstLoop: rows and patterns are values, so sharing of rule records between the slices is not captured.
- Forwarding.HandleHttp: the reason texts of pages and the reply of the upstream server are not modelled.
