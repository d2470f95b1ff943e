# Verified model of the Cledyu lab platform's stateful core

Cledyu gives a learner a virtual machine per lab session, checks the learner's work step by step, and gives
hints. This project models the parts of it where correctness depends on whole runs and not on single calls,
and proves what those runs keep. It covers:

- **Step progress and validation.** `Progress` is what the handlers change under the progress store's mutex;
  `ProgressStore` is the cache over the two progress tables and `ProgressRuns` its runs with failing loads,
  saves and deletes; `StepStores` is the store as an object updated in place; `Engine` is the validation
  engine and its consume/commit loop; `ValidationProtocol` joins all of them with the two topics into one state
  machine of 20 step kinds, `ProtocolSteps` says what its steps do and leave alone, `ValidationSafety` proves what
  each of its runs keeps, `EngineRuns` that the engine's loop is part of it, `LabCompletion` which labs can be
  completed at all, `CurrentStep` when the current step is always an open one, and `SaveOrder` what follows if
  saves commit in the order they were made.
- **Session allocation.** `RedisLock` is the lock with a time to live, `SessionAllocation` is one user's
  creations across replicas, `Capacity` is the global quota whose two pools are counted at different moments,
  `Dispatchers` is the routing between the on-prem and the overflow pool.
- **Once-only boot counting.** `BootEC2` (SETNX with a time to live, and an instance tag read earlier) and
  `BootKubeVirt` (conditional updates of namespace annotations).
- **The tutor.** `RateLimit` is the limiter in memory and as a Redis script, `AnswerLeak` is the filter that
  keeps model commands out of low-level hints.
- **Smaller cores.** `FileTree` and `FileSnapshot` (the bounded file-tree walk and the check of its output),
  `Billing` (checkout completion), `ConsoleRegistries` (last-wins consoles). `Options`, `Ordering`,
  `Transactions` and `Runs` are shared helpers.

`dafny verify dfyconfig.toml` checks the whole project.

A state machine here is a datatype for the state, a datatype of steps, and `After(..., steps)` for the state
after any sequence of steps; a step that is not possible changes nothing, so a theorem about `After` is about
every interleaving. Failures, lost replies, restarts and clock readings are parameters of the steps. Code
that works in place is a class or a method with loops, proved against the functions that the theorems are
about.

What is taken for granted is written as a `requires` or a configuration field: fresh tokens and session ids,
increasing step ids within a lab, atomic Redis commands, SQL transactions and conditional Kubernetes updates,
and clocks that do not go back.

Where the code does not meet a property, the exact condition is proved:

- `LoadProgress` reads the header and the steps in two queries outside a transaction, and saves commit after
  the lock was given back. A load whose rows are deleted between the queries caches a session without steps,
  whose current step names none (`CurrentStep.DeletedLoadLosesSteps`); a load between whose queries an older
  snapshot overtakes a newer one caches a current step that is pending (`CurrentStep.TornLoadLosesCurrent`). If
  neither can happen, the current step always names an open step (`CurrentStep.CurrentNamedIff`).
- Saves of one replica that commit in the order they were made can still close a step of the rows: a restarted
  process may load a session while a save of it is on its way (`SaveOrder.ReloadedUnderSave`). If loads wait for
  such saves, none does (`SaveOrder.InOrderIffWaits`).
- A save after a critical section, or a delete, that fails is only logged. A restart then shows each session as
  it was last settled, by a completed save, a removal or an earlier restart, so losing the cache is harmless for
  a session exactly when it is still so (`ProgressRuns.RestartShowsLastSettled`). A lost save shows in every
  store that has the session (`ProgressRuns.LostSaveShows`), and so does a failed delete
  (`ProgressRuns.FailedDeleteShows`). A registration whose commit is not answered is reported as failed while
  the session is there (`ProgressRuns.UnansweredPutShows`).
- A creation that outlives its lock can leave a user with two sessions, and so can one that the provider still
  carries out after its call was cancelled, and a lookup that misses an instance whose tags are not visible yet;
  otherwise no run does (`SessionAllocation.SingleIffFits`).
- There is no hard global cap: with K creations in flight and counts that miss up to U sessions of the overflow
  pool, capacity - 1 + K + U is the least bound, without the U only where no session can be missed
  (`Capacity.OvershootExact`).
- The EC2 boot result is counted once in all runs exactly if two attempts and the tag lag fit in five minutes
  (`BootEC2.OnceIffFits`).
- The Redis limiter forgets a session's total after six hours without an accepted call, which the in-memory
  one never does (`RateLimit.BackendsAgreeIff`, and `RateLimit.LapsingRun` for a run that differs under every
  session total); the code relies on sessions being shorter than that.
- Not every lab can be completed. One with a step whose checks the engine refuses never is, nor one without steps, nor
  any lab of a user without id, without tables, or without validator in release mode; every other lab is, in some run
  (`LabCompletion.CompletableIff`).
- An ASCII model command that starts with `)` can reappear when another command is masked
  (`AnswerLeak.AsciiNeverSurvivesIff`), although the filter is documented to remove verbatim commands.

## Model

| member | source | states |
|---|---|---|
| Ordering.IncreasingUnique | apps/api/internal/store/store.go:336-345 | a set of step ids has one increasing listing, so `ORDER BY step_id` determines the order of the loaded steps |
| Progress.Initial | apps/api/internal/api/handlers/ownership.go:104-113 | a new session has the lab's steps in order, each untried and without hint or checks, the first one active and current, the rest pending |
| Progress.IndexOf | apps/api/internal/api/handlers/session.go:841-846 | the position found is the first with that id, and -1 exactly if there is none |
| Progress.ChangesKeepShape | apps/api/internal/api/handlers/session.go:739-828 | no critical section changes the session's steps, lab or user |
| Progress.VerdictMeans | apps/api/internal/api/handlers/session.go:793-816 | a verdict gives the judged step its status and checks and nothing else; after a pass the next step is open and current, and no other step, after a failure none, differs |
| Progress.MarkMeans | apps/api/internal/api/handlers/session.go:739-749 | a mark: the step is validating with one more attempt and no checks, nothing else differs; an index out of range changes nothing |
| Progress.MockPassMeans | apps/api/internal/api/handlers/session.go:869-888 | passing without a validator: the step is passed with one more attempt and its old checks, the next one is open and current; an index out of range changes nothing |
| Progress.MockPassIsVerdict | apps/api/internal/api/handlers/session.go:869-888 | passing without a validator is a passing verdict on the same step with one more attempt and the old checks |
| Progress.HintMeans | apps/api/internal/api/handlers/hint.go:142-168 | a hint is given at the level asked for, or one above the step's last one, at most 3; the step's level rises to it and never falls, and nothing else differs |
| Progress.ChangesNeverClose | apps/api/internal/api/handlers/session.go:739-888 | no critical section returns an opened step to pending |
| Progress.CheckAllPassed | apps/api/internal/api/handlers/session.go:50-60 | true exactly if there is a step and every step is passed |
| Progress.FindStep | apps/api/internal/api/handlers/session.go:776-786 | finds the first step with the id or reports that there is none |
| Progress.FindValidatable | apps/api/internal/api/handlers/session.go:837-867 | the order check succeeds exactly for a known step whose earlier steps are all passed, and says which of the two refusals it is |
| Progress.InitSteps | apps/api/internal/api/handlers/ownership.go:104-113 | the append loop builds that, step by step and field by field |
| ProgressStore.UpsertAll | apps/api/internal/store/store.go:299-318 | after the upserts the session has its old step rows and the saved ones, no others, and rows of steps that were not saved are as before |
| ProgressStore.UpsertedRow | apps/api/internal/store/store.go:299-318 | the row of each saved step holds that step's status, attempts, hint level and checks, column by column |
| ProgressStore.SaveLoadRoundTrip | apps/api/internal/store/store.go:282-358 | per-step upserts followed by an ordered load return the saved snapshot exactly if its ids increase and the session had no rows of other steps and no header of another lab or user |
| ProgressStore.WithSessionRefines | apps/api/internal/api/handlers/progress.go:44-80 | a critical section changes what callers see as it would change one plain map, and what a restart would show exactly if its save completes; a failed load hides a session that is not cached |
| ProgressStore.PutRefines | apps/api/internal/api/handlers/progress.go:84-100 | registering progress, any progress, shows it at once; a rolled-back save changes nothing; a save whose reply is lost is reported as failed and leaves rows that show unless the session is cached; the rows load back exactly if the progress fits those that were there |
| ProgressStore.PutKeeps | apps/api/internal/api/handlers/progress.go:84-100 | progress of the same steps, lab and user as before keeps the store in order and is what a restart would show, if its save takes effect, answered or not |
| ProgressStore.TakeRefines | apps/api/internal/api/handlers/progress.go:114-133 | taking returns the last state, unless it must be loaded and the load fails; a completed delete removes the session, a failed one leaves its rows to be seen again |
| ProgressStore.RestartHarmlessIff | apps/api/internal/api/handlers/progress.go:44-63 | the view without the cache is the view with it exactly if every cached session agrees with its rows (used by the run results below) |
| ProgressRuns.RunRefines | apps/api/internal/api/handlers/progress.go:44-133 | over every run with failing loads, saves and deletes and restarts anywhere, cache and tables are two plain maps: what callers see, and what changes with completed saves and deletes only |
| ProgressRuns.AnswersRefine | apps/api/internal/api/handlers/progress.go:44-133 | every answer in such a run is the one the two plain maps give |
| ProgressRuns.KeptIsLastSettled | apps/api/internal/api/handlers/progress.go:65-78 | what a restart would show of a session is what an operation last settled it as |
| ProgressRuns.RestartShowsLastSettled | apps/api/internal/api/handlers/progress.go:44-80 | after every run a restart shows each session as it was last settled, and is harmless for it exactly if it is still so; that is as it was shown then, except after a registration over a cached entry whose reply was lost |
| ProgressRuns.UnchangedSinceSettled | apps/api/internal/api/handlers/progress.go:65-78 | a restart is harmless for a session that no operation changed since it was last settled, exactly unless that was such a registration of something else |
| ProgressRuns.Registered | apps/api/internal/api/handlers/progress.go:84-100 | for every session with increasing step ids there is a store, reached from the empty one, in which cache and tables agree on it |
| ProgressRuns.LostSaveShows | apps/api/internal/api/handlers/progress.go:72-78 | in every store whose cache and tables agree, a mark whose save is lost is seen until the restart and gone after it |
| ProgressRuns.FailedDeleteShows | apps/api/internal/api/handlers/progress.go:128-131 | in every such store a removal whose delete failed comes back |
| ProgressRuns.UnansweredPutShows | apps/api/internal/api/handlers/progress.go:84-100 | in every store without the session, a registration whose reply is lost is answered as failed and the session is seen |
| ProgressRuns.StoreRefinesPlainMap | apps/api/internal/api/handlers/progress.go:44-133 | when every load, save and delete completes, the answers over every sequence of calls and restarts are those of one plain map |
| StepStores.StepStore.SaveProgress | apps/api/internal/store/store.go:282-319 | one transaction: all rows of the snapshot, or none; a lost reply is an error with all rows there |
| StepStores.StepStore.OrderById | apps/api/internal/store/store.go:336-345 | selects the step ids in increasing order |
| StepStores.StepStore.LoadProgress | apps/api/internal/store/store.go:323-358 | two queries: the header, then the steps in id order as the tables are by then, or nothing |
| StepStores.StepStore.WithSession | apps/api/internal/api/handlers/progress.go:44-80 | the object does what the function on values says: load on a miss, run the closure, save if dirty |
| StepStores.StepStore.Put | apps/api/internal/api/handlers/progress.go:84-100 | saves before caching; after any error nothing is cached, and the rows are as the transaction left them |
| StepStores.StepStore.Take | apps/api/internal/api/handlers/progress.go:114-133 | returns the last state and removes cache entry and rows |
| StepStores.StepStore.Completed | apps/api/internal/api/handlers/progress.go:103-111 | true exactly if the session is known and all its steps are passed |
| StepStores.StepStore.FindValidatableStepIndex | apps/api/internal/api/handlers/session.go:837-867 | the order check made on the state the store shows, which it leaves as it was |
| StepStores.StepStore.MarkStepValidating | apps/api/internal/api/handlers/session.go:739-749 | of the session shown: step idx is validating, with one more attempt and no checks, every other step, current step, lab and user as before, and the tables load back as that if the save completes; no other session is touched; out of range or unseen, nothing changes and nothing is saved |
| StepStores.StepStore.MarkStepPassed | apps/api/internal/api/handlers/session.go:869-888 | of the session shown: step idx is passed with one more attempt, the next one open and current, nothing else differs; saved if the save completes; completion is reported exactly if all steps are then passed |
| StepStores.StepStore.ApplyValidationResult | apps/api/internal/api/handlers/session.go:755-828 | of the session shown: the named step gets the verdict's status and checks whenever it arrives, the next one opens after a pass, nothing else differs; saved if the save completes; completion is reported exactly for a pass that leaves all steps passed; an unknown session or step changes nothing |
| StepStores.StepStore.NextHint | apps/api/internal/api/handlers/hint.go:142-168 | answers the lab and the level to use, raises the step's level to it if it was lower and saves only then; an unknown step has level 1 and leaves no trace |
| StepStores.StepStore.RecordCompletion | apps/api/internal/store/store.go:372-381 | the first completion of a lab by a user stays; empty users and labs are not recorded |
| Engine.VerdictOf | apps/validation-engine/cmd/engine/main.go:117-231 | a verdict answers its own request: for one that can be run, the machine's answer to every check in order, passed or not, and passed exactly if all are; otherwise failed with exactly one request_error |
| Engine.RunAll | apps/validation-engine/internal/checker/checker.go:71-81 | there is one result per check, the machine's answer to it, in order, and the flag is true exactly if all passed |
| Engine.Handle | apps/validation-engine/cmd/engine/main.go:117-231 | publishes the verdict the request earned, with all outcomes of a failed run and one request_error for a request that cannot be run; a failed publish is fatal and publishes nothing |
| Engine.ValidCheckIff | apps/validation-engine/cmd/engine/main.go:313-359 | a check is valid exactly if its kind is known and the fields that kind needs are filled |
| Engine.ValidRequestIff | apps/validation-engine/cmd/engine/main.go:170-189 | a request is valid exactly if it names a session and a step and has one to twenty complete checks |
| Engine.Consumer.PublishToDlq | apps/validation-engine/internal/consumer/consumer.go:157-183 | the payload is in the dead-letter topic exactly if one of three attempts succeeds, and otherwise in the log |
| Engine.Consumer.Run | apps/validation-engine/internal/consumer/consumer.go:70-134 | one life of the loop, from the committed offset to its end, crash or fatal publish |
| Engine.RunAccounted | apps/validation-engine/internal/consumer/consumer.go:70-134 | one life keeps an outcome for every handled offset, and a failed publish ends it with that offset uncommitted |
| Engine.LifeMeans | apps/validation-engine/internal/consumer/consumer.go:70-134 | the exact effect of one life: the messages from its start, one turn each, exactly one outcome each, namely the verdict its turn earned, or a dead letter or log entry if it could not be read or the handler broke; the committed offset is one past the last one whose commit succeeded; where and why it ended |
| Engine.LastCommitKeeps | apps/validation-engine/internal/consumer/consumer.go:127-133 | after a life whose last commit succeeded the next one starts one past the last settled message |
| Engine.CommittedHasOutcome | apps/validation-engine/internal/consumer/consumer.go:70-183 | over all lives with crashes and failed commits, every committed offset has a verdict for its session and step, a dead letter or a log entry |
| Engine.FailedPublishNotCommitted | apps/validation-engine/cmd/engine/main.go:212-215 | after a failed publish that message is not committed in that life and the next life starts at or before it |
| EngineRuns.LifeIsRun | apps/validation-engine/internal/consumer/consumer.go:70-134 | every life of the consumer over the requests topic, with its crashes, failed publishes and failed commits, is a run of the protocol's engine steps with the same verdicts in the same order, the same offset to resume from, and nothing else changed |
| ValidationSafety.VerdictProved | apps/validation-engine/cmd/engine/main.go:117-231 | a passing verdict in the system comes with an execution of exactly that step's published check list |
| ValidationSafety.CallIndex | apps/api/internal/api/handlers/session.go:677-735 | the index found by the order check still names the same step when the mark is made, whatever happened in between |
| ValidationSafety.RunKeeps | apps/api/internal/api/handlers/session.go:538-867 | the protocol's invariant holds after every run |
| ValidationSafety.StepsOpenInOrder | apps/api/internal/api/handlers/session.go:538-735 | in every reachable state, cached, stored or being saved, a step has left pending only if every earlier step once received a passing verdict |
| ValidationSafety.PassedOnlyIfChecked | apps/api/internal/api/handlers/session.go:755-828 | with a validator a step is passed only if the engine once ran its whole non-empty check list and all checks passed |
| ValidationSafety.CompletionsEarned | apps/api/internal/api/handlers/session.go:775-827 | a completion row names a session of that user and lab whose every step was proved |
| ValidationSafety.CompletionsStay | apps/api/internal/store/store.go:372-381 | no later step of any run changes a completion row |
| ValidationSafety.RowsAreOneSnapshot | apps/api/internal/api/handlers/progress.go:65-78 | with saves outside the lock, finishing in any order or failing, the rows of a session are always one whole snapshot it really had |
| ValidationSafety.NotOlderNamed | apps/api/internal/store/store.go:323-358 | steps that close none of the header's snapshot still have its current step open |
| ProtocolSteps.MarkStep | apps/api/internal/api/handlers/session.go:739-749 | the protocol's mark does to the replica's entry what the handler does, sends its snapshot off, and changes nothing else |
| ProtocolSteps.MarkOutOfRange | apps/api/internal/api/handlers/session.go:741-743 | a mark out of range changes no progress and saves nothing |
| ProtocolSteps.MockStep | apps/api/internal/api/handlers/session.go:589-607 | the protocol's pass without a validator does what the handler does and notes a finished lab |
| ProtocolSteps.DeliverStep | apps/api/internal/api/handlers/session.go:755-828 | a delivered verdict judges its step and opens the next after a pass, whenever it comes, notes a finished lab exactly then, and changes nothing else |
| ProtocolSteps.HintStep | apps/api/internal/api/handlers/hint.go:142-168 | a hint raises the step's level or does nothing |
| ProtocolSteps.PrecheckStep | apps/api/internal/api/handlers/session.go:837-867 | a request goes on exactly if its step is known and every earlier one is passed |
| ProtocolSteps.PublishStep | apps/api/internal/api/handlers/session.go:677-712 | the request carries the step's own checks; one that is not acknowledged may be in the topic although its call ended |
| ProtocolSteps.TurnStep | apps/validation-engine/cmd/engine/main.go:117-231 | the engine's verdict on the request at its position is the earned one; unacknowledged it may be in the topic, and the request is read again |
| ProtocolSteps.LoadSteps | apps/api/internal/store/store.go:323-358 | a load between whose queries nothing happens finds the session as the tables have it |
| ProtocolSteps.CommitStep | apps/api/internal/api/handlers/progress.go:65-78 | in every reachable state a save that commits makes the rows that snapshot, and touches no other session |
| ProtocolSteps.CreateStep | apps/api/internal/api/handlers/session.go:307-340 | a new session begins with the lab's first step open, in the tables and, if the reply arrives, in the cache |
| ProtocolSteps.RecoverStep | apps/api/internal/api/handlers/ownership.go:68-118 | without tables a replica that lost a session begins it again from its lab |
| ProtocolSteps.RecordStep | apps/api/internal/store/store.go:372-381 | recording a completion adds its row or leaves the one that is there |
| ProtocolSteps.RestartStep | apps/api/internal/api/handlers/progress.go:44-63 | a restarted replica loses its cache, loads and calls; everything else stays |
| ProtocolSteps.LossSteps | apps/api/internal/api/handlers/progress.go:72-131 | an entry, a save on its way, a call, or a session's rows that are lost are gone, and nothing else is |
| LabCompletion.PassableCompletes | apps/api/internal/api/handlers/session.go:538-828 | for every passable lab, however many steps it has, there is a run from its creation to its completion row |
| LabCompletion.CompletedPassable | apps/api/internal/api/handlers/session.go:755-828 | a completion row in any run is of a lab that is passable |
| LabCompletion.CompletableIff | apps/api/internal/api/handlers/session.go:538-828 | a lab can be completed in some run exactly if it has steps, each of which has a positive id and one to twenty complete checks, or, where there is no validator, outside release mode; and there are tables, and user and lab have names |
| CurrentStep.TornLoadLosesCurrent | apps/api/internal/store/store.go:323-358 | a run in which a load meets the header of one snapshot and the steps of an older one, so the current step is pending |
| CurrentStep.DeletedLoadLosesSteps | apps/api/internal/api/handlers/progress.go:114-133 | a run in which the rows are deleted between the queries of a load, so the cached session has no steps and its current step names none of them |
| CurrentStep.WholeIff | apps/api/internal/store/store.go:323-358 | every state of a session, cached, stored or being saved, has all steps of its lab, exactly if no delete commits between the two queries of a load |
| CurrentStep.CurrentNamedIff | apps/api/internal/api/handlers/session.go:775-817 | every session always has its lab's steps and a current step that is one of them and not pending, exactly if no delete commits between the two queries of a load, and no save does either or no save overtakes another |
| SaveOrder.TurnsKeep | apps/api/internal/api/handlers/progress.go:44-80 | a run with one replica, whose saves commit in the order they were made and whose loads wait for them, is a run in which no save overtakes another; rows, saves on their way and cached entry never close a step |
| SaveOrder.InTurnNamed | apps/api/internal/api/handlers/progress.go:65-78 | in every such run, whatever else the configuration allows, every session has its lab's steps and an open current step |
| SaveOrder.ReloadedUnderSave | apps/api/internal/api/handlers/progress.go:44-63 | a run with one replica and saves in order in which a restarted process loads a session whose save is on its way, so that its next save closes a step of the rows |
| SaveOrder.InOrderIffWaits | apps/api/internal/api/handlers/progress.go:65-78 | with one replica whose saves of a session commit in the order they were made, no commit closes a step of the rows, exactly if no load ends while a save of its session is on its way |
| RedisLock.LockRunKeeps | apps/api/internal/lock/redis.go:37-65 | in every timed run whoever is inside has the key, set by that acquirer and not yet expired |
| RedisLock.LockExcludes | apps/api/internal/lock/redis.go:37-65 | two acquirers are never both unreleased and inside the time to live, and a late release never removed the holder's key |
| RedisLock.ReleaseFreesOwnOnly | apps/api/internal/lock/redis.go:21-26 | in every run a delivered release from inside lets the next waiter in, and a release never touches another token's key |
| RedisLock.GivenUpStaysOut | apps/api/internal/lock/redis.go:37-65 | a call that gave up never gets in with its token, in any later run |
| RedisLock.Acquire | apps/api/internal/lock/redis.go:37-65 | at most 42 attempts; success exactly if the last attempt set the key; it retries only while busy, in time and not cancelled |
| RedisLock.AttemptsExact | apps/api/internal/lock/redis.go:14-65 | attempts 0 to 41 can happen with pauses of at least 50 ms, attempt 42 cannot |
| SessionAllocation.OneActiveSession | apps/api/internal/api/handlers/session.go:221-275 | across replicas, with deletes, reapers, cleanup and replacement in between, a user never owns two active sessions if creations fit in the lock and take effect within their call or not at all, and lookups miss nothing |
| SessionAllocation.LateCreationDoubles | apps/api/internal/api/handlers/session.go:307-352 | a run in which a creation after its lock expired leaves two sessions |
| SessionAllocation.MissedSessionDoubles | apps/api/internal/ec2/provisioner.go:204-216 | a run in which the second creation misses the first one's instance, whose tags are not visible yet |
| SessionAllocation.DetachedCreationDoubles | apps/api/internal/ec2/provisioner.go:154-160 | a run in which a creation takes effect after its call was cancelled and gave the lock back |
| SessionAllocation.SingleIffFits | apps/api/internal/lock/redis.go:14-26 | the single-session rule holds in all runs exactly if the time from lock to creation is at most the time to live, overflow lookups have no lag and no creation takes effect after its call |
| SessionAllocation.ReplacesFailed | apps/api/internal/api/handlers/session.go:221-275 | from every reachable state with a free lock, a user whose only session failed or is completed can get a new one in its place, and has then only that |
| SessionAllocation.ReplacesVanished | apps/api/internal/api/handlers/session.go:106-115 | so can one whose session is gone by the time it is inspected |
| SessionAllocation.EndedStaysEnded | apps/api/internal/api/handlers/session.go:106-127 | a call that found a session in use, could not read or remove it, or was given up has changed no session and will change none |
| Capacity.OvershootBound | apps/api/internal/api/handlers/session.go:281-340 | with at most K creations in flight and counts that miss at most U overflow sessions, active sessions never exceed capacity - 1 + K + U, although the pools are counted at different moments |
| Capacity.PoolsWithinCaps | apps/api/internal/session/dispatcher.go:31-48 | with one creation at a time on-prem never exceeds its cap, and overflow exceeds its own by at most what a count misses; an overflow pool without room stays empty |
| Capacity.OvershootExact | apps/api/internal/session/dispatcher.go:85-106 | the least bound that holds in all runs is capacity - 1 + K + U, or capacity - 1 + K where no session can be missed: without overflow pool, or with one that has no room while creations come one at a time |
| Capacity.NoQuotaNoBound | apps/api/internal/api/handlers/session.go:281-300 | a capacity of 0 is no quota: every number of sessions can be reached |
| Capacity.SessionEnds | apps/api/internal/session/dispatcher.go:63-69 | a session that ends leaves its own pool one smaller |
| Capacity.EndsFree | apps/api/internal/api/handlers/session.go:281-340 | a creation that ends without a session leaves one less in flight and the pools as they were |
| Dispatchers.Dispatcher.Create | apps/api/internal/session/dispatcher.go:31-48 | the union gains the session; it is on-prem exactly if there is no overflow pool or on-prem is below its cap |
| Dispatchers.Dispatcher.Get | apps/api/internal/session/dispatcher.go:51-60 | the union's session, or not found exactly if neither pool has it |
| Dispatchers.Dispatcher.Delete | apps/api/internal/session/dispatcher.go:63-69 | the union loses the session, or not found exactly if neither pool had it |
| Dispatchers.Dispatcher.FindActiveByUser | apps/api/internal/session/dispatcher.go:72-81 | some session of the user in the union, and none exactly if there is none |
| Dispatchers.Dispatcher.CountActiveSessions | apps/api/internal/session/dispatcher.go:93-106 | the size of the union |
| Dispatchers.Dispatcher.VmiAddress | apps/api/internal/session/dispatcher.go:119-128 | the union's address, or not found while there is none |
| Dispatchers.Dispatcher.Reap | apps/api/internal/session/dispatcher.go:109-143 | exactly the due sessions of the union are removed and each is reported once |
| Dispatchers.Dispatcher.Drive | apps/api/internal/session/dispatcher.go:31-143 | every sequence of calls with fresh ids gives answers, and ends in sessions, that one provider with the union could give and hold |
| Dispatchers.UnionReaps | apps/api/internal/session/dispatcher.go:132-143 | reaping both pools and appending the lists is reaping the union |
| Dispatchers.PrepareSessionCreation | apps/api/internal/api/handlers/session.go:106-127 | reports a working session, or removes and reports a failed one; afterwards the user owns none exactly if none is reported as existing |
| BootEC2.WriterIsFirst | apps/api/internal/ec2/provisioner.go:334-373 | whoever writes the tag in time finds that no other attempt has won |
| BootEC2.RunKeeps | apps/api/internal/ec2/provisioner.go:334-373 | the boot counter's invariant holds after every run of any number of attempts on any number of replicas, with tag writes that take effect late |
| BootEC2.OnceIffFits | apps/api/internal/ec2/provisioner.go:324-373 | the result is counted at most once in all runs exactly if twice the attempt time plus the tag lag is at most the lock's five minutes |
| BootEC2.StillRecordable | apps/api/internal/ec2/provisioner.go:324-346 | while there is no tag the result can still be counted: at once if the key is free, in any case once its time to live is over |
| BootEC2.FailedWriteRecordable | apps/api/internal/ec2/provisioner.go:354-362 | a failed tag write whose key delete arrives leaves the result countable at that moment |
| BootEC2.LateTagEnds | apps/api/internal/ec2/provisioner.go:347-362 | a failed tag write that takes effect late still ends the counting for every read that sees it |
| BootEC2.CrashedNeverCounts | apps/api/internal/ec2/provisioner.go:334-373 | an attempt that crashed before it counted never counts, in any later run |
| BootEC2.SharedBoot.RecordBootOnce | apps/api/internal/ec2/provisioner.go:334-373 | an uninterrupted call does the machine's steps in order: key, tag and count after it, case by case; it counts exactly if the snapshot had no tag, the key was free and the tag write was confirmed |
| BootKubeVirt.BootMarksOnce | apps/api/internal/kubevirt/watcher.go:73-134 | over every interleaving with stale reads a namespace gives at most one success and one failure, and no failure mark after ready-at |
| BootKubeVirt.LawfulExact | apps/api/internal/kubevirt/watcher.go:97-131 | the annotation logs that occur are exactly none, ready, failure, and failure then ready |
| BootKubeVirt.DeletedStaysAsItWas | apps/api/internal/kubevirt/watcher.go:73-80 | after its deletion nothing is written to a namespace, in any later run |
| BootKubeVirt.OverwrittenIsRefused | apps/api/internal/kubevirt/watcher.go:97-131 | another writer carries the marks along, and a call that read before it is refused |
| BootKubeVirt.CrashedIsOver | apps/api/internal/kubevirt/watcher.go:97-131 | a call that crashed neither writes nor counts |
| BootKubeVirt.SharedNamespace.SyncBootStatus | apps/api/internal/kubevirt/watcher.go:73-134 | phase by phase from the annotations it read: Running writes ready-at once and counts a success if started-at parses; Failed, Succeeded and TimedOut write and count one failure unless ready or recorded; others, and unmanaged namespaces, do nothing; it errs exactly if a wanted write was refused or unanswered, and then counts nothing; together this is the machine's read, update and count |
| RateLimit.RecentFromCut | apps/ai-tutor/app/guardrails.py:31-32 | cutting old times from the front of the ordered times leaves as many as a naive count finds recent |
| RateLimit.PopOld | apps/ai-tutor/app/guardrails.py:30-32 | the pop loop leaves exactly as many times as the naive count over the whole history |
| RateLimit.RateLimiter.Check | apps/ai-tutor/app/guardrails.py:26-38 | for non-decreasing times a call is let through exactly if the naive counts over the history of accepted calls are below both limits, and is stopped by the minute's exactly if that one is reached |
| RateLimit.RedisLimiter.Check | apps/ai-tutor/app/ratelimit_redis.py:16-43 | the script lets a call through on the same terms, except that a session idle for over six hours starts over; expiry of the minute set loses nothing |
| RateLimit.MinuteBound | apps/ai-tutor/app/guardrails.py:33-34 | with either backend no half-open minute holds more than the limit of one user's accepted calls |
| RateLimit.SessionBound | apps/ai-tutor/app/guardrails.py:35-38 | in memory a session never exceeds its total between two forgettings |
| RateLimit.RefusedAtLimit | apps/ai-tutor/app/guardrails.py:33-38 | in every run with non-decreasing times, on either backend: a call is accepted exactly if both counts are below their limits; one refused for the minute finds exactly the limit's number of accepted calls of that user less than 60 seconds before, one refused for the session exactly its total of uses |
| RateLimit.RecentCounts | apps/ai-tutor/app/guardrails.py:30-34 | the minute's count is the number of places in the history with an accepted call of that user less than 60 seconds before |
| RateLimit.UsesCount | apps/ai-tutor/app/guardrails.py:35-42 | the session's count in memory is the number of accepted calls of it that no forgetting followed |
| RateLimit.LiveUsesCount | apps/ai-tutor/app/ratelimit_redis.py:30-43 | the session's count in Redis is the number of accepted calls of it since which it was neither forgotten nor idle for over six hours |
| RateLimit.BackendsAgreeIff | apps/ai-tutor/app/ratelimit_redis.py:24-43 | both backends give the same verdict on every call of a run exactly if no call finds a total reached only by uses from before a lapse |
| RateLimit.LapsingRun | apps/ai-tutor/app/ratelimit_redis.py:35-43 | for every session total, a run on which the two backends differ |
| RateLimit.PromptBackendsAgree | apps/ai-tutor/app/ratelimit_redis.py:35-43 | while no session goes six hours without an accepted call the verdicts are the same |
| AnswerLeak.MaskAnswerLeak | apps/ai-tutor/app/guardrails.py:45-63 | at level 3 and above the hint; below, the texts from hint to answer, one command after another: a one-word command changes nothing, any other has each leftmost occurrence become its first word and the inserted text, and every other character stays in its place |
| AnswerLeak.CutsRejoin | apps/ai-tutor/app/guardrails.py:60-62 | replacement cuts at every leftmost occurrence, and putting the command back gives the original text |
| AnswerLeak.CutsUnique | apps/ai-tutor/app/guardrails.py:60-62 | there is only one way to cut a text at leftmost occurrences |
| AnswerLeak.StripTrims | apps/ai-tutor/app/guardrails.py:56 | stripping removes white space at both ends and nothing else |
| AnswerLeak.FirstWordHeads | apps/ai-tutor/app/guardrails.py:61 | the word that stays reaches to the command's first white space |
| AnswerLeak.OneWordIgnored | apps/ai-tutor/app/guardrails.py:57-59 | leaving out the commands without a space does not change the answer |
| AnswerLeak.CleanHintStays | apps/ai-tutor/app/guardrails.py:60-63 | a hint in which no multi-word command occurs is the answer |
| AnswerLeak.OneCommandSwapped | apps/ai-tutor/app/guardrails.py:60-62 | with one multi-word command the answer is the hint with exactly that command swapped |
| AnswerLeak.FillBringsNothing | apps/ai-tutor/app/guardrails.py:60-62 | masking one command neither brings another one back nor leaves an overlapping occurrence of itself, unless that command can blend with the inserted text |
| AnswerLeak.NoLeak | apps/ai-tutor/app/guardrails.py:45-63 | a multi-word command that cannot blend never survives, for all hints, other commands and orders |
| AnswerLeak.SurvivesIff | apps/ai-tutor/app/guardrails.py:45-63 | for every multi-word command: some hint and command list let it through at level 1 or 2 exactly if it can be laid over the inserted text |
| AnswerLeak.AsciiNeverSurvivesIff | apps/ai-tutor/app/guardrails.py:45-63 | an ASCII multi-word command never survives in any hint exactly if it does not start with a closing bracket |
| FileTree.SortSorts | apps/api/internal/kubevirt/cloudinit.go:141 | a directory's entries, the same ones, by strictly increasing name |
| FileTree.ListingExact | apps/api/internal/kubevirt/cloudinit.go:138-169 | the full listing holds exactly the files and directories reachable to depth four by names that are not hidden, through directories that can be read and no links, in strictly increasing path order |
| FileSnapshot.FileWalk.Walk | apps/api/internal/kubevirt/cloudinit.go:138-169 | the recursive walk appends the sorted preorder below a directory, cut at 500 in all, and sets the flag exactly if something was cut |
| FileSnapshot.FileWalk.ListFiles | apps/api/internal/kubevirt/cloudinit.go:171-174 | prints the root and the first 500 of the full listing; each item's path leads to an entry of the printed kind, directory exactly if it is one, with its name and depth; without the truncated flag every such entry is printed, and the flag is set exactly if there are more than 500 |
| FileSnapshot.SplitJoin | apps/api/internal/vmfiles/snapshot.go:120-126 | splitting a joined path gives its names back |
| FileSnapshot.JoinSplit | apps/api/internal/vmfiles/snapshot.go:120-126 | joining the parts of any path gives it back |
| FileSnapshot.JoinedPath | apps/api/internal/vmfiles/snapshot.go:113-126 | a joined path is relative, clean, and its base is the last name |
| FileSnapshot.ListedValidIff | apps/api/internal/vmfiles/snapshot.go:96-127 | a listed entry passes validateEntry exactly if its names have no backslash and no control character |
| FileSnapshot.ValidEntryIff | apps/api/internal/vmfiles/snapshot.go:96-127 | an entry from whatever machine is accepted exactly if it describes one to four plain names, none hidden or a way up: their joined path, the last one, their number, and one of the two kinds |
| FileSnapshot.AcceptedIff | apps/api/internal/vmfiles/snapshot.go:66-76 | a snapshot is accepted exactly if it is of the home directory, has at most 500 items and all of them describe such paths |
| FileSnapshot.HelperAcceptedIff | apps/api/internal/vmfiles/snapshot.go:66-76 | what the helper prints passes the root, size and entry checks exactly if every printed path is plain |
| Billing.BillingStore.CompleteCheckoutSession | apps/api/internal/store/store.go:173-252 | for an owned pending checkout: completed and activated with its plan and the period end exactly if asked no later than its expiry, expired and too late exactly if asked after it, nothing if rolled back, and an error without the reply; a completed one answers the user's row, an expired one is invalid, another user's is not found |
| Billing.BillingStore.CreateCheckoutSession | apps/api/internal/store/store.go:159-168 | a new id gets a pending row with its user, plan and expiry; a used one is an error and changes nothing |
| Billing.StatusOnlyForward | apps/api/internal/store/store.go:193-228 | between any two moments of a run a checkout keeps its user, plan and expiry, and only a pending one changes status |
| Billing.ActivatesOnce | apps/api/internal/store/store.go:226-245 | over every run each checkout activates at most once, for its own plan and no later than its expiry, exactly the completed ones have, and each user's row is the one the last activation wrote |
| Billing.FirstAskDecides | apps/api/internal/store/store.go:193-245 | over every run the first ask of its owner that took effect decides a checkout for good: completed if it came no later than the expiry, expired if it came after it, pending while there was none |
| Billing.InvalidOnlyIfExpired | apps/api/internal/store/store.go:193-208 | an owned checkout is refused as invalid exactly if it expired earlier: a completed one always finds its subscription |
| ConsoleRegistries.ConsoleRegistry.Acquire | apps/api/internal/api/handlers/console_registry.go:42-57 | the new connection is registered and a registered one before it gets one close frame 1000 |
| ConsoleRegistries.ConsoleRegistry.Release | apps/api/internal/api/handlers/console_registry.go:59-65 | removes the registration exactly if this connection still holds the session; a stale release changes nothing |
| ConsoleRegistries.AcquireKeeps | apps/api/internal/api/handlers/console_registry.go:42-57 | the registered console is the latest acquirer exactly while it has not released, and each displaced holder has exactly one normal-closure frame, others none |
| ConsoleRegistries.ReleaseKeeps | apps/api/internal/api/handlers/console_registry.go:59-65 | a release keeps that too, and tells whether the connection was the holder |
| ConsoleRegistries.HolderNotDisplaced | apps/api/internal/api/handlers/console_registry.go:47-55 | whoever still holds a session has not been sent a frame |

## Left out

- HTTP, WebSocket, SSH, Kafka, AWS and Kubernetes clients: only the atomic operation each stands for is modelled.
- Sign-in, cookies, roles and ownership answers.
- The individual shell checks and their regular expressions: one check is a boolean outcome with a type. The reason
  text of a `request_error` is left empty.
- Several partitions of the requests topic: the engine reads one. Messages of it that cannot be parsed are in `Engine`
  and not in `ValidationProtocol`, where the API is the only writer.
- Cached progress agreeing between API replicas: the replicas share the tables only, and no theorem says their
  caches are equal.
- Changes of lab content while sessions run: a lab's steps and checks are constant within a run.
- Liveness (a verdict arrives in the end, a reaper runs in the end): the code gives no fairness to prove it from.
- Exactly one `lab_completed` event: the code may emit it again when a passed step is validated again.
- Sessions of several users in one run of `SessionAllocation`: the lock and the lookup are per user, so a run is
  the projection to one user.
- Errors of providers other than "not found" in `Dispatchers`, and the provider capacities it adds up.
- The limiter letting calls through when Redis is out of reach, and two replicas drawing the same sorted-set member.
- Redis expiry and Python's clock are one clock in `RateLimit`; the seconds are reals, so float rounding is not
  modelled.
- The month arithmetic of a subscription's period end: it is a parameter.
- The decoding of the snapshot's JSON, its byte limit, and the final sort of its items by path.
- Writers of a namespace that start from an old version of it.
- A key delete of the boot counter that takes effect after its attempt's time is over: the attempt's time includes it.
- File contents, `read_file` and its link checks.
- Log texts, tracing, latency bookkeeping and metric labels; boot counters are kept as numbers.
- The web client, the disaster-recovery functions, the leaderboard, the catalogue and document chunking.
