# Verified model of AgentBridge's governed-action kernel

AgentBridge admits a consequential action for an agent, lets it reach its destination at
most once, and settles its cost from evidence. This project models that kernel in Dafny
and proves what it promises, over every run and every interleaving.

| file | models |
|---|---|
| `Totals.dfy`, `Wrappers.dfy` | sums over finite tables; an optional value |
| `Budgets.dfy` | per-agent spend and rate budgets, in the persisted and in the deque form, and what their windows can hold |
| `Ledger.dfy` | claimed operations, reservations, budgets, quota records and one-shot approvals, and the transactions that admit, settle and abort |
| `Fencing.dfy` | fence epochs and the destinations that check them |
| `QueuedDestination.dfy` | the queued-only destination: one signed authorization, one effect, and the read-only observer |
| `Kernel.dfy` | synchronous calls, queued tasks, reviewers and the destination as one step machine |
| `KernelInvariants.dfy` | what every reachable state satisfies, and why each step keeps it |
| `KernelSafety.dfy` | the kernel's promises over whole runs |
| `KernelRecovery.dfy` | cancellations after a decision, and recovery among any other events, over whole runs |
| `KernelProgress.dfy` | what an undisturbed worker achieves, and what blocks a recovery |
| `AgentBudgets.dfy` | every run of the kernel drives each agent's budget by calls that its caps cover |
| `TenantStore.dfy`, `TaskStore.dfy` | the same transactions as methods that update the tables, the workers' memory and the destination in place |
| `Authority.dfy` | the tenant authority directory: revisioned rows, delegations, sealed principals, replay rows |
| `DurableReplay.dfy` | the nonce table of signed requests outside tenants |
| `KeyRegistry.dfy`, `TrustJournal.dfy` | key registries, their rotation, and controller-signed histories with rollback floors |
| `AuditChain.dfy` | the hash-chained audit log, checkpoints, witnesses, truncation |
| `AuditCapacity.dfy` | cached audit counters kept by triggers |
| `StreamLeases.dfy` | fleet-wide stream allocations |

A run is a fold over a sequence of events. An event is one transaction, or one move of a
worker between two transactions, and an event whose checks fail changes nothing, as a
rolled-back transaction does. A worker keeps only what it has read, and may stall or
vanish between any two events. Times and costs are reals and one clock never goes back.
A transaction that admits a task, commits an attempt, settles, closes, cancels or reviews
also writes an audit row; its event carries whether that row fits, and it rolls back if not.
Where the source changes tables in place, a class holds them. A method of the task store
starts from an object that holds a state of the kernel and leaves it holding the kernel's
next state, whichever way its checks turn out.

Idealised: a digest is a constructor, so equal digests have equal contents; a signature is
membership in the set of values that were signed; a private seal is membership in the set of
values that were sealed. A new stream allocation gets an identity that was never issued before;
reservation tokens, attempt identifiers and delegation identifiers need no such assumption.

## Where the code does not meet the expected property

Each of these has a lemma that shows the failure and a lemma that says exactly when it
cannot happen.

- A destination effect cannot always be settled by recovery, and the caller is not told. The
  settling transaction rolls back if the task is waiting for input or authorization
  (`KernelProgress.WaitingTaskBlocksRecovery`), if the worker took more than 300 seconds from
  observing to settling (`KernelRecovery.StaleObservationIsRefused`), if the settlement trust
  no longer stands, or if the audit table is full. For an observation that was really made and
  a task not yet settled, these are all the reasons, in every reachable state
  (`KernelRecovery.SettlementIff`). Over any further events, with any other
  workers in between, the task is settled exactly when one of them settles from an observation
  that somebody made at most 300 seconds before, with trust, room and a lifecycle that can end
  in completed (`KernelRecovery.RecoverySettles`). Repeating recovery changes something exactly
  when the task was not settled before and is then (`KernelRecovery.RecoveryIsIdempotent`).
- A nonce claim samples the clock before it waits for the write lock. A claim that runs after
  its nonce's own freshness has ended can be a second acceptance
  (`DurableReplay.RepeatableIffLate`). The tenant directory does the same, but the principal it
  then returns is already expired (`Authority.ReplaysAreExpired`).
- A journal instance that is shown a revoked key refuses it without raising its floor, so a
  restored store can make the same instance hand the key out again
  (`TrustJournal.ReturnableIffFloorBelow`).
- The witness check indexes the export as given while the chain check sorts it. A checkpoint
  whose hash names an earlier entry than its number says protects only up to that entry
  (`AuditChain.ForkableIffMisnumbered`). Checkpoints taken from a log's head are never of
  that kind.
- Dropping expired times from the left of a deque and filtering them out are the same only if
  the expired times come first, which a clock that moves back can break
  (`Budgets.DropIsFilterIff`).
- The rate cap holds for windows open at their start. A window closed at both ends also counts
  the commits at its first instant: it is within the limit if there are none, and can hold twice
  the limit but never more (`Budgets.ClosedWindowCap`, `Budgets.ClosedWindowExceedsRate`); a
  window of zero seconds can hold any number (`Budgets.ZeroWindowUnbounded`). The limit can be
  exceeded this way exactly by a budget that admits anything at all (`Budgets.ExceedableIff`).

## Model

| member | source | states |
|---|---|---|
| `KernelSafety.DispatchSafety` | src/governance/queued_task_dispatch.py:206-309 | in every reachable state each effect carries the authorization of its own task's one recorded attempt, was sent and signed, and lies in its window; a closed task has no effect |
| `KernelSafety.AttemptComesFirst` | src/governance/queued_task_dispatch.py:258-298 | the only step that makes an effect appear is a delivery, it adds exactly that effect, the attempt row was committed before it, and the attempt then holds its destination fence at its own epoch |
| `KernelSafety.NothingRevised` | src/governance/queued_task_dispatch.py:345-444 | between any two moments of any run every link, decision, result, cancellation, effect, settled operation, token, quota record and spent approval is still there and unchanged |
| `KernelSafety.ClosedForever` | src/governance/queued_task_dispatch.py:206-219 | once closed, a task is failed, unpaid for, without result and without effect in every later state |
| `KernelSafety.SettlementAgrees` | src/governance/queued_task_dispatch.py:345-402 | unknown exactly while undecided or merely attempted, succeeded exactly when a result row with the destination's evidence exists, failed exactly when closed; the money of the operation agrees |
| `KernelSafety.SettledAtMostOnce` | src/governance/owned_settlement.py:14-51 | in every run each operation holds its token at the admitted cost while unknown and has exactly one settlement afterwards; no token is settled twice |
| `KernelRecovery.LateCancelsChangeNothing` | src/governance/queued_task_dispatch.py:421-444 | erasing from any run every cancellation that follows its task's decision leaves the same final state except for the noted requests |
| `KernelRecovery.RecoveryNeverDispatches` | src/governance/queued_task_dispatch.py:405-418 | any number of recoveries with crashes in between authorizes, sends and causes nothing |
| `KernelRecovery.RecoveryIsIdempotent` | src/governance/queued_task_dispatch.py:345-418 | after any events, any further recoveries of a task, interleaved with each other, with crashes and with time, leave books, results, decisions and the destination as they are but for the clock, exactly unless the task was not settled before and one of them settles it |
| `KernelRecovery.RecoverySettles` | src/governance/queued_task_dispatch.py:326-418 | from any reachable state in which the recorded attempt's effect is at the destination, through any events at all: the task is settled, once, from that effect and by its own token, exactly when one of the events is a settlement with trust and audit room from an observation made on the way at most 300 seconds before, while the lifecycle can end in completed; otherwise the operation stays unknown and its money held |
| `KernelRecovery.SettlementIff` | src/governance/queued_task_dispatch.py:345-402 | in every reachable state and for every observation, with the trust journal and the audit table in place of their answers: the settling transaction settles exactly when the observation was really made and is recent, the task is unsettled and can end in completed, both keys stand in the journal as the descriptor names them, and a recount would admit one more audit row; otherwise it changes nothing |
| `KernelRecovery.SealsAreObserved` | src/governance/queued_task_dispatch.py:326-342 | after any events there is a seal for exactly what was sealed before or what a recovering worker observed of its task's own effect on the way |
| `KernelRecovery.RunKeepsSane` | src/governance/readback_attestations.py:148-154 | in every run no observation is from the future and none is of an effect committed after its second |
| `KernelRecovery.StalledRecovery` | src/governance/readback_attestations.py:148-154 | a worker that waits between observing and settling settles exactly if, besides trust, room and lifecycle, the clock has moved on by at most 300 whole seconds |
| `KernelRecovery.StaleObservationIsRefused` | src/governance/queued_task_dispatch.py:412-418 | a wait of 301 seconds leaves task and books as they were although trust and room are there |
| `KernelRecovery.PromptRecovery` | src/governance/queued_task_dispatch.py:405-418 | in every reachable state a recovery that does not wait settles exactly with trust, room and a lifecycle that can end in completed |
| `KernelRecovery.TrustIsTwoResolutions` | src/governance/signing_trust_journal.py:291-325 | the journal hands out both settlement keys exactly when both resolve |
| `KernelSafety.GatewaySafety` | src/governance/gateway.py:158-206 | a synchronous success was answered by its target or decided by a reviewer; what was canceled before sending was not sent; only what was sent was answered |
| `KernelSafety.CanceledNeverInvoked` | src/governance/gateway.py:166-182 | after a cancellation before sending, no later state has the operation sent or answered |
| `KernelSafety.UnknownKeepsReservation` | src/governance/gateway.py:240-245 | a call that raises or crashes leaves the books as they were, with an unknown operation's money reserved for exactly the admitted cost |
| `KernelSafety.StepTransacts` | src/governance/gateway.py:232-265 | every step of the kernel, synchronous or queued, changes the books by one admission, by one settlement, or not at all |
| `KernelSafety.Conservation` | src/governance/admission_quotas.py:210-249 | in every run spent plus reserved over all agents equals the cost of unknown and succeeded operations, so unattributed spend is zero and an owner's spend is the owner's own |
| `KernelSafety.QuotaCaps` | src/governance/admission_quotas.py:264-295 | while one enabled policy is in force, spend, active work and the rate of every window stay within the caps of the tenant and of each owner |
| `KernelSafety.TenantWithinPolicy` | src/governance/admission_quotas.py:264-295 | the same for every run of a tenant that starts empty |
| `KernelProgress.DispatchCompletes` | src/governance/queued_task_dispatch.py:222-309 | from any reachable state an undisturbed dispatch followed by anybody's recovery executes the task once, with the signed authorization, and settles the books as succeeded |
| `KernelProgress.DispatchExecutes` | src/governance/queued_task_dispatch.py:236-298 | load, fence, expiry, attempt, send and delivery leave exactly one attempt row, one signed and sent authorization and one effect |
| `KernelProgress.WaitingTaskBlocksRecovery` | src/governance/queued_task_dispatch.py:395-418 | a dispatched task that then waits for input or authorization has its effect at the destination, and whatever happens until somebody moves it on, its operation stays unknown and its money held |
| `KernelProgress.AdmittedIsDispatchable` | src/governance/task_admission.py:65-98 | an admission leaves exactly a task that the first-dispatch loader accepts |
| `KernelProgress.FirstTaskSucceeds` | src/governance/queued_task_dispatch.py:222-418 | from an empty tenant, one admission, one dispatch and one recovery leave one effect, the admitted action, and the agent has paid exactly its cost |
| `AgentBudgets.AgentCaps` | src/governance/budget.py:202-248 | in every reachable state of the kernel every agent's exposure is within its spend limit, and every window holds at most the rate limit of its successes, or twice that if closed |
| `KernelProgress.CallCompletes` | src/governance/gateway.py:158-206 | an admitted and answered synchronous call settles as succeeded at its admitted cost |
| `KernelInvariants.StepKeepsInv` | src/governance/queued_task_dispatch.py:206-444 | every event keeps the agreement between books, calls, links, decisions, results, seals and effects |
| `KernelInvariants.RunKeepsInv` | src/governance/queued_task_dispatch.py:206-444 | so does every sequence of events |
| `KernelInvariants.QueueAligned` | src/governance/queued_task_dispatch.py:206-219 | every queue transaction keeps links and statuses in agreement with the operation, reservation and quota rows |
| `KernelInvariants.QueueEvidenced` | src/governance/queued_task_dispatch.py:326-402 | every queue step keeps decisions, messages, effects, seals and results in agreement |
| `KernelInvariants.GatewayCalls` | src/governance/gateway.py:158-265 | every step of a synchronous call keeps what its worker remembers in agreement with the stored admission |
| `KernelInvariants.GatewayTouches` | src/governance/gateway.py:232-265 | abort, settle and reconcile are each one settlement of the operation's own token |
| `KernelInvariants.QueueTouches` | src/governance/queued_task_dispatch.py:206-219 | rejection, cancellation before an attempt and verified completion are each one settlement of the link's own token |
| `TaskStore.Tasks.Close` | src/governance/queued_task_dispatch.py:206-219 | inserts the decision, releases, ends the task and appends the audit row, or undoes what it did; succeeds exactly for a task without decision whose own reservation is held, whose lifecycle can end and whose audit row fits |
| `TaskStore.Tasks.CancelTask` | src/governance/queued_task_dispatch.py:421-444 | leaves exactly the state after the kernel's cancel step, whether it closes, notes or refuses |
| `TaskStore.Tasks.LoadAdmitted` | src/governance/queued_task_dispatch.py:86-110 | accepts exactly an untouched working task with its exact held reservation and its spent approval |
| `TaskStore.Tasks.FindSpent` | src/governance/queued_task_dispatch.py:86-110 | finds a consumed approval of this agent and scope if there is one |
| `TaskStore.Tasks.CommitAttempt` | src/governance/queued_task_dispatch.py:258-286 | leaves exactly the state after the kernel's attempt step: decision, signed set and worker memory, also when the transaction rolls back after signing |
| `TaskStore.Tasks.SignAttempt` | src/governance/queued_task_dispatch.py:258-286 | attempts exactly when the loader accepts and the earliest deadline has not passed; the authorization binds link, attempt, epoch and window; a rollback keeps only the signature |
| `TaskStore.Tasks.EarliestDeadline` | src/governance/queued_task_dispatch.py:265-269 | no later than the authority, the fence or the call timeout allow |
| `TaskStore.Tasks.AdmitTask` | src/governance/task_admission.py:65-98 | an admitted request is the kernel's admission of it; if none is admitted, the kernel admits none for any grant |
| `TaskStore.Tasks.AdmitAndLink` | src/governance/task_admission.py:65-98 | admission, unique link and audit row happen together or not at all, and fail only if the link is taken, the row does not fit or no grant is admissible |
| `TaskStore.Tasks.Begin` | src/governance/queued_task_dispatch.py:222-236 | leaves exactly the state after the kernel's load step |
| `TaskStore.Tasks.Reject` | src/governance/queued_task_dispatch.py:238-247 | leaves exactly the state after the kernel's rejection step |
| `TaskStore.Tasks.CloseShort` | src/governance/queued_task_dispatch.py:238-247 | closes exactly a dispatchable task whose result allowance cannot hold the evidence |
| `TaskStore.Tasks.TakeFence` | src/governance/queued_sqlite_adapter.py:37-42 | leaves exactly the state after the kernel's fence step, at the worker and at the destination |
| `TaskStore.Tasks.ReadExpiry` | src/governance/queued_sqlite_adapter.py:41-42 | leaves exactly the state after the kernel's expiry step |
| `TaskStore.Tasks.Send` | src/governance/queued_task_dispatch.py:287-294 | leaves exactly the state after the kernel's send step: the worker hands its authorization over once |
| `TaskStore.Tasks.Deliver` | src/governance/queued_sqlite_adapter.py:50-53 | leaves exactly the state after the kernel's delivery step |
| `TaskStore.Tasks.Recover` | src/governance/queued_task_dispatch.py:405-411 | leaves exactly the state after the kernel's recover step |
| `TaskStore.Tasks.Observe` | src/governance/queued_task_dispatch.py:326-342 | leaves exactly the state after the kernel's observe step |
| `TaskStore.Tasks.SealObservation` | src/governance/queued_task_dispatch.py:326-342 | seals exactly an observed effect that matches the recorded attempt |
| `TaskStore.Tasks.FinishVerified` | src/governance/queued_task_dispatch.py:345-402 | leaves exactly the state after the kernel's finish step, and says whether it settled |
| `TaskStore.Tasks.StoreResult` | src/governance/queued_task_dispatch.py:364-401 | stores the result, charges the token and completes the task exactly for a sealed, fresh, matching readback whose audit row fits, or undoes what it did |
| `TaskStore.Tasks.Reconcile` | src/governance/reconciliation.py:142-176 | leaves exactly the state after the kernel's reconcile step: settles exactly an unresolved operation that no task owns, by its own token |
| `TenantStore.Store.TotalExposure` | src/governance/admission_quotas.py:210-218 | the accumulating loop over budgets computes the tenant's total exposure |
| `TenantStore.Store.MeasureUsage` | src/governance/admission_quotas.py:210-249 | computes the usage the quota check compares, including rows without a quota record |
| `TenantStore.Store.AdmitQuota` | src/governance/admission_quotas.py:264-295 | records the operation exactly when the history has room and, under an enabled policy, every cap has room |
| `TenantStore.Store.ReserveBudget` | src/governance/budget.py:202-222 | reserves exactly when the pruned budget can afford the cost, and then holds it under the token; a refusal stores only the pruning |
| `TenantStore.Store.AttachReservation` | src/governance/operation_ledger.py:127-165 | links exactly a pending token of this agent that no operation has, to an unresolved operation that has none |
| `TenantStore.Store.ConsumeApproval` | src/governance/approvals.py:94-109 | spends the first listed approved row of this agent and scope, and fails only if there is none |
| `TenantStore.Store.ClaimAndReserve` | src/governance/gateway.py:475-514 | claim, quota record, reservation and link all happen, exactly when admissible, or nothing does |
| `TenantStore.Store.AdmitTransaction` | src/governance/gateway.py:475-532 | the whole admission with the first listed approval; a refusal leaves every table as it was and means that no grant would have made it admissible |
| `TenantStore.Store.SettleOwned` | src/governance/owned_settlement.py:25-51 | settles exactly by the operation's own token at the expected amount, moving budget and state together |
| `TenantStore.Store.CommitBudget` | src/governance/budget.py:224-238 | moves the held cost to spent and records the time, exactly if the token is held; otherwise only seeds a missing budget |
| `TenantStore.Store.ReleaseBudget` | src/governance/budget.py:240-248 | drops the token and says whether it was held |
| `TenantStore.Store.AbortAdmission` | src/governance/gateway.py:232-238 | releases and fails exactly an operation that is still unknown |
| `Ledger.AdmitSound` | src/governance/gateway.py:475-532 | an admission keeps all books in agreement: rows, tokens, charges, conservation, log and approvals |
| `Ledger.SettleSound` | src/governance/owned_settlement.py:25-51 | a settlement keeps all books in agreement |
| `Ledger.AdmitTotal` | src/governance/budget.py:202-222 | an admission adds its cost to the tenant's exposure and to the charged operations |
| `Ledger.SettleTotal` | src/governance/budget.py:224-248 | a failed settlement takes the cost off the tenant's exposure, a successful one leaves it |
| `Ledger.SettleSpent` | src/governance/budget.py:224-238 | every agent has paid for its succeeded operations once each and nothing else |
| `Ledger.AdmitTokens` | src/governance/operation_ledger.py:127-165 | no two operations of an agent share a token, and no held token is without an operation |
| `Ledger.AdmitGrants` | src/governance/approvals.py:94-109 | an approval admits at most one operation |
| `Ledger.SettleLogged` | src/governance/operation_ledger.py:179-198 | each operation that has left unknown has one truthful settlement entry |
| `Ledger.UnresolvedSettles` | src/governance/gateway.py:232-238 | an abort on agreeing books is a failed settlement of the own token |
| `Ledger.NothingUnattributed` | src/governance/admission_quotas.py:239-245 | on conserved books nothing is unattributed and an owner is charged only for its own operations |
| `Ledger.ActiveCountsAll` | src/governance/admission_quotas.py:219-238 | every unknown operation counts once for the tenant and once for each owner that answers for it, with or without a quota record |
| `Ledger.RecentCountsAll` | src/governance/admission_quotas.py:219-238 | the same for every operation in the rate window |
| `Ledger.SpendHidesNothing` | src/governance/admission_quotas.py:239-245 | on any tables an owner is charged for all spend that is not recorded against somebody else |
| `Ledger.AdmitCapped` | src/governance/admission_quotas.py:264-295 | an admission under an enabled policy keeps every cap |
| `Ledger.SettleCapped` | src/governance/owned_settlement.py:25-51 | a settlement keeps every cap |
| `Ledger.AdmitWindowCapped` | src/governance/admission_quotas.py:219-232 | the check at admission time bounds every window of the policy's width, not only the current one |
| `QueuedDestination.FencedSqliteTarget.Acquire` | src/governance/fenced_sqlite_destination.py:202-228 | grants exactly a free or expired scope to a bounded request, at the next epoch |
| `QueuedDestination.FencedSqliteTarget.CommitQueued` | src/governance/fenced_sqlite_destination.py:284-368 | commits exactly an authentic authorization in its window, under its own live fence, before and after signing, for an unused operation and attempt; otherwise changes nothing |
| `QueuedDestination.FencedSqliteTarget.FindAttempt` | src/governance/fenced_sqlite_destination.py:284-368 | says whether any effect used this attempt |
| `QueuedDestination.FencedSqliteTarget.Observe` | src/governance/sandbox_readback.py:202-278 | reports exactly a committed row that matches the authorization and action inside its window |
| `Fencing.FenceSafety` | src/governance/pg_fencing.py:42-83 | over all runs, per scope: epochs strictly rise across grants, writes and renewals follow the newest grant while it is live, and each operation is written once |
| `Fencing.DeadStaysDead` | src/governance/pg_fencing.py:60-94 | an owner and epoch that have expired or been superseded never hold the fence again |
| `Fencing.StepKeepsInv` | src/governance/fenced_postgres_destination.py:46-95 | every grant, renewal and fenced write keeps the fence row the newest entry of its history |
| `Fencing.PgFencing.Acquire` | src/governance/pg_fencing.py:42-58 | grants exactly a missing or expired scope, one epoch higher |
| `Fencing.PgFencing.Renew` | src/governance/pg_fencing.py:60-83 | extends exactly the live owner and epoch |
| `Fencing.PgFencing.Check` | src/governance/pg_fencing.py:85-94 | says whether this owner and epoch hold the fence now |
| `Fencing.FencedPostgresDestination.Commit` | src/governance/fenced_postgres_destination.py:46-95 | writes one effect exactly for well-formed names and epoch, under the live fence, if the operation has none; malformed and stale requests are told apart |
| `Budgets.BudgetCaps` | src/governance/budget.py:202-248 | on every trace spent plus reserved stays within the spend limit and every sliding window has at most the rate limit of commits, although old times are discarded |
| `Budgets.CommitConserves` | src/governance/budget.py:86-93 | a commit moves the cost from reserved to spent and leaves the exposure |
| `Budgets.DequeRefinesPersisted` | src/governance/budget.py:46-104 | on every trace with a nondecreasing clock the deque form gives the same answers and the same state as the persisted form |
| `Budgets.DropIsFilterIff` | src/governance/budget.py:129-131 | dropping from the left equals filtering exactly when the expired times come first |
| `Budgets.BackwardClockSeparates` | src/governance/budget.py:51-56 | a clock that moves back makes the two prunings differ |
| `Budgets.ClosedWindowCap` | src/governance/budget.py:51-56 | on every trace a closed window counts the half-open one and the commits at its first instant: within the limit if there are none, within twice the limit always |
| `Budgets.ClosedWindowExceedsRate` | src/governance/budget.py:51-56 | for every limit a trace reaches exactly twice the limit in a closed window |
| `Budgets.ZeroWindowUnbounded` | src/governance/budget.py:51-56 | with a window of zero seconds any number of commits fits one instant |
| `Budgets.ExceedableIff` | src/governance/budget.py:51-74 | some trace exceeds the limit in a closed window exactly if rate limit, spend limit and window let anything be admitted |
| `Budgets.BudgetObject.Prune` | src/governance/budget.py:51-56 | the popleft loop drops the expired times at the front |
| `Budgets.BudgetObject.CanAfford` | src/governance/budget.py:64-74 | the probe of the deque form, with its pruning |
| `Budgets.BudgetObject.TryReserve` | src/governance/budget.py:76-84 | the reservation step of the deque form |
| `Budgets.BudgetObject.TryCommit` | src/governance/budget.py:86-93 | the commit step of the deque form |
| `Budgets.BudgetObject.TryRelease` | src/governance/budget.py:95-98 | the release step of the deque form |
| `Totals.Total` | src/governance/budget.py:134-135 | one pass over the rows in any order computes their sum |
| `Authority.DelegationIsFresh` | src/governance/authority.py:353-402 | whenever a delegated principal is accepted, tenant, agent, user, grantor and grant rows are active and exactly as when the grant was made, its scopes are within those of the user and the agent as enrolled now, and it ends within the hour |
| `Authority.StaleForever` | src/governance/authority.py:379-402 | a principal that was refused once is refused in every later state |
| `Authority.ChangeRefuses` | src/governance/authority.py:353-402 | any change to any row an accepted principal depends on refuses it in every later state that shows the change |
| `Authority.GrantHoldsAtOnce` | src/governance/authority.py:579-623 | a granted delegation holds at once inside its window, with every pinned revision current |
| `Authority.RequestIsAccepted` | src/governance/authority.py:635-672 | while a delegation holds, a fresh unclaimed request of bounded size, signed by the enrolled key, is accepted and its principal has exactly the delegated scopes |
| `Authority.AcceptedIsSigned` | src/governance/authority.py:646-672 | in every reachable state an accepted agent principal's request, delegation and body were signed with the key that is enrolled for the agent now |
| `Authority.NeverLockedOut` | src/governance/authority.py:506-515 | once there was a platform administrator there is always an active one |
| `Authority.TenantConfinement` | src/governance/authority.py:421-426 | an actor who is not a platform administrator changes no row of another tenant or of the platform |
| `Authority.ReplaysAreExpired` | src/governance/authority.py:635-695 | a second claim of the same signed request yields a principal that was expired on arrival and is refused |
| `Authority.AtomicClaimsAreUnique` | src/governance/authority.py:635-672 | if the freshness test and the claim are one step, no request is claimed twice in any run |
| `Authority.GrantOrigin` | src/governance/authority.py:579-623 | a grant pins active rows at their current revisions and gives no more than the user and agent have |
| `Authority.StepAdvances` | src/governance/authority.py:484-633 | every change of a row takes a higher revision, so a revision names one row forever |
| `Authority.RunKeepsInv` | src/governance/authority.py:484-695 | every run keeps principals, delegations, administrators and claims in agreement with the rows |
| `Authority.AuthorityDirectory.Check` | src/governance/authority.py:307-402 | accepts exactly a sealed, unexpired principal whose rows have not moved |
| `Authority.AuthorityDirectory.CheckGrant` | src/governance/authority.py:353-377 | accepts exactly an active delegation in its window whose pinned rows have not moved |
| `Authority.AuthorityDirectory.CheckAdmin` | src/governance/authority.py:421-426 | accepts exactly a current platform administrator, or a current administrator of this tenant |
| `Authority.AuthorityDirectory.RevokePlatformAdmin` | src/governance/authority.py:506-515 | revokes an active administrator, but not the last one |
| `Authority.AuthorityDirectory.GrantDelegation` | src/governance/authority.py:579-623 | grants exactly within consent, lifetime and both scopes, and stores the pinned revisions |
| `Authority.AuthorityDirectory.AgentPrincipal` | src/governance/authority.py:270-289 | derives the principal from the enrollment rows, expiring no later than the delegation |
| `Authority.AuthorityDirectory.AuthenticateAgent` | src/governance/authority.py:635-672 | accepts exactly a bounded, fresh, unclaimed request signed by the key of an active agent, under a holding delegation if it names one, claims it and returns its principal |
| `Authority.AuthorityDirectory.PruneReplays` | src/governance/authority.py:685-695 | deletes the oldest rows beyond the retention, at most the limit |
| `Authority.OldestBefore` | src/governance/authority.py:692-695 | selects the oldest rows before a time, at most the limit |
| `DurableReplay.SecondClaimsAreLate` | src/governance/durable_replay.py:16-60 | in any run a second acceptance of a nonce ran after the nonce's own freshness had ended |
| `DurableReplay.RepeatableIffLate` | src/governance/durable_replay.py:28-46 | a fresh claim can be a second acceptance exactly when it runs after the nonce's freshness has ended |
| `DurableReplay.PromptClaimsAreUnique` | src/governance/durable_replay.py:28-46 | if the clock does not move between the sample and the transaction, no nonce is accepted twice |
| `DurableReplay.NonceStore.ClaimNonce` | src/governance/durable_replay.py:16-60 | prunes with the sampled cutoff and accepts exactly a fresh nonce of at most 256 characters, 16 of them random, without a row |
| `KeyRegistry.BuildRegistry` | src/governance/observer_key_registry.py:20-45 | accepts exactly a nonempty list of well-formed keys with distinct identities and distinct normalised material |
| `KeyRegistry.ValidIsConsistent` | src/governance/observer_key_registry.py:20-45 | in an accepted registry no two identities share key material |
| `KeyRegistry.ValidateRotation` | src/governance/observer_key_registry.py:55-81 | the loops accept exactly the allowed rotations |
| `KeyRegistry.RotationIsNotTransitive` | src/governance/observer_key_registry.py:76-78 | two allowed rotations need not be one |
| `KeyRegistry.EvolvesTransitive` | src/governance/observer_key_registry.py:63-81 | the weaker relation that histories satisfy does compose |
| `TrustJournal.HistoryEvolves` | src/governance/signing_trust_journal.py:192-229 | between any two revisions of an accepted history keys persist, keep their material and only move forward, and an active domain stays active |
| `TrustJournal.MaterialNeverReassigned` | src/governance/signing_trust_journal.py:192-229 | key material never appears under another identity anywhere in an accepted history |
| `TrustJournal.StagedFirst` | src/governance/signing_trust_journal.py:221-225 | a key that was not in the first revision entered staged |
| `TrustJournal.PublishRefinesLoad` | src/governance/signing_trust_journal.py:231-277 | the incremental check accepts exactly what revalidating the extended history would |
| `TrustJournal.SameHeadSameHistory` | src/governance/signing_trust_journal.py:192-229 | two accepted histories with the same head digest agree in every signed field |
| `TrustJournal.RevisionsNeverDecrease` | src/governance/signing_trust_journal.py:227-325 | against any sequence of stores the revisions used per domain never decrease |
| `TrustJournal.ReturnableIffFloorBelow` | src/governance/signing_trust_journal.py:291-325 | a revoked key can be handed out again exactly when the floor is below the revoking revision, if the controller signs one envelope per revision |
| `TrustJournal.RevokedForGood` | src/governance/signing_trust_journal.py:227-228 | once the floor has reached the revoking revision no later call hands the key out |
| `TrustJournal.SeenRevokedThenReturned` | src/governance/signing_trust_journal.py:314-320 | a refused lookup leaves the floor, so a rolled-back store makes the same instance return the key |
| `TrustJournal.SigningTrustJournal.Verify` | src/governance/signing_trust_journal.py:159-190 | accepts exactly a bounded, ordered, valid and signed envelope |
| `TrustJournal.SigningTrustJournal.Load` | src/governance/signing_trust_journal.py:192-229 | the loop over stored rows accepts exactly a valid history and returns its head |
| `TrustJournal.SigningTrustJournal.ResolveKey` | src/governance/signing_trust_journal.py:306-322 | returns exactly an active key of a valid history not behind the floor, and then raises the floor to it |
| `TrustJournal.SigningTrustJournal.SettlementKeys` | src/governance/signing_trust_journal.py:291-325 | resolves both domains in order; a refusal in the second keeps the first domain's floor |
| `TrustJournal.SigningTrustJournal.PublishEnvelope` | src/governance/signing_trust_journal.py:231-277 | appends exactly a valid next envelope at or above the floor and leaves a valid history; republishing the head changes nothing |
| `AuditChain.WitnessedHistoryCannotFork` | src/governance/external_anchor.py:119-126 | any two exports, in any order, accepted against one witness of an issued checkpoint agree on every entry below it |
| `AuditChain.AnchoredAgree` | src/governance/external_anchor.py:119-126 | for any checkpoint they agree up to the entry its hash names |
| `AuditChain.ForkableIffMisnumbered` | src/governance/external_anchor.py:121-126 | for the head of a real chain two accepted exports can differ below the checkpoint's number exactly when the number is too large |
| `AuditChain.EqualBelow` | src/governance/audit.py:135-158 | equal hashes at one position make two chains equal up to it |
| `AuditChain.SortArrangement` | src/governance/audit.py:145-147 | any arrangement of a linked list sorts back to it |
| `AuditChain.TruncationVerifies` | src/governance/audit.py:205-228 | dropping all entries below a number from any export of a complete chain leaves a list that verifies |
| `AuditChain.TruncationMeetsCheckpoint` | src/governance/audit_verify.py:43-66 | what is left meets a checkpoint of the chain exactly when truncation has not gone past it |
| `AuditChain.Gluing` | src/governance/audit.py:135-158 | a verified prefix and a verified suffix anchored at its head form a verified complete chain |
| `AuditChain.DurableLogVerifies` | src/governance/store.py:321-360 | after any appends, truncations, holds and signings the stored log verifies, is a nonempty end of everything ever appended, and the whole of it verifies from genesis |
| `AuditChain.CheckpointsMet` | src/governance/audit_verify.py:18-66 | every signed checkpoint is well issued, and what is left meets it exactly if truncation has not passed it |
| `AuditChain.VerifyChain` | src/governance/audit.py:135-158 | the loop accepts exactly a contiguous linked chain with recomputed hashes, from genesis if asked |
| `AuditChain.VerifyAnchored` | src/governance/external_anchor.py:80-129 | the witness check on the list as given |
| `AuditChain.VerifyBundle` | src/governance/audit_verify.py:18-66 | the checkpoint check on complete and truncated logs |
| `AuditChain.FindNumber` | src/governance/audit_verify.py:63-65 | finds the entry with this number if there is one |
| `AuditChain.AuditLog.AppendEntry` | src/governance/store.py:345-360 | appends one entry linked to the durable head |
| `AuditChain.AuditLog.TruncateBefore` | src/governance/store.py:321-343 | drops the entries below a number and counts them, unless in production, held, past the head, or while any operation, link, open task or pending reservation is kept |
| `AuditChain.AuditLog.SetLegalHold` | src/governance/audit.py:196-200 | sets the hold |
| `AuditChain.AuditLog.SignCheckpoint` | src/governance/audit.py:170-180 | signs the number after the head and the head's hash |
| `AuditCapacity.CountersAgree` | src/governance/audit_capacity.py:47-119 | from any legacy table, after any accepted or refused statements, the policy row is absent or its counters equal a scan |
| `AuditCapacity.PolicyStays` | src/governance/audit_capacity.py:118-119 | once there is a policy row there always is one |
| `AuditCapacity.InsertIffFits` | src/governance/audit_capacity.py:87-100 | the cached counters admit an insert exactly when a full recount would |
| `AuditCapacity.UpdateIffFits` | src/governance/audit_capacity.py:104-117 | the cached counters admit an update exactly when a full recount would |
| `AuditCapacity.AuditTable.InsertRow` | src/governance/audit_capacity.py:81-100 | the insert triggers, with lazy creation of the policy row |
| `AuditCapacity.AuditTable.UpdateRow` | src/governance/audit_capacity.py:104-117 | the update trigger |
| `AuditCapacity.AuditTable.DeleteRow` | src/governance/audit_capacity.py:101-103 | the delete trigger |
| `AuditCapacity.AuditTable.SetPolicy` | src/governance/audit_capacity.py:240-276 | a policy change and the note about it happen together or not at all |
| `AuditCapacity.AuditTable.Scan` | src/governance/audit_capacity.py:47-66 | the scan computes the stored bytes |
| `StreamLeases.CapsHold` | src/governance/durable_stream_leases.py:114-151 | in every reachable state the fleet, tenant and owner caps hold, and an expiry never passes the deadline set at allocation |
| `StreamLeases.DeadStaysDead` | src/governance/durable_stream_leases.py:128-137 | an expired or released allocation is never live again |
| `StreamLeases.LifetimeBounded` | src/governance/durable_stream_leases.py:125-137 | a live lease is younger than the configured lifetime, however often renewed |
| `StreamLeases.ReleaseRemovesOwn` | src/governance/durable_stream_leases.py:139-144 | release removes the exact allocation and no other row |
| `StreamLeases.LeaseTable.Allocate` | src/governance/durable_stream_leases.py:114-126 | prunes and allocates exactly when fleet, tenant and owner have room |
| `StreamLeases.LeaseTable.Extend` | src/governance/durable_stream_leases.py:128-137 | renews exactly a live allocation of this scope, up to its deadline |
| `StreamLeases.LeaseTable.Free` | src/governance/durable_stream_leases.py:139-144 | deletes the exact allocation |

## Left out

- Cryptography, canonical JSON, HTTP, OIDC tokens and SQL schema qualification: digests, signatures and verified tokens are ideal values, and a well-formed row is assumed to parse, except in journal histories where a row may be corrupt.
- Floating point: costs and times are reals, so rounding in sums and comparisons is not modelled.
- The policy engine, target resolution, the authority guard around an admission and the operator review of a settlement: each is a decision that an event either carries or does not.
- A changed target configuration: observing also refuses when the target that is now configured differs from the stored descriptor, which needs a rebuilt kernel; recovery is stated for an unchanged configuration.
- Byte limits of lifecycle events and result records: room for a task's terminal event is reserved when the task is created, and the fixed limits of the parts of a result record fit its allowance.
- The contents of audit records written inside kernel transactions: whether the record fits is part of each transaction, what it says is not.
- Legacy embeddings whose budget, ledger and approvals do not share one store: their weaker contract is not modelled.
- `set_budget`, `charge` and the in-memory store: they overwrite or bypass reservations and belong to no shared-store path.
- PostgreSQL isolation levels and advisory locks: each locked block is one atomic step.
- The HTTPS and PostgreSQL observers, receipts of the unqueued destinations and `SandboxTarget`: they repeat the modelled checks for other transports.
- The unqueued `FencedSqliteTarget.commit`: it makes the fence and duplicate checks of the PostgreSQL destination in another database.
- `checkpoint_capacity`, `evidence_journal_capacity` and the journal's own capacity counters: they recount by scan; in the journal, room for one more envelope is an input.
- Shutdown, retries of transient store errors and the worker slot: a worker that cannot start does not take an event.
- Kernel.Apply: a sent authorization may be delivered late, more than once or never, which is more than the synchronous destination call can do, so every promise also covers a lost acknowledgement.
- Kernel.IsReason: counts characters where the source counts UTF-8 bytes, and knows only ASCII blanks.
- Authority.Enabled: does not model the length and wildcard checks on scopes and identifiers.
- The spelling of a nonce's time: its length and its value are given, and a text that is no number is not modelled.
- TenantStore.Store.ReserveAndAttach: leaves budgets and reservations unspecified after a refusal, because its caller restores them.
