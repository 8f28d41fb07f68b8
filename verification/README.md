# Verification of mod_parrot's core

mod_parrot embeds Parrot interpreters in Apache. Under the calls into both sits state-machine
code in C, with some PIR and Perl 6 around it: a lock protocol for pools of contexts, a life
cycle that ties contexts, interpreters, APR pools and named pools together, a dispatcher that
finds out which module a shared callback is for from a counter alone, readers of request
bodies, and the configuration and text code. This project models that code in Dafny and proves
what it keeps and promises over every input, every run and every interleaving.

`dafny verify dfyconfig.toml` checks the whole project.

## How the model is laid out

| file | what it models |
|---|---|
| `LockProtocol.dfy`, `LockLimits.dfy` | `reserve_ctx` and `release_ctx` of a threaded server as atomic steps of any number of threads on any number of contexts |
| `Lifecycle.dfy`, `Reachable.dfy`, `Runs.dfy` | `init_ctx`, `clone_ctx_state`, `modparrot_startup`, the pool functions and teardown as functions on a value (`World`), the invariant of every reachable world, theorems about whole runs |
| `Memory.dfy` | which APR pool a context lives in, and what is left after `modparrot_cleanup` |
| `Contexts.dfy` | the same operations on objects changed in place; `view` is the `World` they make up, and each method computes the function of its name on it |
| `Registry.dfy`, `Modules.dfy` | `modparrot_add_module` on values and on objects: registry, handler index, Apache's chain of modules |
| `Dispatch.dfy`, `Phases.dfy`, `Handling.dfy`, `ChildInit.dfy` | the phase handlers and meta handlers as functions on a `World`; the order of dispatch, the pool a handler runs in, when a call faults, what stays locked |
| `Serving.dfy` | what `init_ctx`, a setup handler and a meta handler come to, in terms of the program's own data: the context given, how a call ends, the pool it runs in, what the handler finds |
| `Interleaving.dfy`, `Witnesses.dfy` | connections side by side, with any handlers of the others in between; a small server in which the failures do happen |
| `Handlers.dfy` | the handlers on the objects of `Contexts.dfy`; each computes its function of `Dispatch.dfy` |
| `BodyRead.dfy`, `BodyHandle.dfy` | `modparrot_request_read`, the POST loop, the file handle over a request body |
| `ServerConfig.dfy` | `ParrotOptions` and the server merge |
| `CgiHeaders.dfy`, `SearchPaths.dfy`, `Texts.dfy` | the CGI header splitter, the search-path loops, splitting and joining |

In the class layer a method's contract equates the new `view` with a function of the old one,
so every theorem about the functions speaks about the objects: a run of methods is a run of
`Runs.Op` steps. A handle is what Apache passes in and the code only stores (a request, a
connection). Interpreter start-up is a flag `ok` that the caller supplies, since whether
Parrot starts is decided outside this code. `Fault` is the outcome of using a null context, and
`BadIndex` that of reading `handler_modules` past its end or through NULL; the C code has no guard
at either place.

## What the proofs found

- `reserve_ctx(pool, MP_CTX_ANY)` can return NULL, threads holding at most one context each, if
  and only if there are more threads than contexts (`LockLimits.FailureNeedsMoreThreadsThanContexts`).
- `release_ctx` does not check who calls it. The one-to-one correspondence of lock bits and
  holders survives a release if and only if no other thread holds the context
  (`LockLimits.ReleaseKeepsExclusionIff`).
- `select_ctx_pool` creates a missing section pool and then returns the NULL it had looked up
  (`src/mod_parrot.c:185-192`). `Handling.IsolationIff` says exactly when the handler still runs in
  the intended pool, `Handling.CallFaultsIff` exactly when the call ends in a null access instead, and
  `Witnesses.FirstUseFaults` gives a server, reached from boot, on which it does.
- After a context swap the handler releases the context the connection stays bound to
  (`src/mod_parrot.c:471-474`). `Handling.CarrierStaysReservedIff` says when it stays reserved.
  Another connection's setup handler then disturbs the module counter if and only if it claims that
  context (`Interleaving.SetupResumesIff`), which `Witnesses.RewindHappens` shows to happen. A connection
  whose context no other APR pool knows and whose calls need no swap is served in add order whatever
  the others do (`Interleaving.ServedInOrder`).
- A subrequest rewinds the counter of the phase around it; that phase goes on in order if and only
  if the nested one made as many calls as had been made before it (`Phases.NestedPhaseShifts`).
- A context lives in the APR pool its pool was started in. A server hands out contexts of allocated
  memory if and only if that APR pool has not been destroyed (`Memory.ServedFromLiveMemoryIff`); the
  open_logs handler starts the server's pool in `ptemp` (`src/mod_parrot.c:805`) and `ParrotLoadImmediate` in
  `temp_pool` (`src/modparrot_config.c:251`), both gone before requests are served.
- `init_ctx` leaves a lock nobody will release exactly in the cases of `Runs.InitCtxLeaksIff`:
  without an APR pool, or when a needed interpreter does not start (`src/mod_parrot.c:232-246`). The early return of the
  child_init meta handler (`src/mod_parrot.c:688`) is such a case (`ChildInit.DisabledChildCallLeaksIff`).
- Without threads a context in use is no obstacle: `reserve_ctx` takes the pool's first context whoever
  holds it, and no call ever uses a null context while interpreters start (`Serving.PreforkNeverFaults`).
- A start whose interpreter does not start loses its pool. In a threaded server that was started before,
  every later start under that name fails too (`Serving.RetryWorksIff`).
- A virtual host without `Parent` is configured as if the server's directives stood before its own, except
  that its options are weighed differently (`ServerConfig.OptionsOfVhost`) and that `ParrotTrace -1` gives way
  to the server's flags (`ServerConfig.MergeMeansInheriting`).
- The static counter of `register_meta_hooks` outlives `modparrot_init_globals`; in one loaded
  image a second configuration reads past `module_array` if and only if a module had been
  added before (`Registry.ReinitInOneImage`).
- `readall` returns the whole body if and only if the 1024-byte chunks Content-Length calls for
  hold it; a longer body is cut at a chunk boundary, not at Content-Length (`BodyHandle.WholeBodyIff`).
- Parsing what a CGI script printed recovers headers and body if and only if the body's first
  line is neither blank nor like a header (`CgiHeaders.RoundTripIff`).

Where the code and its own comments or documentation disagree, the model follows the code:

- `is_closed` returns 1 on an open handle (`src/pmc/modparrothandle.pmc:226-253`); its
  documentation block says it checks whether the handle is open.
- `modparrot_init` passes the include path to `modparrot_set_lib_path`
  (`src/mod_parrot.c:145-149`; the comment there says so), so it ends up in the library path.
- `open` keeps the mode of an earlier open as the default, while its comment says "read-write"
  and its constant is `"r"` (`src/pmc/modparrothandle.pmc:181-189`); it does not reset `read_offset`.

## Model

| member | source | states |
|---|---|---|
| LockProtocol.MutualExclusion | src/context.c:143-181 | In every state of every interleaving no context is held by two threads, and a lock bit is set exactly when some thread holds the context, although test and set are separate steps and releases take no mutex |
| LockProtocol.AnyResultExplained | src/context.c:143-165 | A reserve of any context that returns NULL saw all contexts locked at the instant it took the mutex; one that returns context c saw all lower ones locked then, and its thread now holds c |
| LockProtocol.RunKeepsInv | src/context.c:143-181 | Mutex ownership, exclusivity and what a scan knows about the lock bits at its entry hold throughout every run |
| LockProtocol.ReserveNeverFails | src/context.c:143-165 | With no more threads than contexts, each asking only while it holds none, no reserve of any context ever returns NULL |
| LockProtocol.IdleThreadSeesFreeContext | src/context.c:143-165 | The counting argument behind it: such a thread that holds nothing finds a free context whenever it takes the mutex |
| LockLimits.FailureNeedsMoreThreadsThanContexts | src/context.c:143-165 | Some frugal run makes a reserve fail if and only if there are more threads than contexts |
| LockLimits.SoloReserve | src/context.c:143-165 | Run alone, a whole reserve is one atomic operation: it locks the lowest free context and changes nothing else |
| LockLimits.ScanMakesProgress | src/context.c:144-165 | Every step of the thread in the scan brings it closer to dropping the mutex, within nelts + 3 steps, and no step of another thread sets it back |
| LockLimits.StepsRefineAtomicPool | src/context.c:144-181 | Each step either changes no holder, or gives an unheld context to the acting thread, or takes one it holds away: the split protocol refines an atomic pool |
| LockLimits.ReleaseKeepsExclusionIff | src/context.c:177-181 | A release by any thread keeps lock bits and holders in correspondence if and only if no other thread holds the context |
| LockLimits.StrangerReleaseAllowsDoubleHolding | src/context.c:177-181 | After a release by a non-holder some idle third thread can reserve the context while its holder still has it |
| Lifecycle.ScanFirst | src/context.c:145-154 | The scan gives the first unlocked context from the slot on, all before it being locked, and none exactly when all are locked |
| Lifecycle.Kept | src/mod_parrot.c:222-228 | The context init_ctx keeps is the one bound to the APR pool, and it is kept exactly when it is of the requested pool or none is requested |
| Lifecycle.AdoptShape | src/mod_parrot.c:232-256 | Taking a context over locks it, keeps its counter and pool and all other contexts, binds the APR pool with one more cleanup, and fails exactly when a needed interpreter does not start |
| Lifecycle.FreshStartup | src/mod_parrot.c:296-343 | The whole effect of a first start under a name: one pool of one locked context with a new interpreter, the APR pool bound to it, the name, the server's default pool and the base server set, all else as it was |
| Lifecycle.InitCtxLinked | src/mod_parrot.c:213-261 | init_ctx leaves every pointer pointing somewhere and creates neither contexts nor pools |
| Lifecycle.DestroyAprIs | src/context.c:227-246 | Destroying an APR pool unlocks exactly the contexts with a cleanup pending on it, also those whose userdata key was overwritten since |
| Reachable.BootSound | src/mod_parrot.c:51-67 | The state after modparrot_init_globals satisfies the invariant of reachable worlds |
| Reachable.InitCtxSound | src/mod_parrot.c:213-261 | init_ctx keeps it: contexts point back to their pool, interpreters and contexts to each other, bindings carry a cleanup, names lead to pools that carry them |
| Reachable.CloneCtxSound | src/mod_parrot.c:263-293 | clone_ctx_state keeps it |
| Reachable.StartupSound | src/mod_parrot.c:296-343 | modparrot_startup keeps it |
| Reachable.DestroyPoolsSound | src/context.c:84-129 | Teardown of any registered pools in any order keeps it |
| Reachable.CleanupSound | src/modparrot_config.c:46-66 | modparrot_cleanup, its module loop aside, keeps it |
| Runs.StepSound | src/mod_parrot.c:213-343 | Every operation of the life cycle keeps the invariant of reachable worlds |
| Runs.InterpreterBijection | src/context.c:183-217 | After every run from boot get_interp_ctx of a context's interpreter is that context, distinct contexts have distinct interpreters, every interpreter alive belongs to a context, and none was destroyed twice |
| Runs.InterpreterKeptUntilTeardown | src/mod_parrot.c:233-243 | Over any run without teardown a context that has an interpreter keeps it, and no other interpreter is made for it |
| Runs.AtMostOneInterpreter | src/mod_parrot.c:233-243 | Over any run without teardown, of two interpreters made on the way not both are for one context, whether or not it had one at the start |
| Runs.InitCtxLeaksIff | src/mod_parrot.c:222-247 | init_ctx leaves a lock without a pending cleanup exactly when it reserves a context that has none pending and either names no APR pool or has to start an interpreter that fails |
| Runs.RunNoLeak | src/context.c:227-246 | Over any run whose reservations name an APR pool and whose interpreters start, every locked context has a cleanup pending on a live APR pool |
| Runs.LocksEndWithTheirAprPools | src/context.c:227-246 | So once all APR pools are destroyed no lock bit is left set; the contexts themselves went with the pools they were allocated in (Memory.AllocatedIff) |
| Runs.PoolDestroyHits | src/context.c:84-108 | Destroying a pool destroys, once, exactly the live interpreters of contexts still in it, and empties it |
| Runs.TeardownDestroysOnce | src/context.c:111-129 | Tearing down all registered pools, in whatever order the hash is walked, destroys each of their interpreters exactly once and no other |
| Runs.TeardownEmptiesPools | src/context.c:111-129 | Afterwards exactly the registered pools are empty |
| Runs.RegisteredByName | src/context.c:119-126 | The interpreters meant are those of pools some name leads to |
| Runs.NamesSeparatePools | src/context.c:248-270 | In every reachable state a name leads to a pool that stores that name, and distinct names lead to distinct pools that share no context |
| Runs.RepeatedStartup | src/mod_parrot.c:308-342 | Once started, a startup with a registered name creates no pool, no context and no name and yields a context of that name's pool, unless denied |
| Runs.InitCtxHome | src/mod_parrot.c:222-247 | The context init_ctx returns is of the requested pool; without one it is the bound context, else one of the server's pool |
| Runs.InitCtxDeniedIff | src/mod_parrot.c:230-250 | init_ctx returns NULL exactly when it keeps no context and either the pool has none to give or the interpreter does not start |
| Memory.AllocatedIff | src/context.c:59-65 | After any run the memory of a pool and its contexts is there if and only if it was before and no step destroyed the APR pool it was allocated in |
| Memory.ServedFromLiveMemoryIff | src/mod_parrot.c:805-805 | After a first start in some APR pool and any run without cleanup, the contexts the server gives to new connections are in allocated memory if and only if that APR pool was never destroyed |
| Memory.CleanupLeaves | src/modparrot_config.c:46-57 | modparrot_cleanup forgets the server's pool and that the program was started; names, base server, other servers, APR pools, locks, scopes and counters stay |
| Memory.RestartIsFresh | src/modparrot_config.c:53-57 | After modparrot_cleanup the next startup is a first one: new pool, context and interpreter even under a name still in the table, and the server becomes the base server again |
| Memory.SecondCleanupDestroysNothing | src/modparrot_config.c:53-57 | A second cleanup, for any server and in any order, destroys no interpreter again |
| Contexts.ModParrot.constructor | src/mod_parrot.c:51-67 | The globals start with no names, no base server and not started |
| Contexts.ModParrot.ReserveCtx | src/context.c:132-174 | Picks, in place, the lowest unlocked context of the slots in use, or the one at the index if it is unlocked, or without threads always slot 0, locked or not; locks it and changes nothing else |
| Contexts.ModParrot.ReleaseCtx | src/context.c:177-181 | Clears the lock bit of that context and changes nothing else |
| Contexts.ModParrot.SetInterpCtx | src/context.c:183-200 | Points interpreter and context at each other and changes nothing else |
| Contexts.ModParrot.GetInterpCtx | src/context.c:202-217 | Returns the context the interpreter's global holds |
| Contexts.ModParrot.GetCurrentCtx | src/context.c:219-225 | Returns the context bound to the APR pool |
| Contexts.ModParrot.SetCurrentCtx | src/context.c:242-246 | Overwrites the binding of the APR pool and adds one cleanup on top of those registered before |
| Contexts.ModParrot.CtxCleanup | src/context.c:239-239 | The cleanup unlocks its context and changes nothing else of the model's state |
| Contexts.ModParrot.DestroyApr | src/context.c:227-246 | Running the cleanups last registered first computes Lifecycle.DestroyApr |
| Contexts.ModParrot.PoolInit | src/context.c:50-81 | The push loop makes a pool of num unlocked contexts, none for 0, without interpreters, each pointing back to it |
| Contexts.ModParrot.SetNamedCtxPool | src/context.c:248-256 | Registers the pool under the name and stores the name in the pool's first context |
| Contexts.ModParrot.GetNamedCtxPool | src/context.c:258-264 | Finds the pool registered under the name, or nothing |
| Contexts.ModParrot.GetCtxPoolName | src/context.c:266-270 | Returns the name stored in the pool's first context |
| Contexts.ModParrot.Init | src/mod_parrot.c:117-167 | A start yields a fresh interpreter and ties it and the context to each other, or it fails and changes nothing |
| Contexts.ModParrot.InitCtx | src/mod_parrot.c:213-261 | On objects, computes Lifecycle.InitCtx: result, bindings, lock bits, interpreters and all that stays unchanged |
| Contexts.Context.CopyFrom | src/mod_parrot.c:279-288 | Copies request, server, configuration pools, connection and counter, and leaves the phase pool, lock, interpreter and home alone |
| Contexts.ModParrot.CloneCtx | src/mod_parrot.c:263-293 | On objects, computes Lifecycle.CloneCtx |
| Contexts.ModParrot.FindPool | src/mod_parrot.c:306-327 | On objects, computes Lifecycle.StartupPool: the base server, the lookup, the creation and the server's default pool |
| Contexts.ModParrot.Startup | src/mod_parrot.c:296-343 | On objects, computes Lifecycle.Startup |
| Contexts.ModParrot.PoolDestroy | src/context.c:84-108 | The pop loop computes Lifecycle.PoolDestroy |
| Contexts.ModParrot.DestroyAll | src/context.c:111-129 | Walking the name table in any order computes Lifecycle.DestroyPools on an order that lists exactly the registered pools |
| Contexts.ModParrot.Cleanup | src/modparrot_config.c:46-57 | On objects, computes Lifecycle.Cleanup: pools destroyed, the server's pool forgotten, not started |
| Registry.AddKeepsTable | src/module.c:449-622 | Adding a module keeps registry, handler index and counter consistent; a known name changes nothing; an invalid hook value exits before anything is registered; the counter never indexes past the array |
| Registry.HandlerIndexMeaning | src/module.c:331-430 | After any additions handler_modules[h] lists, strictly increasing, exactly the modules that set hooks[h]; Apache has as many registrations for h, filters aside; the static counter equals the array's length |
| Registry.CallsDecideHooks | src/module.c:449-622 | The first call with a name adds the module, with the pool passed, and handler_modules[h] has it if and only if the list passed begins with MP_HOOK_ALL or has h in it; later calls with that name do nothing |
| Registry.CallsExitIff | src/module.c:561-582 | The program exits if and only if the first call with some name passes a list that does not begin with MP_HOOK_ALL and has a value in it that is no hook |
| Registry.AskedAreAsking | src/module.c:331-430 | handler_modules[h] lists the modules in the order of the calls that asked for h |
| Registry.NamesAgree | src/module.c:613-618 | After any mix of fresh and repeated names module_hash and module_array describe the same modules under distinct names, exactly those that were added |
| Registry.ReinitInOneImage | src/module.c:331-336 | After the globals are made anew in the same image, the next addition reads past module_array if and only if a module had been added before |
| Modules.InsertionsReverse | src/module.c:48-60 | After any number of insertions the HLL modules follow parrot_module in reverse order of addition and the rest of the chain is as it was |
| Modules.ModuleTable.InsertModule | src/module.c:48-60 | On linked objects, keeps the chain finite and acyclic and puts the module right behind parrot_module, or nowhere if that is not in the chain |
| Modules.ModuleTable.PopulateHooks | src/module.c:561-582 | The loop sets exactly the hooks in the list, or all for MP_HOOK_ALL in first place, or exits exactly when there is no MP_HOOK_ALL in front and some value is no hook |
| Modules.ModuleTable.RegisterMetaHooks | src/module.c:331-430 | Indexes the module at the static counter under each hook it asked for and advances the counter |
| Modules.ModuleTable.AddModule | src/module.c:557-622 | On objects, computes Registry.Add, links a fresh module into Apache's chain, and leaves everything as it was for a known name or an invalid hook |
| Dispatch.SelectPoolLinked | src/mod_parrot.c:171-211 | select_ctx_pool leaves every pointer pointing somewhere, and what it returns is a pool or NULL |
| Phases.CloneCounters | src/mod_parrot.c:263-293 | A clone takes the counter along, the source keeps its own, and only the APR pool named is rebound |
| Phases.CallPicksNext | src/mod_parrot.c:446-504 | The call that finds the counter at k - 1 reads entry k of the hook's list, out of range exactly when there is none; otherwise it runs that module or uses a null context, and the next call will find k: in the same context, in a clone bound elsewhere, or in a clone that took its place |
| Phases.DispatchInAddOrder | src/mod_parrot.c:374-565 | For any registry and any phase on one APR pool, open_logs included, the i-th meta handler call finds the counter at i - 1, reads handler_modules in range and runs the i-th module, in the order of the adding calls, whose list asked for the hook, with contexts swapped from call to call |
| Phases.SetupFinds | src/mod_parrot.c:379-391 | A setup handler whose APR pool is bound takes that context, rewinds it and changes no other |
| Phases.NestedPhaseShifts | src/mod_parrot.c:379-391 | After a phase of n calls inside another the counter stands at n - 1, which is where the outer phase had it if and only if n calls had been made before |
| Phases.CounterAt | src/mod_parrot.c:43-43 | Throughout a phase turn k finds the counter at k - 1 |
| Handling.MetaCallKeeps | src/mod_parrot.c:446-636 | Every meta handler call keeps the invariant of reachable worlds, and leaves no lock without a pending release if it looks in an APR pool and interpreters start |
| Handling.RunsInIntendedPool | src/mod_parrot.c:171-293 | If the pool of the most specific scope exists, the handler runs in a context of it that carries the request, server, connection, configuration pools and counter of the one before |
| Handling.SwapFaultsIff | src/mod_parrot.c:468-474 | The swap ends in a null access exactly when the intended pool is another one than the carrier's and init_ctx is denied there |
| Handling.MissingSectionPool | src/mod_parrot.c:183-194 | For a section pool that does not exist select_ctx_pool creates it, with one free context, and selects nothing |
| Handling.IsolationIff | src/mod_parrot.c:171-211 | A call of any kind that runs runs in the intended pool if and only if that pool existed before, or the clone is bound where the new pool was started, or the request was bound to nothing and the server had no pool |
| Handling.CallFaultsIff | src/mod_parrot.c:171-293 | A call uses a null context exactly when: the scope's pool exists, is not the carrier's, and init_ctx is denied there; or it does not exist and its startup fails, or the clone, bound to nothing, finds the server's own pool unable to give a context |
| Handling.PhaseFaultsIff | src/mod_parrot.c:446-504 | In a whole phase call i runs module i or uses a null context, and the latter exactly under that condition in the world it finds |
| Handling.SetupSound | src/mod_parrot.c:374-415 | Every setup handler keeps the invariant of reachable worlds |
| Handling.CarrierStaysReservedIff | src/mod_parrot.c:468-474 | After a request handler the connection is still bound to its context, which stays reserved if and only if no swap took place |
| Serving.InitCtxGivesBound | src/mod_parrot.c:222-256 | A bound context of the pool asked for is given as it is, with only the server noted in it |
| Serving.InitCtxGivesReserved | src/mod_parrot.c:228-250 | Otherwise the pool asked for, or else the server's, gives a context and locks it: without threads the one in slot 0 whoever holds it, with threads the first nobody holds, or none; it is not returned if its interpreter does not start |
| Serving.PreforkNeverDenied | src/context.c:166-169 | Without threads init_ctx comes back empty-handed only for want of a pool or an interpreter |
| Serving.PreforkNeverFaults | src/mod_parrot.c:446-636 | Without threads no call of any kind uses a null context while interpreters start |
| Serving.FailedStartup | src/mod_parrot.c:306-341 | A first start whose interpreter does not start leaves its pool behind, named and with a locked context, and does not count as a start |
| Serving.RetryWorksIff | src/mod_parrot.c:306-341 | Trying again under that name works if and only if there are no threads or the program had not been started before |
| Serving.DisabledServerDeclines | src/mod_parrot.c:455-466 | On a disabled server every handler but open_logs declines, or answers with an error exactly when init_ctx is denied, with nothing changed but what init_ctx changed |
| Serving.OutcomeIff | src/mod_parrot.c:446-636 | How any call ends: an error exactly when init_ctx gives nothing, declined exactly on a disabled server, where open_logs looks only after its swap, out of range exactly without a k-th module, and what runs is the k-th module on an enabled server |
| Serving.SetupNotes | src/mod_parrot.c:374-415 | A setup handler notes server and phase pool in the context init_ctx gives, rewinds it, touches no other counter or scope, and only for child_init gives it back |
| Serving.OpenLogsNotes | src/mod_parrot.c:804-815 | The open_logs handler leaves the world of a first start, with pconf as configuration and phase pool and the counter rewound |
| Serving.MostSpecificScopeWins | src/mod_parrot.c:171-211 | What runs, runs in the section's pool if the section names one that exists, else the server's, else the module's |
| Serving.HandlerFinds | src/mod_parrot.c:468-504 | The handler finds in its context, swapped or not, each object Apache passed in its own field and otherwise what the context init_ctx gave had; HLL code is called unless only the header was asked for |
| Interleaving.SetupResumesIff | src/mod_parrot.c:374-393 | Another connection's setup handler leaves alone which context this one is bound to and its counter, if and only if it does not claim that context, or the counter is at its start |
| Interleaving.OtherSetupDecides | src/mod_parrot.c:374-393 | After such a setup the next call runs the next module if the context was not claimed, and the first one if it was |
| Interleaving.NewConnectionOwnsIff | src/mod_parrot.c:213-261 | In a threaded server a connection owns the context its first setup handler reserves if and only if no other APR pool is bound to it or will release it |
| Interleaving.CallSpares | src/mod_parrot.c:446-636 | A meta handler call that looks, binds and starts pools elsewhere, whatever it swaps to or faults on, leaves an owned context owned, with its counter |
| Interleaving.StepSpares | src/mod_parrot.c:213-343 | So does every operation of the life cycle that stays away from the APR pool and the context |
| Interleaving.OwnCall | src/mod_parrot.c:446-504 | A call that needs no swap never faults, runs the next module in the owned context and keeps it owned |
| Interleaving.OwnershipKeptIff | src/mod_parrot.c:468-474 | A request call that runs keeps the context owned if and only if it needed no swap |
| Interleaving.ServedInOrder | src/mod_parrot.c:374-565 | Over any interleaving of a connection's phases and calls with setups, calls, swaps, faults, startups, APR pool births and deaths of others, the j-th call after a setup runs the j-th module of its hook |
| Interleaving.ConnectionServedInOrder | src/mod_parrot.c:374-565 | The same from the connection's first setup handler on, for any calls of modparrot_add_module, in terms of the hook lists those calls passed |
| Witnesses.UpReached | src/mod_parrot.c:296-343 | A run from boot with two startups and the end of their APR pool reaches the small server of the two lemmas below |
| Witnesses.OpenedOwns | src/mod_parrot.c:374-393 | On it a new connection owns the context its setup handler reserves |
| Witnesses.FirstUseFaults | src/mod_parrot.c:185-192 | On it the first call for a section whose pool does not exist uses a null context |
| Witnesses.RewindHappens | src/mod_parrot.c:468-474 | On it a call swaps, another connection is set up, and the first connection's second call runs the first module again |
| ChildInit.SetupReady | src/mod_parrot.c:638-666 | The child_init setup rewinds the counter of the context the first call will reserve, and releases it |
| ChildInit.ChildCallPicksNext | src/mod_parrot.c:669-713 | Without any binding, each child_init call reserves the same context again and runs the next module |
| ChildInit.ChildCallFaultsIff | src/mod_parrot.c:669-713 | It uses a null context exactly when the module's pool is not the server's and init_ctx is denied a context of it |
| ChildInit.ChildPhaseInOrder | src/mod_parrot.c:638-713 | After its setup handler the child_init phase runs the modules that asked for it in add order, for any registry |
| ChildInit.ChildCallNoLeak | src/mod_parrot.c:669-713 | On an enabled server a child_init call leaves no lock without a pending release |
| ChildInit.DisabledChildCallLeaksIff | src/mod_parrot.c:680-688 | On a disabled server it does leave one, unless a cleanup happens to be pending for the context |
| Handlers.Handlers.Setup | src/mod_parrot.c:374-415 | On objects, the first handler of a phase computes Dispatch.Setup: context found, counter rewound, phase pool noted, child_init releasing |
| Handlers.Handlers.OpenLogsSetup | src/mod_parrot.c:804-815 | On objects, the open_logs handler of an enabled main server computes Dispatch.OpenLogsSetup: a startup in ptemp, the counter rewound, pconf noted |
| Handlers.Handlers.NextHandlerModule | src/mod_parrot.c:43-43 | Advances the counter, if the hook has an index, and returns the module there, or nothing where the C code would read out of range |
| Handlers.Handlers.SelectCtxPool | src/mod_parrot.c:171-211 | On objects, computes Dispatch.SelectPool |
| Handlers.Handlers.Swap | src/mod_parrot.c:468-474 | On objects, clones into the selected pool and releases the old context unless it is the same |
| Handlers.Handlers.MetaHandler | src/mod_parrot.c:446-636 | On objects, a meta handler of any kind computes Dispatch.MetaCall: outcome and whole new state |
| BodyRead.RequestRead | src/modparrot_io.c:40-105 | For every way the body is cut into brigades, the loop ends with exactly the next min(len, rest) bytes in the buffer, the rest of the buffer and of the body unchanged, a short count only at end of stream |
| BodyRead.ReadString | src/nci.c:234-252 | Returns the next len bytes of the body, or what is left |
| BodyRead.PostRead | lib/ModParrot/HLL/pipp.pir:86-97 | The POST loop ends and yields the whole body, in one read more than there are full chunks, also when its length is a multiple of 8192 |
| BodyRead.ReadsDeliver | src/modparrot_io.c:94-105 | However a body is asked for, in pieces of any lengths, the pieces joined are its beginning |
| BodyHandle.AtoiOfDecimal | src/pmc/modparrothandle.pmc:349-353 | A length sent as a decimal numeral is the length atoi reads (section 14.13 of RFC 2616) |
| BodyHandle.AtoiOfText | src/pmc/modparrothandle.pmc:349-353 | White space and a sign before the numeral and anything but a digit after it are read as atoi reads them |
| BodyHandle.ModParrotHandle.OpenOn | src/pmc/modparrothandle.pmc:170-195 | Needs a request; takes the mode given, else the earlier one, else "r"; keeps the offset |
| BodyHandle.ModParrotHandle.CloseIt | src/pmc/modparrothandle.pmc:220-224 | Forgets the request and resets the offset, and keeps mode and flags |
| BodyHandle.ModParrotHandle.IsClosed | src/pmc/modparrothandle.pmc:236-253 | Returns 1 exactly on an open handle |
| BodyHandle.ModParrotHandle.ReadBytes | src/pmc/modparrothandle.pmc:265-302 | Refuses a closed handle, one not opened for reading and a negative length; else hands out the next bytes, moves the offset by as many, and touches no other request |
| BodyHandle.ModParrotHandle.ReadAllBytes | src/pmc/modparrothandle.pmc:326-373 | The chunk loop ends with the first bytes of the body, as many as the chunks Content-Length calls for hold |
| BodyHandle.OpenThenRead | src/pmc/modparrothandle.pmc:170-302 | Opened with the mode given, else the one the handle had, else "r", a handle gives the body piece by piece if that mode has an r in it, and refuses every read if not |
| BodyHandle.OpenNothing | src/pmc/modparrothandle.pmc:175-178 | Without a request open refuses and changes nothing |
| BodyHandle.OpenThenReadAll | src/pmc/modparrothandle.pmc:170-373 | Opened like that, readall with a right Content-Length gives the whole body, or refuses it if there is any |
| BodyHandle.ReadableIff | src/pmc/modparrothandle.pmc:265-302 | After any run of a new handle a read is refused exactly without a request, without an r in the mode or for a negative length, and else gives the next bytes |
| BodyHandle.LastModeWins | src/pmc/modparrothandle.pmc:181-189 | The mode is that of the last open that gave one, whatever came after |
| BodyHandle.ClosedUntilOpened | src/pmc/modparrothandle.pmc:220-278 | After a close every read is refused and nothing is consumed until the handle is opened on a request |
| BodyHandle.RunConserves | src/pmc/modparrothandle.pmc:170-373 | Over any run of opens, closes and reads on any requests, each body is what was handed out from it, in order, and what is left |
| BodyHandle.OffsetSinceClose | src/pmc/modparrothandle.pmc:220-291 | read_offset is the number of bytes handed out since the last close |
| BodyHandle.WholeBodyIff | src/pmc/modparrothandle.pmc:349-372 | readall hands out all that is left if and only if the chunks Content-Length calls for hold it |
| BodyHandle.ReadAllWhole | src/pmc/modparrothandle.pmc:326-373 | With a right Content-Length readall hands out the body, leaves nothing, and moves the offset by its size |
| ServerConfig.ArgumentText | src/modparrot_config.c:182-206 | '+' or '-' and text that begins with parent, enable or traceinit in any case marks exactly that option as enabled or disabled, the bits following; any other text changes nothing |
| ServerConfig.OptionOnIff | src/modparrot_config.c:175-206 | After any arguments on a fresh config an option is on if and only if it is Enable or some argument is '+' and its name, and none is '-' and its name |
| ServerConfig.OnlyTheRequestsMatter | src/modparrot_config.c:302-326 | Order, repetition and rejected arguments make no difference to the config |
| ServerConfig.RecalcNoopIff | src/modparrot_config.c:175-179 | Recalculating is a no-op exactly when no enabled or disabled bit is outstanding, and is idempotent |
| ServerConfig.DirectivesNeedNoRecalc | src/modparrot_config.c:125-131 | On every config directives reach, the recalculation a merge does to its inputs changes nothing |
| ServerConfig.LastOneCounts | src/modparrot_config.c:222-300 | Of the directives of one kind the last is in effect, and files to load keep their order |
| ServerConfig.MergeMeansInheriting | src/modparrot_config.c:143-169 | Options aside, a virtual host without Parent is configured as if the server's directives stood before its own, but for trace flags exactly when it sets them to -1 over others; with Parent as if the server had none, but for the init path |
| ServerConfig.MergedIsSettled | src/modparrot_config.c:117-172 | A merged config has no bit outstanding and no context pool |
| ServerConfig.MergeOrderIrrelevant | src/modparrot_config.c:117-172 | Merged one after the other against one base, each virtual host gets what it would get alone, for configs of any kind |
| ServerConfig.MergedOption | src/modparrot_config.c:137-141 | Without Parent an option is vhost-minus, else vhost-plus, else the base's |
| ServerConfig.ParentKeepsBaseOut | src/modparrot_config.c:134-154 | With Parent nothing but the init path can come from the base |
| ServerConfig.OptionsOfVhost | src/modparrot_config.c:117-206 | The options of a virtual host in terms of the arguments given in the server and in the virtual host |
| ServerConfig.SrvConfig.constructor | src/modparrot_config.c:68-115 | A fresh config has Enable on, no switches, trace unspecified and no paths |
| ServerConfig.SrvConfig.SetOption | src/modparrot_config.c:184-206 | Switches the option whose name the argument begins with, in any case, and recalculates; an unknown one changes nothing |
| ServerConfig.SrvConfig.CmdOptions | src/modparrot_config.c:302-326 | Applies the argument in place if it is a sign and an option's name, or changes nothing and returns the message for an unknown option or a missing modifier |
| ServerConfig.SrvConfig.Command | src/modparrot_config.c:222-300 | On the object, each directive sets its own field as ServerConfig.Configure does |
| ServerConfig.SrvConfig.MergeConfigs | src/modparrot_config.c:117-172 | In place: a fresh merged config, base and vhost recalculated and otherwise unchanged |
| Texts.JoinFields | lib/mod_parrot.pir:209-209 | Splitting at a separator and joining again gives the text back |
| SearchPaths.SplitJoin | lib/mod_parrot.pir:209-209 | Parrot's split and join undo each other, but for the single empty path |
| SearchPaths.LibPaths.Prepend | lib/mod_parrot.pir:194-220 | The backward unshift loop leaves the split paths in order before the old ones in its slot, returns their number, and raises an exception for an empty string |
| SearchPaths.LibPaths.InitPaths | src/mod_parrot.c:144-157 | On the path object, computes SearchPaths.Initial: each setting made in its order up to the first exception |
| SearchPaths.InitialPaths | src/mod_parrot.c:144-157 | A start goes through exactly when no setting is empty; however far it gets, lib_path entries come before include_path entries before the old ones in the library path, dynext_path entries before the old ones |
| SearchPaths.PrependedString | lib/ModParrot/Interpreter.pir:101-109 | Joined with colons, the new path is the setting, a colon, and the old path |
| SearchPaths.LibraryPathString | lib/ModParrot/Interpreter.pir:101-109 | library_path_str after a start is the library setting, the include setting and the old path, colons between |
| CgiHeaders.HeaderText | languages/perl6/lib/ModPerl6/Registry.pm:12-41 | A line of letters, digits, underscores and hyphens, a colon, white space and something sets the content type if the key is Content-Type in any case, else the header of that name, to what follows the white space |
| CgiHeaders.HeaderIff | languages/perl6/lib/ModPerl6/Registry.pm:12-35 | No other line is a header |
| CgiHeaders.BodyStartIsFirst | languages/perl6/lib/ModPerl6/Registry.pm:29-48 | The body starts at the first line that is neither blank nor a header |
| CgiHeaders.RequestRec.ParseHeaders | languages/perl6/lib/ModPerl6/Registry.pm:23-55 | The loop returns the lines from there on, joined by newlines plus one, records exactly the header lines before it in order, and later calls pass everything through |
| CgiHeaders.ParseAfterHeaders | languages/perl6/lib/ModPerl6/Registry.pm:29-42 | Blank and header lines in front only add their settings |
| CgiHeaders.RoundTripIff | languages/perl6/lib/ModPerl6/Registry.pm:12-55 | Printing headers, a blank line and a body and parsing that recovers both, the body with a final newline, if and only if the body's first line is neither blank nor like a header (section 6.3 of RFC 3875) |
| CgiHeaders.PiecesParse | languages/perl6/lib/ModPerl6/Registry.pm:23-55 | Output printed in pieces: headers may be spread over them, nothing comes out before the piece with the first body line, everything after it passes unchanged |

## Left out

- The virtual-host loops of the open_logs handler and meta handler (`src/mod_parrot.c:826-860`, `src/mod_parrot.c:921-981`): the model of open_logs stops after the main server, and loading of files and switching of traces are calls into Parrot.
- Phases.DispatchInAddOrder: speaks of one phase on one APR pool that is not the one section pools are started on, and what happens between its calls is any change that leaves binding and counter alone; `Phases.NestedPhaseShifts` covers subrequests, and `Interleaving.dfy` what other connections do.
- Interleaving.ServedInOrder: speaks of handlers that run one at a time, of connections whose calls need no swap, and of times without a modparrot_cleanup; `Interleaving.OtherSetupDecides` covers one setup of another connection in any other case.
- Handling.RunsInIntendedPool: assumes that the section pool exists, as the text of the code intends; `Handling.IsolationIff` covers the other case.
- ChildInit.ChildCallPicksNext: child_init has no section scope and its interpreters start; `ChildInit.DisabledChildCallLeaksIff` covers a disabled server.
- Serving.OutcomeIff: says when a call ends in no context, a refusal or a read out of range; when it uses a null context is `Handling.CallFaultsIff`, for calls on a bound context of an enabled server.
- BodyHandle.OpenThenRead: that a mode grants reading exactly when it has an r in it is how Parrot parses modes, taken as given.
- Memory.ServedFromLiveMemoryIff: freed contexts keep their values in the model, and every other theorem speaks of those values; what the C program does with freed memory is undefined.
- BodyRead.RequestRead: brigades arrive and flatten without error and are never empty; the error branches of `src/modparrot_io.c:66-92` use a destroyed brigade.
- BodyHandle.ModParrotHandle.ReadBytes: that a negative length ends in Parrot's allocator giving up is a property of Parrot, taken as given; requests for more memory than there is are not modelled otherwise.
- BodyHandle.ModParrotHandle.ReadAllBytes: reads the uninitialised `total` (`src/pmc/modparrothandle.pmc:332`) as 0 and takes Parrot's own check of the handle as an input.
- BodyHandle.AtoiOfDecimal: lengths are unbounded integers; overflow of `atoi` is not modelled.
- Contexts.ModParrot.PoolInit: the array is made with the element size of the struct and indexed by pointer (`src/context.c:59`, `src/context.c:148`), which is not visible in the model; every pool the code itself makes has at least one context, and the other methods rely on that.
- Contexts.ModParrot.CtxCleanup: does not model that the interpreter's context PMC is unregistered from Parrot's garbage collector (`src/context.c:231-238`).
- Contexts.ModParrot.Init: does not model trace flags, the module path global and the loading of the init code (`src/mod_parrot.c:121-142`), which are calls into Parrot; the path settings are in `SearchPaths.dfy`.
- Contexts.ModParrot.DestroyApr: one APR pool at a time, without subpools; other cleanups on the pool are not modelled.
- Modules.ModuleTable.AddModule: does not model the table of custom directives and the HLL configuration subs (`src/module.c:460-556`, `src/module.c:585-604`), which are read from Parrot objects and only stored.
- CgiHeaders.RequestRec.ParseHeaders: word characters and case are ASCII, and a carriage return is an ordinary space character.
- ServerConfig.SrvConfig.CmdOptions: a flags word is the set of its option bits; bits without a name do not occur.
- Threads meet step by step only in `LockProtocol.dfy`; the life cycle and the handlers are modelled one call at a time, so two handlers interleaving inside `init_ctx` are not covered.
- Handlers that Parrot runs: what an HLL handler does to a context is an arbitrary change between two calls (`Phases.Resumes`, `Runs.DoTouch`), and its status is not modelled.
- `Handlers.dfy` takes the registry as a value, since handlers only read it; `Modules.dfy` builds it in place.
- The module loop of `modparrot_cleanup` (`src/modparrot_config.c:59-64`): it reads the elements of `module_array` as another type than they have.
- Creation and destruction of the mutex (`src/context.c:71-76`, `src/context.c:102-105`): one working mutex is assumed, although each pool makes the one global anew.
- Allocation failures of APR, and the return values they lead to.
- HLL configuration creation and merging, directive tables and filters in `src/module.c`: they hand their arguments to Parrot subs not known here.
- `modparrot_backtrace`, the NCI accessors, `modparrot_call_sub_*` and the type wrapper: foreign calls or diagnostics.
- ServerConfig.SrvConfig.Command: the argument of `ParrotTrace` is taken as the number `atoi` makes of it, and `ParrotLoadImmediate` only as the entry it makes in the list of files to load.
- The PIR and Perl 6 directive setters and per-phase handlers: each stores one value or forwards one call and keeps no state of its own.
- Output methods of the file handle, logging, tracing, build scripts, examples.
