# Per-network wallet cache of bitmask-core

This project models the wallet-handle cache of bitmask-core (`src/bitcoin/wallet.rs`) and proves properties of it.

The library keeps one process-wide registry, `BDK`. It holds four ordered maps, one for each Bitcoin network: bitcoin, testnet, signet and regtest. Each map sits behind its own read-write lock. It is keyed by the pair (descriptor, optional change descriptor) and holds a shared wallet handle.

`get_wallet(descriptor, change_descriptor)` looks the key up in the current network's map under that map's read lock (line 41):

- If the key is cached, the call returns the cached handle.
- Otherwise the call builds a new wallet (lines 44-49). If that fails, the error propagates and the call returns it.
- If the build succeeds, the call asks for the same map's write lock in order to insert (lines 51-64). The guard of the read at line 41 is a temporary in the `match` scrutinee, and the `Some` arm borrows from it. So the guard lives until the `match` ends at line 69. The write lock can never be granted to the task that still holds the read guard, and the call never completes.
- Nothing is inserted, and the `panic!("get_wallet")` at line 65 and the `Ok(new_wallet)` at line 67 are never reached.
- The lock is fair, so a waiting writer queues every later read of that network behind it. Every later call on that network, hit or miss, never completes either. The other three networks are not affected.

How the model is laid out:

- `wallet.dfy`, module `BitcoinWallet`:
  - the values (`Network`, `WalletKey`, `Wallet`, `Registry`, `Outcome`). A `Registry` is the four maps plus the set of networks whose lock a stuck call holds (`blocked`);
  - `Step`, one call. Its `Version` argument selects the code as written (`AsWritten`), or one of two corrections:
    - `GuardReleased`: the read guard is released before the insert, so the call inserts and then panics;
    - `Intended`: the guard is released and there is no panic, so the call inserts and returns the new wallet;
  - the single-call properties, as lemmas;
  - the class `Networks`: the registry, whose fields `GetWallet` (as written) and `GetWalletIntended` update in place.
- `wallet_traces.dfy`, module `WalletTraces`: properties of any sequence of calls on one registry. For the code as written, the answer of every call is derived in closed form, the maps never change, and blocking spreads to every later call on the network. For the corrected versions, it proves key growth, stability of cached entries, and that the panic fires at most once per key and network.

Inputs from outside the cache become parameters:

- The current network is the global `NETWORK` setting, read at src/bitcoin/wallet.rs:30. Here it is the `network` argument.
- The wallet library's constructor `Wallet::new` is a `Construction` argument. It either builds a wallet whose allocation identity is `id`, or fails with a message. Its value is used only on a miss.
- A shared `Arc` handle is modelled by the `id` it carries. Two clones of one `Arc` have the same `id`.
- A call that waits forever for a lock ends in the outcome `Blocked`, and its network joins `blocked`. A panic is the outcome `Abort("get_wallet")`.

## Model

| member | source | states |
|---|---|---|
| BitcoinWallet.Empty | src/bitcoin/wallet.rs:16-24 | the default registry has an empty map for every network and no lock held |
| BitcoinWallet.Select | src/bitcoin/wallet.rs:34-39 | the dispatch from the current network to that network's map |
| BitcoinWallet.Replace | src/bitcoin/wallet.rs:51-64 | writing one network's map gives back that map for that network and leaves the other three maps and the blocked set as they were |
| BitcoinWallet.Step | src/bitcoin/wallet.rs:26-70 | one call. As written: blocked network → waits forever; hit → cached handle; failed build → error; successful build → waits forever for the write lock, changing no map. The two corrected versions insert on a successful miss, then panic or return the new wallet |
| BitcoinWallet.Networks.constructor | src/bitcoin/wallet.rs:16-24 | a new registry is well formed, holds four empty maps, and has every lock free |
| BitcoinWallet.Networks.GetWallet | src/bitcoin/wallet.rs:26-70 | the update of the fields and the result agree with `Step(AsWritten, …)` on the old state. It returns a handle exactly when the network is not blocked and the key is cached; a returned handle was built from the requested key for the current network. It ends in `Blocked` exactly when the network is blocked afterwards. No map ever changes, and no other network's blocked status changes. The invariant is kept |
| BitcoinWallet.Networks.GetWalletIntended | src/bitcoin/wallet.rs:41-67 | the corrected call agrees with `Step(Intended, …)`. It never blocks a network, fails exactly on a miss whose build fails, and otherwise returns the handle now registered under its key |
| BitcoinWallet.CacheHit | src/bitcoin/wallet.rs:41-42 | on a network that is not blocked, a cached key is answered with the stored handle and nothing changes |
| BitcoinWallet.BlockedNetworkBlocksEveryCall | src/bitcoin/wallet.rs:41 | on a blocked network every call waits forever and changes nothing, whatever its key or build |
| BitcoinWallet.OkIffCached | src/bitcoin/wallet.rs:41-67 | as written (and with only the guard released), a call returns a handle if and only if its network is not blocked and its key was cached, so a miss never returns Ok |
| BitcoinWallet.ChangeDescriptorIsPartOfKey | src/bitcoin/wallet.rs:26-32 | with (d, c) cached and (d, other) not, a call with d and other never answers with a cached handle. Only the intended code answers, with a wallet built from `other`. The (d, c) entry is untouched |
| BitcoinWallet.NetworkIsolation | src/bitcoin/wallet.rs:34-64 | on every path, the three other networks keep their maps and their blocked status |
| BitcoinWallet.FailureLeavesCacheUnchanged | src/bitcoin/wallet.rs:44-49 | on a network that is not blocked, a miss whose build fails returns that error and leaves the whole registry unchanged |
| BitcoinWallet.StepKeepsEntries | src/bitcoin/wallet.rs:41-64 | no call removes or replaces a cached entry, on any network |
| BitcoinWallet.StepKeepsBlocked | src/bitcoin/wallet.rs:41-62 | a blocked network stays blocked |
| BitcoinWallet.EmptyWellFormed | src/bitcoin/wallet.rs:16-24 | the default registry satisfies the invariant that every cached wallet was built from its key for its map's network |
| BitcoinWallet.StepPreservesWellFormed | src/bitcoin/wallet.rs:44-62 | a call keeps that invariant, because any inserted wallet is built from the key and network it is stored under |
| BitcoinWallet.OkWalletMatchesRequest | src/bitcoin/wallet.rs:41-42 | on a well-formed registry, a returned handle was built from the requested descriptor and change descriptor for the current network |
| BitcoinWallet.OkIsRegistered | src/bitcoin/wallet.rs:41-67 | in every version, a returned handle is, after the call, the one cached under its key on a network that is not blocked |
| BitcoinWallet.AsWrittenNeverInserts | src/bitcoin/wallet.rs:51-65 | as written, no call changes any map, because the insert is never reached |
| BitcoinWallet.MissBlocks | src/bitcoin/wallet.rs:41-62 | as written, a miss whose build succeeds waits forever: no map changes, no panic, and its network is blocked from then on |
| BitcoinWallet.AsWrittenBlockedIffNetworkBlocked | src/bitcoin/wallet.rs:41-65 | as written, a call ends in `Blocked` exactly when its network is blocked afterwards, and it never panics |
| BitcoinWallet.RepeatCallBlocks | src/bitcoin/wallet.rs:41-62 | as written, after a miss that built a wallet, the next call on the same network with any key waits forever too |
| BitcoinWallet.FirstMissBlocks | src/bitcoin/wallet.rs:41-62 | concrete case: the first call on an empty registry whose build succeeds blocks, and the registry stays empty with regtest blocked |
| BitcoinWallet.MissInsertsOneEntry | src/bitcoin/wallet.rs:51-65 | once the guard is released, a successful miss adds exactly key ↦ new wallet to the current network's map and keeps every earlier entry. The map grows by one, and the call then panics with `"get_wallet"` (or, in the intended code, returns the new wallet) |
| BitcoinWallet.ReleasedNeverBlocks | src/bitcoin/wallet.rs:51-64 | once the guard is released, no call blocks a network, and a call waits only on a network blocked before |
| BitcoinWallet.RepeatCallHits | src/bitcoin/wallet.rs:41-65 | once the guard is released, after a miss that built wallet `id`, the next call with the same key and network returns that wallet, whatever its own build would do |
| BitcoinWallet.GuardReleasedMissPanics | src/bitcoin/wallet.rs:65 | concrete case: with only the guard released, the first successful miss on an empty registry inserts the wallet and then panics with `"get_wallet"` |
| BitcoinWallet.IntendedDiffersOnlyInOutcome | src/bitcoin/wallet.rs:65-67 | removing the panic as well changes no state. Where the released code panics, the intended code returns the wallet it registered; otherwise the two answers agree |
| BitcoinWallet.IntendedReturnsRegisteredWallet | src/bitcoin/wallet.rs:41-67 | the intended call never panics and never blocks a network. It fails exactly when the key is missing and the build fails, and otherwise returns the handle registered under its key |
| WalletTraces.Run | src/bitcoin/wallet.rs:26-70 | the registry after a sequence of calls, applied in order |
| WalletTraces.Outcomes | src/bitcoin/wallet.rs:26-70 | a sequence of calls yields exactly one answer per call |
| WalletTraces.OutcomeAt | src/bitcoin/wallet.rs:26-70 | the answer of call j is what one call gives on the registry left by the calls before it |
| WalletTraces.RunKeepsEntries | src/bitcoin/wallet.rs:41-64 | once cached, an entry keeps the same handle through any later sequence of calls |
| WalletTraces.RunIsolation | src/bitcoin/wallet.rs:34-64 | a network's map and blocked status after any sequence of calls depend only on the calls made on that network |
| WalletTraces.RunPreservesWellFormed | src/bitcoin/wallet.rs:44-62 | any sequence of calls keeps every cached wallet built from its own key and network |
| WalletTraces.HandedOutIsCached | src/bitcoin/wallet.rs:41-62 | every handle any call returns is still the one the cache holds for that key and network after all the calls |
| WalletTraces.OkHandlesAgree | src/bitcoin/wallet.rs:41-42 | two calls with the same key and network that both return a handle return the same handle |
| WalletTraces.RunLeavesMapsUnchanged | src/bitcoin/wallet.rs:51-65 | as written, no sequence of calls changes any map |
| WalletTraces.RunBlocked | src/bitcoin/wallet.rs:41-62 | as written, the networks blocked after any calls are exactly those blocked before plus the network of every call whose key was not cached and whose build would succeed |
| WalletTraces.OutcomeAsWritten | src/bitcoin/wallet.rs:26-70 | as written, each call's answer in closed form from the starting registry and the earlier calls: `Blocked` if its network was blocked or an earlier call blocked it; otherwise hit, error, or `Blocked` on a successful build |
| WalletTraces.NoCallFromEmptyReturnsOk | src/bitcoin/wallet.rs:24-67 | as written, starting from the default registry, no call in any sequence ever returns a handle |
| WalletTraces.BlockedThenBlocked | src/bitcoin/wallet.rs:41-62 | as written, once a call on a network blocks, every later call on that network blocks |
| WalletTraces.RunKeepsBlocked | src/bitcoin/wallet.rs:51-64 | once the guard is released, no sequence of calls changes the blocked set |
| WalletTraces.StepAddsKeys | src/bitcoin/wallet.rs:44-62 | once the guard is released, one call adds its key to its network's map exactly when its build would succeed on a network that is not blocked, and adds nothing elsewhere |
| WalletTraces.RunKeys | src/bitcoin/wallet.rs:44-62 | once the guard is released, the keys cached on a network that is not blocked are, after any calls, the earlier ones plus the key of every call on it whose build would succeed, and nothing else |
| WalletTraces.CachedThenHit | src/bitcoin/wallet.rs:41-42 | once the guard is released, a key cached before call i on a network that is not blocked is answered, with the handle cached then, by every call from i on with that key and network |
| WalletTraces.AbortThenHit | src/bitcoin/wallet.rs:53-65 | with only the guard released, after a call that inserted and panicked, every later call with the same key and network returns the wallet inserted then, so the panic fires at most once per key and network |
| WalletTraces.IntendedOkThenOk | src/bitcoin/wallet.rs:41-67 | in the intended code, after a call returns a handle, every later call with the same key and network returns that same handle |

## Left out

- Locking and concurrency: calls are modelled one at a time, and the `Arc` wrappers, the locks and the async runtime are not modelled. What the model keeps of the locks is their effect on a single sequence of calls: a call that can never obtain a lock ends in `Blocked`, and its network stays blocked. It does not capture interleavings of tasks, such as a read on a network that was already granted before the writer queued.
- Cancellation: if the task running a blocked call is cancelled (its future dropped, for example by a timeout), the read guard is released and the network becomes usable again. The model has no way to cancel a call, so `blocked` only grows.
- The global `NETWORK` setting (src/bitcoin/wallet.rs:30) belongs to a constants module that is not part of this model. The current network is a parameter of each call.
- The internals of the wallet library behind `Wallet::new` (src/bitcoin/wallet.rs:44-49) are foreign code. The model abstracts them as a constructor that either fails or yields a new allocation identity. The model does not check that this identity differs from those already cached. On a blocked network the constructor is never reached, because the call waits at line 41.
- The `?` converts the library's error into an `anyhow` error. The model carries only the error's message.
- `BTreeMap` ordering: no operation of the core iterates a map, so each map is a Dafny `map`, whose entries have no order.
- `get_blockchain` and `synchronize_wallet` (src/bitcoin/wallet.rs:72-86) do network I/O against the Esplora backend, so they are not modelled.
- The REST server, the HTTP client for receiving tokens, and the integration tests (swap engine, contract amounts, watcher, consignments) call code that is not part of this model. They are not modelled.

## Findings

| source | as written | input that shows it | evidently intended | confidence | as-written member | corrected member |
|---|---|---|---|---|---|---|
| src/bitcoin/wallet.rs:41-67 | the read guard taken at line 41 lives until the end of the `match`. So after a successful build, the write lock requested at lines 53-62 waits on its own task's read guard forever. Nothing is inserted, the panic at 65 and the `Ok` at 67 are never reached, and every later call on that network queues behind the stuck writer. Beyond that, the panic at 65 is unconditional, so even with the guard released a miss would never return its wallet | the first call on an empty registry for any key whose build succeeds (e.g. regtest, any descriptor, no change descriptor) | release the guard after the lookup (copy the found handle out), insert the new wallet, and return it | not executed; high that the call blocks and that line 67 is unreachable; medium that the panic is debug code | BitcoinWallet.FirstMissBlocks | BitcoinWallet.IntendedReturnsRegisteredWallet |

`Step` builds the correction in two stages. `GuardReleased` only releases the guard: the call then inserts and panics, which `GuardReleasedMissPanics` and `AbortThenHit` describe. `Intended` also removes the panic: it evolves the registry exactly as `GuardReleased` does (`IntendedDiffersOnlyInOutcome`) and returns the wallet it registered (`IntendedReturnsRegisteredWallet`, `IntendedOkThenOk`). `Networks.GetWallet` and the "as written" lemmas are about the code as it stands.
