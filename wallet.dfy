/**
 * The process-wide, per-network cache of wallet handles of bitmask-core
 * (src/bitcoin/wallet.rs).
 *
 * `get_wallet` looks its key up in the map of the current network while
 * holding that map's read lock. A hit returns the cached handle. On a miss it
 * builds a new wallet and, if that succeeds, asks for the same map's write
 * lock. The read guard of the lookup is a temporary of the `match` scrutinee,
 * so it lives until the end of the `match`, and the write lock can never be
 * granted: the call never completes, nothing is inserted, and the panic after
 * the insert is never reached. The lock is fair, so every later call on that
 * network queues behind the waiting writer and never completes either.
 */
module BitcoinWallet {

  datatype Option<T> = None | Some(value: T)

  /** The four networks the registry holds a map for. */
  datatype Network = Bitcoin | Testnet | Signet | Regtest

  /** The cache key: the descriptor together with the optional change descriptor. */
  datatype WalletKey = WalletKey(descriptor: string, change: Option<string>)

  /**
   * A shared wallet handle. `id` stands for the identity of the shared
   * allocation (clones of one handle carry the same id); the other fields
   * record what the wallet was built from.
   */
  datatype Wallet = Wallet(id: nat, descriptor: string, change: Option<string>, network: Network)

  /**
   * What the wallet library's constructor does when it is called on a miss:
   * it yields a new allocation with identity `id`, or it fails.
   */
  datatype Construction = Built(id: nat) | Failed(message: string)

  /**
   * What a call of `get_wallet` ends in: a handle, a propagated error, a
   * panic, or no end at all (the call waits forever for a lock).
   */
  datatype Outcome = Ok(wallet: Wallet) | Err(message: string) | Abort(message: string) | Blocked

  type Wallets = map<WalletKey, Wallet>

  /**
   * The value held by the registry: one map per network, and the networks
   * whose lock is held for good by a call that can never complete.
   */
  datatype Registry = Registry(bitcoin: Wallets, testnet: Wallets, signet: Wallets, regtest: Wallets, blocked: set<Network>)

  /** The registry after a call, and what the call returned. */
  datatype Reply = Reply(after: Registry, outcome: Outcome)

  /**
   * Which code a call runs: the code as written; the code with the lookup's
   * read guard released before the insert (the panic still follows the
   * insert); or that code without the panic, returning the new wallet.
   */
  datatype Version = AsWritten | GuardReleased | Intended

  /** The message of the panic that follows the insert. */
  const PanicMessage := "get_wallet"

  /** The registry as it starts: four empty maps, no network blocked. */
  function Empty(): (r: Registry)
    ensures forall n :: Select(r, n) == map[]
    ensures r.blocked == {}
  {
    Registry(map[], map[], map[], map[], {})
  }

  /** The map that belongs to network `n`. */
  function Select(reg: Registry, n: Network): Wallets
  {
    match n
    case Bitcoin => reg.bitcoin
    case Testnet => reg.testnet
    case Signet => reg.signet
    case Regtest => reg.regtest
  }

  /** The registry with the map of network `n` replaced by `w`. */
  function Replace(reg: Registry, n: Network, w: Wallets): (r: Registry)
    ensures Select(r, n) == w
    ensures forall m :: m != n ==> Select(r, m) == Select(reg, m)
    ensures r.blocked == reg.blocked
  {
    match n
    case Bitcoin => reg.(bitcoin := w)
    case Testnet => reg.(testnet := w)
    case Signet => reg.(signet := w)
    case Regtest => reg.(regtest := w)
  }

  /** The wallet the constructor yields for `key` on network `n`, given allocation `id`. */
  function NewWallet(id: nat, key: WalletKey, n: Network): (w: Wallet)
  {
    Wallet(id, key.descriptor, key.change, n)
  }

  /** Wallet `w` was built from `key` for network `n`. */
  predicate BuiltFor(w: Wallet, key: WalletKey, n: Network)
  {
    w.descriptor == key.descriptor && w.change == key.change && w.network == n
  }

  /** Every cached wallet was built from its own key and for the network of its map. */
  predicate WellFormed(reg: Registry)
  {
    forall n, k :: k in Select(reg, n) ==> BuiltFor(Select(reg, n)[k], k, n)
  }

  /**
   * One call of `get_wallet(descriptor, change)` on network `n`.
   *
   * On a blocked network the lookup's read waits behind the stuck writer.
   * Otherwise a hit returns the cached handle and a failing constructor
   * propagates its error before anything is written. A successful miss, as
   * written, waits forever for the write lock its own read guard keeps from
   * it; the other versions insert and then panic, or insert and return.
   */
  function Step(v: Version, reg: Registry, n: Network, descriptor: string, change: Option<string>, build: Construction): Reply
  {
    var key := WalletKey(descriptor, change);
    var wallets := Select(reg, n);
    if n in reg.blocked then
      Reply(reg, Blocked)
    else if key in wallets then
      Reply(reg, Ok(wallets[key]))
    else
      match build
      case Failed(message) => Reply(reg, Err(message))
      case Built(id) =>
        var w := NewWallet(id, key, n);
        match v
        case AsWritten => Reply(reg.(blocked := reg.blocked + {n}), Blocked)
        case GuardReleased => Reply(Replace(reg, n, wallets[key := w]), Abort(PanicMessage))
        case Intended => Reply(Replace(reg, n, wallets[key := w]), Ok(w))
  }

  // ---------------------------------------------------------------------------
  // Properties of one call, in every version

  /** On a network that is not blocked, a cached key is returned as is, and nothing changes. */
  lemma CacheHit(v: Version, reg: Registry, n: Network, descriptor: string, change: Option<string>, build: Construction)
    requires n !in reg.blocked
    requires WalletKey(descriptor, change) in Select(reg, n)
    ensures Step(v, reg, n, descriptor, change, build) == Reply(reg, Ok(Select(reg, n)[WalletKey(descriptor, change)]))
  {
  }

  /** On a blocked network every call waits forever and changes nothing. */
  lemma BlockedNetworkBlocksEveryCall(v: Version, reg: Registry, n: Network, descriptor: string, change: Option<string>, build: Construction)
    requires n in reg.blocked
    ensures Step(v, reg, n, descriptor, change, build) == Reply(reg, Blocked)
  {
  }

  /**
   * Except when the intended code returns a wallet it has just built, a call
   * returns a handle exactly when its network is not blocked and its key is cached.
   */
  lemma OkIffCached(v: Version, reg: Registry, n: Network, descriptor: string, change: Option<string>, build: Construction)
    requires v != Intended
    ensures Step(v, reg, n, descriptor, change, build).outcome.Ok?
        <==> n !in reg.blocked && WalletKey(descriptor, change) in Select(reg, n)
  {
  }

  /**
   * The change descriptor is part of the key: with `(descriptor, change)`
   * cached and `(descriptor, other)` not, a call with `other` does not answer
   * with a cached handle (only the intended code answers, with a wallet built
   * from `other`), and the `(descriptor, change)` entry stays as it was.
   */
  lemma ChangeDescriptorIsPartOfKey(v: Version, reg: Registry, n: Network, descriptor: string, change: Option<string>, other: Option<string>, build: Construction)
    requires WalletKey(descriptor, change) in Select(reg, n)
    requires WalletKey(descriptor, other) !in Select(reg, n)
    ensures var r := Step(v, reg, n, descriptor, other, build);
      r.outcome.Ok? ==> v == Intended && build.Built? && r.outcome.wallet == NewWallet(build.id, WalletKey(descriptor, other), n)
    ensures var after := Select(Step(v, reg, n, descriptor, other, build).after, n);
      WalletKey(descriptor, change) in after && after[WalletKey(descriptor, change)] == Select(reg, n)[WalletKey(descriptor, change)]
  {
  }

  /** On every path, the three other networks keep their maps and their blocked status. */
  lemma NetworkIsolation(v: Version, reg: Registry, n: Network, descriptor: string, change: Option<string>, build: Construction, m: Network)
    requires m != n
    ensures Select(Step(v, reg, n, descriptor, change, build).after, m) == Select(reg, m)
    ensures m in Step(v, reg, n, descriptor, change, build).after.blocked <==> m in reg.blocked
  {
  }

  /** A miss whose construction fails returns the error and changes nothing. */
  lemma FailureLeavesCacheUnchanged(v: Version, reg: Registry, n: Network, descriptor: string, change: Option<string>, message: string)
    requires n !in reg.blocked
    requires WalletKey(descriptor, change) !in Select(reg, n)
    ensures Step(v, reg, n, descriptor, change, Failed(message)) == Reply(reg, Err(message))
  {
  }

  /** A call never removes or replaces a cached entry, on any network. */
  lemma StepKeepsEntries(v: Version, reg: Registry, n: Network, descriptor: string, change: Option<string>, build: Construction, m: Network, k: WalletKey)
    requires k in Select(reg, m)
    ensures k in Select(Step(v, reg, n, descriptor, change, build).after, m)
    ensures Select(Step(v, reg, n, descriptor, change, build).after, m)[k] == Select(reg, m)[k]
  {
  }

  /** A blocked network stays blocked. */
  lemma StepKeepsBlocked(v: Version, reg: Registry, n: Network, descriptor: string, change: Option<string>, build: Construction)
    ensures reg.blocked <= Step(v, reg, n, descriptor, change, build).after.blocked
  {
  }

  /** The empty registry is well formed. */
  lemma EmptyWellFormed()
    ensures WellFormed(Empty())
  {
  }

  /** A call keeps the registry well formed. */
  lemma StepPreservesWellFormed(v: Version, reg: Registry, n: Network, descriptor: string, change: Option<string>, build: Construction)
    requires WellFormed(reg)
    ensures WellFormed(Step(v, reg, n, descriptor, change, build).after)
  {
    var r := Step(v, reg, n, descriptor, change, build);
    forall m, k | k in Select(r.after, m)
      ensures BuiltFor(Select(r.after, m)[k], k, m)
    {
      if m != n || k != WalletKey(descriptor, change) || WalletKey(descriptor, change) in Select(reg, n) || r.after.blocked != reg.blocked {
        assert k in Select(reg, m);
      }
    }
  }

  /** On a well-formed registry, a returned handle was built from the requested key for the current network. */
  lemma OkWalletMatchesRequest(v: Version, reg: Registry, n: Network, descriptor: string, change: Option<string>, build: Construction)
    requires WellFormed(reg)
    requires Step(v, reg, n, descriptor, change, build).outcome.Ok?
    ensures BuiltFor(Step(v, reg, n, descriptor, change, build).outcome.wallet, WalletKey(descriptor, change), n)
  {
  }

  /** A returned handle is, after the call, the one cached under the call's key and network. */
  lemma OkIsRegistered(v: Version, reg: Registry, n: Network, descriptor: string, change: Option<string>, build: Construction)
    requires Step(v, reg, n, descriptor, change, build).outcome.Ok?
    ensures var r := Step(v, reg, n, descriptor, change, build);
      && n !in r.after.blocked
      && WalletKey(descriptor, change) in Select(r.after, n)
      && Select(r.after, n)[WalletKey(descriptor, change)] == r.outcome.wallet
  {
  }

  // ---------------------------------------------------------------------------
  // The code as written

  /** As written, no call ever changes a map. */
  lemma AsWrittenNeverInserts(reg: Registry, n: Network, descriptor: string, change: Option<string>, build: Construction, m: Network)
    ensures Select(Step(AsWritten, reg, n, descriptor, change, build).after, m) == Select(reg, m)
  {
  }

  /**
   * As written, a miss whose construction succeeds never completes: no map
   * changes, no panic happens, and its network is blocked from then on.
   */
  lemma MissBlocks(reg: Registry, n: Network, descriptor: string, change: Option<string>, id: nat)
    requires n !in reg.blocked
    requires WalletKey(descriptor, change) !in Select(reg, n)
    ensures Step(AsWritten, reg, n, descriptor, change, Built(id)) == Reply(reg.(blocked := reg.blocked + {n}), Blocked)
  {
  }

  /**
   * As written, a call ends in `Blocked` exactly when its network is blocked
   * afterwards, and it never panics.
   */
  lemma AsWrittenBlockedIffNetworkBlocked(reg: Registry, n: Network, descriptor: string, change: Option<string>, build: Construction)
    ensures var r := Step(AsWritten, reg, n, descriptor, change, build);
      && (r.outcome.Blocked? <==> n in r.after.blocked)
      && !r.outcome.Abort?
  {
  }

  /**
   * As written, after a miss that built a wallet, the next call on the same
   * network, with any key, waits forever too.
   */
  lemma RepeatCallBlocks(reg: Registry, n: Network, descriptor: string, change: Option<string>, id: nat,
                         descriptor': string, change': Option<string>, build: Construction)
    requires n !in reg.blocked
    requires WalletKey(descriptor, change) !in Select(reg, n)
    ensures var first := Step(AsWritten, reg, n, descriptor, change, Built(id));
      Step(AsWritten, first.after, n, descriptor', change', build) == Reply(first.after, Blocked)
  {
  }

  /** Concrete input: the first call on an empty registry whose construction succeeds blocks with the cache still empty. */
  lemma FirstMissBlocks(descriptor: string, change: Option<string>, id: nat)
    ensures Step(AsWritten, Empty(), Regtest, descriptor, change, Built(id)).outcome == Blocked
    ensures Step(AsWritten, Empty(), Regtest, descriptor, change, Built(id)).after == Empty().(blocked := {Regtest})
  {
  }

  // ---------------------------------------------------------------------------
  // The code with the lookup's guard released, and the intended code

  /**
   * Once the guard is released, a miss whose construction succeeds adds
   * exactly the new entry to the map of its network and keeps every earlier
   * entry; it then panics, or, in the intended code, returns the new wallet.
   */
  lemma MissInsertsOneEntry(v: Version, reg: Registry, n: Network, descriptor: string, change: Option<string>, id: nat)
    requires v != AsWritten
    requires n !in reg.blocked
    requires WalletKey(descriptor, change) !in Select(reg, n)
    ensures var r := Step(v, reg, n, descriptor, change, Built(id));
      && r.outcome == (if v == GuardReleased then Abort(PanicMessage) else Ok(Wallet(id, descriptor, change, n)))
      && r.after.blocked == reg.blocked
      && Select(r.after, n) == Select(reg, n)[WalletKey(descriptor, change) := Wallet(id, descriptor, change, n)]
      && Select(r.after, n).Keys == Select(reg, n).Keys + {WalletKey(descriptor, change)}
      && |Select(r.after, n)| == |Select(reg, n)| + 1
      && (forall k :: k in Select(reg, n) ==> k in Select(r.after, n) && Select(r.after, n)[k] == Select(reg, n)[k])
  {
  }

  /** Once the guard is released, no call blocks a network. */
  lemma ReleasedNeverBlocks(v: Version, reg: Registry, n: Network, descriptor: string, change: Option<string>, build: Construction)
    requires v != AsWritten
    ensures var r := Step(v, reg, n, descriptor, change, build);
      r.after.blocked == reg.blocked && (r.outcome.Blocked? <==> n in reg.blocked)
  {
  }

  /**
   * Once the guard is released, after a miss that built wallet `id`, the next
   * call with the same key and network is a hit on that wallet, whatever its
   * own constructor would have done.
   */
  lemma RepeatCallHits(v: Version, reg: Registry, n: Network, descriptor: string, change: Option<string>, id: nat, build: Construction)
    requires v != AsWritten
    requires n !in reg.blocked
    requires WalletKey(descriptor, change) !in Select(reg, n)
    ensures var first := Step(v, reg, n, descriptor, change, Built(id));
      Step(v, first.after, n, descriptor, change, build) == Reply(first.after, Ok(Wallet(id, descriptor, change, n)))
  {
  }

  /** Concrete input: with the guard released, the first successful miss on an empty registry inserts and then panics. */
  lemma GuardReleasedMissPanics(descriptor: string, change: Option<string>, id: nat)
    ensures Step(GuardReleased, Empty(), Regtest, descriptor, change, Built(id)).outcome == Abort("get_wallet")
    ensures Step(GuardReleased, Empty(), Regtest, descriptor, change, Built(id)).after
         == Replace(Empty(), Regtest, map[WalletKey(descriptor, change) := Wallet(id, descriptor, change, Regtest)])
  {
  }

  /**
   * Removing the panic as well changes no state: the intended code evolves the
   * registry exactly as the released one; only where it panicked does the
   * intended code answer, with the wallet it registered.
   */
  lemma IntendedDiffersOnlyInOutcome(reg: Registry, n: Network, descriptor: string, change: Option<string>, build: Construction)
    ensures var released := Step(GuardReleased, reg, n, descriptor, change, build);
      var intended := Step(Intended, reg, n, descriptor, change, build);
      && intended.after == released.after
      && (released.outcome.Abort? ==> intended.outcome == Ok(Select(released.after, n)[WalletKey(descriptor, change)]))
      && (!released.outcome.Abort? ==> intended.outcome == released.outcome)
  {
  }

  /**
   * The intended call never panics and never blocks a network; it fails only
   * when the key is missing and the constructor fails; otherwise it returns
   * the handle now registered under its key.
   */
  lemma IntendedReturnsRegisteredWallet(reg: Registry, n: Network, descriptor: string, change: Option<string>, build: Construction)
    ensures var r := Step(Intended, reg, n, descriptor, change, build);
      && !r.outcome.Abort?
      && r.after.blocked == reg.blocked
      && (r.outcome.Blocked? <==> n in reg.blocked)
      && (r.outcome.Err? <==> n !in reg.blocked && WalletKey(descriptor, change) !in Select(reg, n) && build.Failed?)
      && (r.outcome.Ok? ==> WalletKey(descriptor, change) in Select(r.after, n)
                            && Select(r.after, n)[WalletKey(descriptor, change)] == r.outcome.wallet)
  {
  }

  // ---------------------------------------------------------------------------
  // The registry object

  /**
   * The process-wide registry: four maps, one per network, that the calls
   * update in place, and the networks whose lock a stuck call holds.
   */
  class Networks {
    var bitcoin: Wallets
    var testnet: Wallets
    var signet: Wallets
    var regtest: Wallets
    var blocked: set<Network>

    /** The abstract value of the registry. */
    function State(): Registry
      reads this
    {
      Registry(bitcoin, testnet, signet, regtest, blocked)
    }

    predicate Valid()
      reads this
    {
      WellFormed(State())
    }

    /** The default registry: four empty maps, every lock free. */
    constructor ()
      ensures Valid() && State() == Empty()
    {
      bitcoin, testnet, signet, regtest := map[], map[], map[], map[];
      blocked := {};
    }

    /** `get_wallet(descriptor, change)` as written, with `network` the current network. */
    method GetWallet(network: Network, descriptor: string, change: Option<string>, build: Construction) returns (outcome: Outcome)
      requires Valid()
      modifies this
      ensures Valid()
      ensures Reply(State(), outcome) == Step(AsWritten, old(State()), network, descriptor, change, build)
      ensures outcome.Ok? <==> network !in old(blocked) && WalletKey(descriptor, change) in Select(old(State()), network)
      ensures outcome.Ok? ==> BuiltFor(outcome.wallet, WalletKey(descriptor, change), network)
      ensures outcome.Blocked? <==> network in blocked
      ensures forall m :: Select(State(), m) == Select(old(State()), m)
      ensures forall m :: m != network ==> (m in blocked <==> m in old(blocked))
    {
      if network in blocked {
        // The read lock waits behind the writer that can never be served.
        return Blocked;
      }
      var key := WalletKey(descriptor, change);
      var wallets := match network
        case Bitcoin => bitcoin
        case Testnet => testnet
        case Signet => signet
        case Regtest => regtest;
      if key in wallets {
        return Ok(wallets[key]);
      }
      match build {
        case Failed(message) =>
          return Err(message);
        case Built(_) =>
      }
      // The read guard of the lookup is still alive here, so the write lock of
      // this network is never granted: the insert and the panic are not reached.
      blocked := blocked + {network};
      StepPreservesWellFormed(AsWritten, old(State()), network, descriptor, change, build);
      outcome := Blocked;
    }

    /**
     * The intended `get_wallet`: the looked-up handle is copied out and the
     * read guard released before the insert, and a successful miss returns
     * the wallet it registered.
     */
    method GetWalletIntended(network: Network, descriptor: string, change: Option<string>, build: Construction) returns (outcome: Outcome)
      requires Valid()
      modifies this
      ensures Valid()
      ensures Reply(State(), outcome) == Step(Intended, old(State()), network, descriptor, change, build)
      ensures blocked == old(blocked)
      ensures outcome.Err? <==> network !in blocked && WalletKey(descriptor, change) !in Select(old(State()), network) && build.Failed?
      ensures outcome.Ok? ==> BuiltFor(outcome.wallet, WalletKey(descriptor, change), network)
                              && Select(State(), network)[WalletKey(descriptor, change)] == outcome.wallet
    {
      if network in blocked {
        return Blocked;
      }
      var key := WalletKey(descriptor, change);
      var wallets := match network
        case Bitcoin => bitcoin
        case Testnet => testnet
        case Signet => signet
        case Regtest => regtest;
      if key in wallets {
        return Ok(wallets[key]);
      }
      var id;
      match build {
        case Failed(message) =>
          return Err(message);
        case Built(i) =>
          id := i;
      }
      var newWallet := Wallet(id, descriptor, change, network);
      match network {
        case Bitcoin => bitcoin := bitcoin[key := newWallet];
        case Testnet => testnet := testnet[key := newWallet];
        case Signet => signet := signet[key := newWallet];
        case Regtest => regtest := regtest[key := newWallet];
      }
      StepPreservesWellFormed(Intended, old(State()), network, descriptor, change, build);
      outcome := Ok(newWallet);
    }
  }
}
