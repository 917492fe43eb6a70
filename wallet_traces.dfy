/**
 * Sequences of `get_wallet` calls on one registry: what the registry holds
 * after them and what each call answers, for the code as written and for the
 * versions that release the lookup's read guard before the insert.
 */
module WalletTraces {
  import opened BitcoinWallet

  /** One call: the current network, the arguments, and what the constructor would do. */
  datatype Call = Call(network: Network, descriptor: string, change: Option<string>, build: Construction)

  function KeyOf(c: Call): WalletKey
  {
    WalletKey(c.descriptor, c.change)
  }

  function Apply(v: Version, reg: Registry, c: Call): Reply
  {
    Step(v, reg, c.network, c.descriptor, c.change, c.build)
  }

  /** The registry after the calls, in order. */
  function Run(v: Version, reg: Registry, calls: seq<Call>): Registry
    decreases |calls|
  {
    if calls == [] then reg else Run(v, Apply(v, reg, calls[0]).after, calls[1..])
  }

  /** What each call answers, in order. */
  function Outcomes(v: Version, reg: Registry, calls: seq<Call>): (r: seq<Outcome>)
    ensures |r| == |calls|
    decreases |calls|
  {
    if calls == [] then [] else [Apply(v, reg, calls[0]).outcome] + Outcomes(v, Apply(v, reg, calls[0]).after, calls[1..])
  }

  /** The calls made while `n` was the current network. */
  function OnNetwork(calls: seq<Call>, n: Network): (r: seq<Call>)
    ensures forall i :: 0 <= i < |r| ==> r[i].network == n
    ensures forall c :: c in r <==> c in calls && c.network == n
    decreases |calls|
  {
    if calls == [] then []
    else if calls[0].network == n then [calls[0]] + OnNetwork(calls[1..], n)
    else OnNetwork(calls[1..], n)
  }

  // ---------------------------------------------------------------------------
  // Any version

  lemma {:induction false} RunAppend(v: Version, reg: Registry, a: seq<Call>, b: seq<Call>)
    ensures Run(v, reg, a + b) == Run(v, Run(v, reg, a), b)
    decreases |a|
  {
    if a != [] {
      assert (a + b)[1..] == a[1..] + b;
      RunAppend(v, Apply(v, reg, a[0]).after, a[1..], b);
    } else {
      assert a + b == b;
    }
  }

  /** The registry after the first `i + 1` calls is call `i` applied to the registry after the first `i`. */
  lemma RunSnoc(v: Version, reg: Registry, calls: seq<Call>, i: nat)
    requires i < |calls|
    ensures Run(v, reg, calls[..i + 1]) == Apply(v, Run(v, reg, calls[..i]), calls[i]).after
  {
    assert calls[..i + 1] == calls[..i] + [calls[i]];
    RunAppend(v, reg, calls[..i], [calls[i]]);
  }

  /** The answer of call `j` is the answer of that call on the registry left by the calls before it. */
  lemma {:induction false} OutcomeAt(v: Version, reg: Registry, calls: seq<Call>, j: nat)
    requires j < |calls|
    ensures Outcomes(v, reg, calls)[j] == Apply(v, Run(v, reg, calls[..j]), calls[j]).outcome
    decreases j
  {
    if j > 0 {
      OutcomeAt(v, Apply(v, reg, calls[0]).after, calls[1..], j - 1);
      assert calls[1..][..j - 1] == calls[..j][1..];
    }
  }

  /** Once cached, an entry stays, with the same handle, through any later calls. */
  lemma {:induction false} RunKeepsEntries(v: Version, reg: Registry, calls: seq<Call>, n: Network, k: WalletKey)
    requires k in Select(reg, n)
    ensures k in Select(Run(v, reg, calls), n) && Select(Run(v, reg, calls), n)[k] == Select(reg, n)[k]
    decreases |calls|
  {
    if calls != [] {
      var c := calls[0];
      StepKeepsEntries(v, reg, c.network, c.descriptor, c.change, c.build, n, k);
      RunKeepsEntries(v, Apply(v, reg, c).after, calls[1..], n, k);
    }
  }

  /** Two registries agree on network `n`: the same map and the same blocked status. */
  predicate AgreeOn(a: Registry, b: Registry, n: Network)
  {
    Select(a, n) == Select(b, n) && (n in a.blocked <==> n in b.blocked)
  }

  /** The map and the blocked status of network `n` depend only on the calls made on `n`. */
  lemma {:induction false} RunIsolation(v: Version, reg: Registry, calls: seq<Call>, n: Network)
    ensures AgreeOn(Run(v, reg, calls), Run(v, reg, OnNetwork(calls, n)), n)
    decreases |calls|
  {
    if calls != [] {
      var c := calls[0];
      if c.network == n {
        RunIsolation(v, Apply(v, reg, c).after, calls[1..], n);
        assert ([c] + OnNetwork(calls[1..], n))[1..] == OnNetwork(calls[1..], n);
      } else {
        // A call on another network leaves `n` as it was, so the two runs
        // that follow start from registries that agree on `n`.
        var next := Apply(v, reg, c).after;
        NetworkIsolation(v, reg, c.network, c.descriptor, c.change, c.build, n);
        RunIsolation(v, next, calls[1..], n);
        RunIsolationAgree(v, next, reg, OnNetwork(calls[1..], n), n);
      }
    }
  }

  /** Calls on network `n` treat two registries that agree on `n` alike, as far as `n` goes. */
  lemma {:induction false} RunIsolationAgree(v: Version, a: Registry, b: Registry, calls: seq<Call>, n: Network)
    requires AgreeOn(a, b, n)
    requires forall i :: 0 <= i < |calls| ==> calls[i].network == n
    ensures AgreeOn(Run(v, a, calls), Run(v, b, calls), n)
    decreases |calls|
  {
    if calls != [] {
      var c := calls[0];
      assert c.network == n;
      RunIsolationAgree(v, Apply(v, a, c).after, Apply(v, b, c).after, calls[1..], n);
    }
  }

  /** Any number of calls keeps the registry well formed. */
  lemma {:induction false} RunPreservesWellFormed(v: Version, reg: Registry, calls: seq<Call>)
    requires WellFormed(reg)
    ensures WellFormed(Run(v, reg, calls))
    decreases |calls|
  {
    if calls != [] {
      var c := calls[0];
      StepPreservesWellFormed(v, reg, c.network, c.descriptor, c.change, c.build);
      RunPreservesWellFormed(v, Apply(v, reg, c).after, calls[1..]);
    }
  }

  /**
   * Every handle any call hands out is the one the cache still holds under
   * that call's key and network once all calls are done.
   */
  lemma HandedOutIsCached(v: Version, reg: Registry, calls: seq<Call>, j: nat)
    requires j < |calls| && Outcomes(v, reg, calls)[j].Ok?
    ensures var c := calls[j];
      KeyOf(c) in Select(Run(v, reg, calls), c.network)
      && Select(Run(v, reg, calls), c.network)[KeyOf(c)] == Outcomes(v, reg, calls)[j].wallet
  {
    var c := calls[j];
    var before := Run(v, reg, calls[..j]);
    OutcomeAt(v, reg, calls, j);
    OkIsRegistered(v, before, c.network, c.descriptor, c.change, c.build);
    RunSnoc(v, reg, calls, j);
    RunKeepsEntries(v, Run(v, reg, calls[..j + 1]), calls[j + 1..], c.network, KeyOf(c));
    assert calls[..j + 1] + calls[j + 1..] == calls;
    RunAppend(v, reg, calls[..j + 1], calls[j + 1..]);
  }

  /** Two calls with the same key and network that both return a handle return the same one. */
  lemma OkHandlesAgree(v: Version, reg: Registry, calls: seq<Call>, i: nat, j: nat)
    requires i < |calls| && j < |calls|
    requires calls[i].network == calls[j].network && KeyOf(calls[i]) == KeyOf(calls[j])
    requires Outcomes(v, reg, calls)[i].Ok? && Outcomes(v, reg, calls)[j].Ok?
    ensures Outcomes(v, reg, calls)[i] == Outcomes(v, reg, calls)[j]
  {
    HandedOutIsCached(v, reg, calls, i);
    HandedOutIsCached(v, reg, calls, j);
  }

  // ---------------------------------------------------------------------------
  // The code as written

  /** The networks that, as written, a call among `calls` blocks when the maps are those of `reg`. */
  function Stalls(reg: Registry, calls: seq<Call>): set<Network>
  {
    set i | 0 <= i < |calls| && calls[i].build.Built? && KeyOf(calls[i]) !in Select(reg, calls[i].network) :: calls[i].network
  }

  /** The network call `c` blocks, as written, when the maps are those of `reg`. */
  function StallOf(reg: Registry, c: Call): set<Network>
  {
    if c.build.Built? && KeyOf(c) !in Select(reg, c.network) then {c.network} else {}
  }

  lemma StallsCons(reg: Registry, calls: seq<Call>)
    requires calls != []
    ensures Stalls(reg, calls) == StallOf(reg, calls[0]) + Stalls(reg, calls[1..])
  {
    forall n | n in Stalls(reg, calls)
      ensures n in StallOf(reg, calls[0]) + Stalls(reg, calls[1..])
    {
      var i :| 0 <= i < |calls| && calls[i].build.Built? && KeyOf(calls[i]) !in Select(reg, calls[i].network) && calls[i].network == n;
      if i > 0 {
        assert calls[1..][i - 1] == calls[i];
      }
    }
    forall n | n in Stalls(reg, calls[1..])
      ensures n in Stalls(reg, calls)
    {
      var i :| 0 <= i < |calls[1..]| && calls[1..][i].build.Built? && KeyOf(calls[1..][i]) !in Select(reg, calls[1..][i].network) && calls[1..][i].network == n;
      assert calls[i + 1] == calls[1..][i];
    }
  }

  /** Stalls depends only on the maps, not on the blocked set. */
  lemma StallsSameMaps(a: Registry, b: Registry, calls: seq<Call>)
    requires forall m :: Select(a, m) == Select(b, m)
    ensures Stalls(a, calls) == Stalls(b, calls)
  {
  }

  /** As written, no sequence of calls changes any map. */
  lemma {:induction false} RunLeavesMapsUnchanged(reg: Registry, calls: seq<Call>, n: Network)
    ensures Select(Run(AsWritten, reg, calls), n) == Select(reg, n)
    decreases |calls|
  {
    if calls != [] {
      var c := calls[0];
      AsWrittenNeverInserts(reg, c.network, c.descriptor, c.change, c.build, n);
      RunLeavesMapsUnchanged(Apply(AsWritten, reg, c).after, calls[1..], n);
    }
  }

  /**
   * As written, the networks blocked after any calls are those blocked before
   * plus the network of every call whose key was not cached and whose
   * constructor would succeed, and no others.
   */
  lemma {:induction false} RunBlocked(reg: Registry, calls: seq<Call>)
    ensures Run(AsWritten, reg, calls).blocked == reg.blocked + Stalls(reg, calls)
    decreases |calls|
  {
    if calls != [] {
      var c := calls[0];
      var next := Apply(AsWritten, reg, c).after;
      RunBlocked(next, calls[1..]);
      forall m ensures Select(next, m) == Select(reg, m) {
        AsWrittenNeverInserts(reg, c.network, c.descriptor, c.change, c.build, m);
      }
      StallsSameMaps(next, reg, calls[1..]);
      StallsCons(reg, calls);
      assert next.blocked == reg.blocked + StallOf(reg, c);
    }
  }

  /**
   * As written, the answer of call `j` follows from the starting registry and
   * the earlier calls alone: it waits forever if its network was blocked or
   * an earlier call blocked it; otherwise a cached key is a hit, a failing
   * constructor an error, and a successful one blocks.
   */
  lemma OutcomeAsWritten(reg: Registry, calls: seq<Call>, j: nat)
    requires j < |calls|
    ensures var c := calls[j];
      Outcomes(AsWritten, reg, calls)[j] ==
        if c.network in reg.blocked + Stalls(reg, calls[..j]) then Blocked
        else if KeyOf(c) in Select(reg, c.network) then Ok(Select(reg, c.network)[KeyOf(c)])
        else if c.build.Failed? then Err(c.build.message)
        else Blocked
  {
    OutcomeAt(AsWritten, reg, calls, j);
    RunBlocked(reg, calls[..j]);
    RunLeavesMapsUnchanged(reg, calls[..j], calls[j].network);
  }

  /** As written, no call made on the registry as it starts ever returns a handle. */
  lemma NoCallFromEmptyReturnsOk(calls: seq<Call>, j: nat)
    requires j < |calls|
    ensures !Outcomes(AsWritten, Empty(), calls)[j].Ok?
  {
    OutcomeAsWritten(Empty(), calls, j);
  }

  /** As written, once a call on a network blocks, every later call on that network blocks. */
  lemma BlockedThenBlocked(reg: Registry, calls: seq<Call>, i: nat, j: nat)
    requires i < j < |calls|
    requires calls[i].network == calls[j].network
    requires Outcomes(AsWritten, reg, calls)[i] == Blocked
    ensures Outcomes(AsWritten, reg, calls)[j] == Blocked
  {
    var n := calls[i].network;
    OutcomeAsWritten(reg, calls, i);
    OutcomeAsWritten(reg, calls, j);
    assert calls[..j][i] == calls[i];
    forall m | m in Stalls(reg, calls[..i])
      ensures m in Stalls(reg, calls[..j])
    {
      var k :| 0 <= k < i && calls[..i][k].build.Built? && KeyOf(calls[..i][k]) !in Select(reg, calls[..i][k].network) && calls[..i][k].network == m;
      assert calls[..j][k] == calls[..i][k];
    }
  }

  // ---------------------------------------------------------------------------
  // With the lookup's read guard released (with or without the panic)

  /** Once the guard is released, no sequence of calls blocks a network. */
  lemma {:induction false} RunKeepsBlocked(v: Version, reg: Registry, calls: seq<Call>)
    requires v != AsWritten
    ensures Run(v, reg, calls).blocked == reg.blocked
    decreases |calls|
  {
    if calls != [] {
      var c := calls[0];
      ReleasedNeverBlocks(v, reg, c.network, c.descriptor, c.change, c.build);
      RunKeepsBlocked(v, Apply(v, reg, c).after, calls[1..]);
    }
  }

  /** The keys of the calls on network `n` whose constructor would succeed. */
  function BuiltKeys(calls: seq<Call>, n: Network): set<WalletKey>
  {
    set i | 0 <= i < |calls| && calls[i].network == n && calls[i].build.Built? :: KeyOf(calls[i])
  }

  /** The key call `c` adds to the map of network `n` once the guard is released. */
  function StepKeys(c: Call, n: Network): set<WalletKey>
  {
    if c.network == n && c.build.Built? then {KeyOf(c)} else {}
  }

  lemma StepAddsKeys(v: Version, reg: Registry, c: Call, n: Network)
    requires v != AsWritten
    ensures Select(Apply(v, reg, c).after, n).Keys
         == Select(reg, n).Keys + (if n in reg.blocked then {} else StepKeys(c, n))
  {
  }

  lemma BuiltKeysCons(calls: seq<Call>, n: Network)
    requires calls != []
    ensures BuiltKeys(calls, n) == StepKeys(calls[0], n) + BuiltKeys(calls[1..], n)
  {
  }

  /**
   * Once the guard is released, the keys cached on a network that is not
   * blocked are, after any calls, the earlier ones plus the key of every call
   * on it whose constructor would succeed; a blocked network's map never changes.
   */
  lemma {:induction false} RunKeys(v: Version, reg: Registry, calls: seq<Call>, n: Network)
    requires v != AsWritten
    ensures Select(Run(v, reg, calls), n).Keys
         == Select(reg, n).Keys + (if n in reg.blocked then {} else BuiltKeys(calls, n))
    decreases |calls|
  {
    if calls != [] {
      var c := calls[0];
      ReleasedNeverBlocks(v, reg, c.network, c.descriptor, c.change, c.build);
      RunKeys(v, Apply(v, reg, c).after, calls[1..], n);
      BuiltKeysCons(calls, n);
      StepAddsKeys(v, reg, c, n);
    }
  }

  /**
   * Once the guard is released, a key cached before call `i` on a network that
   * is not blocked is answered from the cache by every call from `i` on with
   * that key and network.
   */
  lemma CachedThenHit(v: Version, reg: Registry, calls: seq<Call>, i: nat, j: nat)
    requires v != AsWritten
    requires i <= j < |calls|
    requires calls[j].network !in reg.blocked
    requires KeyOf(calls[j]) in Select(Run(v, reg, calls[..i]), calls[j].network)
    ensures Outcomes(v, reg, calls)[j] == Ok(Select(Run(v, reg, calls[..i]), calls[j].network)[KeyOf(calls[j])])
  {
    var c := calls[j];
    var atI := Run(v, reg, calls[..i]);
    RunKeepsEntries(v, atI, calls[i..j], c.network, KeyOf(c));
    assert calls[..j] == calls[..i] + calls[i..j];
    RunAppend(v, reg, calls[..i], calls[i..j]);
    OutcomeAt(v, reg, calls, j);
    RunKeepsBlocked(v, reg, calls[..j]);
    CacheHit(v, Run(v, reg, calls[..j]), c.network, c.descriptor, c.change, c.build);
  }

  /**
   * With the guard released but the panic kept, a call that inserted and
   * panicked is followed, for every later call with the same key and network,
   * by a hit on the wallet it inserted: the panic fires at most once per key
   * and network.
   */
  lemma AbortThenHit(reg: Registry, calls: seq<Call>, i: nat, j: nat)
    requires i < j < |calls|
    requires calls[i].network == calls[j].network && KeyOf(calls[i]) == KeyOf(calls[j])
    requires Outcomes(GuardReleased, reg, calls)[i].Abort?
    ensures calls[i].build.Built?
    ensures Outcomes(GuardReleased, reg, calls)[j] == Ok(NewWallet(calls[i].build.id, KeyOf(calls[i]), calls[i].network))
  {
    var c := calls[i];
    var beforeI := Run(GuardReleased, reg, calls[..i]);
    OutcomeAt(GuardReleased, reg, calls, i);
    RunKeepsBlocked(GuardReleased, reg, calls[..i]);
    assert c.network !in beforeI.blocked;
    OkIffCached(GuardReleased, beforeI, c.network, c.descriptor, c.change, c.build);
    assert c.build.Built?;
    MissInsertsOneEntry(GuardReleased, beforeI, c.network, c.descriptor, c.change, c.build.id);
    RunSnoc(GuardReleased, reg, calls, i);
    CachedThenHit(GuardReleased, reg, calls, i + 1, j);
  }

  /**
   * In the intended code, a call that returns a handle (a hit or a new wallet)
   * is followed, for every later call with the same key and network, by the
   * same handle.
   */
  lemma IntendedOkThenOk(reg: Registry, calls: seq<Call>, i: nat, j: nat)
    requires i < j < |calls|
    requires calls[i].network == calls[j].network && KeyOf(calls[i]) == KeyOf(calls[j])
    requires Outcomes(Intended, reg, calls)[i].Ok?
    ensures Outcomes(Intended, reg, calls)[j] == Outcomes(Intended, reg, calls)[i]
  {
    var c := calls[i];
    var beforeI := Run(Intended, reg, calls[..i]);
    OutcomeAt(Intended, reg, calls, i);
    RunKeepsBlocked(Intended, reg, calls[..i]);
    OkIsRegistered(Intended, beforeI, c.network, c.descriptor, c.change, c.build);
    RunSnoc(Intended, reg, calls, i);
    CachedThenHit(Intended, reg, calls, i + 1, j);
  }
}
