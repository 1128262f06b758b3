/** The balance allocator the executors reserve funds with: a ledger of amounts
    already promised per (chain, token, holder), checked against balances read
    once. A batch of requests is admitted as a whole or not at all. */
module Allocation {
  import opened Types

  datatype Key = Key(chainId: ChainId, token: Address, holder: Address)
  datatype Request = Request(key: Key, amount: int)
  /** Amount used so far per key; a key that is absent has used nothing. */
  type Ledger = map<Key, int>

  function BalanceOf(balances: map<Key, nat>, k: Key): nat {
    if k in balances then balances[k] else 0
  }

  function UsedOf(used: Ledger, k: Key): int {
    if k in used then used[k] else 0
  }

  /** The total a batch asks of one key. */
  function Demand(reqs: seq<Request>, k: Key): (d: int)
    ensures (forall i :: 0 <= i < |reqs| ==> reqs[i].key != k) ==> d == 0
    ensures (forall i :: 0 <= i < |reqs| ==> reqs[i].amount >= 0) ==> d >= 0
  {
    if reqs == [] then 0
    else (if reqs[0].key == k then reqs[0].amount else 0) + Demand(reqs[1..], k)
  }

  /** Every key a batch touches can carry the batch's whole demand on top of what is used. */
  predicate Admits(balances: map<Key, nat>, used: Ledger, reqs: seq<Request>) {
    forall i :: 0 <= i < |reqs| ==> UsedOf(used, reqs[i].key) + Demand(reqs, reqs[i].key) <= BalanceOf(balances, reqs[i].key)
  }

  /** The ledger after committing a batch. */
  function Reserve(used: Ledger, reqs: seq<Request>): (r: Ledger)
    ensures forall k :: UsedOf(r, k) == UsedOf(used, k) + Demand(reqs, k)
    ensures forall k :: k in r <==> k in used || exists i :: 0 <= i < |reqs| && reqs[i].key == k
    decreases |reqs|
  {
    if reqs == [] then used
    else
      var k0 := reqs[0].key;
      var r := Reserve(used[k0 := UsedOf(used, k0) + reqs[0].amount], reqs[1..]);
      assert forall i :: 1 <= i < |reqs| ==> reqs[1..][i - 1] == reqs[i];
      r
  }

  /** No key is promised beyond its balance. */
  ghost predicate Solvent(balances: map<Key, nat>, used: Ledger) {
    forall k :: k in used ==> used[k] <= BalanceOf(balances, k)
  }

  /** Committing an admitted batch keeps every key within its balance. */
  lemma {:induction false} AdmittedBatchKeepsSolvency(balances: map<Key, nat>, used: Ledger, reqs: seq<Request>)
    requires Solvent(balances, used) && Admits(balances, used, reqs)
    ensures Solvent(balances, Reserve(used, reqs))
  {
    var r := Reserve(used, reqs);
    forall k | k in r ensures r[k] <= BalanceOf(balances, k) {
      assert UsedOf(r, k) == UsedOf(used, k) + Demand(reqs, k);
      if i :| 0 <= i < |reqs| && reqs[i].key == k {
        assert UsedOf(used, reqs[i].key) + Demand(reqs, reqs[i].key) <= BalanceOf(balances, reqs[i].key);
      } else {
        assert Demand(reqs, k) == 0;
      }
    }
  }

  /** A single request is admitted exactly when it fits in what is left of its key. */
  lemma {:induction false} SingleRequestAdmission(balances: map<Key, nat>, used: Ledger, k: Key, amount: int)
    ensures Admits(balances, used, [Request(k, amount)]) <==> UsedOf(used, k) + amount <= BalanceOf(balances, k)
  {
    assert Demand([Request(k, amount)], k) == amount + Demand([], k);
  }

  /** Giving capacity back (a non-positive amount) keeps every key within its balance. */
  lemma {:induction false} ReleaseKeepsSolvency(balances: map<Key, nat>, used: Ledger, k: Key, amount: int)
    requires Solvent(balances, used) && amount <= 0
    ensures Solvent(balances, used[k := UsedOf(used, k) + amount])
  {
  }

  class BalanceAllocator {
    /** Balances as the providers reported them. */
    const balances: map<Key, nat>
    var used: Ledger

    constructor(balances: map<Key, nat>)
      ensures this.balances == balances && used == map[]
    {
      this.balances := balances;
      used := map[];
    }

    /** Admits the whole batch or nothing. */
    method RequestBalanceAllocations(reqs: seq<Request>) returns (success: bool)
      modifies this
      ensures success == Admits(balances, old(used), reqs)
      ensures used == if success then Reserve(old(used), reqs) else old(used)
    {
      success := forall i :: 0 <= i < |reqs| ==>
        UsedOf(used, reqs[i].key) + Demand(reqs, reqs[i].key) <= BalanceOf(balances, reqs[i].key);
      if success {
        used := Reserve(used, reqs);
      }
    }

    method RequestBalanceAllocation(k: Key, amount: int) returns (success: bool)
      modifies this
      ensures success == (UsedOf(old(used), k) + amount <= BalanceOf(balances, k))
      ensures used == if success then Reserve(old(used), [Request(k, amount)]) else old(used)
    {
      SingleRequestAdmission(balances, used, k, amount);
      success := RequestBalanceAllocations([Request(k, amount)]);
    }

    /** Records `amount` as used (a negative amount frees capacity). */
    method AddUsed(k: Key, amount: int)
      modifies this
      ensures used == old(used)[k := UsedOf(old(used), k) + amount]
    {
      used := used[k := UsedOf(used, k) + amount];
    }
  }
}
