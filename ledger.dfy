/** `transMap` as `conversionData` and `cohortDashData` build it: the transactions
    of every username, in their original order. */
module Ledger {
  import opened Records
  import opened Dicts

  /** The transactions of `name`, in their order (`txs.filter(t => t.username === name)`). */
  function TxsOf(txs: seq<Transaction>, name: string): (r: seq<Transaction>)
    ensures |r| <= |txs|
    ensures forall k :: 0 <= k < |r| ==> r[k] in txs && r[k].username == name
  {
    if txs == [] then []
    else
      var last := txs[|txs| - 1];
      TxsOf(txs[..|txs| - 1], name) + (if last.username == name then [last] else [])
  }

  lemma TxsStep(txs: seq<Transaction>, i: nat, name: string)
    requires i < |txs|
    ensures TxsOf(txs[..i + 1], name) == TxsOf(txs[..i], name) + (if txs[i].username == name then [txs[i]] else [])
  {
    assert txs[..i + 1][..i] == txs[..i];
  }

  /** Every transaction of `name` is listed. */
  lemma {:induction false} TxsComplete(txs: seq<Transaction>, name: string, m: nat)
    requires m < |txs| && txs[m].username == name
    ensures txs[m] in TxsOf(txs, name)
  {
    var n := |txs| - 1;
    if m < n {
      assert txs[..n][m] == txs[m];
      TxsComplete(txs[..n], name, m);
    }
  }

  /** `m` maps exactly the usernames that have a transaction to their transactions. */
  ghost predicate Grouped(m: Dict<seq<Transaction>>, txs: seq<Transaction>)
  {
    && Valid(m)
    && (forall u :: u in m.vals <==> TxsOf(txs, u) != [])
    && (forall u :: u in m.vals ==> m.vals[u] == TxsOf(txs, u))
  }

  /** `rawTransactions.forEach(t => { if (!transMap[u]) transMap[u] = []; transMap[u].push(t); })`. */
  method GroupByUser(txs: seq<Transaction>) returns (m: Dict<seq<Transaction>>)
    ensures Grouped(m, txs)
  {
    m := Empty();
    var i := 0;
    while i < |txs|
      invariant i <= |txs| && Grouped(m, txs[..i])
    {
      var t := txs[i];
      var u := t.username;
      if u !in m.vals {
        m := Put(m, u, []);
      }
      m := Put(m, u, m.vals[u] + [t]);
      forall name ensures TxsOf(txs[..i + 1], name) == TxsOf(txs[..i], name) + (if txs[i].username == name then [txs[i]] else []) {
        TxsStep(txs, i, name);
      }
      i := i + 1;
    }
    assert txs[..|txs|] == txs;
  }

  /** `transMap[name]`, with a missing entry read as no transactions. */
  function Lookup(m: Dict<seq<Transaction>>, name: string): seq<Transaction>
  {
    if name in m.vals then m.vals[name] else []
  }

  lemma LookupIsFilter(m: Dict<seq<Transaction>>, txs: seq<Transaction>, name: string)
    requires Grouped(m, txs)
    ensures Lookup(m, name) == TxsOf(txs, name)
  {
  }
}
