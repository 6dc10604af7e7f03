/** The ledger as the node holds it: a log and an index of balances, both updated in place. */
module NodeLedger {
  import opened Wrappers
  import opened ChannelHistory
  import opened Ledgers

  class Ledger {
    var log: seq<Record>
    var balances: Balances

    ghost function View(): Book
      reads this
    {
      Book(log, balances)
    }

    constructor ()
      ensures View() == EMPTY_BOOK
    {
      log, balances := [], map[];
    }

    /** Validate, chain and commit one transaction; on any error nothing changes. */
    method Append(tx: Tx) returns (r: Result<Record, LedgerError>)
      modifies this
      ensures match Appended(old(View()), tx)
              case Success(b) => View() == b && r == Success(b.log[|b.log| - 1])
              case Failure(e) => View() == old(View()) && r == Failure(e)
    {
      if tx.entries == [] {
        return Failure(EmptyTx);
      }
      var sum := 0;
      for i := 0 to |tx.entries|
        invariant sum == Amounts(tx.entries[..i])
      {
        assert tx.entries[..i + 1][..i] == tx.entries[..i];
        sum := sum + tx.entries[i].amount;
      }
      assert tx.entries[..|tx.entries|] == tx.entries;
      if sum != 0 {
        return Failure(Unbalanced);
      }
      for i := 0 to |tx.entries|
        invariant forall k :: 0 <= k < i ==> !Overdraws(balances, tx.entries[k])
      {
        if Overdraws(balances, tx.entries[i]) {
          return Failure(NodeNegative);
        }
      }
      var rec := NextRecord(log, tx);
      ghost var before := balances;
      for i := 0 to |tx.entries|
        invariant balances == Post(before, tx.entries[..i]) && log == old(log)
      {
        assert tx.entries[..i + 1][..i] == tx.entries[..i];
        balances := PostOne(balances, tx.entries[i]);
      }
      assert tx.entries[..|tx.entries|] == tx.entries;
      log := log + [rec];
      r := Success(rec);
    }

    /** Replay one record's entries, watching every node wallet they touch. */
    static method Replay(running: Balances, es: seq<Entry>) returns (after: Balances, sum: int, ok: bool)
      ensures ok <==> forall j :: 0 <= j < |es| && IsNodeWallet(es[j].account) ==>
                        Get(running, es[j].account) + EntrySum(es[..j + 1], es[j].account) >= 0
      ensures ok ==> sum == Amounts(es) && after == Post(running, es)
    {
      after, sum := running, 0;
      for j := 0 to |es|
        invariant sum == Amounts(es[..j]) && after == Post(running, es[..j])
        invariant forall k :: 0 <= k < j && IsNodeWallet(es[k].account) ==>
                    Get(running, es[k].account) + EntrySum(es[..k + 1], es[k].account) >= 0
      {
        assert es[..j + 1][..j] == es[..j];
        sum := sum + es[j].amount;
        after := PostOne(after, es[j]);
        PostGet(running, es[..j + 1], es[j].account);
        if IsNodeWallet(es[j].account) && Get(after, es[j].account) < 0 {
          return after, sum, false;
        }
      }
      assert es[..|es|] == es;
      ok := true;
    }

    /** The self-audit: hash links, conservation, and solvent wallets, from the first record on. */
    method VerifyChain() returns (ok: bool)
      ensures ok <==> Verified(log)
    {
      ok := Audit(log);
    }

    static method Audit(log: seq<Record>) returns (ok: bool)
      ensures ok <==> Verified(log)
    {
      var running: Balances := map[];
      var prev := Zero;
      assert forall a :: Get(running, a) == BalanceOf(log[..0], a);
      hide BalanceOf, EntrySum, Amounts, RecordHash;
      for i := 0 to |log|
        invariant prev == Head(log[..i])
        invariant forall k :: 0 <= k < i ==> Chained(log, k) && Solvent(log, k)
        invariant forall a :: Get(running, a) == BalanceOf(log[..i], a)
      {
        var after, sum, solvent := Replay(running, log[i].tx.entries);
        assert solvent <==> Solvent(log, i);
        var linked := log[i].seqNo == i + 1 && log[i].prev == prev && sum == 0 && RecordHash(log[i]) == log[i].hash;
        if !solvent || !linked {
          assert !(Chained(log, i) && Solvent(log, i));
          return false;
        }
        StepFold(log, i, running);
        prev, running := log[i].hash, after;
      }
      assert log[..|log|] == log;
      ok := true;
    }

    /** Rebuild a ledger from stored records: refused unless they pass the audit. */
    static method Load(records: seq<Record>) returns (l: Ledger?)
      ensures l != null <==> Verified(records)
      ensures l != null ==> fresh(l) && l.log == records && BookOk(l.View())
    {
      l := new Ledger();
      l.log := records;
      var ok := l.VerifyChain();
      if !ok {
        return null;
      }
      for i := 0 to |records|
        invariant l.log == records
        invariant forall a :: Get(l.balances, a) == BalanceOf(records[..i], a)
      {
        ghost var before := l.balances;
        var es := records[i].tx.entries;
        for j := 0 to |es|
          invariant l.log == records && l.balances == Post(before, es[..j])
        {
          assert es[..j + 1][..j] == es[..j];
          l.balances := PostOne(l.balances, es[j]);
        }
        assert es[..|es|] == es && records[..i + 1][..i] == records[..i];
        forall a ensures Get(l.balances, a) == BalanceOf(records[..i + 1], a) {
          PostGet(before, es, a);
        }
      }
      assert records[..|records|] == records;
      forall a | IsNodeWallet(a) ensures Get(l.balances, a) >= 0 {
        VerifiedSolvent(records, a);
      }
    }
  }

  lemma StepFold(log: seq<Record>, i: nat, running: Balances)
    requires i < |log| && forall a :: Get(running, a) == BalanceOf(log[..i], a)
    ensures forall a :: Get(Post(running, log[i].tx.entries), a) == BalanceOf(log[..i + 1], a)
    ensures Head(log[..i + 1]) == log[i].hash
  {
    assert log[..i + 1][..i] == log[..i];
    forall a ensures Get(Post(running, log[i].tx.entries), a) == BalanceOf(log[..i + 1], a) {
      PostGet(running, log[i].tx.entries, a);
    }
  }

  lemma {:induction false} LastTouch(es: seq<Entry>, a: Account) returns (j: nat)
    requires exists i :: 0 <= i < |es| && es[i].account == a
    ensures j < |es| && es[j].account == a && EntrySum(es[..j + 1], a) == EntrySum(es, a)
  {
    var n := |es| - 1;
    if es[n].account == a {
      assert es[..n + 1] == es;
      j := n;
    } else {
      j := LastTouch(es[..n], a);
      assert es[..n][..j + 1] == es[..j + 1];
    }
  }

  /** In an audited log no wallet ends below zero. */
  lemma {:induction false} VerifiedSolvent(log: seq<Record>, a: Account)
    requires Verified(log) && IsNodeWallet(a)
    ensures BalanceOf(log, a) >= 0
  {
    if log != [] {
      var n := |log| - 1;
      var es := log[n].tx.entries;
      assert Solvent(log, n);
      if exists i :: 0 <= i < |es| && es[i].account == a {
        var j := LastTouch(es, a);
        assert es[j].account == a;
      } else {
        NotNamed(es, a);
        forall i | 0 <= i < n ensures Chained(log[..n], i) && Solvent(log[..n], i) {
          assert log[..n][..i] == log[..i];
          assert Chained(log, i) && Solvent(log, i);
        }
        VerifiedSolvent(log[..n], a);
      }
    }
  }
}
