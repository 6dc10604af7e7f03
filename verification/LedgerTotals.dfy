/** Sums over all accounts, and the exact condition under which Append guards the wallets. */
module LedgerTotals {
  import opened Wrappers
  import opened ChannelHistory
  import opened Ledgers

  ghost function SumOver(bal: Balances, s: set<Account>): int
  {
    if s == {} then 0 else var a :| a in s; Get(bal, a) + SumOver(bal, s - {a})
  }

  lemma {:induction false} SumSplit(bal: Balances, s: set<Account>, a: Account)
    requires a in s
    ensures SumOver(bal, s) == Get(bal, a) + SumOver(bal, s - {a})
    decreases |s|
  {
    var x :| x in s && SumOver(bal, s) == Get(bal, x) + SumOver(bal, s - {x});
    if x != a {
      SumSplit(bal, s - {x}, a);
      SumSplit(bal, s - {a}, x);
      assert s - {x} - {a} == s - {a} - {x};
    }
  }

  lemma {:induction false} SumSame(bal: Balances, bal': Balances, s: set<Account>)
    requires forall a :: a in s ==> Get(bal, a) == Get(bal', a)
    ensures SumOver(bal, s) == SumOver(bal', s)
    decreases |s|
  {
    if s != {} {
      var a :| a in s;
      SumSplit(bal, s, a);
      SumSplit(bal', s, a);
      SumSame(bal, bal', s - {a});
    }
  }

  lemma {:induction false} SumUntouched(bal: Balances, s: set<Account>, t: set<Account>)
    requires s <= t && forall a :: a in t - s ==> Get(bal, a) == 0
    ensures SumOver(bal, s) == SumOver(bal, t)
    decreases |t - s|
  {
    if t - s == {} {
      assert s == t;
    } else {
      var a :| a in t - s;
      SumSplit(bal, t, a);
      SumUntouched(bal, s, t - {a});
    }
  }

  /** The sum of every balance the ledger keeps. */
  ghost function Total(bal: Balances): int { SumOver(bal, bal.Keys) }

  lemma TotalPostOne(bal: Balances, e: Entry)
    ensures Total(PostOne(bal, e)) == Total(bal) + e.amount
  {
    var bal' := PostOne(bal, e);
    var keys := bal.Keys + {e.account};
    assert bal'.Keys == keys;
    SumUntouched(bal, bal.Keys, keys);
    SumSplit(bal, keys, e.account);
    SumSplit(bal', keys, e.account);
    SumSame(bal, bal', keys - {e.account});
  }

  lemma {:induction false} TotalPost(bal: Balances, es: seq<Entry>)
    ensures Total(Post(bal, es)) == Total(bal) + Amounts(es)
  {
    if es != [] {
      TotalPost(bal, es[..|es| - 1]);
      TotalPostOne(Post(bal, es[..|es| - 1]), es[|es| - 1]);
    }
  }

  /** Conservation: whatever is appended, all balances together stay at zero. */
  lemma {:induction false} SumIsAlwaysZero(b: Book, txs: seq<Tx>)
    requires Total(b.balances) == 0
    ensures Total(AppendAll(b, txs).balances) == 0
    decreases |txs|
  {
    if txs != [] {
      TotalPost(b.balances, txs[0].entries);
      SumIsAlwaysZero(match Appended(b, txs[0]) case Success(b') => b' case Failure(_) => b, txs[1..]);
    }
  }

  /** The money supply is what all members, funds and node wallets hold together. */
  lemma SupplyIsHeld(bal: Balances)
    requires Total(bal) == 0
    ensures MoneySupply(bal) == SumOver(bal, set a | a in bal.Keys && !IsSystem(a))
  {
    var held := set a | a in bal.Keys && !IsSystem(a);
    var all := held + {Issuance, Treasury};
    SumUntouched(bal, bal.Keys, all + bal.Keys);
    assert all + bal.Keys == all by {
      forall a | a in bal.Keys ensures a in all { }
    }
    SumSplit(bal, all, Issuance);
    SumSplit(bal, all - {Issuance}, Treasury);
    assert all - {Issuance} - {Treasury} == held;
  }

  // ----- when Append alone guards the wallets -----

  ghost predicate WalletsHold(bal: Balances) {
    forall a :: IsNodeWallet(a) ==> Get(bal, a) >= 0
  }

  /** The largest amount a single entry takes from an account. */
  function Deepest(es: seq<Entry>, a: Account): (d: int)
    ensures d >= 0
    ensures forall i :: 0 <= i < |es| && es[i].account == a ==> d + es[i].amount >= 0
    ensures d == 0 || exists i :: 0 <= i < |es| && es[i].account == a && es[i].amount == -d
  {
    if es == [] then 0
    else
      var d := Deepest(es[..|es| - 1], a);
      var e := es[|es| - 1];
      if e.account == a && -e.amount > d then -e.amount else d
  }

  /** What a caller can read off a transaction: no wallet loses more than its single deepest entry. */
  ghost predicate Safe(tx: Tx) {
    forall a :: IsNodeWallet(a) ==> Deepest(tx.entries, a) + EntrySum(tx.entries, a) >= 0
  }

  lemma AcceptedCovers(bal: Balances, tx: Tx, a: Account)
    requires Refusal(bal, tx).None? && IsNodeWallet(a) && WalletsHold(bal)
    ensures Get(bal, a) >= Deepest(tx.entries, a)
  {
    var d := Deepest(tx.entries, a);
    if d > 0 {
      var i :| 0 <= i < |tx.entries| && tx.entries[i].account == a && tx.entries[i].amount == -d;
      assert !Overdraws(bal, tx.entries[i]);
    }
  }

  /** Balances that exactly cover one wallet's deepest entry, and every other account's. */
  function Covering(es: seq<Entry>): Balances {
    map a | a in (set i | 0 <= i < |es| :: es[i].account) :: Deepest(es, a)
  }

  /** Append never lets a wallet go negative for a balanced, non-empty transaction exactly
      when the transaction is safe; naming each wallet at most once is enough for that. */
  lemma AppendGuards(tx: Tx)
    requires tx.entries != [] && Amounts(tx.entries) == 0
    ensures Safe(tx) <==>
            (forall bal :: WalletsHold(bal) && Refusal(bal, tx).None? ==> WalletsHold(Post(bal, tx.entries)))
    ensures NamesWalletsOnce(tx) ==> Safe(tx)
  {
    if Safe(tx) {
      forall bal | WalletsHold(bal) && Refusal(bal, tx).None? ensures WalletsHold(Post(bal, tx.entries)) {
        forall a | IsNodeWallet(a) ensures Get(Post(bal, tx.entries), a) >= 0 {
          PostGet(bal, tx.entries, a);
          AcceptedCovers(bal, tx, a);
        }
      }
    } else {
      UnsafeFails(tx);
    }
    if NamesWalletsOnce(tx) {
      OnceIsSafe(tx);
    }
  }

  lemma UnsafeFails(tx: Tx)
    requires tx.entries != [] && Amounts(tx.entries) == 0 && !Safe(tx)
    ensures exists bal :: WalletsHold(bal) && Refusal(bal, tx).None? && !WalletsHold(Post(bal, tx.entries))
  {
    var a :| IsNodeWallet(a) && Deepest(tx.entries, a) + EntrySum(tx.entries, a) < 0;
    var bal := Covering(tx.entries);
    if forall i :: 0 <= i < |tx.entries| ==> tx.entries[i].account != a {
      NotNamed(tx.entries, a);
    }
    assert a in bal;
    forall i | 0 <= i < |tx.entries| ensures !Overdraws(bal, tx.entries[i]) {
      assert tx.entries[i].account in bal;
    }
    PostGet(bal, tx.entries, a);
    assert !WalletsHold(Post(bal, tx.entries));
  }

  lemma OnceIsSafe(tx: Tx)
    requires NamesWalletsOnce(tx)
    ensures Safe(tx)
  {
    forall a | IsNodeWallet(a) ensures Deepest(tx.entries, a) + EntrySum(tx.entries, a) >= 0 {
      if i :| 0 <= i < |tx.entries| && tx.entries[i].account == a {
        NamedOnce(tx.entries, i);
      } else {
        NotNamed(tx.entries, a);
      }
    }
  }

  // A wallet that is given 5 and then loses 5 twice in one transaction.
  const PEER := NodeWallet("peer")
  const FILLED := Tx(Uuid("filled"), ContactSeed, None, 1, [Entry(PEER, 5), Entry(Issuance, -5)])
  const TWICE := Tx(Uuid("twice"), ContactSeed, None, 2, [Entry(PEER, -5), Entry(PEER, -5), Entry(Issuance, 10)])

  lemma SumsOfThree(e: Entry, f: Entry, g: Entry, a: Account)
    ensures Amounts([e, f]) == e.amount + f.amount && Amounts([e, f, g]) == e.amount + f.amount + g.amount
    ensures EntrySum([e, f], a) == Delta(e, a) + Delta(f, a)
    ensures EntrySum([e, f, g], a) == Delta(e, a) + Delta(f, a) + Delta(g, a)
  {
    assert [e][..0] == [] && [e, f][..1] == [e] && [e, f, g][..2] == [e, f];
    assert Amounts([e]) == Amounts([]) + e.amount && EntrySum([e], a) == EntrySum([], a) + Delta(e, a);
    assert Amounts([e, f]) == Amounts([e]) + f.amount && EntrySum([e, f], a) == EntrySum([e], a) + Delta(f, a);
  }

  /** An unsafe transaction on the books: Append takes it, the wallet ends at -5, and the ledger's
      own audit refuses the log it just wrote. */
  lemma UnsafeIsTaken()
    ensures !Safe(TWICE) && Appended(EMPTY_BOOK, FILLED).Success?
    ensures var b := Appended(EMPTY_BOOK, FILLED).value;
            && Get(b.balances, PEER) == 5 && Appended(b, TWICE).Success?
            && Get(Appended(b, TWICE).value.balances, PEER) == -5 && !Verified(Appended(b, TWICE).value.log)
  {
    hide NextRecord, Post;
    var f, t := FILLED.entries, TWICE.entries;
    SumsOfThree(f[0], f[1], f[1], PEER);
    SumsOfThree(t[0], t[1], t[2], PEER);
    PostGet(map[], f, PEER);
    var b := Appended(EMPTY_BOOK, FILLED).value;
    PostGet(b.balances, t, PEER);
    assert Deepest(t, PEER) == 5 by { DeepestOfTwice(); }
    AuditRefuses(b);
  }

  lemma DeepestOfTwice()
    ensures Deepest(TWICE.entries, PEER) == 5
  {
    assert TWICE.entries[0].account == PEER;
  }

  lemma AuditRefuses(b: Book)
    requires Appended(EMPTY_BOOK, FILLED) == Success(b) && Appended(b, TWICE).Success?
    ensures !Verified(Appended(b, TWICE).value.log)
  {
    hide RecordHash;
    var log, t := Appended(b, TWICE).value.log, TWICE.entries;
    SumsOfThree(t[0], t[1], t[2], PEER);
    SumsOfThree(FILLED.entries[0], FILLED.entries[1], FILLED.entries[1], PEER);
    assert log[..1] == b.log && log[..1][..0] == [] && log[1].tx == TWICE && b.log[0].tx == FILLED;
    assert BalanceOf(b.log, PEER) == BalanceOf([], PEER) + EntrySum(FILLED.entries, PEER);
    assert t[..2] == [t[0], t[1]];
    assert !Solvent(log, 1);
  }
}
