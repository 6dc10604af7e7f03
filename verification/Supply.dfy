/** Where the money supply comes from: what each kind of transaction adds or takes away. */
module Supply {
  import opened Wrappers
  import opened ChannelHistory
  import opened Ledgers
  import opened LedgerTotals

  /** What a transaction puts into circulation: the opposite of its system legs. */
  function Issued(tx: Tx): int { -(EntrySum(tx.entries, Issuance) + EntrySum(tx.entries, Treasury)) }

  /** What the transactions of one type put into circulation, over a whole log. */
  function Volume(log: seq<Record>, typ: TxType): int {
    if log == [] then 0
    else Volume(log[..|log| - 1], typ) + if log[|log| - 1].tx.typ == typ then Issued(log[|log| - 1].tx) else 0
  }

  /** No entry is a system leg. */
  predicate NoSystemLegs(tx: Tx) { forall i :: 0 <= i < |tx.entries| ==> !IsSystem(tx.entries[i].account) }

  /** The shape every call site of Append gives its transaction. */
  predicate Shaped(tx: Tx) {
    match tx.typ
    case IssuanceUD => Issued(tx) > 0
    case IssuanceGrant => Issued(tx) > 0
    case ContactSeed => Issued(tx) > 0
    case ReserveAdjust => Issued(tx) != 0
    case IssuanceBurn => Issued(tx) < 0
    case ReserveRetire => Issued(tx) < 0
    case Payment => NoSystemLegs(tx)
    case TransferOut => NoSystemLegs(tx)
    case TransferIn => NoSystemLegs(tx)
    case FundRedistribute => NoSystemLegs(tx)
  }

  lemma NoLegsIssueNothing(tx: Tx)
    requires NoSystemLegs(tx)
    ensures Issued(tx) == 0
  {
    NotNamed(tx.entries, Issuance);
    NotNamed(tx.entries, Treasury);
  }

  /** At every point of a log of such transactions the supply is grants, dividends, seeds and
      adjustments, less what was burned and retired: transfers, payments and redistribution
      never change it. */
  lemma {:induction false} SupplyByType(log: seq<Record>)
    requires forall i :: 0 <= i < |log| ==> Shaped(log[i].tx)
    ensures -(BalanceOf(log, Issuance) + BalanceOf(log, Treasury)) ==
            Volume(log, IssuanceGrant) + Volume(log, IssuanceUD) + Volume(log, ContactSeed)
            + Volume(log, TxType.ReserveAdjust) + Volume(log, IssuanceBurn) + Volume(log, ReserveRetire)
    ensures Volume(log, IssuanceGrant) >= 0 && Volume(log, IssuanceUD) >= 0 && Volume(log, ContactSeed) >= 0
    ensures Volume(log, IssuanceBurn) <= 0 && Volume(log, ReserveRetire) <= 0
  {
    if log != [] {
      var front, tx := log[..|log| - 1], log[|log| - 1].tx;
      SupplyByType(front);
      if NoSystemLegs(tx) {
        NoLegsIssueNothing(tx);
      }
    }
  }

  // ----- sound ledgers -----

  ghost predicate AllShaped(log: seq<Record>) { forall i :: 0 <= i < |log| ==> Shaped(log[i].tx) }

  /** A ledger built by appends of the node's own transactions: audited, balanced and accounted for. */
  ghost predicate Sound(b: Book) {
    BookOk(b) && Total(b.balances) == 0 && AllShaped(b.log)
  }

  lemma EmptyIsSound()
    ensures Sound(EMPTY_BOOK)
  {
  }

  lemma AppendKeepsSound(b: Book, tx: Tx)
    requires Sound(b) && NamesWalletsOnce(tx) && Shaped(tx) && Appended(b, tx).Success?
    ensures Sound(Appended(b, tx).value)
  {
    hide BookOk, Shaped, RecordHash, Total;
    AppendKeepsBook(b, tx);
    TotalPost(b.balances, tx.entries);
  }

  /** What a sound ledger says of its supply: it is all that members, funds and wallets hold, and
      all that was granted, paid as dividend, seeded and adjusted, less what was given back. */
  ghost predicate Accounted(b: Book) {
    && MoneySupply(b.balances) == SumOver(b.balances, set a | a in b.balances.Keys && !IsSystem(a))
    && MoneySupply(b.balances) ==
       Volume(b.log, IssuanceGrant) + Volume(b.log, IssuanceUD) + Volume(b.log, ContactSeed)
       + Volume(b.log, TxType.ReserveAdjust) + Volume(b.log, IssuanceBurn) + Volume(b.log, ReserveRetire)
  }

  lemma SoundIsAccounted(b: Book)
    requires Sound(b)
    ensures Accounted(b)
  {
    SupplyByType(b.log);
    SupplyIsHeld(b.balances);
    hide SumOver, Volume, BalanceOf;
  }

  // ----- transactions of two entries -----

  lemma TwoEntriesIssue(tx: Tx)
    requires |tx.entries| == 2 && tx.entries[0].amount == -tx.entries[1].amount
    ensures Amounts(tx.entries) == 0
    ensures Issued(tx) == (if IsSystem(tx.entries[0].account) then tx.entries[1].amount else 0)
                          + (if IsSystem(tx.entries[1].account) then tx.entries[0].amount else 0)
  {
    var e, f := tx.entries[0], tx.entries[1];
    assert tx.entries == [e, f] && [e, f][..1] == [e] && [e][..0] == [];
    assert Amounts([e]) == Amounts([]) + e.amount && Amounts([e, f]) == Amounts([e]) + f.amount;
    forall a ensures EntrySum([e, f], a) == Delta(e, a) + Delta(f, a) {
      assert EntrySum([e], a) == EntrySum([], a) + Delta(e, a);
      assert EntrySum([e, f], a) == EntrySum([e], a) + Delta(f, a);
    }
  }
}
