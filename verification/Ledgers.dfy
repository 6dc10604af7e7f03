/** The double-entry, append-only, hash-linked ledger of a node. */
module Ledgers {
  import opened Wrappers
  import opened CanonicalJson
  import opened ChannelHistory

  datatype Account =
    | NodeWallet(host: string)
    | Member(name: string)
    | Fund(name: string)
    | Issuance
    | Treasury

  datatype TxType =
    | IssuanceUD | IssuanceGrant | Payment | TransferOut | TransferIn | ReserveAdjust
    | ContactSeed | IssuanceBurn | FundRedistribute | ReserveRetire

  datatype Entry = Entry(account: Account, amount: int)

  datatype Tx = Tx(id: Id, typ: TxType, ref: Option<Id>, created: int, entries: seq<Entry>)

  datatype Record = Record(seqNo: int, prev: Digest, tx: Tx, memberSig: Option<string>, hash: Digest)

  datatype LedgerError = EmptyTx | Unbalanced | NodeNegative

  predicate IsNodeWallet(a: Account) { a.NodeWallet? && a.host != "" }

  predicate IsSystem(a: Account) { a.Issuance? || a.Treasury? }

  // ----- record hashes -----

  function TypeText(t: TxType): string {
    match t
    case IssuanceUD => "issuance.ud"
    case IssuanceGrant => "issuance.grant"
    case Payment => "payment"
    case TransferOut => "transfer.out"
    case TransferIn => "transfer.in"
    case ReserveAdjust => "reserve.adjust"
    case ContactSeed => "contact.seed"
    case IssuanceBurn => "issuance.burn"
    case FundRedistribute => "fund.redistribute"
    case ReserveRetire => "reserve.retire"
  }

  function AccountText(a: Account): string {
    match a
    case NodeWallet(host) => "node:" + host
    case Member(name) => "m:" + name
    case Fund(name) => "fund:" + name
    case Issuance => "issuance"
    case Treasury => "treasury"
  }

  function EntryJson(e: Entry): Json {
    Obj(map["account" := Str(AccountText(e.account)), "amount" := Int(e.amount)])
  }

  function TxJson(tx: Tx): Json {
    var m := map["id" := Str(tx.id.text), "type" := Str(TypeText(tx.typ)), "created" := Int(tx.created),
                 "entries" := Arr(seq(|tx.entries|, i requires 0 <= i < |tx.entries| => EntryJson(tx.entries[i])))];
    Obj(if tx.ref.Some? then m["ref" := Str(tx.ref.value.text)] else m)
  }

  /** The hashed content of a record; the link to the previous record is hashed beside it. */
  function RecordJson(r: Record): Json {
    Obj(map["seq" := Int(r.seqNo), "tx" := TxJson(r.tx),
            "member_sig" := if r.memberSig.Some? then Str(r.memberSig.value) else Null])
  }

  function RecordHash(r: Record): Digest {
    OfLink(r.prev, Canonical(RecordJson(r)))
  }

  // ----- balances -----

  function Amounts(es: seq<Entry>): int {
    if es == [] then 0 else Amounts(es[..|es| - 1]) + es[|es| - 1].amount
  }

  function Delta(e: Entry, a: Account): int { if e.account == a then e.amount else 0 }

  /** What a list of entries does to one account. */
  function EntrySum(es: seq<Entry>, a: Account): int {
    if es == [] then 0 else EntrySum(es[..|es| - 1], a) + Delta(es[|es| - 1], a)
  }

  /** An account's balance as the fold of the log. */
  function BalanceOf(log: seq<Record>, a: Account): int {
    if log == [] then 0 else BalanceOf(log[..|log| - 1], a) + EntrySum(log[|log| - 1].tx.entries, a)
  }

  type Balances = map<Account, int>

  function Get(bal: Balances, a: Account): int { if a in bal then bal[a] else 0 }

  function PostOne(bal: Balances, e: Entry): Balances { bal[e.account := Get(bal, e.account) + e.amount] }

  function Post(bal: Balances, es: seq<Entry>): Balances {
    if es == [] then bal else PostOne(Post(bal, es[..|es| - 1]), es[|es| - 1])
  }

  lemma {:induction false} PostGet(bal: Balances, es: seq<Entry>, a: Account)
    ensures Get(Post(bal, es), a) == Get(bal, a) + EntrySum(es, a)
  {
    if es != [] {
      PostGet(bal, es[..|es| - 1], a);
    }
  }

  // ----- the ledger as a value -----

  datatype Book = Book(log: seq<Record>, balances: Balances)

  const EMPTY_BOOK := Book([], map[])

  function Head(log: seq<Record>): Digest { if log == [] then Zero else log[|log| - 1].hash }

  predicate Overdraws(bal: Balances, e: Entry) {
    IsNodeWallet(e.account) && Get(bal, e.account) + e.amount < 0
  }

  /** Why a transaction is turned away, if it is: each entry is held against the balance
      before the transaction. */
  function Refusal(bal: Balances, tx: Tx): Option<LedgerError> {
    if tx.entries == [] then Some(EmptyTx)
    else if Amounts(tx.entries) != 0 then Some(Unbalanced)
    else if exists i :: 0 <= i < |tx.entries| && Overdraws(bal, tx.entries[i]) then Some(NodeNegative)
    else None
  }

  function NextRecord(log: seq<Record>, tx: Tx): Record {
    var bare := Record(|log| + 1, Head(log), tx, None, Zero);
    bare.(hash := RecordHash(bare))
  }

  function Appended(b: Book, tx: Tx): Result<Book, LedgerError> {
    match Refusal(b.balances, tx)
    case Some(e) => Failure(e)
    case None => Success(Book(b.log + [NextRecord(b.log, tx)], Post(b.balances, tx.entries)))
  }

  /** The sum of all balances outside issuance and treasury, seen from those two accounts. */
  function MoneySupply(bal: Balances): int {
    -(Get(bal, Issuance) + Get(bal, Treasury))
  }

  // ----- self-audit -----

  ghost predicate Chained(log: seq<Record>, i: nat)
    requires i < |log|
  {
    && log[i].seqNo == i + 1
    && log[i].prev == Head(log[..i])
    && log[i].hash == RecordHash(log[i])
    && Amounts(log[i].tx.entries) == 0
  }

  /** Replaying record i entry by entry never leaves a touched node wallet below zero. */
  ghost predicate Solvent(log: seq<Record>, i: nat)
    requires i < |log|
  {
    var es := log[i].tx.entries;
    forall j :: 0 <= j < |es| && IsNodeWallet(es[j].account) ==>
      BalanceOf(log[..i], es[j].account) + EntrySum(es[..j + 1], es[j].account) >= 0
  }

  ghost predicate Verified(log: seq<Record>) {
    forall i :: 0 <= i < |log| ==> Chained(log, i) && Solvent(log, i)
  }

  // ----- what a series of appends keeps -----

  /** The ledger invariant: balances are an index over a verified log. */
  ghost predicate BookOk(b: Book) {
    && Verified(b.log)
    && (forall a :: Get(b.balances, a) == BalanceOf(b.log, a))
    && (forall a :: IsNodeWallet(a) ==> Get(b.balances, a) >= 0)
  }

  /** No node wallet is named by two entries. */
  predicate NamesWalletsOnce(tx: Tx) {
    forall i, j :: 0 <= i < j < |tx.entries| && IsNodeWallet(tx.entries[i].account) ==>
      tx.entries[i].account != tx.entries[j].account
  }

  lemma {:induction false} NotNamed(es: seq<Entry>, a: Account)
    requires forall i :: 0 <= i < |es| ==> es[i].account != a
    ensures EntrySum(es, a) == 0
  {
    if es != [] { NotNamed(es[..|es| - 1], a); }
  }

  lemma NamedOnceFirst(es: seq<Entry>, j: nat)
    requires j < |es| && forall i :: 0 <= i < j ==> es[i].account != es[j].account
    ensures EntrySum(es[..j + 1], es[j].account) == es[j].amount
  {
    assert es[..j + 1][..j] == es[..j];
    NotNamed(es[..j], es[j].account);
  }

  lemma {:induction false} NamedOnce(es: seq<Entry>, j: nat)
    requires j < |es| && forall i :: 0 <= i < |es| && i != j ==> es[i].account != es[j].account
    ensures EntrySum(es, es[j].account) == es[j].amount
    decreases |es|
  {
    var front := es[..|es| - 1];
    if j == |es| - 1 {
      NotNamed(front, es[j].account);
    } else {
      assert front[j] == es[j];
      NamedOnce(front, j);
    }
  }

  lemma PrefixKept(log: seq<Record>, rec: Record, i: nat)
    requires i < |log|
    ensures Chained(log + [rec], i) == Chained(log, i)
    ensures Solvent(log + [rec], i) == Solvent(log, i)
  {
    assert (log + [rec])[..i] == log[..i];
  }

  lemma BalanceAppend(log: seq<Record>, rec: Record, a: Account)
    ensures BalanceOf(log + [rec], a) == BalanceOf(log, a) + EntrySum(rec.tx.entries, a)
  {
    assert (log + [rec])[..|log|] == log;
  }

  lemma AppendedChained(log: seq<Record>, tx: Tx)
    requires Amounts(tx.entries) == 0
    ensures Chained(log + [NextRecord(log, tx)], |log|)
  {
    var rec := NextRecord(log, tx);
    assert (log + [rec])[..|log|] == log;
    assert RecordJson(rec) == RecordJson(rec.(hash := Zero));
  }

  lemma AppendedSolvent(b: Book, tx: Tx)
    requires BookOk(b) && Refusal(b.balances, tx).None? && NamesWalletsOnce(tx)
    ensures Solvent(b.log + [NextRecord(b.log, tx)], |b.log|)
    ensures forall a :: IsNodeWallet(a) ==> Get(Post(b.balances, tx.entries), a) >= 0
  {
    var es := tx.entries;
    var log' := b.log + [NextRecord(b.log, tx)];
    assert log'[..|b.log|] == b.log;
    forall j | 0 <= j < |es| && IsNodeWallet(es[j].account)
      ensures BalanceOf(b.log, es[j].account) + EntrySum(es[..j + 1], es[j].account) >= 0
    {
      NamedOnceFirst(es, j);
      assert !Overdraws(b.balances, es[j]);
    }
    forall a | IsNodeWallet(a) ensures Get(Post(b.balances, es), a) >= 0 {
      PostGet(b.balances, es, a);
      if j :| 0 <= j < |es| && es[j].account == a {
        NamedOnce(es, j);
        assert !Overdraws(b.balances, es[j]);
      } else {
        NotNamed(es, a);
      }
    }
  }

  /** One append that names each wallet at most once keeps the ledger invariant. */
  lemma AppendKeepsBook(b: Book, tx: Tx)
    requires BookOk(b) && NamesWalletsOnce(tx) && Appended(b, tx).Success?
    ensures BookOk(Appended(b, tx).value)
  {
    hide RecordHash, Solvent, Chained, EntrySum, BalanceOf, Amounts, Head;
    var rec := NextRecord(b.log, tx);
    var b' := Appended(b, tx).value;
    AppendedChained(b.log, tx);
    AppendedSolvent(b, tx);
    forall i | 0 <= i < |b'.log| ensures Chained(b'.log, i) && Solvent(b'.log, i) {
      if i < |b.log| { PrefixKept(b.log, rec, i); }
    }
    forall a ensures Get(b'.balances, a) == BalanceOf(b'.log, a) {
      PostGet(b.balances, tx.entries, a);
      BalanceAppend(b.log, rec, a);
    }
  }

  /** A series of attempted appends; a refused one leaves the ledger as it was. */
  function AppendAll(b: Book, txs: seq<Tx>): Book
    decreases |txs|
  {
    if txs == [] then b
    else AppendAll(match Appended(b, txs[0]) case Success(b') => b' case Failure(_) => b, txs[1..])
  }

  /** After any series of appends balances are the fold of the log, wallets are never
      negative, and the log passes its own audit. */
  lemma {:induction false} SeriesKeepsBook(b: Book, txs: seq<Tx>)
    requires BookOk(b) && forall i :: 0 <= i < |txs| ==> NamesWalletsOnce(txs[i])
    ensures BookOk(AppendAll(b, txs))
    decreases |txs|
  {
    if txs != [] {
      if Appended(b, txs[0]).Success? {
        AppendKeepsBook(b, txs[0]);
        SeriesKeepsBook(Appended(b, txs[0]).value, txs[1..]);
      } else {
        SeriesKeepsBook(b, txs[1..]);
      }
    }
  }
}
