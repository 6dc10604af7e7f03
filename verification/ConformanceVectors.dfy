/** The model against the conformance vectors every implementation of the protocol has to meet:
    prices, the state machine, dividends, the channel chain, the ledger, the gate, canonical text. */
module ConformanceVectors {
  import opened Wrappers
  import opened PoolPricing
  import opened StringOrder
  import opened CanonicalJson
  import opened ChannelHistory
  import opened Ledgers
  import opened TransferStates
  import opened Messages
  import opened Dividends

  // ----- prices -----

  lemma Prices()
    ensures PoolPrice(500_000_000, 1_000_000_000, 10_000_000) == Success(19_607_843)
    ensures PoolPrice(1_000_000_000, 500_000_000, 6_000_000) == Success(2_982_107)
    ensures PoolPrice(1_000_000, 1_000_000, 1) == Failure(Dust)
    ensures PoolPrice(9007199254740991, 9007199254740991, 1234567890123) == Success(1234398697796)
    ensures PoolPrice(10, 1_000_000, 10) == Success(500_000)
    ensures PoolPrice(1_000_000, 1_000_000, 0) == Failure(NonPositive)
    ensures PoolPrice(0, 1_000_000, 500) == Failure(EmptyPool)
  {
  }

  // ----- the state machine -----

  /** The listed pairs with their next state, None where the pair must be refused. */
  const MOVES: seq<(State, Event, Option<State>)> := [
    (NoTransfer, Propose, Some(Proposed)), (Proposed, Accept, Some(Accepted)), (Proposed, Reject, Some(Rejected)),
    (Proposed, Abort, Some(Aborted)), (Proposed, Expire, Some(Expired)), (Proposed, Commit, None),
    (Proposed, Receipt, None), (Accepted, Commit, Some(Committed)), (Accepted, Abort, Some(Aborted)),
    (Accepted, Expire, Some(Expired)), (Accepted, Accept, None), (Accepted, Receipt, None),
    (Committed, Receipt, Some(Settled)), (Committed, Commit, Some(Committed)), (Committed, Abort, None),
    (Committed, Expire, None), (Settled, Commit, Some(Settled)), (Settled, Receipt, None), (Rejected, Commit, None),
    (Aborted, Commit, None), (Expired, Commit, None)]

  lemma Moves()
    ensures |MOVES| == 21 && forall i :: 0 <= i < |MOVES| ==> Transition(MOVES[i].0, MOVES[i].1) == MOVES[i].2
  {
  }

  // ----- dividends -----

  lemma TimesAtLeast(k: int, w: int)
    requires w > 0
    ensures k >= 1 ==> k * w >= w
  {
  }

  lemma BaseIs(supply: int, cPpm: int, weight: int, base: int)
    requires supply >= 0 && cPpm >= 0 && weight > 0 && base * weight <= supply * cPpm < base * weight + weight
    ensures UDBase(supply, cPpm, weight) == Success(base)
  {
    var r := UDBase(supply, cPpm, weight).value;
    TimesAtLeast(base - r, weight);
    TimesAtLeast(r - base, weight);
    assert (base - r) * weight == base * weight - r * weight;
    assert (r - base) * weight == r * weight - base * weight;
  }

  lemma DividendVectors()
    ensures UDBase(123_400_000_000, 274, 60_500_000) == Success(558_869)
    ensures RecipientUD(558_869, 1_000_000) == 558_869 && RecipientUD(558_869, 2_500_000) == 1_397_172
    ensures UDBase(5_000_000_000, 274, 12_000_000) == Success(114_166)
    ensures RecipientUD(114_166, 500_000) == 57_083
  {
    BaseIs(123_400_000_000, 274, 60_500_000, 558_869);
    BaseIs(5_000_000_000, 274, 12_000_000, 114_166);
  }

  // ----- canonical text -----

  /** One more digit of a decimal text. */
  lemma OneMore(n: nat, d: nat, s: string)
    requires n > 0 && d < 10 && Digits(n) == s
    ensures Digits(10 * n + d) == s + [Digit(d)]
  {
  }

  lemma OneDigit(d: nat)
    requires d < 10
    ensures Digits(d) == [Digit(d)]
  {
  }

  lemma AmountText()
    ensures Decimal(19_607_843) == "19607843" && Decimal(-19_607_843) == "-19607843" && Decimal(0) == "0"
  {
    hide Digits;
    OneDigit(0);
    OneDigit(1);
    OneMore(1, 9, "1");
    OneMore(19, 6, "19");
    OneMore(196, 0, "196");
    OneMore(1960, 7, "1960");
    OneMore(19607, 8, "19607");
    OneMore(196078, 4, "196078");
    OneMore(1960784, 3, "1960784");
  }

  /** Printable characters that need no escape. */
  ghost predicate Plain(s: string) { forall i :: 0 <= i < |s| ==> ' ' <= s[i] <= '~' && s[i] != '\"' && s[i] != '\\' }

  lemma {:induction false} PlainQuote(s: string)
    requires Plain(s)
    ensures Escaped(s) == s
  {
    if s != "" {
      PlainTexts(s[0]);
      PlainQuote(s[1..]);
    }
  }

  lemma PlainTypes()
    ensures Plain("seed") && Plain("transfer") && Plain("adjust")
  {
  }

  lemma Regroup(a: string, b: string, c: string, d: string)
    ensures "[" + (a + "," + (b + "," + (c + "," + d))) + "]" == "[" + a + "," + b + "," + c + "," + d + "]"
  {
  }

  lemma FourItems(a: Json, b: Json, c: Json, d: Json)
    ensures Canonical(Arr([a, b, c, d])) ==
            "[" + Canonical(a) + "," + Canonical(b) + "," + Canonical(c) + "," + Canonical(d) + "]"
  {
    var items := [a, b, c, d];
    assert items[1..] == [b, c, d] && [b, c, d][1..] == [c, d] && [c, d][1..] == [d];
    assert Elements([d]) == Canonical(d);
    assert Elements([c, d]) == Canonical(c) + "," + Canonical(d);
    assert Elements([b, c, d]) == Canonical(b) + "," + (Canonical(c) + "," + Canonical(d));
    Regroup(Canonical(a), Canonical(b), Canonical(c), Canonical(d));
  }

  /** A contact operation as it is hashed. */
  function OpText(typ: string, id: string, src: int, dst: int): string {
    "[\"" + typ + "\",\"" + id + "\"," + Decimal(src) + "," + Decimal(dst) + "]"
  }

  lemma OpCanonical(typ: string, id: string, src: int, dst: int)
    requires Plain(typ) && Plain(id)
    ensures Canonical(Arr([Str(typ), Str(id), Int(src), Int(dst)])) == OpText(typ, id, src, dst)
  {
    hide Escaped, Decimal, Plain;
    PlainQuote(typ);
    PlainQuote(id);
    FourItems(Str(typ), Str(id), Int(src), Int(dst));
    assert Canonical(Str(typ)) == "\"" + typ + "\"" && Canonical(Str(id)) == "\"" + id + "\"";
  }

  /** The chain over a seed, a transfer and an adjustment, of any ids and amounts: each root hashes
      the one before it and the text of its operation. */
  lemma ChannelChain(contact: string, payment: string, adjustment: string, seeds: (int, int), src: int, dst: int,
                     delta: int)
    requires Plain(contact) && Plain(payment) && Plain(adjustment)
    ensures RootOf(Uuid(contact), [Seeded(Uuid(contact), seeds.0, seeds.1), Transferred(Uuid(payment), true, src, dst),
                                   Adjusted(Uuid(adjustment), true, delta)]) ==
            OfLink(OfLink(OfLink(OfText(contact), OpText("seed", contact, seeds.0, seeds.1)),
                          OpText("transfer", payment, src, dst)),
                   OpText("adjust", adjustment, delta, 0))
  {
    hide Canonical, Plain, OpText, RootOf;
    PlainTypes();
    OpCanonical("seed", contact, seeds.0, seeds.1);
    OpCanonical("transfer", payment, src, dst);
    OpCanonical("adjust", adjustment, delta, 0);
    var a, b := Seeded(Uuid(contact), seeds.0, seeds.1), Transferred(Uuid(payment), true, src, dst);
    var c := Adjusted(Uuid(adjustment), true, delta);
    RootAppend(Uuid(contact), [], a);
    RootAppend(Uuid(contact), [a], b);
    RootAppend(Uuid(contact), [a, b], c);
    assert [] + [a] == [a] && [a] + [b] == [a, b] && [a, b] + [c] == [a, b, c];
    NoOperations(Uuid(contact));
  }

  lemma NoOperations(contact: Id)
    ensures RootOf(contact, []) == ChannelRoot0(contact)
  {
  }

  // ----- the gate -----

  lemma Verdicts(body: Body, now: int)
    ensures var seen, last := {Uuid("0")}, 5;
            && Validate(Envelope(Uuid("1"), 6, now - 60, body), seen, last, now) == Ok
            && Validate(Envelope(Uuid("0"), 7, now, body), seen, last, now) == Duplicate
            && Validate(Envelope(Uuid("2"), 5, now, body), seen, last, now) == StaleSeq
            && Validate(Envelope(Uuid("3"), 6, now - 8 * 86_400, body), seen, last, now) == TooOld
            && Validate(Envelope(Uuid("4"), 6, now + 5_400, body), seen, last, now) == Future
  {
    assert "0"[0] != "1"[0] && "0"[0] != "2"[0] && "0"[0] != "3"[0] && "0"[0] != "4"[0];
  }

  // ----- the ledger -----

  const PEER := NodeWallet("hilltop.example")
  const ALICE := Account.Member("alice")

  function Two(typ: TxType, a: Account, x: int, b: Account): Tx {
    Tx(Uuid("tx"), typ, None, 0, [Entry(a, x), Entry(b, -x)])
  }

  function Booked(b: Book, tx: Tx): Book { match Appended(b, tx) case Success(b') => b' case Failure(_) => b }

  lemma BookTwo(b: Book, typ: TxType, a: Account, x: int, o: Account)
    requires a != o && (a.NodeWallet? ==> Get(b.balances, a) + x >= 0)
    requires o.NodeWallet? ==> Get(b.balances, o) - x >= 0
    ensures Appended(b, Two(typ, a, x, o)).Success?
    ensures var b' := Booked(b, Two(typ, a, x, o));
            |b'.log| == |b.log| + 1
            && forall c :: Get(b'.balances, c) ==
                           Get(b.balances, c) + (if c == a then x else 0) - (if c == o then x else 0)
  {
    var tx := Two(typ, a, x, o);
    TwoEntries(tx.entries[0], tx.entries[1]);
    forall c ensures Get(Post(b.balances, tx.entries), c) ==
                     Get(b.balances, c) + (if c == a then x else 0) - (if c == o then x else 0)
    {
      PostGet(b.balances, tx.entries, c);
    }
  }

  /** The transcript of five transactions leaves the listed balances and supply. */
  lemma LedgerTranscript()
    ensures var b1 := Booked(EMPTY_BOOK, Two(IssuanceGrant, ALICE, 100_000_000, Issuance));
            var b2 := Booked(b1, Two(ContactSeed, PEER, 500_000_000, Issuance));
            var b3 := Booked(b2, Two(TransferOut, ALICE, -10_000_000, PEER));
            var b4 := Booked(b3, Two(IssuanceUD, ALICE, 558_869, Issuance));
            var b5 := Booked(b4, Two(TxType.ReserveAdjust, PEER, 50_000_000, Treasury));
            && |b5.log| == 5
            && Get(b5.balances, Issuance) == -600_558_869 && Get(b5.balances, ALICE) == 90_558_869
            && Get(b5.balances, PEER) == 560_000_000 && Get(b5.balances, Treasury) == -50_000_000
            && MoneySupply(b5.balances) == 650_558_869
  {
    hide Appended, Booked;
    var b1 := Booked(EMPTY_BOOK, Two(IssuanceGrant, ALICE, 100_000_000, Issuance));
    BookTwo(EMPTY_BOOK, IssuanceGrant, ALICE, 100_000_000, Issuance);
    var b2 := Booked(b1, Two(ContactSeed, PEER, 500_000_000, Issuance));
    BookTwo(b1, ContactSeed, PEER, 500_000_000, Issuance);
    var b3 := Booked(b2, Two(TransferOut, ALICE, -10_000_000, PEER));
    BookTwo(b2, TransferOut, ALICE, -10_000_000, PEER);
    var b4 := Booked(b3, Two(IssuanceUD, ALICE, 558_869, Issuance));
    BookTwo(b3, IssuanceUD, ALICE, 558_869, Issuance);
    BookTwo(b4, TxType.ReserveAdjust, PEER, 50_000_000, Treasury);
  }

  /** The names of the transcript as they are written and hashed. */
  lemma LedgerNames()
    ensures AccountText(ALICE) == "m:alice" && AccountText(PEER) == "node:hilltop.example"
    ensures AccountText(Issuance) == "issuance" && AccountText(Treasury) == "treasury"
    ensures AccountText(Fund("redistribute")) == "fund:redistribute"
    ensures TypeText(IssuanceGrant) == "issuance.grant" && TypeText(IssuanceUD) == "issuance.ud"
    ensures TypeText(ContactSeed) == "contact.seed" && TypeText(TransferOut) == "transfer.out"
    ensures TypeText(TxType.ReserveAdjust) == "reserve.adjust"
  {
  }
}
