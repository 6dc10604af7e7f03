/** The universal dividend, sharing out the redistribution fund, and leaving. */
module Dividends {
  import opened Wrappers
  import opened ChannelHistory
  import opened Ledgers
  import opened Supply
  import opened NodeLedger
  import opened StringOrder

  const MICRO := 1_000_000

  datatype Membership = Membership(weight: nat, active: bool)

  type Members = map<string, Membership>

  // ----- the reference formula -----

  datatype UDError = NoWeight | Negative

  /** floor(supply * c / weight): what a standard-weight recipient gets. */
  function UDBase(supply: int, cPpm: int, weight: int): (r: Result<int, UDError>)
    ensures r.Success? <==> weight > 0 && supply >= 0 && cPpm >= 0
    ensures r.Success? ==> 0 <= r.value * weight <= supply * cPpm < r.value * weight + weight
  {
    if weight <= 0 then Failure(NoWeight)
    else if supply < 0 || cPpm < 0 then Failure(Negative)
    else
      FloorBounds(supply, cPpm, weight);
      Success(supply * cPpm / weight)
  }

  lemma FloorBounds(a: int, b: int, d: int)
    requires a >= 0 && b >= 0 && d > 0
    ensures var q := a * b / d; 0 <= q * d <= a * b < q * d + d
  {
    var n := a * b;
    assert n >= 0 by { TimesNat(a, b); }
    var q := n / d;
    assert n == d * q + n % d && d * q == q * d;
    TimesNat(q, d);
  }

  lemma TimesNat(a: int, b: int)
    requires a >= 0 && b >= 0
    ensures a * b >= 0
  {
  }

  /** floor(base * weight / 1,000,000). */
  function RecipientUD(base: int, weight: int): (r: int)
    ensures base >= 0 && weight >= 0 ==> 0 <= r * MICRO <= base * weight < r * MICRO + MICRO
  {
    if base >= 0 && weight >= 0 then
      FloorBounds(base, weight, MICRO);
      base * weight / MICRO
    else if base < 0 && weight < 0 then
      (-base) * (-weight) / MICRO
    else
      -((if base < 0 then -base else base) * (if weight < 0 then -weight else weight) / MICRO)
  }

  // ----- what one run pays -----

  /** What one member gets: nothing unless active. */
  function Share(ms: Members, base: nat, name: string): nat {
    if name in ms && ms[name].active then RecipientUD(base, ms[name].weight) else 0
  }

  function Shares(ms: Members, base: nat, names: seq<string>): nat {
    if names == [] then 0 else Shares(ms, base, names[..|names| - 1]) + Share(ms, base, names[|names| - 1])
  }

  function Weights(ms: Members, names: seq<string>): nat {
    if names == [] then 0
    else
      var name := names[|names| - 1];
      Weights(ms, names[..|names| - 1]) + if name in ms && ms[name].active then ms[name].weight else 0
  }

  function ActiveCount(ms: Members, names: seq<string>): nat {
    if names == [] then 0
    else
      var name := names[|names| - 1];
      ActiveCount(ms, names[..|names| - 1]) + if name in ms && ms[name].active then 1 else 0
  }

  /** The sum of the floors stays within the dividend of all weights together, and misses it by
      less than one unit per active member. */
  lemma {:induction false} SharesBound(ms: Members, base: nat, names: seq<string>)
    ensures Shares(ms, base, names) * MICRO <= base * Weights(ms, names)
    ensures ActiveCount(ms, names) > 0 ==>
              base * Weights(ms, names) < Shares(ms, base, names) * MICRO + MICRO * ActiveCount(ms, names)
    ensures ActiveCount(ms, names) == 0 ==> Weights(ms, names) == 0 && Shares(ms, base, names) == 0
  {
    if names != [] {
      var front, name := names[..|names| - 1], names[|names| - 1];
      SharesBound(ms, base, front);
      if name in ms && ms[name].active {
        assert base * (Weights(ms, front) + ms[name].weight) == base * Weights(ms, front) + base * ms[name].weight;
        if ActiveCount(ms, front) == 0 {
          assert base * Weights(ms, front) == 0;
        }
      }
    }
  }

  /** One dividend grows the supply by at most supply * c / 10^6, and by more than that less one
      unit per active member and the total weight / 10^6, when the genesis floor is not used. */
  lemma DividendBounds(ms: Members, supply: int, cPpm: int, base: nat)
    requires var names := Listing(ms.Keys); UDBase(supply, cPpm, Weights(ms, names)) == Success(base)
    ensures var names := Listing(ms.Keys);
            var grown := Shares(ms, base, names);
            && grown * MICRO <= supply * cPpm
            && supply * cPpm < grown * MICRO + MICRO * ActiveCount(ms, names) + Weights(ms, names)
  {
    var names := Listing(ms.Keys);
    SharesBound(ms, base, names);
  }

  /** What one run of the dividend may add to a supply: no more than supply * c / 10^6 or what the
      floor alone gives, and more than supply * c / 10^6 less one unit per active member and the
      total weight / 10^6. */
  predicate GrowsBy(ms: Members, supply: int, cPpm: int, floor: int, grown: int) {
    var names := Listing(ms.Keys);
    var w := Weights(ms, names);
    && (grown * MICRO <= supply * cPpm || grown * MICRO <= floor * w)
    && supply * cPpm < grown * MICRO + MICRO * ActiveCount(ms, names) + w
  }

  lemma FlooredBounds(ms: Members, supply: int, cPpm: int, floor: int, raw: int, base: nat)
    requires UDBase(supply, cPpm, Weights(ms, Listing(ms.Keys))) == Success(raw)
    requires base == (if raw < floor then floor else raw)
    ensures GrowsBy(ms, supply, cPpm, floor, Shares(ms, base, Listing(ms.Keys)))
  {
    hide Listing, Weights, Shares, ActiveCount;
    var names := Listing(ms.Keys);
    var w := Weights(ms, names);
    if raw < floor {
      SharesBound(ms, base, names);
      TimesNat(base - raw, w);
      assert base * w == raw * w + (base - raw) * w;
    } else {
      DividendBounds(ms, supply, cPpm, base);
    }
  }

  /** The standard dividend: the genesis floor, or the largest base within supply * c / weight if
      that is more. */
  predicate LargerOf(base: int, supply: int, cPpm: int, weight: int, genesis: int) {
    base >= genesis && base * weight + weight > supply * cPpm && (base == genesis || base * weight <= supply * cPpm)
  }

  // ----- the entries of a dividend -----

  function UDEntries(ms: Members, base: nat, names: seq<string>): seq<Entry> {
    if names == [] then []
    else
      var name := names[|names| - 1];
      UDEntries(ms, base, names[..|names| - 1])
      + if Share(ms, base, name) > 0 then [Entry(Account.Member(name), Share(ms, base, name))] else []
  }

  /** What a dividend does to one account. */
  function UDEffect(ms: Members, base: nat, names: seq<string>, a: Account): int {
    match a
    case Member(name) => if name in names then Share(ms, base, name) else 0
    case Issuance => 0 - Shares(ms, base, names)
    case _ => 0
  }

  lemma EntryAdded(es: seq<Entry>, e: Entry, a: Account)
    ensures EntrySum(es + [e], a) == EntrySum(es, a) + Delta(e, a)
    ensures Amounts(es + [e]) == Amounts(es) + e.amount
  {
    assert (es + [e])[..|es|] == es;
  }

  ghost predicate Distinct(names: seq<string>) { forall i, j :: 0 <= i < j < |names| ==> names[i] != names[j] }

  lemma SortedDistinct(names: seq<string>)
    requires Sorted(names)
    ensures Distinct(names)
  {
    forall i, j | 0 <= i < j < |names| ensures names[i] != names[j] {
      LessTotal(names[i], names[j]);
    }
  }

  lemma LastIsNew(names: seq<string>)
    requires Distinct(names) && names != []
    ensures var front, name := names[..|names| - 1], names[|names| - 1];
            Distinct(front) && name !in front && forall x :: x in names <==> x in front || x == name
  {
    assert names == names[..|names| - 1] + [names[|names| - 1]];
  }

  lemma {:induction false} UDEntriesSum(ms: Members, base: nat, names: seq<string>, a: Account)
    requires Distinct(names)
    ensures Amounts(UDEntries(ms, base, names)) == Shares(ms, base, names)
    ensures EntrySum(UDEntries(ms, base, names), a) == if a.Issuance? then 0 else UDEffect(ms, base, names, a)
  {
    hide Distinct;
    if names != [] {
      var front, name := names[..|names| - 1], names[|names| - 1];
      LastIsNew(names);
      UDEntriesSum(ms, base, front, a);
      if Share(ms, base, name) > 0 {
        EntryAdded(UDEntries(ms, base, front), Entry(Account.Member(name), Share(ms, base, name)), a);
      } else {
        assert UDEntries(ms, base, names) == UDEntries(ms, base, front);
      }
    }
  }

  lemma {:induction false} UDEntriesPlain(ms: Members, base: nat, names: seq<string>)
    ensures forall e :: e in UDEntries(ms, base, names) ==> e.account.Member? && e.amount > 0
  {
    if names != [] {
      UDEntriesPlain(ms, base, names[..|names| - 1]);
    }
  }

  // ----- sharing out the fund -----

  const REDISTRIBUTE := Fund("redistribute")

  function ActiveNames(ms: Members, names: seq<string>): (r: seq<string>)
    ensures |r| == ActiveCount(ms, names)
    ensures forall x :: x in r <==> x in names && x in ms && ms[x].active
  {
    if names == [] then []
    else
      var name := names[|names| - 1];
      ActiveNames(ms, names[..|names| - 1]) + if name in ms && ms[name].active then [name] else []
  }

  lemma ActiveNext(ms: Members, names: seq<string>, i: nat)
    requires i < |names|
    ensures ActiveNames(ms, names[..i + 1]) ==
            ActiveNames(ms, names[..i]) + if names[i] in ms && ms[names[i]].active then [names[i]] else []
  {
    assert names[..i + 1][..i] == names[..i];
  }

  /** The share of each active member; the remainder of the division stays in the fund. */
  function EqualShare(fund: int, active: nat): nat {
    if fund <= 0 || active == 0 then 0 else fund / active
  }

  lemma RemainderIsSmall(fund: int, active: nat)
    requires fund >= 0 && active > 0
    ensures 0 <= fund - EqualShare(fund, active) * active < active
  {
    FloorBounds(fund, 1, active);
  }

  function ShareEntries(names: seq<string>, share: int): seq<Entry> {
    if names == [] then []
    else ShareEntries(names[..|names| - 1], share) + [Entry(Account.Member(names[|names| - 1]), share)]
  }

  lemma {:induction false} ShareEntriesSum(names: seq<string>, share: int, a: Account)
    requires Distinct(names)
    ensures EntrySum(ShareEntries(names, share), a) == if a.Member? && a.name in names then share else 0
  {
    hide Distinct;
    if names != [] {
      var front, name := names[..|names| - 1], names[|names| - 1];
      LastIsNew(names);
      ShareEntriesSum(front, share, a);
      EntryAdded(ShareEntries(front, share), Entry(Account.Member(name), share), a);
    }
  }

  lemma {:induction false} ShareEntriesTotal(names: seq<string>, share: int)
    ensures Amounts(ShareEntries(names, share)) == share * |names|
  {
    if names != [] {
      var front := names[..|names| - 1];
      ShareEntriesTotal(front, share);
      EntryAdded(ShareEntries(front, share), Entry(Account.Member(names[|names| - 1]), share), Issuance);
      assert share * |names| == share * |front| + share;
    }
  }

  lemma {:induction false} ActiveDistinct(ms: Members, names: seq<string>)
    requires Distinct(names)
    ensures Distinct(ActiveNames(ms, names))
  {
    if names != [] {
      ActiveDistinct(ms, names[..|names| - 1]);
      assert names[|names| - 1] !in names[..|names| - 1];
    }
  }

  /** What sharing out does to one account. */
  function ShareOutEffect(ms: Members, fund: int, a: Account): int {
    var names := Listing(ms.Keys);
    var share := EqualShare(fund, ActiveCount(ms, names));
    match a
    case Member(name) => if name in ms && ms[name].active then share else 0
    case Fund(f) => if a == REDISTRIBUTE then 0 - share * ActiveCount(ms, names) else 0
    case _ => 0
  }

  /** What is left in the fund after sharing out is less than one unit per active member. */
  lemma FundLeft(ms: Members, fund: int)
    ensures var active := ActiveCount(ms, Listing(ms.Keys));
            fund >= 0 && active > 0 ==> 0 <= fund + ShareOutEffect(ms, fund, REDISTRIBUTE) < active
  {
    hide Listing;
    var active := ActiveCount(ms, Listing(ms.Keys));
    if fund >= 0 && active > 0 {
      RemainderIsSmall(fund, active);
    }
  }

  lemma NoShareOut(ms: Members, fund: int)
    requires EqualShare(fund, ActiveCount(ms, Listing(ms.Keys))) == 0
    ensures forall a :: ShareOutEffect(ms, fund, a) == 0
  {
    hide Listing, ActiveCount;
  }

  /** A transaction that touches no node wallet is only refused for being empty or unbalanced. */
  lemma PlainBooked(bal: Balances, tx: Tx)
    requires tx.entries != [] && Amounts(tx.entries) == 0
    requires forall i :: 0 <= i < |tx.entries| ==> !tx.entries[i].account.NodeWallet?
    ensures Refusal(bal, tx).None?
  {
  }

  /** What one dividend does to each member: an active one gets the largest amount within its weight
      of the base, in millionths, and nobody else gets anything. */
  lemma EachGets(ms: Members, base: nat, name: string)
    ensures var got := UDEffect(ms, base, Listing(ms.Keys), Account.Member(name));
            if name in ms && ms[name].active
            then got * 1_000_000 <= base * ms[name].weight < got * 1_000_000 + 1_000_000 else got == 0
  {
    hide Listing;
    assert name in Listing(ms.Keys) <==> name in ms.Keys;
  }

  /** What sharing out does to each member: the active ones get the same, the largest equal share
      within the fund, and nobody else gets anything. */
  lemma EachShares(ms: Members, fund: int, name: string)
    ensures var active := ActiveCount(ms, Listing(ms.Keys));
            var got := ShareOutEffect(ms, fund, Account.Member(name));
            if name in ms && ms[name].active && active > 0 && fund > 0
            then got * active <= fund < got * active + active else got == 0
  {
    hide Listing, ActiveCount;
    if fund > 0 && ActiveCount(ms, Listing(ms.Keys)) > 0 {
      RemainderIsSmall(fund, ActiveCount(ms, Listing(ms.Keys)));
    }
  }

  // ----- the community of a node -----

  class Community {
    const led: Ledger
    const cPpm: int
    const genesisUD: int
    const batchUD: bool
    var members: Members
    var currentUD: int

    constructor (led: Ledger, cPpm: int, genesisUD: int, batchUD: bool)
      ensures this.led == led && this.cPpm == cPpm && this.genesisUD == genesisUD && this.batchUD == batchUD
      ensures members == map[] && currentUD == 0
    {
      this.led, this.cPpm, this.genesisUD, this.batchUD := led, cPpm, genesisUD, batchUD;
      members, currentUD := map[], 0;
    }

    /** The names in their one sorted order. */
    method SortedMemberNames() returns (names: seq<string>)
      ensures names == Listing(members.Keys)
    {
      names := [];
      var left := members.Keys;
      while left != {}
        invariant left <= members.Keys && Sorted(names)
        invariant forall k :: k in names <==> k in members.Keys && k !in left
        decreases |left|
      {
        var k :| k in left;
        names := Insert(names, k);
        left := left - {k};
      }
      ListingUnique(names, Listing(members.Keys));
    }

    method WeightTotal() returns (t: nat)
      ensures t == Weights(members, Listing(members.Keys))
    {
      hide Listing, Sorted, Less;
      var names := SortedMemberNames();
      t := 0;
      for i := 0 to |names|
        invariant t == Weights(members, names[..i])
      {
        assert names[..i + 1][..i] == names[..i];
        if names[i] in members && members[names[i]].active {
          t := t + members[names[i]].weight;
        }
      }
      assert names[..|names|] == names;
    }

    ghost function Base(): int
      reads this, led
    {
      var w := Weights(members, Listing(members.Keys));
      if w == 0 then 0
      else match UDBase(MoneySupply(led.balances), cPpm, w)
           case Failure(_) => 0
           case Success(base) => if base < genesisUD then genesisUD else base
    }

    method ComputeUDBase() returns (base: int)
      ensures base == Base()
    {
      var w := WeightTotal();
      if w == 0 {
        return 0;
      }
      var r := UDBase(-(Get(led.balances, Issuance) + Get(led.balances, Treasury)), cPpm, w);
      if r.Failure? {
        return 0;
      }
      if r.value < genesisUD {
        return genesisUD;
      }
      base := r.value;
    }

    ghost predicate LedgerSound()
      reads led
    {
      Sound(led.View())
    }

    /** Append a transaction that cannot be refused. */
    method Book(tx: Tx)
      requires tx.entries != [] && Amounts(tx.entries) == 0 && Shaped(tx)
      requires forall i :: 0 <= i < |tx.entries| ==> !tx.entries[i].account.NodeWallet?
      modifies led
      ensures old(LedgerSound()) ==> LedgerSound()
      ensures forall a :: Get(led.balances, a) == Get(old(led.balances), a) + EntrySum(tx.entries, a)
    {
      hide Sound, Shaped;
      PlainBooked(led.balances, tx);
      if Sound(led.View()) {
        AppendKeepsSound(led.View(), tx);
      }
      var r := led.Append(tx);
      forall a ensures Get(led.balances, a) == Get(old(led.balances), a) + EntrySum(tx.entries, a) {
        PostGet(old(led.balances), tx.entries, a);
      }
    }

    method ActiveMembers() returns (active: seq<string>)
      ensures active == ActiveNames(members, Listing(members.Keys))
    {
      var names := SortedMemberNames();
      active := [];
      for i := 0 to |names|
        invariant active == ActiveNames(members, names[..i])
      {
        ActiveNext(members, names, i);
        if members[names[i]].active {
          active := active + [names[i]];
        }
      }
      assert names[..|names|] == names;
    }

    /** One transaction per member, as the log of a small node shows it. */
    method PayEach(names: seq<string>, base: nat, id: Id, now: int)
      requires Distinct(names)
      modifies led
      ensures old(LedgerSound()) ==> LedgerSound()
      ensures forall a :: Get(led.balances, a) == Get(old(led.balances), a) + UDEffect(members, base, names, a)
    {
      hide LedgerSound, Shaped, Issued;
      for i := 0 to |names|
        invariant old(LedgerSound()) ==> LedgerSound()
        invariant forall a :: Get(led.balances, a) == Get(old(led.balances), a) + UDEffect(members, base, names[..i], a)
      {
        var name := names[i];
        assert names[..i + 1][..i] == names[..i] && name !in names[..i];
        assert forall x :: x in names[..i + 1] <==> x in names[..i] || x == name;
        var amount: int := Share(members, base, name);
        if amount > 0 {
          var tx := Tx(id, IssuanceUD, None, now, [Entry(Account.Member(name), amount), Entry(Issuance, -amount)]);
          TwoEntries(tx.entries[0], tx.entries[1]);
          DividendIsShaped(tx, name, amount);
          Book(tx);
        }
      }
      assert names[..|names|] == names;
    }

    /** One transaction for the whole dividend. */
    method PayBatch(names: seq<string>, base: nat, id: Id, now: int)
      requires Distinct(names)
      modifies led
      ensures old(LedgerSound()) ==> LedgerSound()
      ensures forall a :: Get(led.balances, a) == Get(old(led.balances), a) + UDEffect(members, base, names, a)
    {
      var entries: seq<Entry> := [];
      var total: int := 0;
      for i := 0 to |names|
        invariant entries == UDEntries(members, base, names[..i]) && total == Shares(members, base, names[..i])
        invariant led.balances == old(led.balances) && led.log == old(led.log)
      {
        assert names[..i + 1][..i] == names[..i];
        var amount: int := Share(members, base, names[i]);
        if amount > 0 {
          entries := entries + [Entry(Account.Member(names[i]), amount)];
          total := total + amount;
        }
      }
      assert names[..|names|] == names;
      if total > 0 {
        entries := entries + [Entry(Issuance, -total)];
        BatchBalanced(members, base, names);
        var tx := Tx(id, IssuanceUD, None, now, entries);
        Book(tx);
      } else {
        NothingPaid(members, base, names);
      }
    }

    static method EqualEntries(active: seq<string>, share: int) returns (entries: seq<Entry>)
      ensures entries == [Entry(REDISTRIBUTE, -(share * |active|))] + ShareEntries(active, share)
    {
      entries := [Entry(REDISTRIBUTE, -(share * |active|))];
      for i := 0 to |active|
        invariant entries == [Entry(REDISTRIBUTE, -(share * |active|))] + ShareEntries(active[..i], share)
      {
        ShareNext(active, share, i);
        entries := entries + [Entry(Account.Member(active[i]), share)];
      }
      assert active[..|active|] == active;
    }

    /** Pay the fund out equally to the active members; the remainder stays. */
    method ShareOut(id: Id, now: int)
      modifies led
      ensures old(LedgerSound()) ==> LedgerSound()
      ensures forall a :: Get(led.balances, a) ==
                          Get(old(led.balances), a) + ShareOutEffect(members, Get(old(led.balances), REDISTRIBUTE), a)
      ensures var active := ActiveCount(members, Listing(members.Keys));
              Get(old(led.balances), REDISTRIBUTE) >= 0 && active > 0 ==> 0 <= Get(led.balances, REDISTRIBUTE) < active
    {
      hide Listing, Sorted, Less, ActiveCount, ActiveNames, ShareEntries, ShareOutEffect, Get, Amounts, EntrySum;
      var fund := Get(led.balances, REDISTRIBUTE);
      FundLeft(members, fund);
      if fund <= 0 {
        NoShareOut(members, fund);
        return;
      }
      var active := ActiveMembers();
      assert |active| == ActiveCount(members, Listing(members.Keys));
      if |active| == 0 {
        NoShareOut(members, fund);
        return;
      }
      var share: int := fund / |active|;
      if share <= 0 {
        NoShareOut(members, fund);
        return;
      }
      var entries := EqualEntries(active, share);
      var tx := Tx(id, FundRedistribute, None, now, entries);
      ShareOutBalanced(members, fund, Listing(members.Keys));
      Book(tx);
    }

    /** Whenever an active member has any weight and the formula has an answer, the dividend is the
        larger of the genesis floor and the formula; otherwise there is none. */
    lemma BaseIsFloored()
      ensures var w := Weights(members, Listing(members.Keys));
              var supply := MoneySupply(led.balances);
              if w > 0 && supply >= 0 && cPpm >= 0 then LargerOf(Base(), supply, cPpm, w, genesisUD) else Base() == 0
    {
      hide Listing, Weights, MoneySupply;
      var w := Weights(members, Listing(members.Keys));
      var r := UDBase(MoneySupply(led.balances), cPpm, w);
      if r.Success? && r.value < genesisUD {
        TimesNat(genesisUD - r.value, w);
        assert genesisUD * w == r.value * w + (genesisUD - r.value) * w;
      }
    }

    lemma BaseBounds()
      requires Base() > 0
      ensures GrowsBy(members, MoneySupply(led.balances), cPpm, genesisUD,
                      Shares(members, Base(), Listing(members.Keys)))
    {
      hide Listing, Weights, GrowsBy, UDBase, MoneySupply;
      var w := Weights(members, Listing(members.Keys));
      FlooredBounds(members, MoneySupply(led.balances), cPpm, genesisUD,
                    UDBase(MoneySupply(led.balances), cPpm, w).value, Base());
    }

    /** One dividend period.  Whether it is booked as one transaction or one per member does not
        show in any balance: each account moves by the same amount. */
    method RunUD(id: Id, now: int) returns (paid: int)
      modifies led, this`currentUD
      ensures old(LedgerSound()) ==> LedgerSound()
      ensures paid == if old(Base()) > 0 then old(Base()) else 0
      ensures var w, supply := Weights(members, Listing(members.Keys)), MoneySupply(old(led.balances));
              if w > 0 && supply >= 0 && cPpm >= 0
              then exists base :: LargerOf(base, supply, cPpm, w, genesisUD) && paid == (if base > 0 then base else 0)
              else paid == 0
      ensures old(Base()) <= 0 ==> led.balances == old(led.balances)
      ensures old(Base()) > 0 ==>
                forall a :: Get(led.balances, a) ==
                            Get(old(led.balances), a) + UDEffect(members, old(Base()), Listing(members.Keys), a)
                            + ShareOutEffect(members, Get(old(led.balances), REDISTRIBUTE), a)
      ensures old(Base()) > 0 ==>
                MoneySupply(led.balances) == MoneySupply(old(led.balances))
                  + Shares(members, old(Base()), Listing(members.Keys))
      ensures old(Base()) > 0 ==>
                GrowsBy(members, MoneySupply(old(led.balances)), cPpm, genesisUD,
                        MoneySupply(led.balances) - MoneySupply(old(led.balances)))
      ensures old(Base()) > 0 ==> currentUD == Base()
    {
      hide Listing, Sorted, Less, Distinct, Weights, UDBase, LedgerSound, UDEffect, ShareOutEffect, Get, GrowsBy,
        LargerOf;
      BaseIsFloored();
      var base := ComputeUDBase();
      if base <= 0 {
        return 0;
      }
      BaseBounds();
      var names := SortedMemberNames();
      SortedDistinct(names);
      IssuanceEffect(members, base, names);
      SystemUntouched(members, Get(led.balances, REDISTRIBUTE));
      if batchUD {
        PayBatch(names, base, id, now);
      } else {
        PayEach(names, base, id, now);
      }
      ShareOut(id, now);
      currentUD := ComputeUDBase();
      paid := base;
    }

    /** Deactivate a member, after doing with its balance what it chose. */
    method Leave(member: string, mode: LeaveMode, to: string, id: Id, now: int) returns (ok: bool)
      modifies led, this`members, this`currentUD
      ensures old(LedgerSound()) ==> LedgerSound()
      ensures ok <==>
              && member in old(members) && old(members)[member].active && !mode.OtherMode?
              && (mode.Give? ==> to in old(members) && old(members)[to].active && to != member)
      ensures !ok ==> members == old(members) && led.balances == old(led.balances)
      ensures ok ==> members == old(members)[member := old(members)[member].(active := false)] && currentUD == Base()
      ensures ok ==> forall a :: Get(led.balances, a) ==
                                 Get(old(led.balances), a)
                                 + LeaveEffect(Get(old(led.balances), Account.Member(member)), member, mode, to, a)
      ensures ok ==> var bal := Get(old(led.balances), Account.Member(member));
                     MoneySupply(led.balances) ==
                     MoneySupply(old(led.balances)) - (if mode.Destroy? && bal > 0 then bal else 0)
    {
      hide LedgerSound, Shaped, Listing, Weights, UDBase, Get;
      if member !in members || !members[member].active {
        return false;
      }
      var acct := Account.Member(member);
      var bal := Get(led.balances, acct);
      match mode {
        case OtherMode => return false;
        case Give =>
          if to !in members || !members[to].active || to == member {
            return false;
          }
        case _ =>
      }
      if !mode.Keep? && bal > 0 {
        var dst := Destination(mode, to);
        var typ := if mode.Destroy? then IssuanceBurn else Payment;
        var tx := Tx(id, typ, None, now, [Entry(acct, -bal), Entry(dst, bal)]);
        TwoEntries(tx.entries[0], tx.entries[1]);
        LeavingIsShaped(tx, member, mode, to, bal);
        Book(tx);
      }
      members := members[member := members[member].(active := false)];
      currentUD := ComputeUDBase();
      ok := true;
    }
  }

  datatype LeaveMode = Destroy | ToFund | Give | Keep | OtherMode

  function Destination(mode: LeaveMode, to: string): Account {
    match mode
    case Destroy => Issuance
    case ToFund => REDISTRIBUTE
    case _ => Account.Member(to)
  }

  /** What leaving does to one account: a positive balance moves as a whole, a debt stays. */
  function LeaveEffect(bal: int, member: string, mode: LeaveMode, to: string, a: Account): int {
    if mode.Keep? || bal <= 0 then 0
    else (if a == Account.Member(member) then -bal else 0) + (if a == Destination(mode, to) then bal else 0)
  }

  /** Mode by mode: destroying gives the whole balance back to issuance, sharing puts it into the
      redistribution fund, giving hands it to the other member, keeping moves nothing; a balance
      that is not positive stays, and no other account moves. */
  lemma LeavingMoves(bal: int, member: string, mode: LeaveMode, to: string, a: Account)
    ensures var moves := LeaveEffect(bal, member, mode, to, a);
            && (bal <= 0 || mode.Keep? ==> moves == 0)
            && (bal > 0 && mode.Destroy? ==>
                 moves == if a == Member(member) then -bal else if a == Issuance then bal else 0)
            && (bal > 0 && mode.ToFund? ==>
                 moves == if a == Member(member) then -bal else if a == Fund("redistribute") then bal else 0)
            && (bal > 0 && mode.Give? && to != member ==>
                 moves == if a == Member(member) then -bal else if a == Member(to) then bal else 0)
  {
  }

  lemma {:induction false} HeadAdded(e: Entry, es: seq<Entry>, a: Account)
    ensures EntrySum([e] + es, a) == Delta(e, a) + EntrySum(es, a)
    ensures Amounts([e] + es) == e.amount + Amounts(es)
  {
    if es == [] {
      assert [e] + es == [] + [e];
      EntryAdded([], e, a);
    } else {
      var front, last := es[..|es| - 1], es[|es| - 1];
      assert [e] + es == ([e] + front) + [last];
      HeadAdded(e, front, a);
      EntryAdded([e] + front, last, a);
    }
  }

  /** A batched dividend is balanced, touches no wallet, and moves each account by its share. */
  lemma BatchBalanced(ms: Members, base: nat, names: seq<string>)
    requires Distinct(names)
    ensures var es := UDEntries(ms, base, names) + [Entry(Issuance, 0 - Shares(ms, base, names))];
            && Amounts(es) == 0 && (forall i :: 0 <= i < |es| ==> !es[i].account.NodeWallet?)
            && (forall a :: EntrySum(es, a) == UDEffect(ms, base, names, a))
            && forall id, now :: Issued(Tx(id, IssuanceUD, None, now, es)) == Shares(ms, base, names)
  {
    hide UDEffect, UDEntries, Shares, Distinct;
    var paid, last := UDEntries(ms, base, names), Entry(Issuance, 0 - Shares(ms, base, names));
    UDEntriesPlain(ms, base, names);
    UDEntriesSum(ms, base, names, Issuance);
    EntryAdded(paid, last, Issuance);
    forall a ensures EntrySum(paid + [last], a) == UDEffect(ms, base, names, a) {
      UDEntriesSum(ms, base, names, a);
      EntryAdded(paid, last, a);
      IssuanceEffect(ms, base, names);
    }
    IssuanceEffect(ms, base, names);
    assert EntrySum(paid + [last], Issuance) == UDEffect(ms, base, names, Issuance);
    assert EntrySum(paid + [last], Treasury) == UDEffect(ms, base, names, Treasury);
  }

  lemma IssuanceEffect(ms: Members, base: nat, names: seq<string>)
    ensures UDEffect(ms, base, names, Issuance) == 0 - Shares(ms, base, names)
            && UDEffect(ms, base, names, Treasury) == 0
    ensures UDEffect(ms, base, names, REDISTRIBUTE) == 0
  {
  }

  lemma SystemUntouched(ms: Members, fund: int)
    ensures ShareOutEffect(ms, fund, Issuance) == 0 && ShareOutEffect(ms, fund, Treasury) == 0
  {
  }

  /** Sharing out is balanced, touches no wallet, and moves each account by its share. */
  lemma ShareOutBalanced(ms: Members, fund: int, names: seq<string>)
    requires names == Listing(ms.Keys) && fund > 0 && ActiveCount(ms, names) > 0
    ensures var active := ActiveNames(ms, names);
            var share := fund / |active|;
            var es := [Entry(REDISTRIBUTE, -(share * |active|))] + ShareEntries(active, share);
            && Amounts(es) == 0
            && (forall i :: 0 <= i < |es| ==> !es[i].account.NodeWallet? && !IsSystem(es[i].account))
            && forall a :: EntrySum(es, a) == ShareOutEffect(ms, fund, a)
  {
    hide Listing, Sorted, Distinct, ActiveCount, ActiveNames, ShareEntries;
    SortedDistinct(names);
    ActiveDistinct(ms, names);
    var active := ActiveNames(ms, names);
    var share := fund / |active|;
    var first, rest := Entry(REDISTRIBUTE, -(share * |active|)), ShareEntries(active, share);
    ShareEntriesPlain(active, share);
    ShareEntriesTotal(active, share);
    HeadAdded(first, rest, Issuance);
    forall a ensures EntrySum([first] + rest, a) == ShareOutEffect(ms, fund, a) {
      ShareEntriesSum(active, share, a);
      HeadAdded(first, rest, a);
    }
  }

  lemma ShareNext(names: seq<string>, share: int, i: nat)
    requires i < |names|
    ensures ShareEntries(names[..i + 1], share) ==
              ShareEntries(names[..i], share) + [Entry(Account.Member(names[i]), share)]
  {
    assert names[..i + 1][..i] == names[..i];
  }

  lemma {:induction false} ShareEntriesPlain(names: seq<string>, share: int)
    ensures forall e :: e in ShareEntries(names, share) ==> e.account.Member?
  {
    if names != [] {
      ShareEntriesPlain(names[..|names| - 1], share);
    }
  }

  lemma DividendIsShaped(tx: Tx, name: string, amount: int)
    requires amount > 0 && tx.typ.IssuanceUD?
    requires tx.entries == [Entry(Account.Member(name), amount), Entry(Issuance, -amount)]
    ensures Shaped(tx)
  {
    TwoEntriesIssue(tx);
    hide Issued;
  }

  lemma LeavingIsShaped(tx: Tx, member: string, mode: LeaveMode, to: string, bal: int)
    requires bal > 0 && tx.typ == if mode.Destroy? then IssuanceBurn else Payment
    requires tx.entries == [Entry(Account.Member(member), -bal), Entry(Destination(mode, to), bal)]
    ensures Shaped(tx)
  {
    TwoEntriesIssue(tx);
    hide Issued;
    assert tx.entries[0].account == Account.Member(member) && tx.entries[1].account == Destination(mode, to);
  }

  lemma TwoEntries(e: Entry, f: Entry)
    ensures Amounts([e, f]) == e.amount + f.amount
    ensures forall a :: EntrySum([e, f], a) == Delta(e, a) + Delta(f, a)
  {
    assert [e, f][..1] == [e] && [e][..0] == [];
    forall a ensures EntrySum([e, f], a) == Delta(e, a) + Delta(f, a) {
      assert EntrySum([e], a) == EntrySum([], a) + Delta(e, a);
    }
    assert Amounts([e]) == Amounts([]) + e.amount;
  }

  lemma {:induction false} NothingPaid(ms: Members, base: nat, names: seq<string>)
    requires Shares(ms, base, names) == 0
    ensures forall a :: UDEffect(ms, base, names, a) == 0
  {
    if names != [] {
      var front, name := names[..|names| - 1], names[|names| - 1];
      NothingPaid(ms, base, front);
      assert forall x :: x in names <==> x in front || x == name;
      forall a ensures UDEffect(ms, base, names, a) == 0 {
        assert UDEffect(ms, base, front, a) == 0;
      }
    }
  }
}
