/** The head hash stands for the whole log. */
module LedgerIdentity {
  import opened Wrappers
  import opened CanonicalJson
  import opened ChannelHistory
  import opened Ledgers

  /** A type name is known by its first and last letters. */
  function TypeOf(first: char, last: char): TxType {
    if first == 'i' then
      if last == 'd' then IssuanceUD else if last == 't' then IssuanceGrant else IssuanceBurn
    else if first == 't' then if last == 't' then TransferOut else TransferIn
    else if first == 'r' then if last == 't' then ReserveAdjust else ReserveRetire
    else if first == 'c' then ContactSeed
    else if first == 'f' then FundRedistribute
    else Payment
  }

  lemma TypeRead(t: TxType)
    ensures TypeText(t) != "" && TypeOf(TypeText(t)[0], TypeText(t)[|TypeText(t)| - 1]) == t
  {
  }

  lemma TypeTextInjective(t: TxType, u: TxType)
    requires TypeText(t) == TypeText(u)
    ensures t == u
  {
    TypeRead(t);
    TypeRead(u);
  }

  lemma AccountTextInjective(a: Account, b: Account)
    requires AccountText(a) == AccountText(b)
    ensures a == b
  {
    var s := AccountText(a);
    assert s[0] == 'n' <==> a.NodeWallet?;
    assert s[0] == 'm' <==> a.Member?;
    assert s[0] == 'f' <==> a.Fund?;
    assert s[0] == 'i' <==> a.Issuance?;
    match a
    case NodeWallet(h) => assert s[5..] == h && AccountText(b)[5..] == b.host;
    case Member(n) => assert s[2..] == n && AccountText(b)[2..] == b.name;
    case Fund(n) => assert s[5..] == n && AccountText(b)[5..] == b.name;
    case Issuance =>
    case Treasury =>
  }

  lemma EntryJsonInjective(e: Entry, f: Entry)
    requires EntryJson(e) == EntryJson(f)
    ensures e == f
  {
    assert EntryJson(e).members["account"] == EntryJson(f).members["account"];
    assert EntryJson(e).members["amount"] == EntryJson(f).members["amount"];
    AccountTextInjective(e.account, f.account);
  }

  lemma TxJsonInjective(t: Tx, u: Tx)
    requires TxJson(t) == TxJson(u)
    ensures t == u
  {
    var m, w := TxJson(t).members, TxJson(u).members;
    assert "ref" in m <==> t.ref.Some?;
    assert "ref" in w <==> u.ref.Some?;
    assert m["id"] == w["id"] && m["type"] == w["type"] && m["created"] == w["created"];
    if t.ref.Some? { assert m["ref"] == w["ref"]; }
    TypeTextInjective(t.typ, u.typ);
    var es, fs := m["entries"].items, w["entries"].items;
    assert es == fs;
    assert |es| == |t.entries| && |fs| == |u.entries|;
    forall i | 0 <= i < |es| ensures t.entries[i] == u.entries[i] {
      assert es[i] == EntryJson(t.entries[i]) && fs[i] == EntryJson(u.entries[i]);
      EntryJsonInjective(t.entries[i], u.entries[i]);
    }
    assert t.entries == u.entries;
  }

  lemma RecordHashInjective(r: Record, s: Record)
    requires RecordHash(r) == RecordHash(s)
    ensures r.(hash := Zero) == s.(hash := Zero)
  {
    CanonicalInjective(RecordJson(r), RecordJson(s));
    RecordJsonInjective(r, s);
  }

  lemma RecordJsonInjective(r: Record, s: Record)
    requires RecordJson(r) == RecordJson(s)
    ensures r.seqNo == s.seqNo && r.tx == s.tx && r.memberSig == s.memberSig
  {
    var m, w := RecordJson(r).members, RecordJson(s).members;
    assert m["seq"] == w["seq"] && m["tx"] == w["tx"] && m["member_sig"] == w["member_sig"];
    TxJsonInjective(r.tx, s.tx);
  }

  lemma {:induction false} HeadFixesLog(a: seq<Record>, b: seq<Record>)
    requires forall i :: 0 <= i < |a| ==> Chained(a, i)
    requires forall i :: 0 <= i < |b| ==> Chained(b, i)
    requires Head(a) == Head(b)
    ensures a == b
    decreases |a|
  {
    if a != [] && b != [] {
      var a', b' := a[..|a| - 1], b[..|b| - 1];
      var r, s := a[|a| - 1], b[|b| - 1];
      assert Chained(a, |a| - 1) && Chained(b, |b| - 1);
      RecordHashInjective(r, s);
      forall i | 0 <= i < |a'| ensures Chained(a', i) {
        assert Chained(a, i) && a'[..i] == a[..i];
      }
      forall i | 0 <= i < |b'| ensures Chained(b', i) {
        assert Chained(b, i) && b'[..i] == b[..i];
      }
      HeadFixesLog(a', b');
      assert a == a' + [r] && b == b' + [s];
    } else {
      assert a != [] ==> Chained(a, |a| - 1);
      assert b != [] ==> Chained(b, |b| - 1);
    }
  }

  /** Two logs that pass the audit and end in the same hash are the same log. */
  lemma SameHeadSameLog(a: seq<Record>, b: seq<Record>)
    requires Verified(a) && Verified(b)
    ensures Head(a) == Head(b) <==> a == b
  {
    if Head(a) == Head(b) {
      HeadFixesLog(a, b);
    }
  }

  /** The audit cannot see a cut: every beginning of an accepted log is accepted. */
  lemma PrefixVerifies(log: seq<Record>, n: nat)
    requires Verified(log) && n <= |log|
    ensures Verified(log[..n])
  {
    forall i | 0 <= i < n ensures Chained(log[..n], i) && Solvent(log[..n], i) {
      assert log[..n][..i] == log[..i];
      assert Chained(log, i) && Solvent(log, i);
    }
  }
}
