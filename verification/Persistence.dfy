/** The node's tables, the index of contacts by host, and what a snapshot brings back. */
module Persistence {
  import opened Wrappers
  import opened ChannelHistory
  import opened Messages
  import opened NodeSpec
  import opened NodeInvariant

  datatype Peer = Peer(host: string, contact: Contact)

  datatype TransferRow = TransferRow(id: Id, transfer: Transfer)

  datatype Inbound = Inbound(seen: set<Id>, lastSeq: nat, replies: map<Id, Envelope>)

  /** The tables a node keeps, over all its peers. */
  datatype Tables = Tables(
    contacts: map<Id, Peer>,
    contactByHost: map<string, Peer>,
    transfers: map<Id, TransferRow>,
    outSeq: map<string, nat>,
    inbound: map<string, Inbound>,
    outbox: map<string, seq<Envelope>>,
    pushed: map<string, int>
  )

  /** What is stored: lists, in whatever order the maps were walked. */
  datatype Snapshot = Snapshot(
    contacts: seq<Peer>,
    transfers: seq<TransferRow>,
    outSeq: map<string, nat>,
    inbound: seq<Channel>,
    outbox: map<string, seq<Envelope>>
  )

  // ----- the index -----

  ghost predicate Keyed(t: Tables) {
    && (forall id :: id in t.contacts ==> t.contacts[id].contact.id == id)
    && (forall id :: id in t.transfers ==> t.transfers[id].id == id)
  }

  /** contactByHost is exactly the contacts by their peer's host, one per host. */
  ghost predicate Indexed(t: Tables) {
    && (forall id :: id in t.contacts ==>
          t.contacts[id].host in t.contactByHost && t.contactByHost[t.contacts[id].host] == t.contacts[id])
    && (forall h :: h in t.contactByHost ==>
          t.contactByHost[h].host == h && t.contactByHost[h].contact.id in t.contacts
          && t.contacts[t.contactByHost[h].contact.id] == t.contactByHost[h])
  }

  /** Entering a contact, on either side: refused if the host already has one. */
  function Enter(t: Tables, p: Peer): Tables {
    if p.host in t.contactByHost then t
    else t.(contacts := t.contacts[p.contact.id := p], contactByHost := t.contactByHost[p.host := p])
  }

  /** The index stays exact for precisely those entries that are refused or bring a new id. */
  lemma EnterKeepsIndex(t: Tables, p: Peer)
    requires Keyed(t) && Indexed(t)
    ensures Keyed(Enter(t, p))
    ensures Indexed(Enter(t, p)) <==> p.host in t.contactByHost || p.contact.id !in t.contacts
  {
    if p.host in t.contactByHost {
    } else if p.contact.id in t.contacts {
      ReusedIdBreaksIndex(t, p);
    } else {
      NewIdKeepsIndex(t, p);
    }
  }

  lemma NewIdKeepsIndex(t: Tables, p: Peer)
    requires Keyed(t) && Indexed(t) && p.host !in t.contactByHost && p.contact.id !in t.contacts
    ensures Indexed(Enter(t, p))
  {
  }

  lemma ReusedIdBreaksIndex(t: Tables, p: Peer)
    requires Keyed(t) && Indexed(t) && p.host !in t.contactByHost && p.contact.id in t.contacts
    ensures !Indexed(Enter(t, p))
  {
    var h := t.contacts[p.contact.id].host;
    assert h in t.contactByHost && Enter(t, p).contactByHost[h] == t.contacts[p.contact.id];
  }

  /** Replacing a contact's fields in place, as every later operation does. */
  function Touch(t: Tables, id: Id, c: Contact): Tables
    requires id in t.contacts
  {
    var p := t.contacts[id].(contact := c);
    t.(contacts := t.contacts[id := p], contactByHost := t.contactByHost[p.host := p])
  }

  lemma TouchKeepsIndex(t: Tables, id: Id, c: Contact)
    requires Keyed(t) && Indexed(t) && id in t.contacts && c.id == id
    ensures Keyed(Touch(t, id, c)) && Indexed(Touch(t, id, c))
  {
  }

  // ----- snapshots -----

  /** The orders the maps were walked in. */
  datatype Walk = Walk(contacts: seq<Id>, transfers: seq<Id>, hosts: seq<string>)

  ghost predicate Lists<K(!new)>(order: seq<K>, keys: set<K>) { forall k :: k in order <==> k in keys }

  ghost predicate Walks(w: Walk, t: Tables) {
    Lists(w.contacts, t.contacts.Keys) && Lists(w.transfers, t.transfers.Keys) && Lists(w.hosts, t.inbound.Keys)
  }

  /** The seen ids of every channel as lists, in some order. */
  ghost predicate Spells(spell: map<string, seq<Id>>, t: Tables) {
    forall h :: h in t.inbound ==> h in spell && Lists(spell[h], t.inbound[h].seen)
  }

  /** A map filled row by row, later rows winning. */
  function Table<K, V>(rows: seq<(K, V)>): map<K, V> {
    if rows == [] then map[] else Table(rows[..|rows| - 1])[rows[|rows| - 1].0 := rows[|rows| - 1].1]
  }

  lemma TableNext<K, V>(rows: seq<(K, V)>, row: (K, V))
    ensures Table(rows + [row]) == Table(rows)[row.0 := row.1]
  {
    assert (rows + [row])[..|rows|] == rows;
  }

  /** Rows that are true of a map and mention every key rebuild it, in any order and multiplicity. */
  lemma {:induction false} TableRebuilds<K(!new), V>(rows: seq<(K, V)>, m: map<K, V>)
    requires forall i :: 0 <= i < |rows| ==> rows[i].0 in m && m[rows[i].0] == rows[i].1
    requires forall k :: k in m ==> exists i :: 0 <= i < |rows| && rows[i].0 == k
    ensures Table(rows) == m
  {
    TableKeys(rows);
    forall k | k in Table(rows) ensures k in m && Table(rows)[k] == m[k] {
      var i :| 0 <= i < |rows| && rows[i].0 == k && rows[i].1 == Table(rows)[k];
    }
  }

  lemma {:induction false} TableKeys<K(!new), V>(rows: seq<(K, V)>)
    ensures forall k :: k in Table(rows) ==>
              exists i :: 0 <= i < |rows| && rows[i].0 == k && rows[i].1 == Table(rows)[k]
    ensures forall i :: 0 <= i < |rows| ==> rows[i].0 in Table(rows)
  {
    if rows != [] {
      var front, row := rows[..|rows| - 1], rows[|rows| - 1];
      TableKeys(front);
      forall k | k in Table(rows) ensures exists i :: 0 <= i < |rows| && rows[i].0 == k && rows[i].1 == Table(rows)[k] {
        if k == row.0 {
          assert rows[|rows| - 1].0 == k;
        } else {
          var i :| 0 <= i < |front| && front[i].0 == k && front[i].1 == Table(front)[k];
          assert rows[i] == front[i];
        }
      }
    }
  }

  /** What Restore makes of a stored contact. */
  function Reloaded(p: Peer): Peer { p.(contact := Backfilled(p.contact)) }

  function ContactRow(p: Peer): (Id, Peer) { (p.contact.id, Reloaded(p)) }

  function HostRow(p: Peer): (string, Peer) { (p.host, Reloaded(p)) }

  function TransferEntry(r: TransferRow): (Id, TransferRow) { (r.id, r) }

  datatype Channel = Channel(host: string, seen: seq<Id>, lastSeq: nat, replies: map<Id, Envelope>)

  function ChannelRow(c: Channel): (string, Inbound) { (c.host, Inbound((set x | x in c.seen), c.lastSeq, c.replies)) }

  function Rows<A, B>(f: A -> B, xs: seq<A>): (r: seq<B>)
    ensures |r| == |xs| && forall i :: 0 <= i < |xs| ==> r[i] == f(xs[i])
  {
    seq(|xs|, i requires 0 <= i < |xs| => f(xs[i]))
  }

  function Snapshotted(t: Tables, w: Walk, spell: map<string, seq<Id>>): Snapshot
    requires Walks(w, t) && Spells(spell, t)
  {
    Snapshot(
      seq(|w.contacts|, i requires 0 <= i < |w.contacts| => t.contacts[w.contacts[i]]),
      seq(|w.transfers|, i requires 0 <= i < |w.transfers| => t.transfers[w.transfers[i]]),
      t.outSeq,
      seq(|w.hosts|, i requires 0 <= i < |w.hosts| =>
            Channel(w.hosts[i], spell[w.hosts[i]], t.inbound[w.hosts[i]].lastSeq, t.inbound[w.hosts[i]].replies)),
      t.outbox)
  }

  function Rebuilt(s: Snapshot): Tables {
    Tables(Table(Rows(ContactRow, s.contacts)), Table(Rows(HostRow, s.contacts)),
           Table(Rows(TransferEntry, s.transfers)),
           s.outSeq, Table(Rows(ChannelRow, s.inbound)), s.outbox, map[])
  }

  lemma ContactsBack(t: Tables, w: Walk, spell: map<string, seq<Id>>)
    requires Keyed(t) && Walks(w, t) && Spells(spell, t)
    ensures Rebuilt(Snapshotted(t, w, spell)).contacts == map id | id in t.contacts :: Reloaded(t.contacts[id])
  {
    hide RecordRoot;
    var list := Snapshotted(t, w, spell).contacts;
    forall id | id in t.contacts ensures exists i :: 0 <= i < |list| && Rows(ContactRow, list)[i].0 == id {
      var i :| 0 <= i < |w.contacts| && w.contacts[i] == id;
      assert Rows(ContactRow, list)[i].0 == id;
    }
    TableRebuilds(Rows(ContactRow, list), map id | id in t.contacts :: Reloaded(t.contacts[id]));
  }

  lemma IndexBack(t: Tables, w: Walk, spell: map<string, seq<Id>>)
    requires Indexed(t) && Walks(w, t) && Spells(spell, t)
    ensures Rebuilt(Snapshotted(t, w, spell)).contactByHost ==
            map h | h in t.contactByHost :: Reloaded(t.contactByHost[h])
  {
    hide RecordRoot;
    var list := Snapshotted(t, w, spell).contacts;
    forall h | h in t.contactByHost ensures exists i :: 0 <= i < |list| && Rows(HostRow, list)[i].0 == h {
      var i :| 0 <= i < |w.contacts| && w.contacts[i] == t.contactByHost[h].contact.id;
      assert Rows(HostRow, list)[i].0 == h;
    }
    forall i | 0 <= i < |list| ensures list[i].host in t.contactByHost && t.contactByHost[list[i].host] == list[i] {
      assert w.contacts[i] in t.contacts;
    }
    TableRebuilds(Rows(HostRow, list), map h | h in t.contactByHost :: Reloaded(t.contactByHost[h]));
  }

  lemma TransfersBack(t: Tables, w: Walk, spell: map<string, seq<Id>>)
    requires Keyed(t) && Walks(w, t) && Spells(spell, t)
    ensures Rebuilt(Snapshotted(t, w, spell)).transfers == t.transfers
  {
    var list := Snapshotted(t, w, spell).transfers;
    forall id | id in t.transfers ensures exists i :: 0 <= i < |list| && Rows(TransferEntry, list)[i].0 == id {
      var i :| 0 <= i < |w.transfers| && w.transfers[i] == id;
      assert Rows(TransferEntry, list)[i].0 == id;
    }
    TableRebuilds(Rows(TransferEntry, list), t.transfers);
  }

  lemma ChannelsBack(t: Tables, w: Walk, spell: map<string, seq<Id>>)
    requires Walks(w, t) && Spells(spell, t)
    ensures Rebuilt(Snapshotted(t, w, spell)).inbound == t.inbound
  {
    var list := Snapshotted(t, w, spell).inbound;
    forall h | h in t.inbound ensures exists i :: 0 <= i < |list| && Rows(ChannelRow, list)[i].0 == h {
      var i :| 0 <= i < |w.hosts| && w.hosts[i] == h;
      assert Rows(ChannelRow, list)[i].0 == h;
    }
    forall i | 0 <= i < |list| ensures ChannelRow(list[i]).1 == t.inbound[w.hosts[i]] {
      assert (set x | x in spell[w.hosts[i]]) == t.inbound[w.hosts[i]].seen;
    }
    TableRebuilds(Rows(ChannelRow, list), t.inbound);
  }

  /** Restoring a snapshot brings back every table, whatever orders the maps were walked in,
      except that the push cursors are forgotten and a contact without a root gets one. */
  lemma RestoreBringsBack(t: Tables, w: Walk, spell: map<string, seq<Id>>)
    requires Keyed(t) && Indexed(t) && Walks(w, t) && Spells(spell, t)
    ensures Rebuilt(Snapshotted(t, w, spell)) ==
            t.(contacts := map id | id in t.contacts :: Reloaded(t.contacts[id]),
               contactByHost := map h | h in t.contactByHost :: Reloaded(t.contactByHost[h]),
               pushed := map[])
    ensures Keyed(Rebuilt(Snapshotted(t, w, spell))) && Indexed(Rebuilt(Snapshotted(t, w, spell)))
  {
    hide Snapshotted, Walks, Spells, Keyed, Indexed, RecordRoot;
    BackfillKeepsIndex(t);
    ContactsBack(t, w, spell);
    IndexBack(t, w, spell);
    TransfersBack(t, w, spell);
    ChannelsBack(t, w, spell);
    SameTables(t, w, spell);
  }

  lemma BackfillKeepsIndex(t: Tables)
    requires Keyed(t) && Indexed(t)
    ensures var t' := t.(contacts := map id | id in t.contacts :: Reloaded(t.contacts[id]),
                         contactByHost := map h | h in t.contactByHost :: Reloaded(t.contactByHost[h]),
                         pushed := map[]);
            Keyed(t') && Indexed(t')
  {
    forall p: Peer ensures Reloaded(p).host == p.host && Reloaded(p).contact.id == p.contact.id {
      SameIdentity(p);
    }
    hide Reloaded;
  }

  lemma SameIdentity(p: Peer)
    ensures Reloaded(p).host == p.host && Reloaded(p).contact.id == p.contact.id
  {
  }

  lemma SameTables(t: Tables, w: Walk, spell: map<string, seq<Id>>)
    requires Walks(w, t) && Spells(spell, t)
    ensures Snapshotted(t, w, spell).outSeq == t.outSeq && Snapshotted(t, w, spell).outbox == t.outbox
  {
  }

  /** Of the contacts a node can have, restoring changes exactly those still pending that were
      never restored before. */
  lemma BackfillsPending(p: Peer)
    requires Rooted(p.contact)
    ensures Reloaded(p) != p <==> p.contact.history == [] && p.contact.roots == []
  {
  }

  // ----- a node's life -----

  const EMPTY_TABLES := Tables(map[], map[], map[], map[], map[], map[], map[])

  /** What happens to the tables: a contact is entered, a contact changes, a transfer is written,
      the channels move, or the node starts again from a snapshot written in some order. */
  datatype Edit =
    | Entering(peer: Peer)
    | Touching(id: Id, contact: Contact)
    | Writing(row: TransferRow)
    | Moving(outSeq: map<string, nat>, inbound: map<string, Inbound>, outbox: map<string, seq<Envelope>>,
             pushed: map<string, int>)
    | Reloading(walk: Walk, spell: map<string, seq<Id>>)

  /** Entered contacts bring ids of their own unless they are refused. */
  ghost predicate Possible(t: Tables, e: Edit) {
    match e
    case Entering(p) => p.host in t.contactByHost || p.contact.id !in t.contacts
    case Touching(id, c) => id in t.contacts && c.id == id
    case Reloading(w, spell) => Walks(w, t) && Spells(spell, t)
    case _ => true
  }

  ghost function Edited(t: Tables, e: Edit): Tables
    requires Possible(t, e)
  {
    match e
    case Entering(p) => Enter(t, p)
    case Touching(id, c) => Touch(t, id, c)
    case Writing(row) => t.(transfers := t.transfers[row.id := row])
    case Moving(outSeq, inbound, outbox, pushed) =>
      t.(outSeq := outSeq, inbound := inbound, outbox := outbox, pushed := pushed)
    case Reloading(w, spell) => Rebuilt(Snapshotted(t, w, spell))
  }

  ghost predicate Follows(t: Tables, t': Tables) { exists e :: Possible(t, e) && t' == Edited(t, e) }

  /** The tables of a node from its first start, through any restarts. */
  ghost predicate IsLife(ts: seq<Tables>) {
    ts != [] && ts[0] == EMPTY_TABLES && forall k :: 0 < k < |ts| ==> Follows(ts[k - 1], ts[k])
  }

  /** Every host keeps its contact: the id it was entered with. */
  ghost predicate HostsKept(t: Tables, t': Tables) {
    forall h :: h in t.contactByHost ==>
      h in t'.contactByHost && t'.contactByHost[h].contact.id == t.contactByHost[h].contact.id
  }

  lemma EnterKeepsHosts(t: Tables, p: Peer)
    ensures HostsKept(t, Enter(t, p))
  {
  }

  lemma TouchKeepsHosts(t: Tables, id: Id, c: Contact)
    requires Keyed(t) && Indexed(t) && id in t.contacts && c.id == id
    ensures HostsKept(t, Touch(t, id, c))
  {
  }

  lemma ReloadKeepsHosts(t: Tables)
    ensures HostsKept(t, t.(contacts := map id | id in t.contacts :: Reloaded(t.contacts[id]),
                            contactByHost := map h | h in t.contactByHost :: Reloaded(t.contactByHost[h]),
                            pushed := map[]))
  {
    forall p: Peer ensures Reloaded(p).host == p.host && Reloaded(p).contact.id == p.contact.id {
      SameIdentity(p);
    }
    hide Reloaded;
  }

  lemma EditKeepsIndex(t: Tables, e: Edit)
    requires Keyed(t) && Indexed(t) && Possible(t, e)
    ensures Keyed(Edited(t, e)) && Indexed(Edited(t, e)) && HostsKept(t, Edited(t, e))
  {
    match e
    case Entering(p) =>
      hide Keyed, Indexed, HostsKept, Enter;
      EnterKeepsIndex(t, p);
      EnterKeepsHosts(t, p);
    case Touching(id, c) =>
      hide Keyed, Indexed, HostsKept, Touch;
      TouchKeepsIndex(t, id, c);
      TouchKeepsHosts(t, id, c);
    case Reloading(w, spell) =>
      hide Keyed, Indexed, HostsKept, Snapshotted, Rebuilt, Walks, Spells;
      RestoreBringsBack(t, w, spell);
      ReloadKeepsHosts(t);
    case _ =>
  }

  /** In every state of every life the index by host is exactly the contacts, one per host. */
  lemma {:induction false} IndexAlwaysExact(ts: seq<Tables>, k: nat)
    requires IsLife(ts) && k < |ts|
    ensures Keyed(ts[k]) && Indexed(ts[k])
  {
    hide Keyed, Indexed, Edited, Possible;
    if k == 0 {
      NothingIndexed();
    } else {
      IndexAlwaysExact(ts, k - 1);
      assert Follows(ts[k - 1], ts[k]);
      var e :| Possible(ts[k - 1], e) && ts[k] == Edited(ts[k - 1], e);
      EditKeepsIndex(ts[k - 1], e);
    }
  }

  lemma NothingIndexed()
    ensures Keyed(EMPTY_TABLES) && Indexed(EMPTY_TABLES)
  {
  }

  /** A host that has a contact keeps that contact through everything that follows. */
  lemma {:induction false} HostKeepsContact(ts: seq<Tables>, j: nat, k: nat)
    requires IsLife(ts) && j <= k < |ts|
    ensures HostsKept(ts[j], ts[k])
    decreases k
  {
    hide Keyed, Indexed, Edited, Possible;
    if j < k {
      HostKeepsContact(ts, j, k - 1);
      IndexAlwaysExact(ts, k - 1);
      assert Follows(ts[k - 1], ts[k]);
      var e :| Possible(ts[k - 1], e) && ts[k] == Edited(ts[k - 1], e);
      EditKeepsIndex(ts[k - 1], e);
    }
  }

  // ----- in place -----

  class Registry {
    var tables: Tables

    constructor ()
      ensures tables == EMPTY_TABLES
    {
      tables := EMPTY_TABLES;
    }

    method Add(p: Peer) returns (ok: bool)
      modifies this
      ensures ok == (p.host !in old(tables).contactByHost) && tables == Enter(old(tables), p)
    {
      if p.host in tables.contactByHost {
        return false;
      }
      tables := tables.(contacts := tables.contacts[p.contact.id := p]);
      tables := tables.(contactByHost := tables.contactByHost[p.host := p]);
      ok := true;
    }

    static method AsSet(ids: seq<Id>) returns (s: set<Id>)
      ensures s == set x | x in ids
    {
      s := {};
      for j := 0 to |ids|
        invariant s == set x | x in ids[..j]
      {
        s := s + {ids[j]};
      }
      assert ids[..|ids|] == ids;
    }

    /** Rebuild every table from its list, and the index by host beside the contacts. */
    method Restore(s: Snapshot)
      modifies this
      ensures tables == Rebuilt(s)
    {
      hide Reloaded, Table, Rows;
      tables := Tables(map[], map[], map[], s.outSeq, map[], s.outbox, map[]);
      NoRows(ContactRow, s.contacts);
      NoRows(HostRow, s.contacts);
      for i := 0 to |s.contacts|
        invariant tables == Tables(Table(Rows(ContactRow, s.contacts[..i])),
                                   Table(Rows(HostRow, s.contacts[..i])), map[],
                                   s.outSeq, map[], s.outbox, map[])
      {
        var p := Reloaded(s.contacts[i]);
        SameIdentity(s.contacts[i]);
        RowsNext(ContactRow, s.contacts, i);
        RowsNext(HostRow, s.contacts, i);
        tables := tables.(contacts := tables.contacts[p.contact.id := p],
                          contactByHost := tables.contactByHost[p.host := p]);
      }
      assert s.contacts[..|s.contacts|] == s.contacts;
      NoRows(TransferEntry, s.transfers);
      for i := 0 to |s.transfers|
        invariant tables == Tables(Table(Rows(ContactRow, s.contacts)), Table(Rows(HostRow, s.contacts)),
                                   Table(Rows(TransferEntry, s.transfers[..i])), s.outSeq, map[], s.outbox, map[])
      {
        RowsNext(TransferEntry, s.transfers, i);
        tables := tables.(transfers := tables.transfers[s.transfers[i].id := s.transfers[i]]);
      }
      assert s.transfers[..|s.transfers|] == s.transfers;
      NoRows(ChannelRow, s.inbound);
      for i := 0 to |s.inbound|
        invariant tables == Tables(Table(Rows(ContactRow, s.contacts)), Table(Rows(HostRow, s.contacts)),
                                   Table(Rows(TransferEntry, s.transfers)), s.outSeq,
                                   Table(Rows(ChannelRow, s.inbound[..i])), s.outbox, map[])
      {
        RowsNext(ChannelRow, s.inbound, i);
        var c := s.inbound[i];
        var ids := AsSet(c.seen);
        tables := tables.(inbound := tables.inbound[c.host := Inbound(ids, c.lastSeq, c.replies)]);
      }
      assert s.inbound[..|s.inbound|] == s.inbound;
    }
  }

  lemma NoRows<A, K, V>(f: A -> (K, V), xs: seq<A>)
    ensures Table(Rows(f, xs[..0])) == map[]
  {
  }

  lemma RowsNext<A, K, V>(f: A -> (K, V), xs: seq<A>, i: nat)
    requires i < |xs|
    ensures Table(Rows(f, xs[..i + 1])) == Table(Rows(f, xs[..i]))[f(xs[i]).0 := f(xs[i]).1]
  {
    assert Rows(f, xs[..i + 1]) == Rows(f, xs[..i]) + [f(xs[i])];
    TableNext(Rows(f, xs[..i]), f(xs[i]));
  }
}
