/** A snapshot kept as separate ledger records, chunks of the rest, and one versioned head.
    Writes may stop anywhere; what is read back is always one whole committed snapshot. */
module SplitStore {
  import opened Wrappers

  newtype byte = x: int | 0 <= x < 256

  type Blob = seq<byte>

  /** A snapshot taken apart: its ledger records, and everything else as one text. */
  datatype Snapshot = Snapshot(ledger: seq<Blob>, rest: Blob)

  const CHUNK_SIZE := 900_000
  const PUT_BATCH := 500
  const GET_BATCH := 1000

  // ----- chunks -----

  /** The text cut into pieces of at most size bytes. */
  function Cut(rest: Blob, size: nat): (chunks: seq<Blob>)
    requires size > 0
    ensures forall i :: 0 <= i < |chunks| ==> 0 < |chunks[i]| <= size
    decreases |rest|
  {
    if rest == [] then []
    else if |rest| <= size then [rest]
    else [rest[..size]] + Cut(rest[size..], size)
  }

  function Join(chunks: seq<Blob>): Blob {
    if chunks == [] then [] else chunks[0] + Join(chunks[1..])
  }

  lemma {:induction false} JoinCut(rest: Blob, size: nat)
    requires size > 0
    ensures Join(Cut(rest, size)) == rest
    decreases |rest|
  {
    if |rest| > size {
      JoinCut(rest[size..], size);
      assert Cut(rest, size)[1..] == Cut(rest[size..], size);
    } else if rest != [] {
      assert [rest][1..] == [];
      assert Join([rest]) == rest + Join([]);
    }
  }

  lemma {:induction false} JoinMore(chunks: seq<Blob>, b: Blob)
    ensures Join(chunks + [b]) == Join(chunks) + b
  {
    if chunks == [] {
      assert [b][1..] == [];
    } else {
      assert (chunks + [b])[1..] == chunks[1..] + [b];
      JoinMore(chunks[1..], b);
    }
  }

  /** Cutting one piece further, after k whole pieces. */
  lemma {:induction false} CutMore(rest: Blob, size: nat, k: nat)
    requires size > 0 && k * size < |rest|
    ensures var i := k * size;
            var end := if i + size <= |rest| then i + size else |rest|;
            Cut(rest[..end], size) == Cut(rest[..i], size) + [rest[i..end]]
    decreases k
  {
    hide Cut;
    var i := k * size;
    var end := if i + size <= |rest| then i + size else |rest|;
    if k == 0 {
      CutShort(rest[..0], size);
      CutShort(rest[..end], size);
      assert rest[..0] == [] && rest[0..end] == rest[..end];
    } else {
      assert (k - 1) * size == i - size;
      OneBack(k, size);
      var tail := rest[size..];
      CutMore(tail, size, k - 1);
      CutFront(rest[..end], size);
      assert rest[..end][size..] == tail[..end - size] && rest[..end][..size] == rest[..size];
      assert tail[i - size..end - size] == rest[i..end];
      if k == 1 {
        CutShort(rest[..i], size);
        CutShort(tail[..0], size);
        assert rest[..i] == rest[..size] && tail[..0] == [];
      } else {
        OneBack(k - 1, size);
        CutFront(rest[..i], size);
        assert rest[..i][size..] == tail[..i - size] && rest[..i][..size] == rest[..size];
      }
    }
  }

  lemma OneBack(k: nat, size: nat)
    requires k > 0
    ensures k * size >= size && (k > 1 && size > 0 ==> k * size > size)
  {
    assert k * size == (k - 1) * size + size;
    if k > 1 && size > 0 {
      assert (k - 1) * size == (k - 2) * size + size;
    }
  }

  lemma CutShort(rest: Blob, size: nat)
    requires size > 0 && |rest| <= size
    ensures Cut(rest, size) == if rest == [] then [] else [rest]
  {
  }

  lemma CutFront(rest: Blob, size: nat)
    requires size > 0 && |rest| > size
    ensures Cut(rest, size) == [rest[..size]] + Cut(rest[size..], size)
  {
  }

  // ----- the database -----

  datatype Head = Head(version: int, records: nat, chunks: nat)

  class Datastore {
    var head: Option<Head>
    var records: map<nat, Blob>
    var chunks: map<nat, Blob>

    constructor ()
      ensures Stores(None)
    {
      head, records, chunks := None, map[], map[];
    }

    /** What the database holds, as its head counts it. */
    ghost predicate Stores(s: Option<Snapshot>)
      reads this
    {
      match s
      case None => head.None?
      case Some(snap) =>
        && head.Some? && head.value.records == |snap.ledger| && head.value.chunks == |Cut(snap.rest, CHUNK_SIZE)|
        && (forall j :: 0 <= j < |snap.ledger| ==> j in records && records[j] == snap.ledger[j])
        && (forall i :: 0 <= i < |Cut(snap.rest, CHUNK_SIZE)| ==>
            i in chunks && chunks[i] == Cut(snap.rest, CHUNK_SIZE)[i])
    }

    function Version(): int
      reads this
    {
      if head.Some? then head.value.version else 0
    }
  }

  // ----- the store -----

  /** What may go wrong in one Save: how many batches complete, which records of the next batch
      are still written, and whether the transaction took effect and reported it. */
  datatype Fate = Applied | AppliedUnreported | NotApplied

  datatype Faults = Faults(batchesOk: nat, torn: set<nat>, fate: Fate)

  predicate Faultless(data: Snapshot, faults: Faults) { faults.fate.Applied? && faults.batchesOk >= |data.ledger| }

  /** How many batches n records take. */
  function Batches(n: int): nat
    decreases if n <= 0 then 0 else n
  {
    if n <= 0 then 0 else 1 + Batches(n - PUT_BATCH)
  }

  lemma BatchesFit(n: nat)
    ensures Batches(n) <= n
    decreases n
  {
    if n > PUT_BATCH {
      BatchesFit(n - PUT_BATCH);
    }
  }

  /** Every batch beyond the records already known completes, and the transaction is applied. */
  predicate Lands(data: Snapshot, faults: Faults, known: nat) {
    known <= |data.ledger| && faults.batchesOk >= Batches(|data.ledger| - known) && !faults.fate.NotApplied?
  }

  datatype SaveResult = Saved | Shrank | Conflict | IoError

  class DSStore {
    const db: Datastore
    var version: int
    var records: nat

    constructor (db: Datastore)
      ensures this.db == db && version == 0 && records == 0
    {
      this.db, version, records := db, 0, 0;
    }

    /** Read the counted records and chunks, in batches, and put the snapshot together. */
    method Load(ghost stored: Option<Snapshot>) returns (snapshot: Option<Snapshot>)
      requires db.Stores(stored)
      modifies this
      ensures snapshot == stored
      ensures version == db.Version() && records == if stored.Some? then |stored.value.ledger| else 0
    {
      if db.head.None? {
        version, records := 0, 0;
        return None;
      }
      var st := db.head.value;
      var rest := ReadBlobs(db.chunks, st.chunks, Cut(stored.value.rest, CHUNK_SIZE));
      var recs := ReadBlobs(db.records, st.records, stored.value.ledger);
      JoinCut(stored.value.rest, CHUNK_SIZE);
      var text := Glue(rest);
      version, records := st.version, st.records;
      snapshot := Some(Snapshot(recs, text));
    }

    static method Glue(chunks: seq<Blob>) returns (text: Blob)
      ensures text == Join(chunks)
    {
      text := [];
      for i := 0 to |chunks|
        invariant text == Join(chunks[..i])
      {
        assert chunks[..i + 1] == chunks[..i] + [chunks[i]];
        JoinMore(chunks[..i], chunks[i]);
        text := text + chunks[i];
      }
      assert chunks[..|chunks|] == chunks;
    }

    static method ReadBlobs(from: map<nat, Blob>, n: nat, ghost want: seq<Blob>) returns (out: seq<Blob>)
      requires n == |want| && forall j :: 0 <= j < n ==> j in from && from[j] == want[j]
      ensures out == want
    {
      out := [];
      var i := 0;
      while i < n
        invariant i <= n + GET_BATCH && out == if i <= n then want[..i] else want
      {
        var end := if i + GET_BATCH < n then i + GET_BATCH else n;
        for j := i to end
          invariant out == want[..j]
        {
          out := out + [from[j]];
        }
        i := i + GET_BATCH;
      }
    }

    /** Store a snapshot: first the new records, then head and chunks in one transaction that only
        succeeds on the version this store saw last.  Whatever happens, the database holds one
        whole snapshot: the new one if the transaction took effect, and otherwise the old one. */
    method Save(data: Snapshot, faults: Faults, ghost stored: Option<Snapshot>)
      returns (r: SaveResult, ghost took: bool)
      requires db.Stores(stored)
      requires records <= |data.ledger| ==>
                 match stored
                 case None => records == 0
                 case Some(was) => was.ledger <= data.ledger && records <= |was.ledger|
      modifies this, db
      ensures took ==> db.Stores(Some(data)) && db.Version() == old(db.Version()) + 1
      ensures !took ==> db.Stores(stored) && db.Version() == old(db.Version())
      ensures r.Saved? ==> took && version == db.Version() && records == |data.ledger|
      ensures !r.Saved? ==> version == old(version) && records == old(records)
      ensures r.Shrank? <==> |data.ledger| < old(records)
      ensures took <==> Lands(data, faults, old(records)) && old(version) == old(db.Version())
      ensures r.Saved? <==> took && faults.fate.Applied?
      ensures r.Conflict? <==> Lands(data, faults, old(records)) && old(version) != old(db.Version())
    {
      took := false;
      var recs := data.ledger;
      if |recs| < records {
        return Shrank, false;
      }
      var complete := PutRecords(recs, faults, stored);
      if !complete {
        return IoError, false;
      }
      var pieces := CutUp(data.rest);
      if faults.fate.NotApplied? {
        return IoError, false;
      }
      if db.Version() != version {
        return Conflict, false;
      }
      Commit(data, pieces);
      took := true;
      if faults.fate.AppliedUnreported? {
        return IoError, true;
      }
      version, records := db.Version(), |recs|;
      r := Saved;
    }

    /** One batch, or what is still written of one that fails. */
    method PutBatch(recs: seq<Blob>, i: nat, end: nat, stops: bool, torn: set<nat>, ghost stored: Option<Snapshot>)
      requires db.Stores(stored) && i <= end <= |recs|
      requires stored.Some? ==> stored.value.ledger <= recs
      requires forall k :: 0 <= k < i ==> k in db.records && db.records[k] == recs[k]
      modifies db`records
      ensures db.Stores(stored)
      ensures !stops ==> forall k :: 0 <= k < end ==> k in db.records && db.records[k] == recs[k]
    {
      for j := i to end
        invariant db.Stores(stored)
        invariant forall k :: 0 <= k < i ==> k in db.records && db.records[k] == recs[k]
        invariant !stops ==> forall k :: i <= k < j ==> k in db.records && db.records[k] == recs[k]
      {
        if !stops || j in torn {
          db.records := db.records[j := recs[j]];
        }
      }
    }

    /** New records go in before the head counts them, batch by batch, and may stop anywhere. */
    method PutRecords(recs: seq<Blob>, faults: Faults, ghost stored: Option<Snapshot>) returns (complete: bool)
      requires db.Stores(stored) && records <= |recs|
      requires match stored
               case None => records == 0
               case Some(was) => was.ledger <= recs && records <= |was.ledger|
      modifies db`records
      ensures db.Stores(stored)
      ensures complete <==> faults.batchesOk >= Batches(|recs| - records)
      ensures complete ==> forall j :: 0 <= j < |recs| ==> j in db.records && db.records[j] == recs[j]
    {
      var i, batch := records, 0;
      while i < |recs|
        invariant records <= i <= |recs| + PUT_BATCH && db.Stores(stored)
        invariant batch + Batches(|recs| - i) == Batches(|recs| - records) && batch <= faults.batchesOk
        invariant forall j :: 0 <= j < i && j < |recs| ==> j in db.records && db.records[j] == recs[j]
      {
        var end := if i + PUT_BATCH < |recs| then i + PUT_BATCH else |recs|;
        var stops := batch >= faults.batchesOk;
        PutBatch(recs, i, end, stops, faults.torn, stored);
        if stops {
          return false;
        }
        i, batch := i + PUT_BATCH, batch + 1;
      }
      complete := true;
    }

    static method CutUp(rest: Blob) returns (pieces: seq<Blob>)
      ensures pieces == Cut(rest, CHUNK_SIZE)
    {
      pieces := [];
      var i := 0;
      ghost var k := 0;
      while i < |rest|
        invariant i == k * CHUNK_SIZE && pieces == Cut(rest[..if i <= |rest| then i else |rest|], CHUNK_SIZE)
        decreases |rest| - i
      {
        var end := if i + CHUNK_SIZE < |rest| then i + CHUNK_SIZE else |rest|;
        CutMore(rest, CHUNK_SIZE, k);
        k := k + 1;
        pieces := pieces + [rest[i..end]];
        i := i + CHUNK_SIZE;
      }
      assert rest[..|rest|] == rest;
    }

    /** The transaction: chunks, deletion of chunks no longer needed, and the head, all or nothing. */
    method Commit(data: Snapshot, pieces: seq<Blob>)
      requires pieces == Cut(data.rest, CHUNK_SIZE)
      requires forall j :: 0 <= j < |data.ledger| ==> j in db.records && db.records[j] == data.ledger[j]
      modifies db`chunks, db`head
      ensures db.Stores(Some(data)) && db.Version() == old(db.Version()) + 1
    {
      var before := if db.head.Some? then db.head.value.chunks else 0;
      for i := 0 to |pieces|
        invariant forall k :: 0 <= k < i ==> k in db.chunks && db.chunks[k] == pieces[k]
        invariant db.head == old(db.head)
      {
        db.chunks := db.chunks[i := pieces[i]];
      }
      var i := |pieces|;
      while i < before
        invariant db.head == old(db.head)
        invariant |pieces| <= i && forall k :: 0 <= k < |pieces| ==> k in db.chunks && db.chunks[k] == pieces[k]
      {
        db.chunks := db.chunks - {i};
        i := i + 1;
      }
      db.head := Some(Head(db.Version() + 1, |data.ledger|, |pieces|));
    }
  }

  // ----- a writer's life -----

  datatype Attempt = Attempt(data: Snapshot, faults: Faults)

  /** The only live writer: every snapshot it tries to store extends the ledger of those before. */
  ghost predicate OnlyExtends(stored: Option<Snapshot>, plan: seq<Attempt>) {
    && (forall i :: 0 <= i < |plan| && stored.Some? ==> stored.value.ledger <= plan[i].data.ledger)
    && forall i, j :: 0 <= i < j < |plan| ==> plan[i].data.ledger <= plan[j].data.ledger
  }

  /** The index of the last save whose transaction took effect, -1 if none did. */
  function LastEffect(took: seq<bool>): (last: int)
    ensures -1 <= last < |took|
    ensures last >= 0 ==> took[last]
    ensures forall i :: last < i < |took| ==> !took[i]
  {
    if took == [] then -1
    else if took[|took| - 1] then |took| - 1
    else LastEffect(took[..|took| - 1])
  }

  /** What the database holds after saves that took effect or not. */
  function StoredAfter(stored: Option<Snapshot>, plan: seq<Attempt>, took: seq<bool>): Option<Snapshot>
    requires |took| <= |plan|
  {
    var last := LastEffect(took);
    if last == -1 then stored else Some(plan[last].data)
  }

  function Count(took: seq<bool>): nat {
    if took == [] then 0 else Count(took[..|took| - 1]) + if took[|took| - 1] then 1 else 0
  }

  lemma NextEffect(took: seq<bool>, b: bool)
    ensures LastEffect(took + [b]) == if b then |took| else LastEffect(took)
    ensures Count(took + [b]) == Count(took) + if b then 1 else 0
  {
    assert (took + [b])[..|took|] == took;
  }

  function Known(stored: Option<Snapshot>): nat { if stored.Some? then |stored.value.ledger| else 0 }

  /** Some save took effect without being reported as done. */
  ghost predicate Unnoticed(results: seq<SaveResult>, took: seq<bool>)
    requires |results| == |took|
  {
    exists i :: 0 <= i < |took| && took[i] && !results[i].Saved?
  }

  /** A save takes effect exactly if nothing was missed before and its writes land, and is
      reported exactly if it took effect and the report arrived. */
  ghost predicate Tells(stored: Option<Snapshot>, plan: seq<Attempt>, results: seq<SaveResult>, took: seq<bool>, i: nat)
    requires |results| == |took| <= |plan| && i < |took|
  {
    var a := plan[i];
    && (took[i] <==> !Unnoticed(results[..i], took[..i])
                     && Lands(a.data, a.faults, Known(StoredAfter(stored, plan, took[..i]))))
    && (results[i].Saved? <==> took[i] && a.faults.fate.Applied?)
  }

  ghost predicate AllTell(stored: Option<Snapshot>, plan: seq<Attempt>, results: seq<SaveResult>, took: seq<bool>) {
    && |results| == |took| <= |plan|
    && forall i :: 0 <= i < |took| ==> Tells(stored, plan, results, took, i)
  }

  ghost predicate AllFaultless(plan: seq<Attempt>) {
    forall i :: 0 <= i < |plan| ==> Faultless(plan[i].data, plan[i].faults)
  }

  ghost predicate AllSaved(results: seq<SaveResult>) { forall i :: 0 <= i < |results| ==> results[i].Saved? }

  lemma NextTells(stored: Option<Snapshot>, plan: seq<Attempt>, results: seq<SaveResult>, took: seq<bool>,
                  r: SaveResult, t: bool)
    requires AllTell(stored, plan, results, took) && |took| < |plan|
    requires var a := plan[|took|];
             && (t <==> !Unnoticed(results, took) && Lands(a.data, a.faults, Known(StoredAfter(stored, plan, took))))
             && (r.Saved? <==> t && a.faults.fate.Applied?)
    ensures AllTell(stored, plan, results + [r], took + [t])
  {
    hide Unnoticed, Lands, StoredAfter;
    var rs, ts := results + [r], took + [t];
    assert rs[..|took|] == results && ts[..|took|] == took;
    forall i | 0 <= i < |ts| ensures Tells(stored, plan, rs, ts, i) {
      if i < |took| {
        assert rs[..i] == results[..i] && ts[..i] == took[..i];
        assert Tells(stored, plan, results, took, i);
      }
    }
  }

  lemma NextUnnoticed(results: seq<SaveResult>, took: seq<bool>, r: SaveResult, t: bool)
    requires |results| == |took|
    ensures Unnoticed(results + [r], took + [t]) <==> Unnoticed(results, took) || (t && !r.Saved?)
    ensures AllSaved(results) && r.Saved? ==> AllSaved(results + [r])
  {
    var rs, ts := results + [r], took + [t];
    if Unnoticed(results, took) {
      var i :| 0 <= i < |took| && took[i] && !results[i].Saved?;
      assert ts[i] && !rs[i].Saved?;
    }
    if t && !r.Saved? {
      assert ts[|took|] && !rs[|took|].Saved?;
    }
  }

  lemma ExtendsNext(stored: Option<Snapshot>, plan: seq<Attempt>, took: seq<bool>)
    requires OnlyExtends(stored, plan) && |took| < |plan|
    ensures var s := StoredAfter(stored, plan, took); s.Some? ==> s.value.ledger <= plan[|took|].data.ledger
  {
  }

  lemma NothingYet(stored: Option<Snapshot>, plan: seq<Attempt>)
    ensures AllTell(stored, plan, [], []) && !Unnoticed([], []) && AllSaved([])
    ensures LastEffect([]) == -1 && Count([]) == 0
  {
  }

  /** Whether the writer's view of the database is current, or a lost report left it behind. */
  ghost predicate Follows(version: int, records: nat, now: int, stored: Option<Snapshot>, missed: bool) {
    if missed then version < now && records <= Known(stored) else version == now && records == Known(stored)
  }

  lemma JustLoaded(version: int, records: nat, stored: Option<Snapshot>)
    requires records == if stored.Some? then |stored.value.ledger| else 0
    ensures Follows(version, records, version, stored, false)
  {
  }

  method SaveNext(writer: DSStore, a: Attempt, ghost stored: Option<Snapshot>, ghost missed: bool)
    returns (r: SaveResult, ghost took: bool)
    requires writer.db.Stores(stored) && Follows(writer.version, writer.records, writer.db.Version(), stored, missed)
    requires stored.Some? ==> stored.value.ledger <= a.data.ledger
    modifies writer, writer.db
    ensures took <==> !missed && Lands(a.data, a.faults, Known(stored))
    ensures r.Saved? <==> took && a.faults.fate.Applied?
    ensures var s := if took then Some(a.data) else stored;
            && writer.db.Stores(s)
            && Follows(writer.version, writer.records, writer.db.Version(), s, missed || (took && !r.Saved?))
    ensures writer.db.Version() == old(writer.db.Version()) + if took then 1 else 0
  {
    hide Datastore.Stores, Batches;
    r, took := writer.Save(a.data, a.faults, stored);
  }

  lemma FaultlessLands(stored: Option<Snapshot>, a: Attempt)
    requires Faultless(a.data, a.faults) && (stored.Some? ==> stored.value.ledger <= a.data.ledger)
    ensures Lands(a.data, a.faults, Known(stored)) && a.faults.fate.Applied?
  {
    BatchesFit(|a.data.ledger| - Known(stored));
  }

  /** A writer loads, saves any number of times with any faults, and dies; whoever loads next
      reads exactly the snapshot whose transaction took effect last.  took tells, save by save,
      whether it did: exactly those whose writes land, up to the first whose report is lost, since
      that one leaves the writer's version behind for good. */
  method LoadAfter(db: Datastore, plan: seq<Attempt>, ghost stored: Option<Snapshot>)
    returns (read: Option<Snapshot>, results: seq<SaveResult>, ghost took: seq<bool>)
    requires db.Stores(stored) && OnlyExtends(stored, plan)
    modifies db
    ensures |results| == |plan| && |took| == |plan|
    ensures read == StoredAfter(stored, plan, took) && db.Stores(read)
    ensures db.Version() == old(db.Version()) + Count(took)
    ensures AllTell(stored, plan, results, took)
    ensures AllFaultless(plan) ==> AllSaved(results)
  {
    hide Datastore.Stores, OnlyExtends, AllTell, Unnoticed, AllSaved, LastEffect, Count, Lands, Known, Follows,
      Faultless;
    var writer := new DSStore(db);
    var first := writer.Load(stored);
    results, took := [], [];
    NothingYet(stored, plan);
    JustLoaded(writer.version, writer.records, stored);
    for i := 0 to |plan|
      invariant |results| == |took| == i && AllTell(stored, plan, results, took)
      invariant writer.db == db && fresh(writer) && db.Stores(StoredAfter(stored, plan, took))
      invariant db.Version() == old(db.Version()) + Count(took)
      invariant Follows(writer.version, writer.records, db.Version(), StoredAfter(stored, plan, took),
                        Unnoticed(results, took))
      invariant AllFaultless(plan) ==> !Unnoticed(results, took) && AllSaved(results)
    {
      ExtendsNext(stored, plan, took);
      var r; ghost var t;
      r, t := SaveNext(writer, plan[i], StoredAfter(stored, plan, took), Unnoticed(results, took));
      NextEffect(took, t);
      NextTells(stored, plan, results, took, r, t);
      NextUnnoticed(results, took, r, t);
      if AllFaultless(plan) {
        FaultlessLands(StoredAfter(stored, plan, took), plan[i]);
      }
      results, took := results + [r], took + [t];
    }
    var reader := new DSStore(db);
    read := reader.Load(StoredAfter(stored, plan, took));
  }
}
