/** Ordered delivery of one channel: an outbox, a push cursor that may be forgotten, pulls of
    possibly old outboxes, lost acknowledgements, and pruning by acknowledged position. */
module Delivery {
  import opened Wrappers
  import opened ChannelHistory
  import opened Messages

  // ----- the sender's outbox -----

  /** The outbox holds every envelope from some point on, in order, up to the last one written. */
  predicate Contiguous(outbox: seq<Envelope>, outSeq: int) {
    forall i :: 0 <= i < |outbox| ==> outbox[i].seqNo == outSeq - |outbox| + 1 + i
  }

  /** The first envelope past the push cursor. */
  function FirstAfter(outbox: seq<Envelope>, pushed: int): Option<Envelope> {
    if outbox == [] then None
    else if outbox[0].seqNo > pushed then Some(outbox[0])
    else FirstAfter(outbox[1..], pushed)
  }

  /** What pruning up to a position keeps. */
  function Unacknowledged(outbox: seq<Envelope>, upto: int): seq<Envelope> {
    if outbox == [] then []
    else (if outbox[0].seqNo <= upto then [] else [outbox[0]]) + Unacknowledged(outbox[1..], upto)
  }

  lemma {:induction false} FirstAfterAt(outbox: seq<Envelope>, pushed: int, i: nat)
    requires i <= |outbox| && forall k :: 0 <= k < i ==> outbox[k].seqNo <= pushed
    ensures i < |outbox| && outbox[i].seqNo > pushed ==> FirstAfter(outbox, pushed) == Some(outbox[i])
    ensures i == |outbox| ==> FirstAfter(outbox, pushed) == None
  {
    if i > 0 {
      FirstAfterAt(outbox[1..], pushed, i - 1);
    }
  }

  /** Where the cursor stood before attempt i. */
  function CursorAt(cursor: int, tried: seq<Envelope>, i: nat): int
    requires i <= |tried|
  {
    if i == 0 then cursor else tried[i - 1].seqNo
  }

  /** Every attempt was the first envelope past the one before it. */
  ghost predicate InTurn(outbox: seq<Envelope>, cursor: int, tried: seq<Envelope>) {
    forall i :: 0 <= i < |tried| ==> FirstAfter(outbox, CursorAt(cursor, tried, i)) == Some(tried[i])
  }

  lemma InTurnNone(outbox: seq<Envelope>, cursor: int)
    ensures InTurn(outbox, cursor, [])
  {
  }

  lemma InTurnNext(outbox: seq<Envelope>, cursor: int, tried: seq<Envelope>, e: Envelope)
    requires InTurn(outbox, cursor, tried) && FirstAfter(outbox, CursorAt(cursor, tried, |tried|)) == Some(e)
    ensures InTurn(outbox, cursor, tried + [e])
  {
    hide FirstAfter;
    var more := tried + [e];
    forall i | 0 <= i < |more| ensures FirstAfter(outbox, CursorAt(cursor, more, i)) == Some(more[i]) {
      assert CursorAt(cursor, more, i) == CursorAt(cursor, tried, i);
    }
  }

  lemma {:induction false} FirstAfterPasses(outbox: seq<Envelope>, pushed: int)
    ensures match FirstAfter(outbox, pushed) case Some(e) => e.seqNo > pushed && e in outbox case None => true
  {
    if outbox != [] {
      FirstAfterPasses(outbox[1..], pushed);
    }
  }

  lemma {:induction false} UnacknowledgedMore(front: seq<Envelope>, e: Envelope, upto: int)
    ensures Unacknowledged(front + [e], upto) == Unacknowledged(front, upto) + (if e.seqNo <= upto then [] else [e])
  {
    if front != [] {
      UnacknowledgedMore(front[1..], e, upto);
      assert (front + [e])[1..] == front[1..] + [e];
    }
  }

  lemma {:induction false} FirstAfterIs(outbox: seq<Envelope>, outSeq: int, pushed: int)
    requires Contiguous(outbox, outSeq)
    ensures var lo := outSeq - |outbox|;
            FirstAfter(outbox, pushed) ==
            if pushed >= outSeq || outbox == [] then None
            else if pushed <= lo then Some(outbox[0]) else Some(outbox[pushed - lo])
  {
    if outbox != [] && outbox[0].seqNo <= pushed {
      FirstAfterIs(outbox[1..], outSeq, pushed);
    }
  }

  /** Pruning a contiguous outbox cuts a prefix: what is left is contiguous again. */
  lemma {:induction false} PruneIsCut(outbox: seq<Envelope>, outSeq: int, upto: int)
    requires Contiguous(outbox, outSeq)
    ensures var lo := outSeq - |outbox|;
            Unacknowledged(outbox, upto) ==
            if upto <= lo then outbox else if upto >= outSeq then [] else outbox[upto - lo..]
    ensures Contiguous(Unacknowledged(outbox, upto), outSeq)
  {
    if outbox != [] {
      PruneIsCut(outbox[1..], outSeq, upto);
      assert outbox == [outbox[0]] + outbox[1..];
    }
  }

  // ----- the channel -----

  datatype Channel = Channel(
    written: seq<Envelope>,   // everything ever sent, oldest first
    outbox: seq<Envelope>,
    pushed: nat,
    flying: set<Envelope>,    // pushes that may still arrive, any number of times
    pulls: seq<seq<Envelope>>, // fetched outboxes, as far as they are not processed yet
    lastSeq: nat,
    seen: set<Id>,
    handled: seq<Envelope>,   // what the receiver's handlers were given
    posted: seq<nat>          // the positions the receiver ever published
  )

  /** The receiver's gate for an envelope of acceptable age. */
  function Gate(ch: Channel, e: Envelope): Verdict {
    Validate(e, ch.seen, ch.lastSeq, e.created)
  }

  function Take(ch: Channel, e: Envelope): Channel {
    if Gate(ch, e).Ok? then
      ch.(handled := ch.handled + [e], seen := ch.seen + {e.id},
          lastSeq := if e.seqNo > ch.lastSeq then e.seqNo else ch.lastSeq)
    else ch
  }

  datatype Event =
    | Write(e: Envelope)
    | Push
    | Arrive(e: Envelope)
    | Acknowledged(e: Envelope)
    | ForgetCursor
    | Fetch
    | PullNext(k: nat)
    | PostPosition
    | Prune(j: nat)

  predicate Possible(ch: Channel, ev: Event) {
    match ev
    case Write(e) => e.seqNo == |ch.written| + 1 && forall i :: 0 <= i < |ch.written| ==> ch.written[i].id != e.id
    case Arrive(e) => e in ch.flying
    // success is reported for a processed envelope and for a known duplicate
    case Acknowledged(e) => e in ch.flying && e.id in ch.seen
    case PullNext(k) => k < |ch.pulls| && ch.pulls[k] != []
    case Prune(j) => j < |ch.posted|
    case _ => true
  }

  function Happens(ch: Channel, ev: Event): Channel
    requires Possible(ch, ev)
  {
    match ev
    case Write(e) => ch.(written := ch.written + [e], outbox := ch.outbox + [e])
    case Push =>
      (match FirstAfter(ch.outbox, ch.pushed)
       case None => ch
       case Some(e) => ch.(flying := ch.flying + {e}))
    case Arrive(e) => Take(ch, e)
    case Acknowledged(e) => if e.seqNo > ch.pushed then ch.(pushed := e.seqNo) else ch
    case ForgetCursor => ch.(pushed := 0)
    case Fetch => ch.(pulls := ch.pulls + [ch.outbox])
    case PullNext(k) => Take(ch, ch.pulls[k][0]).(pulls := ch.pulls[k := ch.pulls[k][1..]])
    case PostPosition => ch.(posted := ch.posted + [ch.lastSeq])
    case Prune(j) => ch.(outbox := Unacknowledged(ch.outbox, ch.posted[j]))
  }

  const FRESH := Channel([], [], 0, {}, [], 0, {}, [], [])

  ghost predicate Reaches(ch: Channel, evs: seq<Event>, end: Channel)
    decreases |evs|
  {
    if evs == [] then end == ch
    else Possible(ch, evs[0]) && Reaches(Happens(ch, evs[0]), evs[1..], end)
  }

  // ----- its invariant -----

  ghost predicate Ids(ch: Channel) {
    && (forall i :: 0 <= i < |ch.written| ==> ch.written[i].seqNo == i + 1)
    && (forall i, j :: 0 <= i < j < |ch.written| ==> ch.written[i].id != ch.written[j].id)
  }

  predicate IsTail(ch: Channel, part: seq<Envelope>) {
    |part| <= |ch.written| && part == ch.written[|ch.written| - |part|..] && |ch.written| - |part| <= ch.lastSeq
  }

  /** A stretch of what was written that starts no later than the next unprocessed envelope. */
  ghost predicate IsStretch(ch: Channel, part: seq<Envelope>) {
    part == [] || (1 <= part[0].seqNo <= ch.lastSeq + 1 && part[0].seqNo - 1 + |part| <= |ch.written|
                   && part == ch.written[part[0].seqNo - 1..part[0].seqNo - 1 + |part|])
  }

  ghost predicate Received(ch: Channel) {
    && ch.lastSeq <= |ch.written| && ch.handled == ch.written[..ch.lastSeq]
    && ch.seen == set i | 0 <= i < ch.lastSeq :: ch.written[i].id
  }

  /** Everything on its way was written, and nothing before it is unprocessed. */
  ghost predicate InFlight(ch: Channel) {
    forall e :: e in ch.flying ==>
      1 <= e.seqNo <= |ch.written| && e == ch.written[e.seqNo - 1] && e.seqNo <= ch.lastSeq + 1
  }

  ghost predicate ChannelOk(ch: Channel) {
    && Ids(ch) && Received(ch) && IsTail(ch, ch.outbox) && ch.pushed <= ch.lastSeq
    && InFlight(ch)
    && (forall k :: 0 <= k < |ch.pulls| ==> IsStretch(ch, ch.pulls[k]))
    && (forall j :: 0 <= j < |ch.posted| ==> ch.posted[j] <= ch.lastSeq)
  }

  /** The next unprocessed envelope is handled; any earlier one is recognised and skipped. */
  lemma TakeIs(ch: Channel, e: Envelope)
    requires Ids(ch) && Received(ch) && 1 <= e.seqNo <= |ch.written| && e == ch.written[e.seqNo - 1]
    requires e.seqNo <= ch.lastSeq + 1
    ensures Gate(ch, e) == if e.seqNo == ch.lastSeq + 1 then Ok else Duplicate
    ensures Received(Take(ch, e)) && Take(ch, e).lastSeq == if e.seqNo == ch.lastSeq + 1 then e.seqNo else ch.lastSeq
  {
    if e.seqNo == ch.lastSeq + 1 {
      assert ch.written[..e.seqNo] == ch.written[..ch.lastSeq] + [e];
    }
  }

  lemma WriteOk(ch: Channel, e: Envelope)
    requires ChannelOk(ch) && Possible(ch, Write(e))
    ensures ChannelOk(Happens(ch, Write(e)))
  {
    var ch' := Happens(ch, Write(e));
    forall k | 0 <= k < |ch.pulls| ensures IsStretch(ch', ch.pulls[k]) {
      assert IsStretch(ch, ch.pulls[k]);
    }
    assert ch'.written[..ch.lastSeq] == ch.written[..ch.lastSeq];
  }

  lemma TakeOk(ch: Channel, e: Envelope)
    requires ChannelOk(ch) && 1 <= e.seqNo <= |ch.written| && e == ch.written[e.seqNo - 1] && e.seqNo <= ch.lastSeq + 1
    ensures ChannelOk(Take(ch, e)) && e.seqNo <= Take(ch, e).lastSeq && Take(ch, e).lastSeq >= ch.lastSeq
  {
    hide Received, IsStretch;
    TakeIs(ch, e);
    var ch' := Take(ch, e);
    forall k | 0 <= k < |ch.pulls| ensures IsStretch(ch', ch.pulls[k]) {
      StretchStays(ch, ch', ch.pulls[k]);
    }
  }

  /** What the cursor points at is due: it was written, and nothing before it is unprocessed. */
  lemma FirstIsDue(ch: Channel)
    requires ChannelOk(ch)
    ensures match FirstAfter(ch.outbox, ch.pushed)
            case None => ch.pushed >= |ch.written| || ch.lastSeq == |ch.written|
            case Some(e) =>
              ch.pushed < e.seqNo <= |ch.written| && e == ch.written[e.seqNo - 1] && e.seqNo <= ch.lastSeq + 1
  {
    TailIsContiguous(ch);
    FirstAfterIs(ch.outbox, |ch.written|, ch.pushed);
  }

  lemma OneMoreFlies(ch: Channel, e: Envelope)
    requires InFlight(ch) && 1 <= e.seqNo <= |ch.written| && e == ch.written[e.seqNo - 1] && e.seqNo <= ch.lastSeq + 1
    ensures InFlight(ch.(flying := ch.flying + {e}))
  {
  }

  lemma PushOk(ch: Channel)
    requires ChannelOk(ch)
    ensures ChannelOk(Happens(ch, Push))
  {
    hide Ids, Received, FirstAfter, IsStretch, InFlight;
    FirstIsDue(ch);
    var ch' := Happens(ch, Push);
    if FirstAfter(ch.outbox, ch.pushed).None? || ch.pushed >= |ch.written| {
      return;
    }
    OneMoreFlies(ch, FirstAfter(ch.outbox, ch.pushed).value);
    SameReceived(ch, ch');
    SameIds(ch, ch');
    forall k | 0 <= k < |ch.pulls| ensures IsStretch(ch', ch.pulls[k]) {
      StretchStays(ch, ch', ch.pulls[k]);
    }
  }

  /** The outbox is always the contiguous range up to the last envelope written. */
  lemma TailIsContiguous(ch: Channel)
    requires Ids(ch) && IsTail(ch, ch.outbox)
    ensures Contiguous(ch.outbox, |ch.written|)
  {
  }

  lemma PruneOk(ch: Channel, j: nat)
    requires ChannelOk(ch) && j < |ch.posted|
    ensures ChannelOk(Happens(ch, Prune(j)))
  {
    hide Received, IsStretch, Unacknowledged;
    TailIsContiguous(ch);
    PruneIsCut(ch.outbox, |ch.written|, ch.posted[j]);
    var ch' := Happens(ch, Prune(j));
    assert IsTail(ch', ch'.outbox);
    SameReceived(ch, ch');
    forall k | 0 <= k < |ch.pulls| ensures IsStretch(ch', ch.pulls[k]) {
      StretchStays(ch, ch', ch.pulls[k]);
    }
  }

  lemma SameIds(ch: Channel, ch': Channel)
    requires Ids(ch) && ch'.written == ch.written
    ensures Ids(ch')
  {
  }

  lemma SameReceived(ch: Channel, ch': Channel)
    requires Received(ch) && ch'.written == ch.written && ch'.lastSeq == ch.lastSeq
    requires ch'.handled == ch.handled && ch'.seen == ch.seen
    ensures Received(ch')
  {
  }

  lemma StretchRest(ch: Channel, part: seq<Envelope>)
    requires Ids(ch) && IsStretch(ch, part) && part != [] && part[0].seqNo <= ch.lastSeq
    ensures IsStretch(ch, part[1..])
  {
    if |part| > 1 {
      assert part[1] == ch.written[part[0].seqNo];
    }
  }

  lemma StretchStays(ch: Channel, ch': Channel, part: seq<Envelope>)
    requires IsStretch(ch, part) && ch'.written == ch.written && ch'.lastSeq >= ch.lastSeq
    ensures IsStretch(ch', part)
  {
  }

  lemma PullOk(ch: Channel, k: nat)
    requires ChannelOk(ch) && Possible(ch, PullNext(k))
    ensures ChannelOk(Happens(ch, PullNext(k)))
  {
    hide IsStretch, Received, Take;
    var part := ch.pulls[k];
    StretchHead(ch, part);
    TakeOk(ch, part[0]);
    TakeKeeps(ch, part[0]);
    var ch1, ch' := Take(ch, part[0]), Happens(ch, PullNext(k));
    SameReceived(ch1, ch');
    StretchStays(ch, ch1, part);
    StretchRest(ch1, part);
    forall j | 0 <= j < |ch'.pulls| ensures IsStretch(ch', ch'.pulls[j]) {
      StretchStays(ch1, ch', if j == k then part[1..] else ch.pulls[j]);
    }
  }

  lemma StretchHead(ch: Channel, part: seq<Envelope>)
    requires IsStretch(ch, part) && part != []
    ensures var e := part[0]; 1 <= e.seqNo <= |ch.written| && e == ch.written[e.seqNo - 1] && e.seqNo <= ch.lastSeq + 1
  {
  }

  lemma TakeKeeps(ch: Channel, e: Envelope)
    ensures var ch' := Take(ch, e);
            && ch'.written == ch.written && ch'.outbox == ch.outbox && ch'.pushed == ch.pushed
            && ch'.flying == ch.flying && ch'.pulls == ch.pulls && ch'.posted == ch.posted
  {
  }

  lemma FetchOk(ch: Channel)
    requires ChannelOk(ch)
    ensures ChannelOk(Happens(ch, Fetch))
  {
    hide Received, IsStretch;
    var ch' := Happens(ch, Fetch);
    SameReceived(ch, ch');
    TailIsStretch(ch);
    forall j | 0 <= j < |ch'.pulls| ensures IsStretch(ch', ch'.pulls[j]) {
      StretchStays(ch, ch', if j < |ch.pulls| then ch.pulls[j] else ch.outbox);
    }
  }

  lemma TailIsStretch(ch: Channel)
    requires Ids(ch) && IsTail(ch, ch.outbox)
    ensures IsStretch(ch, ch.outbox)
  {
    if ch.outbox != [] {
      assert ch.outbox[0] == ch.written[|ch.written| - |ch.outbox|];
    }
  }

  lemma EventOk(ch: Channel, ev: Event)
    requires ChannelOk(ch) && Possible(ch, ev)
    ensures ChannelOk(Happens(ch, ev))
  {
    match ev
    case Write(e) => WriteOk(ch, e);
    case Push => PushOk(ch);
    case Arrive(e) => TakeOk(ch, e);
    case Acknowledged(e) => KnownIsTaken(ch, e);
    case Fetch => FetchOk(ch);
    case PullNext(k) => PullOk(ch, k);
    case Prune(j) => PruneOk(ch, j);
    case _ => SameReceived(ch, Happens(ch, ev));
  }

  lemma KnownIsTaken(ch: Channel, e: Envelope)
    requires ChannelOk(ch) && e in ch.flying && e.id in ch.seen
    ensures ChannelOk(Happens(ch, Acknowledged(e)))
  {
    var ch' := Happens(ch, Acknowledged(e));
    SameReceived(ch, ch');
    hide IsStretch;
    forall k | 0 <= k < |ch.pulls| ensures IsStretch(ch', ch.pulls[k]) {
      StretchStays(ch, ch', ch.pulls[k]);
    }
  }

  // ----- over all runs -----

  lemma {:induction false} AlwaysOk(ch: Channel, evs: seq<Event>, end: Channel)
    requires ChannelOk(ch) && Reaches(ch, evs, end)
    ensures ChannelOk(end)
    decreases |evs|
  {
    hide ChannelOk, Happens;
    if evs != [] {
      EventOk(ch, evs[0]);
      AlwaysOk(Happens(ch, evs[0]), evs[1..], end);
    }
  }

  /** Whatever is lost, repeated, reordered or forgotten: the receiver's handlers have seen
      exactly the first lastSeq envelopes, once each and in order; the outbox is the contiguous
      range up to the last envelope, and still holds every one that was not processed. */
  lemma ExactlyOnceInOrder(evs: seq<Event>, end: Channel)
    requires Reaches(FRESH, evs, end)
    ensures end.lastSeq <= |end.written| && end.handled == end.written[..end.lastSeq]
    ensures Contiguous(end.outbox, |end.written|)
    ensures forall i :: end.lastSeq <= i < |end.written| ==> end.written[i] in end.outbox
  {
    hide Reaches;
    FreshOk();
    AlwaysOk(FRESH, evs, end);
    OkShows(end);
  }

  lemma FreshOk()
    ensures ChannelOk(FRESH)
  {
  }

  lemma OkShows(end: Channel)
    requires ChannelOk(end)
    ensures end.lastSeq <= |end.written| && end.handled == end.written[..end.lastSeq]
    ensures Contiguous(end.outbox, |end.written|)
    ensures forall i :: end.lastSeq <= i < |end.written| ==> end.written[i] in end.outbox
  {
    TailIsContiguous(end);
    var lo := |end.written| - |end.outbox|;
    forall i | end.lastSeq <= i < |end.written| ensures end.written[i] in end.outbox {
      assert end.outbox[i - lo] == end.written[i];
    }
  }

  /** One successful push: sent, processed or recognised, and acknowledged. */
  lemma PushRound(ch: Channel, e: Envelope) returns (end: Channel)
    requires ChannelOk(ch) && FirstAfter(ch.outbox, ch.pushed) == Some(e)
    ensures Reaches(ch, [Push, Arrive(e), Acknowledged(e)], end) && ChannelOk(end)
    ensures end.written == ch.written && end.pushed == e.seqNo > ch.pushed
  {
    hide ChannelOk, Take;
    FirstIsDue(ch);
    PushOk(ch);
    var ch1 := Happens(ch, Push);
    TakeOk(ch1, e);
    TakeKeeps(ch1, e);
    var ch2 := Happens(ch1, Arrive(e));
    SeenIds(ch2, e);
    KnownIsTaken(ch2, e);
    end := Happens(ch2, Acknowledged(e));
    ThreeSteps(ch, Push, Arrive(e), Acknowledged(e));
  }

  lemma ThreeSteps(ch: Channel, a: Event, b: Event, c: Event)
    requires Possible(ch, a) && Possible(Happens(ch, a), b) && Possible(Happens(Happens(ch, a), b), c)
    ensures Reaches(ch, [a, b, c], Happens(Happens(Happens(ch, a), b), c))
  {
    hide Possible, Happens;
    assert [a, b, c][1..] == [b, c] && [b, c][1..] == [c] && [c][1..] == [];
    var ch1, ch2 := Happens(ch, a), Happens(Happens(ch, a), b);
    NoSteps(Happens(ch2, c));
    assert Reaches(ch2, [c], Happens(ch2, c));
    assert Reaches(ch1, [b, c], Happens(ch2, c));
  }

  lemma {:induction false} ReachesOn(ch: Channel, evs: seq<Event>, mid: Channel, more: seq<Event>, end: Channel)
    requires Reaches(ch, evs, mid) && Reaches(mid, more, end)
    ensures Reaches(ch, evs + more, end)
    decreases |evs|
  {
    hide Happens;
    if evs == [] {
      assert evs + more == more;
    } else {
      ReachesOn(Happens(ch, evs[0]), evs[1..], mid, more, end);
      assert (evs + more)[1..] == evs[1..] + more;
    }
  }

  /** From any reachable state plain pushing catches up, even from a forgotten cursor. */
  lemma {:induction false} CatchesUp(ch: Channel) returns (evs: seq<Event>, end: Channel)
    requires ChannelOk(ch)
    ensures Reaches(ch, evs, end) && end.written == ch.written && end.handled == end.written
    decreases |ch.written| - ch.pushed
  {
    hide Reaches, FirstAfter;
    FirstIsDue(ch);
    match FirstAfter(ch.outbox, ch.pushed)
    case None =>
      evs, end := [], ch;
      NoSteps(ch);
    case Some(e) =>
      var mid := PushRound(ch, e);
      var more, last := CatchesUp(mid);
      ReachesOn(ch, [Push, Arrive(e), Acknowledged(e)], mid, more, last);
      evs, end := [Push, Arrive(e), Acknowledged(e)] + more, last;
  }

  /** Whatever happened to a channel since it was fresh, some further pushes deliver everything. */
  lemma CatchesUpFromAnywhere(evs: seq<Event>, ch: Channel) returns (more: seq<Event>, end: Channel)
    requires Reaches(FRESH, evs, ch)
    ensures Reaches(FRESH, evs + more, end) && end.written == ch.written && end.handled == ch.written
  {
    hide Reaches, ChannelOk;
    FreshOk();
    AlwaysOk(FRESH, evs, ch);
    more, end := CatchesUp(ch);
    ReachesOn(FRESH, evs, ch, more, end);
  }

  lemma NoSteps(ch: Channel)
    ensures Reaches(ch, [], ch)
  {
  }

  lemma SeenIds(ch: Channel, e: Envelope)
    requires ChannelOk(ch) && 1 <= e.seqNo <= ch.lastSeq && e == ch.written[e.seqNo - 1]
    ensures e.id in ch.seen
  {
    hide IsStretch, IsTail;
  }
}
