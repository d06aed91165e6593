/** The hash-chained event journal and the recovery checkpoints of the PM8 store. */
module Journal {
  import opened Wrappers
  import opened Payloads

  const GENESIS := "genesis"

  /** The columns the caller supplies; the remaining text columns are carried without being read. */
  datatype Event = Event(eventId: string, eventType: string, payload: string)

  datatype Row = Row(event: Event, prevHash: string, rowHash: string)

  type Digest = string -> string

  /** The text that is hashed: the predecessor, a separator, the payload and the event id. */
  function RowText(prev: string, e: Event): string { prev + "|" + (e.payload + e.eventId) }

  function HashRow(h: Digest, prev: string, e: Event): string { h(RowText(prev, e)) }

  /** The newest row hash, or the genesis text of an empty journal. */
  function Tip(rows: seq<Row>): string
  {
    if rows == [] then GENESIS else rows[|rows| - 1].rowHash
  }

  predicate HasId(rows: seq<Row>, id: string) { exists i :: 0 <= i < |rows| && rows[i].event.eventId == id }

  /** Event ids are unique: an insert under an existing id is refused and changes nothing. */
  function Append(h: Digest, rows: seq<Row>, e: Event): seq<Row>
  {
    if HasId(rows, e.eventId) then rows
    else rows + [Row(e, Tip(rows), HashRow(h, Tip(rows), e))]
  }

  function AppendAll(h: Digest, rows: seq<Row>, events: seq<Event>): seq<Row>
  {
    if events == [] then rows
    else Append(h, AppendAll(h, rows, events[..|events| - 1]), events[|events| - 1])
  }

  /** Every row points at its predecessor's hash and hashes its own content on top of it. */
  ghost predicate Chained(h: Digest, rows: seq<Row>)
  {
    forall i :: 0 <= i < |rows| ==>
      && rows[i].prevHash == Tip(rows[..i])
      && rows[i].rowHash == HashRow(h, rows[i].prevHash, rows[i].event)
  }

  ghost predicate UniqueIds(rows: seq<Row>)
  {
    forall i, j :: 0 <= i < j < |rows| ==> rows[i].event.eventId != rows[j].event.eventId
  }

  lemma {:induction false} AppendKeepsChain(h: Digest, rows: seq<Row>, e: Event)
    requires Chained(h, rows) && UniqueIds(rows)
    ensures Chained(h, Append(h, rows, e)) && UniqueIds(Append(h, rows, e))
  {
    var next := Append(h, rows, e);
    forall i | 0 <= i < |next|
      ensures next[i].prevHash == Tip(next[..i])
      ensures next[i].rowHash == HashRow(h, next[i].prevHash, next[i].event)
    {
      assert next[..i] == rows[..i];
      assert rows[..|rows|] == rows;
    }
  }

  /** Every run of appends keeps the chain and the uniqueness of ids. */
  lemma {:induction false} RunKeepsChain(h: Digest, rows: seq<Row>, events: seq<Event>)
    requires Chained(h, rows) && UniqueIds(rows)
    ensures Chained(h, AppendAll(h, rows, events)) && UniqueIds(AppendAll(h, rows, events))
  {
    if events != [] {
      var n := |events| - 1;
      RunKeepsChain(h, rows, events[..n]);
      AppendKeepsChain(h, AppendAll(h, rows, events[..n]), events[n]);
    }
  }

  // ---------- equal tips mean equal journals ----------

  /** 64 characters of output, none of them the separator. */
  ghost predicate HexDigest(h: Digest)
  {
    forall a :: |h(a)| == 64 && '|' !in h(a)
  }

  /** No two texts hashed by these journals collide. */
  ghost predicate NoCollision(h: Digest, a: seq<Row>, b: seq<Row>)
  {
    forall i, j :: 0 <= i < |a| && 0 <= j < |b| ==>
      RowsDoNotCollide(h, a[i], b[j])
  }

  ghost predicate RowsDoNotCollide(h: Digest, x: Row, y: Row)
  {
    HashRow(h, x.prevHash, x.event) == HashRow(h, y.prevHash, y.event) ==>
      RowText(x.prevHash, x.event) == RowText(y.prevHash, y.event)
  }

  // ---------- where a payload ends ----------

  /** The two ways to know where a payload ends: ids of equal length, or payloads that are objects. */
  ghost predicate Separable(x: Row, y: Row)
  {
    || |x.event.eventId| == |y.event.eventId|
    || (ObjectText(x.event.payload) && ObjectText(y.event.payload))
  }

  ghost predicate AllSeparable(a: seq<Row>, b: seq<Row>)
  {
    forall i, j :: 0 <= i < |a| && 0 <= j < |b| ==> Separable(a[i], b[j])
  }

  /** Ids of length `m` never mistaken for ids of length `n`, whatever the payloads. */
  ghost predicate LengthsSeparate(m: nat, n: nat)
  {
    forall prev, e: Event, f: Event ::
      |e.eventId| == m && |f.eventId| == n && RowText(prev, e) == RowText(prev, f) ==>
        e.payload == f.payload && e.eventId == f.eventId
  }

  function Text(n: nat): (t: string)
    ensures |t| == n
  {
    seq(n, _ => 'a')
  }

  /** For arbitrary payload texts the hashed text determines payload and id exactly when the ids have one
      length. */
  lemma {:induction false} LengthsSeparateIffEqual(m: nat, n: nat)
    ensures LengthsSeparate(m, n) <==> m == n
  {
    if m == n {
      forall prev, e: Event, f: Event
        | |e.eventId| == m && |f.eventId| == n && RowText(prev, e) == RowText(prev, f)
        ensures e.payload == f.payload && e.eventId == f.eventId
      {
        SameRowText(prev, e, f);
      }
    } else {
      var e, f := Event(Text(m), "", Text(n)), Event(Text(n), "", Text(m));
      assert e.payload + e.eventId == f.payload + f.eventId;
      assert RowText("", e) == RowText("", f) && |e.eventId| != |f.eventId|;
      assert !LengthsSeparate(m, n);
    }
  }

  lemma {:induction false} SameRowText(prev: string, e: Event, f: Event)
    requires |e.eventId| == |f.eventId| && RowText(prev, e) == RowText(prev, f)
    ensures e.payload == f.payload && e.eventId == f.eventId
  {
    var head := prev + "|";
    assert RowText(prev, e)[|head|..] == e.payload + e.eventId;
    assert RowText(prev, f)[|head|..] == f.payload + f.eventId;
    SplitAtLength(e.payload, e.eventId, f.payload, f.eventId);
  }

  // ---------- the chain commits to its content ----------

  lemma {:induction false} FirstBar(p: string, x: string)
    requires '|' !in p
    ensures (p + "|" + x)[|p|] == '|' && forall k :: 0 <= k < |p| ==> (p + "|" + x)[k] != '|'
    ensures (p + "|" + x)[..|p|] == p && (p + "|" + x)[|p| + 1..] == x
  {
  }

  /** The first separator splits the hashed text in one way only. */
  lemma {:induction false} SplitAtBar(p: string, x: string, q: string, y: string)
    requires p + "|" + x == q + "|" + y && '|' !in p && '|' !in q
    ensures p == q && x == y
  {
    FirstBar(p, x);
    FirstBar(q, y);
    assert |p| == |q|;
  }

  lemma {:induction false} TipHasNoBar(h: Digest, rows: seq<Row>)
    requires HexDigest(h) && Chained(h, rows)
    ensures '|' !in Tip(rows)
    ensures Tip(rows) == GENESIS <==> rows == []
  {
    if rows != [] {
      var last := rows[|rows| - 1];
      assert last.rowHash == HashRow(h, last.prevHash, last.event);
    }
  }

  lemma {:induction false} ChainedPrefix(h: Digest, rows: seq<Row>, n: nat)
    requires Chained(h, rows) && n <= |rows|
    ensures Chained(h, rows[..n])
  {
    forall i | 0 <= i < n
      ensures rows[..n][i].prevHash == Tip(rows[..n][..i])
    {
      assert rows[..n][..i] == rows[..i];
    }
  }

  /** What a journal commits to: the ordered list of (payload, event id). */
  ghost predicate SameContent(a: seq<Row>, b: seq<Row>)
  {
    && |a| == |b|
    && forall i :: 0 <= i < |a| ==>
         && a[i].event.payload == b[i].event.payload
         && a[i].event.eventId == b[i].event.eventId
         && a[i].prevHash == b[i].prevHash
         && a[i].rowHash == b[i].rowHash
  }

  /** Equal row hashes on well-formed rows mean equal predecessors, payloads and ids. */
  lemma {:induction false} RowHashDetermines(h: Digest, x: Row, y: Row)
    requires RowsDoNotCollide(h, x, y) && '|' !in x.prevHash && '|' !in y.prevHash
    requires Separable(x, y)
    requires HashRow(h, x.prevHash, x.event) == HashRow(h, y.prevHash, y.event)
    ensures x.prevHash == y.prevHash
    ensures x.event.payload == y.event.payload && x.event.eventId == y.event.eventId
  {
    SplitAtBar(x.prevHash, x.event.payload + x.event.eventId, y.prevHash, y.event.payload + y.event.eventId);
    if |x.event.eventId| == |y.event.eventId| {
      SplitAtLength(x.event.payload, x.event.eventId, y.event.payload, y.event.eventId);
    } else {
      ObjectTextsSplit(x.event.payload, x.event.eventId, y.event.payload, y.event.eventId);
    }
  }

  lemma {:induction false} LastRow(h: Digest, rows: seq<Row>)
    requires HexDigest(h) && Chained(h, rows) && rows != []
    ensures var last := rows[|rows| - 1];
            && Tip(rows) == HashRow(h, last.prevHash, last.event)
            && last.prevHash == Tip(rows[..|rows| - 1]) && '|' !in last.prevHash
            && Chained(h, rows[..|rows| - 1])
  {
    ChainedPrefix(h, rows, |rows| - 1);
    TipHasNoBar(h, rows[..|rows| - 1]);
  }

  ghost predicate SameTip(h: Digest, a: seq<Row>, b: seq<Row>)
  {
    && Chained(h, a) && Chained(h, b)
    && AllSeparable(a, b)
    && Tip(a) == Tip(b) && NoCollision(h, a, b)
  }

  lemma {:induction false} SameTipStep(h: Digest, a: seq<Row>, b: seq<Row>)
    requires HexDigest(h) && SameTip(h, a, b)
    ensures a == [] <==> b == []
    ensures a != [] ==>
      && SameTip(h, a[..|a| - 1], b[..|b| - 1])
      && SameContent([a[|a| - 1]], [b[|b| - 1]])
  {
    TipHasNoBar(h, a);
    TipHasNoBar(h, b);
    if a != [] {
      LastRow(h, a);
      LastRow(h, b);
      RowHashDetermines(h, a[|a| - 1], b[|b| - 1]);
    }
  }

  /** Two journals with the same tip hold the same ordered content, given no collision among the texts they
      hash and payloads whose end can be told: the serialised objects the writer stores, under any ids, or
      any payloads under ids of one length. */
  lemma {:induction false} SameTipSameContent(h: Digest, a: seq<Row>, b: seq<Row>)
    requires HexDigest(h) && SameTip(h, a, b)
    ensures SameContent(a, b)
    decreases |a|
  {
    SameTipStep(h, a, b);
    if a != [] {
      SameTipSameContent(h, a[..|a| - 1], b[..|b| - 1]);
      SameContentExtends(a, b);
    }
  }

  lemma {:induction false} SameContentExtends(a: seq<Row>, b: seq<Row>)
    requires a != [] && b != [] && SameContent(a[..|a| - 1], b[..|b| - 1])
    requires SameContent([a[|a| - 1]], [b[|b| - 1]])
    ensures SameContent(a, b)
  {
    var x, y := [a[|a| - 1]], [b[|b| - 1]];
    assert x[0].event.payload == y[0].event.payload;
    assert a == a[..|a| - 1] + x && b == b[..|b| - 1] + y;
  }

  // ---------- dump and restore ----------

  function Contents(rows: seq<Row>): (events: seq<Event>)
    ensures |events| == |rows|
  {
    seq(|rows|, i requires 0 <= i < |rows| => rows[i].event)
  }

  /** Re-appending a dump into an empty store reproduces the dumped rows, hashes included; a dump cut by
      the limit reproduces that prefix. */
  lemma {:induction false} ReappendReproduces(h: Digest, rows: seq<Row>, limit: int)
    requires Chained(h, rows) && UniqueIds(rows)
    ensures AppendAll(h, [], Contents(Limit(rows, limit))) == Limit(rows, limit)
  {
    var dump := Limit(rows, limit);
    ChainedPrefix(h, rows, |dump|);
    assert rows[..|dump|] == dump;
    RebuildPrefix(h, dump);
  }

  lemma {:induction false} RebuildPrefix(h: Digest, rows: seq<Row>)
    requires Chained(h, rows) && UniqueIds(rows)
    ensures AppendAll(h, [], Contents(rows)) == rows
    decreases |rows|
  {
    if rows != [] {
      var n := |rows| - 1;
      ChainedPrefix(h, rows, n);
      RebuildPrefix(h, rows[..n]);
      assert Contents(rows)[..n] == Contents(rows[..n]);
      AppendNext(h, rows, n);
    }
  }

  lemma {:induction false} AppendNext(h: Digest, rows: seq<Row>, n: nat)
    requires Chained(h, rows) && UniqueIds(rows) && |rows| == n + 1
    ensures Append(h, rows[..n], rows[n].event) == rows
  {
    assert !HasId(rows[..n], rows[n].event.eventId);
    assert rows == rows[..n] + [rows[n]];
  }

  // ---------- integrity ----------

  ghost predicate Linked(rows: seq<Row>)
  {
    forall i :: 0 <= i < |rows| ==> rows[i].prevHash == Tip(rows[..i])
  }

  lemma {:induction false} UnlinkedAt(rows: seq<Row>, i: nat)
    requires i < |rows| && rows[i].prevHash != Tip(rows[..i])
    ensures !Linked(rows)
  {
  }

  lemma {:induction false} LinkedExtends(rows: seq<Row>, i: nat)
    requires i < |rows| && Linked(rows[..i]) && rows[i].prevHash == Tip(rows[..i])
    ensures Linked(rows[..i + 1])
  {
    var longer := rows[..i + 1];
    forall j | 0 <= j < |longer|
      ensures longer[j].prevHash == Tip(longer[..j])
    {
      assert longer[..j] == rows[..j];
      if j < i { assert rows[..i][j] == rows[j] && rows[..i][..j] == rows[..j]; }
    }
  }

  /** Every journal built by appends passes the integrity check. */
  lemma {:induction false} BuiltJournalsAreLinked(h: Digest, events: seq<Event>)
    ensures Linked(AppendAll(h, [], events))
  {
    RunKeepsChain(h, [], events);
  }

  /** Every stored row hash is the hash of its row. */
  ghost predicate Recomputes(h: Digest, rows: seq<Row>)
  {
    forall i :: 0 <= i < |rows| ==> rows[i].rowHash == HashRow(h, rows[i].prevHash, rows[i].event)
  }

  lemma {:induction false} ChainedIsLinkedAndRecomputes(h: Digest, rows: seq<Row>)
    ensures Chained(h, rows) <==> Linked(rows) && Recomputes(h, rows)
  {
  }

  /** Links are made of hashes alone: replacing the content of a row changes no link, and breaks the chain
      exactly when the row no longer hashes to what it stores. */
  lemma {:induction false} LinksIgnoreContent(h: Digest, rows: seq<Row>, i: nat, e: Event)
    requires i < |rows|
    ensures var edited := rows[i := rows[i].(event := e)];
            && (Linked(edited) <==> Linked(rows))
            && (Chained(h, rows) ==>
                  (Chained(h, edited) <==> HashRow(h, rows[i].prevHash, e) == rows[i].rowHash))
  {
    var edited := rows[i := rows[i].(event := e)];
    forall k | 0 <= k < |rows|
      ensures Tip(edited[..k]) == Tip(rows[..k]) && edited[k].prevHash == rows[k].prevHash
    {
    }
    ChainedIsLinkedAndRecomputes(h, rows);
    ChainedIsLinkedAndRecomputes(h, edited);
  }

  const INTEGRITY_LIMIT := 1000000

  /** A journal of `n` rows with distinct ids whose last link alone is broken. */
  function BrokenAtEnd(n: nat): (rows: seq<Row>)
    ensures |rows| == n
  {
    seq(n, i requires 0 <= i < n =>
      Row(Event(Text(i), "", "{}"), if i == 0 then GENESIS else if i == n - 1 then "" else "h", "h"))
  }

  ghost predicate CheckDecides(n: nat)
  {
    forall rows: seq<Row> :: |rows| == n && UniqueIds(rows) ==>
      (Linked(Limit(rows, INTEGRITY_LIMIT)) <==> Linked(rows))
  }

  /** The link check decides the whole journal exactly up to a million rows. */
  lemma {:induction false} IntegrityCheckDecidesIffWithinWindow(n: nat)
    ensures CheckDecides(n) <==> n <= INTEGRITY_LIMIT
  {
    if n > INTEGRITY_LIMIT {
      var rows := BrokenAtEnd(n);
      var window := Limit(rows, INTEGRITY_LIMIT);
      forall i | 0 <= i < |window|
        ensures window[i].prevHash == Tip(window[..i])
      {
        if i > 0 { assert window[..i][i - 1] == rows[i - 1]; }
      }
      assert rows[..n - 1][n - 2] == rows[n - 2];
      UnlinkedAt(rows, n - 1);
      assert forall i, j :: 0 <= i < j < n ==> |rows[i].event.eventId| < |rows[j].event.eventId|;
      assert UniqueIds(rows) && !CheckDecides(n);
    }
  }

  // ---------- checkpoints ----------

  datatype Checkpoint = Checkpoint(cursor: int, createdAt: int)

  /** The order of `latest_checkpoint`: cursor first, then creation time. */
  predicate NoNewer(a: Checkpoint, b: Checkpoint)
  {
    a.cursor < b.cursor || (a.cursor == b.cursor && a.createdAt <= b.createdAt)
  }

  /** `COALESCE(MAX(cursor_seq), -1)`. */
  function MaxCursor(rows: seq<Checkpoint>): int
  {
    if rows == [] then -1
    else
      var rest := MaxCursor(rows[..|rows| - 1]);
      if rows[|rows| - 1].cursor > rest then rows[|rows| - 1].cursor else rest
  }

  ghost predicate CursorsMonotone(rows: seq<Checkpoint>)
  {
    forall i, j :: 0 <= i < j < |rows| ==> rows[i].cursor <= rows[j].cursor
  }

  lemma {:induction false} MaxCursorBounds(rows: seq<Checkpoint>, i: nat)
    requires i < |rows|
    ensures rows[i].cursor <= MaxCursor(rows)
    decreases |rows|
  {
    if i < |rows| - 1 {
      MaxCursorBounds(rows[..|rows| - 1], i);
    }
  }

  class EventStore {
    const hash: Digest
    var events: seq<Row>
    var checkpoints: seq<Checkpoint>

    ghost predicate Valid()
      reads this
    {
      Chained(hash, events) && UniqueIds(events) && CursorsMonotone(checkpoints)
    }

    constructor (h: Digest)
      ensures Valid() && events == [] && checkpoints == [] && hash == h
    {
      hash, events, checkpoints := h, [], [];
    }

    method LastHash() returns (tip: string)
      ensures tip == Tip(events)
    {
      if |events| == 0 { return GENESIS; }
      tip := events[|events| - 1].rowHash;
    }

    method AppendEvent(e: Event) returns (sequenceNo: Option<nat>)
      requires Valid()
      modifies this
      ensures Valid() && events == Append(hash, old(events), e) && checkpoints == old(checkpoints)
      ensures sequenceNo == if HasId(old(events), e.eventId) then None else Some(|old(events)| + 1)
    {
      AppendKeepsChain(hash, events, e);
      var prev := LastHash();
      for i := 0 to |events|
        invariant forall j :: 0 <= j < i ==> events[j].event.eventId != e.eventId
        invariant unchanged(this)
      {
        if events[i].event.eventId == e.eventId { return None; }
      }
      events := events + [Row(e, prev, HashRow(hash, prev, e))];
      sequenceNo := Some(|events|);
    }

    /** The link check reads the oldest million rows and reports the first one whose stored predecessor hash
        is not its predecessor's. */
    method CheckIntegrity() returns (mismatch: Option<nat>)
      ensures mismatch.None? <==> Linked(Limit(events, INTEGRITY_LIMIT))
      ensures mismatch.Some? ==>
        && 1 <= mismatch.value <= |events| && Linked(events[..mismatch.value - 1])
        && !Linked(events[..mismatch.value])
    {
      var rows := Limit(events, INTEGRITY_LIMIT);
      var prev := GENESIS;
      for i := 0 to |rows|
        invariant prev == Tip(rows[..i]) && Linked(rows[..i])
      {
        assert rows[..i] == events[..i] && rows[..i + 1] == events[..i + 1];
        assert rows[..i + 1][..i] == rows[..i] && rows[..i + 1][i] == rows[i];
        if rows[i].prevHash != prev {
          UnlinkedAt(rows, i);
          UnlinkedAt(rows[..i + 1], i);
          return Some(i + 1);
        }
        prev := rows[i].rowHash;
        LinkedExtends(rows, i);
      }
      assert rows[..|rows|] == rows;
      mismatch := None;
    }

    /** A cursor behind the newest one is refused. */
    method SaveCheckpoint(c: Checkpoint) returns (ok: bool)
      requires Valid()
      modifies this
      ensures Valid() && events == old(events)
      ensures ok == (c.cursor >= MaxCursor(old(checkpoints)))
      ensures checkpoints == if ok then old(checkpoints) + [c] else old(checkpoints)
    {
      if c.cursor < MaxCursor(checkpoints) { return false; }
      forall i | 0 <= i < |checkpoints|
        ensures checkpoints[i].cursor <= c.cursor
      {
        MaxCursorBounds(checkpoints, i);
      }
      checkpoints := checkpoints + [c];
      ok := true;
    }

    /** The answer is newest in (cursor, time) order; because saves are monotone, its cursor is that of the
        last accepted save. */
    method LatestCheckpoint() returns (latest: Option<Checkpoint>)
      requires Valid()
      ensures latest.None? <==> checkpoints == []
      ensures latest.Some? ==>
        && latest.value in checkpoints
        && (forall c :: c in checkpoints ==>
              c.cursor < latest.value.cursor
              || (c.cursor == latest.value.cursor && c.createdAt <= latest.value.createdAt))
        && latest.value.cursor == checkpoints[|checkpoints| - 1].cursor
    {
      if |checkpoints| == 0 { return None; }
      var best := checkpoints[0];
      for i := 1 to |checkpoints|
        invariant best in checkpoints
        invariant forall j :: 0 <= j < i ==> NoNewer(checkpoints[j], best)
      {
        if NoNewer(best, checkpoints[i]) { best := checkpoints[i]; }
      }
      latest := Some(best);
      assert NoNewer(checkpoints[|checkpoints| - 1], best);
    }
  }
}
