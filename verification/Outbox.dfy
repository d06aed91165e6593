/** The outbox table as a step protocol: rows leased to workers, marked and failed by anyone. */
module Outbox {
  import opened Wrappers

  datatype RowState = Pending | Failed | Claimed | Published | DeadLetter | OtherState(text: string)

  datatype OutboxRow = OutboxRow(
    id: string, createdAt: int, state: RowState, attempts: int,
    claimedBy: Option<string>, claimedUntil: Option<int>, publishedAt: Option<int>,
    nextAttempt: Option<int>, failureReason: Option<string>)

  /** Pending, failed, or claimed under a lease that is absent or already over. */
  predicate Claimable(r: OutboxRow, now: int)
  {
    || r.state == Pending
    || r.state == Failed
    || (r.state == Claimed && (r.claimedUntil.None? || r.claimedUntil.value < now))
  }

  function Lease(r: OutboxRow, worker: string, until: int): OutboxRow
  {
    r.(state := Claimed, claimedBy := Some(worker), claimedUntil := Some(until))
  }

  ghost predicate UniqueIds(rows: seq<OutboxRow>)
  {
    forall i, j :: 0 <= i < j < |rows| ==> rows[i].id != rows[j].id
  }

  // ---------- the batch selection ----------

  function Eligible(rows: seq<OutboxRow>, now: int): seq<OutboxRow>
  {
    if rows == [] then []
    else
      var last := rows[|rows| - 1];
      Eligible(rows[..|rows| - 1], now) + (if Claimable(last, now) then [last] else [])
  }

  function Insert(r: OutboxRow, sorted: seq<OutboxRow>): (longer: seq<OutboxRow>)
    ensures |longer| == |sorted| + 1
  {
    if sorted == [] || r.createdAt < sorted[0].createdAt then [r] + sorted
    else [sorted[0]] + Insert(r, sorted[1..])
  }

  /** `ORDER BY created_at ASC`, ties in insertion order. */
  function ByCreation(rows: seq<OutboxRow>): seq<OutboxRow>
  {
    if rows == [] then [] else Insert(rows[|rows| - 1], ByCreation(rows[..|rows| - 1]))
  }

  function FirstClaimable(rows: seq<OutboxRow>, now: int, limit: int): seq<OutboxRow>
  {
    Limit(ByCreation(Eligible(rows, now)), limit)
  }

  ghost predicate InCreationOrder(rows: seq<OutboxRow>)
  {
    forall i, j :: 0 <= i < j < |rows| ==> rows[i].createdAt <= rows[j].createdAt
  }

  lemma {:induction false} InsertPermutes(r: OutboxRow, sorted: seq<OutboxRow>)
    ensures multiset(Insert(r, sorted)) == multiset(sorted) + multiset{r}
    decreases |sorted|
  {
    if !(sorted == [] || r.createdAt < sorted[0].createdAt) {
      InsertPermutes(r, sorted[1..]);
      assert sorted == [sorted[0]] + sorted[1..];
    }
  }

  lemma {:induction false} InsertSorts(r: OutboxRow, sorted: seq<OutboxRow>)
    requires InCreationOrder(sorted)
    ensures InCreationOrder(Insert(r, sorted))
    ensures Insert(r, sorted)[0].createdAt == r.createdAt
         || (sorted != [] && Insert(r, sorted)[0] == sorted[0])
    decreases |sorted|
  {
    if !(sorted == [] || r.createdAt < sorted[0].createdAt) {
      InsertSorts(r, sorted[1..]);
      var tail := Insert(r, sorted[1..]);
      assert forall k :: 0 <= k < |tail| ==> tail[0].createdAt <= tail[k].createdAt;
    }
  }

  lemma {:induction false} ByCreationSorts(rows: seq<OutboxRow>)
    ensures InCreationOrder(ByCreation(rows))
    decreases |rows|
  {
    if rows != [] {
      ByCreationSorts(rows[..|rows| - 1]);
      InsertSorts(rows[|rows| - 1], ByCreation(rows[..|rows| - 1]));
    }
  }

  lemma {:induction false} ByCreationPermutes(rows: seq<OutboxRow>)
    ensures multiset(ByCreation(rows)) == multiset(rows)
    decreases |rows|
  {
    if rows != [] {
      var n := |rows| - 1;
      ByCreationPermutes(rows[..n]);
      InsertPermutes(rows[n], ByCreation(rows[..n]));
      LastApart(rows, n);
    }
  }

  /** The rows of one creation time, in order. */
  function AtTime(rows: seq<OutboxRow>, t: int): seq<OutboxRow>
  {
    if rows == [] then []
    else (if rows[0].createdAt == t then [rows[0]] else []) + AtTime(rows[1..], t)
  }

  lemma {:induction false} AtTimeAppend(rows: seq<OutboxRow>, r: OutboxRow, t: int)
    ensures AtTime(rows + [r], t) == AtTime(rows, t) + (if r.createdAt == t then [r] else [])
    decreases |rows|
  {
    if rows == [] {
      assert rows + [r] == [r] && [r][1..] == [];
    } else {
      var head, tail := if rows[0].createdAt == t then [rows[0]] else [], if r.createdAt == t then [r] else [];
      AtTimeAppend(rows[1..], r, t);
      assert (rows + [r])[0] == rows[0] && (rows + [r])[1..] == rows[1..] + [r];
      assert head + (AtTime(rows[1..], t) + tail) == (head + AtTime(rows[1..], t)) + tail;
    }
  }

  lemma {:induction false} NoneAtTime(rows: seq<OutboxRow>, t: int)
    requires forall i :: 0 <= i < |rows| ==> rows[i].createdAt > t
    ensures AtTime(rows, t) == []
    decreases |rows|
  {
    if rows != [] { NoneAtTime(rows[1..], t); }
  }

  lemma {:induction false} InsertAfterTies(r: OutboxRow, sorted: seq<OutboxRow>, t: int)
    requires InCreationOrder(sorted)
    ensures AtTime(Insert(r, sorted), t) == AtTime(sorted, t) + (if r.createdAt == t then [r] else [])
    decreases |sorted|
  {
    if sorted == [] || r.createdAt < sorted[0].createdAt {
      assert ([r] + sorted)[1..] == sorted;
      if r.createdAt == t { NoneAtTime(sorted, t); }
    } else {
      InsertAfterTies(r, sorted[1..], t);
      assert ([sorted[0]] + Insert(r, sorted[1..]))[1..] == Insert(r, sorted[1..]);
    }
  }

  /** Rows created at the same time keep their table order. */
  lemma {:induction false} TiesKeepTableOrder(rows: seq<OutboxRow>, t: int)
    ensures AtTime(ByCreation(rows), t) == AtTime(rows, t)
    decreases |rows|
  {
    if rows != [] {
      var n := |rows| - 1;
      TiesKeepTableOrder(rows[..n], t);
      ByCreationSorts(rows[..n]);
      InsertAfterTies(rows[n], ByCreation(rows[..n]), t);
      AtTimeAppend(rows[..n], rows[n], t);
      assert rows == rows[..n] + [rows[n]];
    }
  }

  lemma {:induction false} LastApart(rows: seq<OutboxRow>, n: nat)
    requires |rows| == n + 1
    ensures multiset(rows) == multiset(rows[..n]) + multiset{rows[n]}
  {
    assert rows == rows[..n] + [rows[n]];
  }

  lemma {:induction false} EligibleMeans(rows: seq<OutboxRow>, now: int, r: OutboxRow)
    ensures multiset(Eligible(rows, now))[r] == if Claimable(r, now) then multiset(rows)[r] else 0
    decreases |rows|
  {
    if rows != [] {
      var n := |rows| - 1;
      EligibleMeans(rows[..n], now, r);
      assert rows == rows[..n] + [rows[n]];
    }
  }

  lemma {:induction false} MultiplicityOne(rows: seq<OutboxRow>, r: OutboxRow)
    requires UniqueIds(rows)
    ensures multiset(rows)[r] <= 1
    decreases |rows|
  {
    if rows != [] {
      var n := |rows| - 1;
      MultiplicityOne(rows[..n], r);
      assert rows == rows[..n] + [rows[n]];
      if r == rows[n] {
        assert r !in rows[..n];
      }
    }
  }

  lemma {:induction false} SortedEligible(rows: seq<OutboxRow>, now: int, r: OutboxRow)
    ensures r in ByCreation(Eligible(rows, now)) <==> r in rows && Claimable(r, now)
    ensures |ByCreation(Eligible(rows, now))| == |Eligible(rows, now)|
  {
    var eligible := Eligible(rows, now);
    ByCreationPermutes(eligible);
    EligibleMeans(rows, now, r);
    assert |multiset(ByCreation(eligible))| == |multiset(eligible)|;
    assert r in ByCreation(eligible) <==> r in multiset(ByCreation(eligible));
    assert r in rows <==> r in multiset(rows);
  }

  /** The selection holds claimable rows only, each once, oldest first. */
  lemma {:induction false} SelectionMeans(rows: seq<OutboxRow>, now: int, limit: int)
    requires UniqueIds(rows)
    ensures var picked := FirstClaimable(rows, now, limit);
            && InCreationOrder(picked)
            && |picked| == (if limit < 0 || limit >= |Eligible(rows, now)| then |Eligible(rows, now)| else limit)
            && (forall i :: 0 <= i < |picked| ==> picked[i] in rows && Claimable(picked[i], now))
            && (forall i, j :: 0 <= i < j < |picked| ==> picked[i].id != picked[j].id)
  {
    var all := ByCreation(Eligible(rows, now));
    var picked := FirstClaimable(rows, now, limit);
    ByCreationSorts(Eligible(rows, now));
    ByCreationPermutes(Eligible(rows, now));
    assert |all| == |multiset(all)| == |multiset(Eligible(rows, now))| == |Eligible(rows, now)|;
    forall i | 0 <= i < |picked|
      ensures picked[i] in rows && Claimable(picked[i], now)
    {
      SortedEligible(rows, now, all[i]);
    }
    forall i, j | 0 <= i < j < |picked|
      ensures picked[i].id != picked[j].id
    {
      DistinctInSort(rows, now, i, j);
    }
  }

  /** A claimable row that is left out is no older than any row selected. */
  lemma {:induction false} SelectionTakesOldest(rows: seq<OutboxRow>, now: int, limit: int, r: OutboxRow, i: nat)
    requires r in rows && Claimable(r, now) && r !in FirstClaimable(rows, now, limit)
    requires i < |FirstClaimable(rows, now, limit)|
    ensures FirstClaimable(rows, now, limit)[i].createdAt <= r.createdAt
  {
    var all := ByCreation(Eligible(rows, now));
    var picked := FirstClaimable(rows, now, limit);
    ByCreationSorts(Eligible(rows, now));
    SortedEligible(rows, now, r);
    var k :| 0 <= k < |all| && all[k] == r;
    assert picked == all[..|picked|];
    assert k >= |picked|;
  }

  lemma {:induction false} DistinctInSort(rows: seq<OutboxRow>, now: int, i: nat, j: nat)
    requires UniqueIds(rows)
    requires i < j < |ByCreation(Eligible(rows, now))|
    ensures ByCreation(Eligible(rows, now))[i].id != ByCreation(Eligible(rows, now))[j].id
  {
    var all := ByCreation(Eligible(rows, now));
    ByCreationPermutes(Eligible(rows, now));
    var x, y := all[i], all[j];
    EligibleMeans(rows, now, x);
    EligibleMeans(rows, now, y);
    assert x in multiset(all) && y in multiset(all);
    assert x in rows && y in rows;
    if x == y {
      MultiplicityOne(rows, x);
      TwiceInSequence(all, i, j);
    }
  }

  lemma {:induction false} TwiceInSequence(s: seq<OutboxRow>, i: nat, j: nat)
    requires i < j < |s| && s[i] == s[j]
    ensures multiset(s)[s[i]] >= 2
  {
    assert s == s[..i] + [s[i]] + s[i + 1..j] + [s[j]] + s[j + 1..];
  }

  // ---------- steps ----------

  datatype Op =
    | Enqueue(row: OutboxRow)
    | ClaimOne(id: string, worker: string, until: int, now: int)
    | ClaimBatch(worker: string, until: int, now: int, limit: int)
    | Mark(id: string, state: RowState, publishedAt: Option<int>)
    | MarkFailed(id: string, reason: string, nextAttempt: int, dead: bool)

  predicate IsClaim(op: Op) { op.ClaimOne? || op.ClaimBatch? }

  predicate Touches(op: Op, id: string) { (op.Mark? || op.MarkFailed?) && op.id == id }

  predicate HasRow(rows: seq<OutboxRow>, id: string) { exists i :: 0 <= i < |rows| && rows[i].id == id }

  /** The ids an operation claims successfully. */
  function ClaimedBy(rows: seq<OutboxRow>, op: Op): set<string>
  {
    match op
    case ClaimOne(id, _, _, now) =>
      if exists i :: 0 <= i < |rows| && rows[i].id == id && Claimable(rows[i], now) then {id} else {}
    case ClaimBatch(_, _, now, limit) => set r | r in FirstClaimable(rows, now, limit) :: r.id
    case _ => {}
  }

  function LeaseRows(rows: seq<OutboxRow>, ids: set<string>, worker: string, until: int): (next: seq<OutboxRow>)
    ensures |next| == |rows|
  {
    seq(|rows|, i requires 0 <= i < |rows| => if rows[i].id in ids then Lease(rows[i], worker, until) else rows[i])
  }

  function MarkRow(r: OutboxRow, op: Op): OutboxRow
    requires op.Mark? || op.MarkFailed?
  {
    match op
    case Mark(_, state, publishedAt) =>
      r.(state := state, attempts := r.attempts + 1,
         publishedAt := if publishedAt.Some? then publishedAt else r.publishedAt)
    case MarkFailed(_, reason, nextAttempt, dead) =>
      r.(state := if dead then DeadLetter else Failed, attempts := r.attempts + 1,
         failureReason := Some(reason), nextAttempt := Some(nextAttempt),
         claimedBy := None, claimedUntil := None)
  }

  /** One atomic operation. Neither mark looks at the owner or at the state it overwrites. */
  function Step(rows: seq<OutboxRow>, op: Op): (next: seq<OutboxRow>)
    ensures !op.Enqueue? ==> |next| == |rows|
  {
    match op
    case Enqueue(row) => if HasRow(rows, row.id) then rows else rows + [row]
    case ClaimOne(_, worker, until, _) => LeaseRows(rows, ClaimedBy(rows, op), worker, until)
    case ClaimBatch(worker, until, _, _) => LeaseRows(rows, ClaimedBy(rows, op), worker, until)
    case _ => seq(|rows|, i requires 0 <= i < |rows| => if rows[i].id == op.id then MarkRow(rows[i], op) else rows[i])
  }

  function Run(rows: seq<OutboxRow>, ops: seq<Op>): seq<OutboxRow>
    decreases |ops|
  {
    if ops == [] then rows else Run(Step(rows, ops[0]), ops[1..])
  }

  lemma {:induction false} StepKeepsUniqueIds(rows: seq<OutboxRow>, op: Op)
    requires UniqueIds(rows)
    ensures UniqueIds(Step(rows, op))
  {
    var next := Step(rows, op);
    if op.Enqueue? {
      assert forall i :: 0 <= i < |rows| ==> next[i] == rows[i];
    } else {
      assert forall i :: 0 <= i < |rows| ==> next[i].id == rows[i].id;
    }
  }

  // ---------- leases ----------

  ghost predicate Held(rows: seq<OutboxRow>, id: string, until: int)
  {
    exists i :: 0 <= i < |rows| && rows[i].id == id && rows[i].state == Claimed && rows[i].claimedUntil == Some(until)
  }

  lemma {:induction false} ClaimNeedsClaimable(rows: seq<OutboxRow>, op: Op, id: string)
    requires UniqueIds(rows) && IsClaim(op) && id in ClaimedBy(rows, op)
    ensures exists i :: 0 <= i < |rows| && rows[i].id == id && Claimable(rows[i], op.now)
  {
    if op.ClaimBatch? {
      SelectionMeans(rows, op.now, op.limit);
      var picked := FirstClaimable(rows, op.now, op.limit);
      var r :| r in picked && r.id == id;
      var k :| 0 <= k < |picked| && picked[k] == r;
      assert picked[k] in rows;
      var i :| 0 <= i < |rows| && rows[i] == r;
    }
  }

  /** A held lease is passed over by every claim made before it runs out. */
  lemma {:induction false} ClaimWaitsForLease(rows: seq<OutboxRow>, op: Op, id: string, until: int)
    requires UniqueIds(rows) && Held(rows, id, until) && IsClaim(op) && id in ClaimedBy(rows, op)
    ensures until < op.now
  {
    ClaimNeedsClaimable(rows, op, id);
    var i :| 0 <= i < |rows| && rows[i].id == id && Claimable(rows[i], op.now);
    var j :| 0 <= j < |rows| && rows[j].id == id && rows[j].state == Claimed && rows[j].claimedUntil == Some(until);
    assert i == j;
  }

  lemma {:induction false} ClaimTakesLease(rows: seq<OutboxRow>, op: Op, id: string)
    requires UniqueIds(rows) && IsClaim(op) && id in ClaimedBy(rows, op)
    ensures Held(Step(rows, op), id, op.until)
  {
    ClaimNeedsClaimable(rows, op, id);
    var i :| 0 <= i < |rows| && rows[i].id == id && Claimable(rows[i], op.now);
    assert Step(rows, op)[i].id == id;
  }

  lemma {:induction false} OthersKeepLease(rows: seq<OutboxRow>, op: Op, id: string, until: int)
    requires Held(rows, id, until) && !Touches(op, id) && id !in ClaimedBy(rows, op)
    ensures Held(Step(rows, op), id, until)
  {
    var i :| 0 <= i < |rows| && rows[i].id == id && rows[i].state == Claimed && rows[i].claimedUntil == Some(until);
    assert Step(rows, op)[i] == rows[i];
  }

  ghost predicate ClockMonotone(ops: seq<Op>)
  {
    forall i, j :: 0 <= i < j < |ops| && IsClaim(ops[i]) && IsClaim(ops[j]) ==> ops[i].now <= ops[j].now
  }

  ghost predicate NobodyTouches(ops: seq<Op>, id: string)
  {
    forall i :: 0 <= i < |ops| ==> !Touches(ops[i], id)
  }

  lemma {:induction false} TailOf(ops: seq<Op>, last: Op, id: string)
    requires ops != [] && NobodyTouches(ops, id) && ClockMonotone(ops + [last])
    ensures NobodyTouches(ops[1..], id) && ClockMonotone(ops[1..] + [last])
    ensures IsClaim(ops[0]) && IsClaim(last) ==> ops[0].now <= last.now
  {
    var all := ops + [last];
    assert all[0] == ops[0] && all[|ops|] == last;
    assert all[1..] == ops[1..] + [last];
    TailMonotone(all);
    assert forall i :: 0 <= i < |ops| - 1 ==> ops[1..][i] == ops[i + 1];
  }

  /** From a held lease, whatever the interleaving, the first and every later successful claim of the row
      comes after the lease ran out. */
  lemma {:induction false} LeaseOutlastsRun(rows: seq<OutboxRow>, ops: seq<Op>, last: Op, id: string, until: int)
    requires UniqueIds(rows) && Held(rows, id, until)
    requires NobodyTouches(ops, id) && ClockMonotone(ops + [last]) && IsClaim(last)
    requires id in ClaimedBy(Run(rows, ops), last)
    ensures until < last.now
    decreases |ops|
  {
    if ops == [] {
      ClaimWaitsForLease(rows, last, id, until);
    } else {
      TailOf(ops, last, id);
      if id in ClaimedBy(rows, ops[0]) {
        ClaimWaitsForLease(rows, ops[0], id, until);
      } else {
        StepKeepsUniqueIds(rows, ops[0]);
        OthersKeepLease(rows, ops[0], id, until);
        LeaseOutlastsRun(Step(rows, ops[0]), ops[1..], last, id, until);
      }
    }
  }

  lemma {:induction false} TailMonotone(ops: seq<Op>)
    requires ops != [] && ClockMonotone(ops)
    ensures ClockMonotone(ops[1..])
  {
    assert forall i :: 0 <= i < |ops| - 1 ==> ops[1..][i] == ops[i + 1];
  }

  /** Exclusive leases: two successful claims of one row with no mark or failure of it between them have
      the first lease over before the second claim. */
  lemma {:induction false} LeasesAreExclusive(rows: seq<OutboxRow>, first: Op, between: seq<Op>, second: Op, id: string)
    requires UniqueIds(rows) && IsClaim(first) && IsClaim(second)
    requires NobodyTouches(between, id) && ClockMonotone([first] + between + [second])
    requires id in ClaimedBy(rows, first)
    requires id in ClaimedBy(Run(Step(rows, first), between), second)
    ensures first.until < second.now
  {
    ClaimTakesLease(rows, first, id);
    StepKeepsUniqueIds(rows, first);
    assert ([first] + between + [second])[1..] == between + [second];
    TailMonotone([first] + between + [second]);
    LeaseOutlastsRun(Step(rows, first), between, second, id, first.until);
  }

  // ---------- terminal rows ----------

  ghost predicate InState(rows: seq<OutboxRow>, id: string, state: RowState)
  {
    exists i :: 0 <= i < |rows| && rows[i].id == id && rows[i].state == state
  }

  lemma {:induction false} TerminalIsNotClaimed(rows: seq<OutboxRow>, op: Op, id: string, state: RowState)
    requires UniqueIds(rows) && InState(rows, id, state) && state in {Published, DeadLetter}
    ensures id !in ClaimedBy(rows, op)
  {
    if IsClaim(op) && id in ClaimedBy(rows, op) {
      ClaimNeedsClaimable(rows, op, id);
    }
  }

  /** Published and dead-letter rows stay so, unclaimed, through any run that does not mark them. */
  lemma {:induction false} TerminalRowsStay(rows: seq<OutboxRow>, ops: seq<Op>, id: string, state: RowState)
    requires UniqueIds(rows) && InState(rows, id, state) && state in {Published, DeadLetter}
    requires NobodyTouches(ops, id)
    ensures InState(Run(rows, ops), id, state) && UniqueIds(Run(rows, ops))
    ensures forall op :: id !in ClaimedBy(Run(rows, ops), op)
    decreases |ops|
  {
    if ops == [] {
      forall op
        ensures id !in ClaimedBy(rows, op)
      {
        TerminalIsNotClaimed(rows, op, id, state);
      }
    } else {
      var next := Step(rows, ops[0]);
      TerminalIsNotClaimed(rows, ops[0], id, state);
      StepKeepsUniqueIds(rows, ops[0]);
      var i :| 0 <= i < |rows| && rows[i].id == id && rows[i].state == state;
      assert next[i] == rows[i];
      assert forall k :: 0 <= k < |ops| - 1 ==> ops[1..][k] == ops[k + 1];
      TerminalRowsStay(next, ops[1..], id, state);
    }
  }

  /** A failure report has no owner or state check: it makes any existing row, a published one included,
      claimable again at once, unless it is the last attempt. */
  lemma {:induction false} FailureReportReopens(
    rows: seq<OutboxRow>, id: string, reason: string, next: int, dead: bool, now: int)
    requires HasRow(rows, id)
    ensures id in ClaimedBy(Step(rows, MarkFailed(id, reason, next, dead)), ClaimOne(id, "w", now, now)) <==> !dead
  {
    var after := Step(rows, MarkFailed(id, reason, next, dead));
    var i :| 0 <= i < |rows| && rows[i].id == id;
    assert after[i].id == id;
    assert forall k :: 0 <= k < |rows| && after[k].id == id ==> (Claimable(after[k], now) <==> !dead);
  }

  // ---------- the table object ----------

  class OutboxTable {
    var rows: seq<OutboxRow>

    ghost predicate Valid()
      reads this
    {
      UniqueIds(rows)
    }

    constructor ()
      ensures Valid() && rows == []
    {
      rows := [];
    }

    method EnqueueRow(row: OutboxRow) returns (ok: bool)
      requires Valid()
      modifies this
      ensures Valid() && rows == Step(old(rows), Enqueue(row))
      ensures ok == !HasRow(old(rows), row.id)
    {
      StepKeepsUniqueIds(rows, Enqueue(row));
      ok := !HasRow(rows, row.id);
      if ok { rows := rows + [row]; }
    }

    /** The conditional update: it reports whether a row was claimable under that id. */
    method ClaimOutbox(id: string, worker: string, until: int, now: int) returns (ok: bool)
      requires Valid()
      modifies this
      ensures Valid() && rows == Step(old(rows), ClaimOne(id, worker, until, now))
      ensures ok == (id in ClaimedBy(old(rows), ClaimOne(id, worker, until, now)))
    {
      ghost var op := ClaimOne(id, worker, until, now);
      StepKeepsUniqueIds(rows, op);
      ok := false;
      for i := 0 to |rows|
        invariant unchanged(this) && !ok
        invariant forall j :: 0 <= j < i ==> !(rows[j].id == id && Claimable(rows[j], now))
      {
        if rows[i].id == id && Claimable(rows[i], now) {
          var next := rows[i := Lease(rows[i], worker, until)];
          assert ClaimedBy(rows, op) == {id};
          assert next == Step(rows, op);
          rows, ok := next, true;
          return;
        }
      }
      assert Step(rows, op) == rows;
    }

    /** Select once, then claim row by row. Every selected row is claimed; the result lists them in creation
        order with the lease filled in. */
    method ClaimOutboxBatch(worker: string, until: int, now: int, limit: int) returns (claimed: seq<OutboxRow>)
      requires Valid()
      modifies this
      ensures Valid() && rows == Step(old(rows), ClaimBatch(worker, until, now, limit))
      ensures var picked := FirstClaimable(old(rows), now, limit);
              |claimed| == |picked| && forall i :: 0 <= i < |picked| ==> claimed[i] == Lease(picked[i], worker, until)
    {
      var picked := FirstClaimable(rows, now, limit);
      SelectionMeans(rows, now, limit);
      StepKeepsUniqueIds(rows, ClaimBatch(worker, until, now, limit));
      claimed := [];
      assert LeaseRows(rows, IdsOf(picked[..0]), worker, until) == rows;
      for i := 0 to |picked|
        invariant Valid() && |claimed| == i
        invariant rows == LeaseRows(old(rows), IdsOf(picked[..i]), worker, until)
        invariant forall j :: 0 <= j < i ==> claimed[j] == Lease(picked[j], worker, until)
      {
        NextIsStillClaimable(old(rows), picked, i, worker, until, now);
        var ok := ClaimOutbox(picked[i].id, worker, until, now);
        if ok {
          claimed := claimed + [Lease(picked[i], worker, until)];
        }
      }
      assert picked[..|picked|] == picked;
      BatchLeasesPicked(old(rows), worker, until, now, limit);
    }

    /** The marked row takes the new state, one more attempt and, if given, the publication time; it keeps
        its owner and lease. Nothing else moves, and an unknown id changes nothing. */
    method MarkOutbox(id: string, state: RowState, publishedAt: Option<int>)
      requires Valid()
      modifies this
      ensures Valid() && |rows| == |old(rows)|
      ensures forall i :: 0 <= i < |rows| ==>
        if old(rows)[i].id == id then
          && rows[i].state == state
          && rows[i].attempts == old(rows)[i].attempts + 1
          && rows[i].publishedAt == (if publishedAt.Some? then publishedAt else old(rows)[i].publishedAt)
          && rows[i] == old(rows)[i].(state := rows[i].state, attempts := rows[i].attempts,
                                      publishedAt := rows[i].publishedAt)
        else rows[i] == old(rows)[i]
      ensures rows == Step(old(rows), Mark(id, state, publishedAt))
    {
      ghost var after := Step(rows, Mark(id, state, publishedAt));
      StepKeepsUniqueIds(rows, Mark(id, state, publishedAt));
      for i := 0 to |rows|
        invariant |rows| == |old(rows)|
        invariant forall j :: i <= j < |rows| ==> rows[j] == old(rows)[j]
        invariant after == Step(old(rows), Mark(id, state, publishedAt)) && |after| == |rows|
        invariant forall j :: 0 <= j < i ==> rows[j] == after[j]
      {
        if rows[i].id == id {
          var when := if publishedAt.Some? then publishedAt else rows[i].publishedAt;
          rows := rows[i := rows[i].(state := state, attempts := rows[i].attempts + 1, publishedAt := when)];
        }
      }
      assert rows == after;
    }

    /** The row ends failed or dead, with its reason, next attempt and one more attempt, and belongs to
        nobody. Nothing else moves, and an unknown id changes nothing. */
    method MarkOutboxFailed(id: string, reason: string, nextAttempt: int, dead: bool)
      requires Valid()
      modifies this
      ensures Valid() && |rows| == |old(rows)|
      ensures forall i :: 0 <= i < |rows| ==>
        if old(rows)[i].id == id then
          && rows[i].state == (if dead then DeadLetter else Failed)
          && rows[i].attempts == old(rows)[i].attempts + 1
          && rows[i].failureReason == Some(reason) && rows[i].nextAttempt == Some(nextAttempt)
          && rows[i].claimedBy.None? && rows[i].claimedUntil.None?
          && rows[i].id == id && rows[i].createdAt == old(rows)[i].createdAt
          && rows[i].publishedAt == old(rows)[i].publishedAt
        else rows[i] == old(rows)[i]
      ensures rows == Step(old(rows), MarkFailed(id, reason, nextAttempt, dead))
    {
      ghost var after := Step(rows, MarkFailed(id, reason, nextAttempt, dead));
      StepKeepsUniqueIds(rows, MarkFailed(id, reason, nextAttempt, dead));
      var state := if dead then DeadLetter else Failed;
      for i := 0 to |rows|
        invariant |rows| == |old(rows)|
        invariant forall j :: i <= j < |rows| ==> rows[j] == old(rows)[j]
        invariant after == Step(old(rows), MarkFailed(id, reason, nextAttempt, dead)) && |after| == |rows|
        invariant forall j :: 0 <= j < i ==> rows[j] == after[j]
      {
        if rows[i].id == id {
          rows := rows[i := rows[i].(state := state, attempts := rows[i].attempts + 1,
                                     failureReason := Some(reason), nextAttempt := Some(nextAttempt),
                                     claimedBy := None, claimedUntil := None)];
        }
      }
      assert rows == after;
    }
  }

  function IdsOf(rows: seq<OutboxRow>): set<string> { set r | r in rows :: r.id }

  lemma {:induction false} BatchLeasesPicked(rows: seq<OutboxRow>, worker: string, until: int, now: int, limit: int)
    ensures Step(rows, ClaimBatch(worker, until, now, limit))
         == LeaseRows(rows, IdsOf(FirstClaimable(rows, now, limit)), worker, until)
  {
    assert ClaimedBy(rows, ClaimBatch(worker, until, now, limit)) == IdsOf(FirstClaimable(rows, now, limit));
  }

  /** Claiming the rows selected so far leaves the next one claimable, and claiming it adds its id. */
  lemma {:induction false} NextIsStillClaimable(
    before: seq<OutboxRow>, picked: seq<OutboxRow>, i: nat, worker: string, until: int, now: int)
    requires UniqueIds(before) && i < |picked|
    requires forall k :: 0 <= k < |picked| ==> picked[k] in before && Claimable(picked[k], now)
    requires forall j, k :: 0 <= j < k < |picked| ==> picked[j].id != picked[k].id
    ensures var mid := LeaseRows(before, IdsOf(picked[..i]), worker, until);
            && picked[i].id in ClaimedBy(mid, ClaimOne(picked[i].id, worker, until, now))
            && Step(mid, ClaimOne(picked[i].id, worker, until, now))
               == LeaseRows(before, IdsOf(picked[..i + 1]), worker, until)
  {
    var mid := LeaseRows(before, IdsOf(picked[..i]), worker, until);
    var id := picked[i].id;
    assert id !in IdsOf(picked[..i]);
    var at :| 0 <= at < |before| && before[at] == picked[i];
    assert mid[at] == before[at];
    assert IdsOf(picked[..i + 1]) == IdsOf(picked[..i]) + {id};
    assert Step(mid, ClaimOne(id, worker, until, now)) == LeaseRows(before, IdsOf(picked[..i + 1]), worker, until);
  }
}
