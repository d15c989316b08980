/** The audit log's hash chain and the script that corrects old rows and re-links the chain behind them. */
module HashChain {
  import opened Options

  const HASH_VERSION := "v1"
  const GENESIS := "GENESIS"

  datatype Outcome = SUCCESS | FAILURE | DENIED
  datatype Severity = INFO | WARNING | CRITICAL

  /** The recorded event: the columns of a row that its hash covers, besides its place in the chain. */
  datatype Record = Record(
    createdAt: string, action: string, outcome: Outcome, severity: Severity, actorType: string,
    entity: string, entityId: Option<string>, reason: Option<string>)

  datatype Row = Row(id: string, no: int, prevHash: Option<string>, hash: Option<string>, record: Record)

  /** The array that computeHash serialises. */
  datatype Preimage = Preimage(version: string, no: int, prev: string, record: Record)

  /** SHA-256 over the serialised array: any function of it. */
  type Digest = Preimage -> string

  function ComputeHash(digest: Digest, no: int, prevHash: Option<string>, record: Record): string {
    digest(Preimage(HASH_VERSION, no, if prevHash.Some? then prevHash.value else GENESIS, record))
  }

  // ---------------------------------------------------------------- what a valid chain is

  function PredecessorHash(rows: seq<Row>, i: nat): Option<string>
    requires i <= |rows|
  {
    if i == 0 then None else rows[i - 1].hash
  }

  predicate Linked(digest: Digest, rows: seq<Row>, i: nat)
    requires i < |rows|
  {
    && rows[i].prevHash == PredecessorHash(rows, i)
    && rows[i].hash == Some(ComputeHash(digest, rows[i].no, rows[i].prevHash, rows[i].record))
  }

  /** The first `n` rows hold their predecessor's hash and their own recomputed hash. */
  ghost predicate ValidUpTo(digest: Digest, rows: seq<Row>, n: nat) {
    n <= |rows| && forall i :: 0 <= i < n ==> Linked(digest, rows, i)
  }

  ghost predicate Valid(digest: Digest, rows: seq<Row>) {
    ValidUpTo(digest, rows, |rows|)
  }

  /** The unique index on the sequence number, which every query is ordered by. */
  ghost predicate Ordered(rows: seq<Row>) {
    && (forall i, j :: 0 <= i < j < |rows| ==> rows[i].no < rows[j].no)
    && (forall i, j :: 0 <= i < j < |rows| ==> rows[i].id != rows[j].id)
  }

  /** Number of rows with a sequence number of at most `cursor`. */
  function UpTo(rows: seq<Row>, cursor: int): (n: nat)
    ensures n <= |rows|
    ensures forall i :: 0 <= i < n ==> rows[i].no <= cursor
    ensures n < |rows| ==> rows[n].no > cursor
  {
    if rows == [] || rows[0].no > cursor then 0 else 1 + UpTo(rows[1..], cursor)
  }

  // ---------------------------------------------------------------- one-pass re-linking

  /** Re-links a run of rows onto `prev` in one pass. */
  function Chain(digest: Digest, rows: seq<Row>, prev: Option<string>): (out: seq<Row>)
    ensures |out| == |rows|
  {
    if rows == [] then []
    else
      var hash := ComputeHash(digest, rows[0].no, prev, rows[0].record);
      [rows[0].(prevHash := prev, hash := Some(hash))] + Chain(digest, rows[1..], Some(hash))
  }

  function RelinkFrom(digest: Digest, rows: seq<Row>, n: nat): (out: seq<Row>)
    requires n <= |rows|
    ensures |out| == |rows|
  {
    rows[..n] + Chain(digest, rows[n..], PredecessorHash(rows, n))
  }

  lemma {:induction false} ChainAt(digest: Digest, rows: seq<Row>, prev: Option<string>, i: nat)
    requires i < |rows|
    ensures var out := Chain(digest, rows, prev);
      var before := if i == 0 then prev else out[i - 1].hash;
      out[i] == rows[i].(prevHash := before, hash := Some(ComputeHash(digest, rows[i].no, before, rows[i].record)))
  {
    if i > 0 {
      var hash := ComputeHash(digest, rows[0].no, prev, rows[0].record);
      ChainAt(digest, rows[1..], Some(hash), i - 1);
    }
  }

  lemma RelinkAt(digest: Digest, rows: seq<Row>, n: nat, i: nat)
    requires n <= i < |rows|
    ensures var out := RelinkFrom(digest, rows, n);
      var prev := PredecessorHash(out, i);
      out[i] == rows[i].(prevHash := prev, hash := Some(ComputeHash(digest, rows[i].no, prev, rows[i].record)))
  {
    ChainAt(digest, rows[n..], PredecessorHash(rows, n), i - n);
  }

  /** The repair: given a valid chain below row `n`, every row of the result is linked. Nothing but the two
      hash columns changes, and rows below `n` do not change at all. */
  lemma RelinkRepairs(digest: Digest, rows: seq<Row>, n: nat)
    requires ValidUpTo(digest, rows, n)
    ensures Valid(digest, RelinkFrom(digest, rows, n))
    ensures RelinkFrom(digest, rows, n)[..n] == rows[..n]
    ensures forall i :: 0 <= i < |rows| ==>
      var out := RelinkFrom(digest, rows, n);
      out[i] == rows[i].(prevHash := out[i].prevHash, hash := out[i].hash)
  {
    var out := RelinkFrom(digest, rows, n);
    forall i | 0 <= i < |rows|
      ensures Linked(digest, out, i) && out[i] == rows[i].(prevHash := out[i].prevHash, hash := out[i].hash)
    {
      if i >= n {
        RelinkAt(digest, rows, n, i);
      } else {
        assert Linked(digest, rows, i);
      }
    }
  }

  /** The repair is the only one: a valid chain over the same records is determined by them. */
  lemma {:induction false} ValidChainIsUnique(digest: Digest, a: seq<Row>, b: seq<Row>, n: nat)
    requires ValidUpTo(digest, a, n) && ValidUpTo(digest, b, n)
    requires forall i :: 0 <= i < n ==> a[i].(prevHash := None, hash := None) == b[i].(prevHash := None, hash := None)
    ensures a[..n] == b[..n]
  {
    if n > 0 {
      ValidChainIsUnique(digest, a, b, n - 1);
      assert Linked(digest, a, n - 1) && Linked(digest, b, n - 1);
      if n > 1 {
        assert a[n - 2] == a[..n - 1][n - 2] == b[..n - 1][n - 2] == b[n - 2];
      }
      assert a[n - 1].(prevHash := None, hash := None) == b[n - 1].(prevHash := None, hash := None);
      assert a[..n] == a[..n - 1] + [a[n - 1]];
      assert b[..n] == b[..n - 1] + [b[n - 1]];
    }
  }

  function Differences(a: seq<Row>, b: seq<Row>, n: nat): nat
    requires n <= |a| && n <= |b|
  {
    if n == 0 then 0 else Differences(a, b, n - 1) + if a[n - 1] == b[n - 1] then 0 else 1
  }

  lemma {:induction false} NoDifferences(a: seq<Row>, b: seq<Row>, n: nat)
    requires n <= |a| && n <= |b|
    ensures Differences(a, b, n) == 0 <==> a[..n] == b[..n]
  {
    if n > 0 {
      NoDifferences(a, b, n - 1);
      assert a[..n] == a[..n - 1] + [a[n - 1]] && b[..n] == b[..n - 1] + [b[n - 1]];
    }
  }

  /** Re-linking rewrites nothing exactly when the rows from `n` on are linked already. */
  lemma NoWritesIffLinked(digest: Digest, rows: seq<Row>, n: nat)
    requires n <= |rows|
    ensures RelinkFrom(digest, rows, n) == rows <==> forall i :: n <= i < |rows| ==> Linked(digest, rows, i)
  {
    var out := RelinkFrom(digest, rows, n);
    if forall i :: n <= i < |rows| ==> Linked(digest, rows, i) {
      AlreadyLinked(digest, rows, n, |rows|);
      assert out[..|rows|] == out && rows[..|rows|] == rows;
    }
    if out == rows {
      forall i | n <= i < |rows|
        ensures Linked(digest, rows, i)
      {
        RelinkAt(digest, rows, n, i);
      }
    }
  }

  lemma {:induction false} AlreadyLinked(digest: Digest, rows: seq<Row>, n: nat, m: nat)
    requires n <= m <= |rows| && forall i :: n <= i < |rows| ==> Linked(digest, rows, i)
    ensures RelinkFrom(digest, rows, n)[..m] == rows[..m]
  {
    var out := RelinkFrom(digest, rows, n);
    if m > n {
      AlreadyLinked(digest, rows, n, m - 1);
      RelinkAt(digest, rows, n, m - 1);
      assert Linked(digest, rows, m - 1);
      if m > 1 {
        assert out[m - 2] == out[..m - 1][m - 2] == rows[m - 2];
      }
      assert out[..m] == out[..m - 1] + [out[m - 1]] && rows[..m] == rows[..m - 1] + [rows[m - 1]];
    }
  }

  ghost predicate CollisionFree(digest: Digest) {
    && (forall x, y :: digest(x) == digest(y) ==> x == y)
    && (forall x :: digest(x) != GENESIS)
  }

  /** Two linked rows with one hash are one record in one place, and their predecessors' hashes agree. */
  lemma SameHashSameRow(digest: Digest, x: Row, y: Row)
    requires CollisionFree(digest) && x.hash == y.hash
    requires x.hash == Some(ComputeHash(digest, x.no, x.prevHash, x.record))
    requires y.hash == Some(ComputeHash(digest, y.no, y.prevHash, y.record))
    ensures x.no == y.no && x.record == y.record
    ensures (if x.prevHash.Some? then x.prevHash.value else GENESIS) == (if y.prevHash.Some? then y.prevHash.value else GENESIS)
  {
    var p := Preimage(HASH_VERSION, x.no, if x.prevHash.Some? then x.prevHash.value else GENESIS, x.record);
    var q := Preimage(HASH_VERSION, y.no, if y.prevHash.Some? then y.prevHash.value else GENESIS, y.record);
    assert digest(p) == digest(q);
  }

  /** A link is never the placeholder of the first row. */
  lemma LinkIsNotGenesis(digest: Digest, rows: seq<Row>, i: nat)
    requires CollisionFree(digest) && i < |rows| && Linked(digest, rows, i)
    ensures rows[i].hash.Some? && rows[i].hash.value != GENESIS
  {
  }

  /** The last rows of two chains with one head hash agree, and the chains before them have one head hash or
      are both empty. */
  lemma SameHeadSameLast(digest: Digest, a: seq<Row>, b: seq<Row>, i: nat, j: nat)
    requires CollisionFree(digest) && i < |a| && j < |b|
    requires Linked(digest, a, i) && Linked(digest, b, j) && a[i].hash == b[j].hash
    requires (i > 0 ==> Linked(digest, a, i - 1)) && (j > 0 ==> Linked(digest, b, j - 1))
    ensures a[i].(id := "") == b[j].(id := "") && (i == 0 <==> j == 0)
    ensures i > 0 ==> a[i - 1].hash == b[j - 1].hash
  {
    SameHashSameRow(digest, a[i], b[j]);
    if i > 0 { LinkIsNotGenesis(digest, a, i - 1); }
    if j > 0 { LinkIsNotGenesis(digest, b, j - 1); }
  }

  ghost predicate SameUpTo(a: seq<Row>, b: seq<Row>, n: nat) {
    n <= |a| && n <= |b| && forall i :: 0 <= i < n ==> a[i].(id := "") == b[i].(id := "")
  }

  lemma {:induction false} SameHeadSameRows(digest: Digest, a: seq<Row>, b: seq<Row>, n: nat, m: nat)
    requires CollisionFree(digest) && ValidUpTo(digest, a, n) && ValidUpTo(digest, b, m)
    requires n > 0 && m > 0 && a[n - 1].hash == b[m - 1].hash
    ensures n == m && SameUpTo(a, b, n)
    decreases n
  {
    assert Linked(digest, a, n - 1) && Linked(digest, b, m - 1);
    assert n > 1 ==> Linked(digest, a, n - 2);
    assert m > 1 ==> Linked(digest, b, m - 2);
    SameHeadSameLast(digest, a, b, n - 1, m - 1);
    if n > 1 {
      SameHeadSameRows(digest, a, b, n - 1, m - 1);
    }
  }

  /** What the chain is for: with a collision-free digest, the hash of the newest row determines the whole
      log. Any change to a record, its order, an insertion or a deletion changes it. */
  lemma HeadHashDeterminesLog(digest: Digest, a: seq<Row>, b: seq<Row>)
    requires CollisionFree(digest)
    requires Valid(digest, a) && Valid(digest, b) && a != [] && b != []
    requires a[|a| - 1].hash == b[|b| - 1].hash
    ensures |a| == |b| && SameUpTo(a, b, |a|)
  {
    SameHeadSameRows(digest, a, b, |a|, |b|);
  }

  // ---------------------------------------------------------------- the script

  predicate IsTarget(row: Row) {
    row.record.action == "LOGIN_FAILED" && row.record.outcome == SUCCESS
  }

  /** What the script reads before its transaction: the targets, and the smallest of their sequence numbers. */
  datatype Targets = Targets(ids: set<string>, firstNo: Option<int>)

  function TargetIds(rows: seq<Row>): (ids: set<string>)
    ensures forall id :: id in ids <==> exists i :: 0 <= i < |rows| && rows[i].id == id && IsTarget(rows[i])
  {
    set i | 0 <= i < |rows| && IsTarget(rows[i]) :: rows[i].id
  }

  /** The rows are ordered by sequence number, so the first target has the smallest. */
  function FirstTargetNo(rows: seq<Row>): Option<int> {
    if rows == [] then None else if IsTarget(rows[0]) then Some(rows[0].no) else FirstTargetNo(rows[1..])
  }

  function ReadTargets(rows: seq<Row>): Targets {
    Targets(TargetIds(rows), FirstTargetNo(rows))
  }

  lemma {:induction false} FirstTargetNoIs(rows: seq<Row>, n: nat)
    requires n <= |rows| && forall i :: 0 <= i < n ==> !IsTarget(rows[i])
    ensures n == |rows| ==> FirstTargetNo(rows) == None
    ensures n < |rows| && IsTarget(rows[n]) ==> FirstTargetNo(rows) == Some(rows[n].no)
  {
    if n > 0 {
      FirstTargetNoIs(rows[1..], n - 1);
    }
  }

  lemma {:induction false} FirstTargetNoIsLeast(rows: seq<Row>, i: nat)
    requires Ordered(rows) && i < |rows| && IsTarget(rows[i])
    ensures FirstTargetNo(rows).Some? && FirstTargetNo(rows).value <= rows[i].no
  {
    if i > 0 && !IsTarget(rows[0]) {
      FirstTargetNoIsLeast(rows[1..], i - 1);
    }
  }

  /** `updateMany` over the rows with the ids that were read. */
  function Corrected(row: Row, ids: set<string>): Row {
    if row.id in ids then row.(record := row.record.(outcome := FAILURE, severity := WARNING)) else row
  }

  function CorrectAll(rows: seq<Row>, ids: set<string>): (out: seq<Row>)
    ensures |out| == |rows| && forall i :: 0 <= i < |rows| ==> out[i] == Corrected(rows[i], ids)
  {
    seq(|rows|, i requires 0 <= i < |rows| => Corrected(rows[i], ids))
  }

  /** The transaction, on the rows that it finds. */
  function BackfilledLog(digest: Digest, rows: seq<Row>, targets: Targets): seq<Row> {
    match targets.firstNo
    case None => CorrectAll(rows, targets.ids)
    case Some(no) => RelinkFrom(digest, CorrectAll(rows, targets.ids), UpTo(rows, no - 1))
  }

  /** Rows may come and go between the read and the transaction, but keep their ids and sequence numbers. */
  ghost predicate SameNumbers(before: seq<Row>, rows: seq<Row>) {
    forall i, j :: 0 <= i < |before| && 0 <= j < |rows| && before[i].id == rows[j].id ==> before[i].no == rows[j].no
  }

  /** No row before the point from which the chain is re-linked is corrected. */
  lemma CorrectedAreRelinked(before: seq<Row>, rows: seq<Row>, j: nat)
    requires Ordered(before) && SameNumbers(before, rows) && j < |rows| && rows[j].id in TargetIds(before)
    ensures FirstTargetNo(before).Some? && FirstTargetNo(before).value <= rows[j].no
  {
    var i :| 0 <= i < |before| && before[i].id == rows[j].id && IsTarget(before[i]);
    FirstTargetNoIsLeast(before, i);
  }

  /** A corrected row is a failure with a warning, and is otherwise the event that was recorded. */
  lemma CorrectedRecord(row: Row, ids: set<string>)
    ensures var out := Corrected(row, ids);
      && out.id == row.id && out.no == row.no && out.prevHash == row.prevHash && out.hash == row.hash
      && (row.id !in ids ==> out.record == row.record)
      && (row.id in ids ==>
            && out.record.outcome == FAILURE && out.record.severity == WARNING
            && out.record.createdAt == row.record.createdAt && out.record.action == row.record.action
            && out.record.actorType == row.record.actorType && out.record.entity == row.record.entity
            && out.record.entityId == row.record.entityId && out.record.reason == row.record.reason)
  {
  }

  lemma BackfilledRow(digest: Digest, before: seq<Row>, rows: seq<Row>, i: nat)
    requires Ordered(before) && Ordered(rows) && SameNumbers(before, rows) && i < |rows|
    ensures var targets := ReadTargets(before);
      var out := BackfilledLog(digest, rows, targets);
      && |out| == |rows|
      && out[i] == Corrected(rows[i], targets.ids).(prevHash := out[i].prevHash, hash := out[i].hash)
      && (targets.firstNo.None? || rows[i].no < targets.firstNo.value ==> out[i] == rows[i])
  {
    var targets := ReadTargets(before);
    if rows[i].id in targets.ids {
      CorrectedAreRelinked(before, rows, i);
    }
    if targets.firstNo.Some? {
      var n := UpTo(rows, targets.firstNo.value - 1);
      if n <= i {
        assert rows[n].no <= rows[i].no;
        RelinkAt(digest, CorrectAll(rows, targets.ids), n, i);
      }
    }
  }

  /** Position from which the transaction re-links. */
  function RelinkStart(rows: seq<Row>, targets: Targets): (n: nat)
    ensures n <= |rows|
  {
    if targets.firstNo.Some? then UpTo(rows, targets.firstNo.value - 1) else |rows|
  }

  lemma PrefixUncorrected(before: seq<Row>, rows: seq<Row>, i: nat)
    requires Ordered(before) && SameNumbers(before, rows) && i < RelinkStart(rows, ReadTargets(before))
    ensures rows[i].id !in TargetIds(before)
  {
    if rows[i].id in TargetIds(before) {
      CorrectedAreRelinked(before, rows, i);
    }
  }

  lemma BackfillKeepsChain(digest: Digest, before: seq<Row>, rows: seq<Row>)
    requires Ordered(before) && SameNumbers(before, rows) && Valid(digest, rows)
    ensures Valid(digest, BackfilledLog(digest, rows, ReadTargets(before)))
  {
    var targets := ReadTargets(before);
    var corrected, n := CorrectAll(rows, targets.ids), RelinkStart(rows, targets);
    forall i: nat | i < n
      ensures corrected[i] == rows[i]
    {
      PrefixUncorrected(before, rows, i);
    }
    SamePrefix(digest, rows, corrected, n);
    if targets.firstNo.Some? {
      RelinkRepairs(digest, corrected, n);
    }
  }

  lemma SamePrefix(digest: Digest, rows: seq<Row>, out: seq<Row>, n: nat)
    requires Valid(digest, rows) && |out| == |rows| && n <= |rows| && forall i :: 0 <= i < n ==> out[i] == rows[i]
    ensures ValidUpTo(digest, out, n)
  {
    forall i: nat | i < n
      ensures Linked(digest, out, i)
    {
      assert Linked(digest, rows, i);
    }
  }

  lemma CorrectedKeepPlace(rows: seq<Row>, ids: set<string>, cursor: int)
    requires Ordered(rows)
    ensures Ordered(CorrectAll(rows, ids)) && UpTo(CorrectAll(rows, ids), cursor) == UpTo(rows, cursor)
  {
    var out := CorrectAll(rows, ids);
    assert forall i :: 0 <= i < |rows| ==> out[i].id == rows[i].id && out[i].no == rows[i].no;
    CursorPosition(out, cursor, UpTo(rows, cursor));
  }

  /** Main result. Whatever was appended or removed since the targets were read (`before`), the transaction
      corrects exactly those of them that it finds, changes nothing else but hash columns, leaves every row below
      the first target as it was, and turns a valid log into a valid log. The targets that remain are those that
      were not read. */
  lemma BackfillIsSound(digest: Digest, before: seq<Row>, rows: seq<Row>)
    requires Ordered(before) && Ordered(rows) && SameNumbers(before, rows)
    ensures var targets := ReadTargets(before);
      var out := BackfilledLog(digest, rows, targets);
      && |out| == |rows|
      && (forall i :: 0 <= i < |rows| ==>
            out[i] == Corrected(rows[i], targets.ids).(prevHash := out[i].prevHash, hash := out[i].hash))
      && (forall i :: 0 <= i < |rows| && (targets.firstNo.None? || rows[i].no < targets.firstNo.value) ==> out[i] == rows[i])
      && (Valid(digest, rows) ==> Valid(digest, out))
      && TargetIds(out) == TargetIds(rows) - targets.ids
  {
    var targets := ReadTargets(before);
    var out := BackfilledLog(digest, rows, targets);
    forall i: nat | i < |rows|
      ensures |out| == |rows|
      ensures out[i] == Corrected(rows[i], targets.ids).(prevHash := out[i].prevHash, hash := out[i].hash)
      ensures (targets.firstNo.None? || rows[i].no < targets.firstNo.value) ==> out[i] == rows[i]
    {
      BackfilledRow(digest, before, rows, i);
    }
    if Valid(digest, rows) {
      BackfillKeepsChain(digest, before, rows);
    }
    RemainingTargets(rows, out, targets.ids);
  }

  lemma RemainingTargets(rows: seq<Row>, out: seq<Row>, ids: set<string>)
    requires |out| == |rows|
    requires forall i :: 0 <= i < |rows| ==>
      out[i] == Corrected(rows[i], ids).(prevHash := out[i].prevHash, hash := out[i].hash)
    ensures TargetIds(out) == TargetIds(rows) - ids
  {
    forall id ensures id in TargetIds(out) <==> id in TargetIds(rows) && id !in ids {
      if id in TargetIds(rows) && id !in ids {
        var i :| 0 <= i < |rows| && rows[i].id == id && IsTarget(rows[i]);
        assert out[i].id == id && IsTarget(out[i]);
      }
    }
  }

  /** Run again on an unchanged table, the script finds no target and changes nothing. */
  lemma BackfillIsDoneOnce(digest: Digest, rows: seq<Row>)
    requires Ordered(rows)
    ensures var out := BackfilledLog(digest, rows, ReadTargets(rows));
      TargetIds(out) == {} && BackfilledLog(digest, out, ReadTargets(out)) == out
    ensures var out := BackfilledLog(digest, rows, ReadTargets(rows));
      |out| == |rows| && forall i :: 0 <= i < |rows| ==>
        out[i].record == if rows[i].record.action == "LOGIN_FAILED" && rows[i].record.outcome == SUCCESS
                         then rows[i].record.(outcome := FAILURE, severity := WARNING) else rows[i].record
  {
    var out := BackfilledLog(digest, rows, ReadTargets(rows));
    BackfillIsSound(digest, rows, rows);
    assert TargetIds(out) == {};
    forall i | 0 <= i < |out| ensures !IsTarget(out[i]) {
      assert out[i].id !in TargetIds(out);
    }
    FirstTargetNoIs(out, |out|);
    assert CorrectAll(out, {}) == out;
  }

  /** The chained rows of the audit log, ordered by their unique sequence number. */
  class AuditLog {
    var rows: seq<Row>

    constructor (rows: seq<Row>)
      ensures this.rows == rows
    {
      this.rows := rows;
    }

    /** `findMany` with `seq > cursor`, ascending, at most `take` rows; `pos` rows are not after the cursor. */
    method FindAfter(cursor: int, take: nat, ghost pos: nat) returns (batch: seq<Row>)
      requires Ordered(rows) && pos <= |rows|
      requires (pos > 0 ==> rows[pos - 1].no <= cursor) && (pos < |rows| ==> rows[pos].no > cursor)
      ensures |batch| == if pos + take <= |rows| then take else |rows| - pos
      ensures forall k :: 0 <= k < |batch| ==> batch[k] == rows[pos + k]
    {
      CursorPosition(rows, cursor, pos);
      var n := UpTo(rows, cursor);
      batch := if n + take <= |rows| then rows[n..n + take] else rows[n..];
    }

    /** `update` of the two hash columns of the row with this id. */
    method UpdateHashes(ghost at: nat, id: string, prevHash: Option<string>, hash: string)
      requires Ordered(rows) && at < |rows| && rows[at].id == id
      modifies this
      ensures rows == old(rows)[at := old(rows)[at].(prevHash := prevHash, hash := Some(hash))]
    {
      rows := seq(|rows|, i requires 0 <= i < |rows| reads this =>
        if rows[i].id == id then rows[i].(prevHash := prevHash, hash := Some(hash)) else rows[i]);
    }

    /** One turn of the inner loop: the row at `pos` is rewritten only if a hash column differs. */
    method RelinkRow(digest: Digest, row: Row, prevHash: Option<string>, ghost before: seq<Row>, ghost goal: seq<Row>, ghost pos: nat)
      returns (hash: string, wrote: bool)
      requires Ordered(before) && PartWay(rows, before, goal, pos) && pos < |before| && row == before[pos]
      requires RelinkedRow(digest, before[pos], prevHash, goal[pos])
      requires forall i :: 0 <= i < |before| ==> goal[i].id == before[i].id && goal[i].no == before[i].no
      modifies this
      ensures PartWay(rows, before, goal, pos + 1)
      ensures Some(hash) == goal[pos].hash
      ensures wrote <==> goal[pos] != before[pos]
    {
      PartWayOrdered(rows, before, goal, pos);
      hash := ComputeHash(digest, row.no, prevHash, row.record);
      wrote := row.prevHash != prevHash || row.hash != Some(hash);
      if wrote {
        UpdateHashes(pos, row.id, prevHash, hash);
      }
    }

    /** The inner loop over one batch. */
    method RelinkBatch(digest: Digest, batch: seq<Row>, prevHash: Option<string>, ghost before: seq<Row>, ghost goal: seq<Row>, ghost start: nat)
      returns (lastHash: Option<string>, wrote: nat)
      requires Ordered(before) && PartWay(rows, before, goal, start)
      requires start + |batch| <= |before| && forall k :: 0 <= k < |batch| ==> batch[k] == before[start + k]
      requires IsGoal(digest, before, goal, start)
      requires prevHash == PredecessorHash(goal, start)
      modifies this
      ensures PartWay(rows, before, goal, start + |batch|)
      ensures lastHash == PredecessorHash(goal, start + |batch|)
      ensures wrote + Differences(before, goal, start) == Differences(before, goal, start + |batch|)
    {
      lastHash, wrote := prevHash, 0;
      for k := 0 to |batch|
        invariant PartWay(rows, before, goal, start + k)
        invariant lastHash == PredecessorHash(goal, start + k)
        invariant wrote + Differences(before, goal, start) == Differences(before, goal, start + k)
      {
        assert GoalRow(digest, before, goal, start + k);
        var hash, changed := RelinkRow(digest, batch[k], lastHash, before, goal, start + k);
        if changed {
          wrote := wrote + 1;
        }
        lastHash := Some(hash);
      }
    }

    /** The query for the batch at `pos` while the loop is part way. */
    method NextBatch(cursor: int, take: nat, ghost before: seq<Row>, ghost goal: seq<Row>, ghost pos: nat)
      returns (batch: seq<Row>)
      requires PartWay(rows, before, goal, pos) && Ordered(before)
      requires forall i :: 0 <= i < |before| ==> goal[i].id == before[i].id && goal[i].no == before[i].no
      requires (pos > 0 ==> before[pos - 1].no <= cursor) && (pos < |before| ==> before[pos].no > cursor)
      ensures |batch| == if pos + take <= |before| then take else |before| - pos
      ensures forall k :: 0 <= k < |batch| ==> batch[k] == before[pos + k]
    {
      PartWayOrdered(rows, before, goal, pos);
      batch := FindAfter(cursor, take, pos);
    }

    /** The re-link loop: batches of rows behind a cursor, from the row after the first `n` on. */
    method RelinkLoop(digest: Digest, firstNo: int, predHash: Option<string>, batchSize: nat,
                      ghost before: seq<Row>, ghost goal: seq<Row>, ghost n: nat)
      returns (relinked: nat)
      requires batchSize >= 1 && Ordered(before) && PartWay(rows, before, goal, n)
      requires (n > 0 ==> before[n - 1].no < firstNo) && (n < |before| ==> before[n].no >= firstNo)
      requires predHash == PredecessorHash(goal, n)
      requires IsGoal(digest, before, goal, n)
      modifies this
      ensures rows == goal
      ensures relinked + Differences(before, goal, n) == Differences(before, goal, |goal|)
    {
      ghost var pos := n;
      var prevHash, cursor := predHash, firstNo - 1;
      relinked := 0;
      var batch := NextBatch(cursor, batchSize, before, goal, pos);
      while batch != []
        invariant n <= pos && pos + |batch| <= |before| && (batch == [] ==> pos == |before|)
        invariant PartWay(rows, before, goal, pos)
        invariant prevHash == PredecessorHash(goal, pos)
        invariant forall k :: 0 <= k < |batch| ==> batch[k] == before[pos + k]
        invariant relinked + Differences(before, goal, n) == Differences(before, goal, pos)
        decreases |before| - pos
      {
        var wrote;
        prevHash, wrote := RelinkBatch(digest, batch, prevHash, before, goal, pos);
        relinked := relinked + wrote;
        cursor := batch[|batch| - 1].no;
        pos := pos + |batch|;
        batch := NextBatch(cursor, batchSize, before, goal, pos);
      }
    }

    /** The predecessor's hash, then the loop. */
    method Relink(digest: Digest, firstNo: int, batchSize: nat) returns (relinked: nat)
      requires Ordered(rows) && batchSize >= 1
      modifies this
      ensures rows == RelinkFrom(digest, old(rows), UpTo(old(rows), firstNo - 1))
      ensures relinked == Differences(old(rows), rows, |rows|)
    {
      var n := UpTo(rows, firstNo - 1);
      ghost var before, goal := rows, RelinkFrom(digest, rows, n);
      RelinkShape(digest, rows, n);
      NoDifferences(before, goal, n);
      relinked := RelinkLoop(digest, firstNo, PredecessorHash(rows, n), batchSize, before, goal, n);
    }

    /** The transaction of the script with --apply, on the targets read before it. */
    method Backfill(digest: Digest, targets: Targets, batchSize: nat) returns (relinked: nat)
      requires Ordered(rows) && batchSize >= 1
      modifies this
      ensures rows == BackfilledLog(digest, old(rows), targets)
    {
      relinked := 0;
      CorrectedKeepPlace(rows, targets.ids, if targets.firstNo.Some? then targets.firstNo.value - 1 else 0);
      rows := CorrectAll(rows, targets.ids);
      if targets.firstNo.None? {
        return;
      }
      relinked := Relink(digest, targets.firstNo.value, batchSize);
    }

    /** The query for the targets, and the minimum of their sequence numbers. */
    method FindTargets() returns (targets: Targets)
      ensures targets == ReadTargets(rows)
    {
      var first := 0;
      while first < |rows| && !IsTarget(rows[first])
        invariant first <= |rows|
        invariant forall i :: 0 <= i < first ==> !IsTarget(rows[i])
      {
        first := first + 1;
      }
      FirstTargetNoIs(rows, first);
      targets := Targets(TargetIds(rows), if first < |rows| then Some(rows[first].no) else None);
    }
  }

  /** `out` is `row` linked to `prev`. */
  predicate RelinkedRow(digest: Digest, row: Row, prev: Option<string>, out: Row) {
    out == row.(prevHash := prev, hash := Some(ComputeHash(digest, row.no, prev, row.record)))
  }

  ghost predicate GoalRow(digest: Digest, before: seq<Row>, goal: seq<Row>, i: nat) {
    i < |before| == |goal| && RelinkedRow(digest, before[i], PredecessorHash(goal, i), goal[i])
  }

  /** `goal` re-links `before` from row `n` on and keeps every row's identity. */
  ghost predicate IsGoal(digest: Digest, before: seq<Row>, goal: seq<Row>, n: nat) {
    && |goal| == |before|
    && (forall i: nat :: n <= i < |before| ==> GoalRow(digest, before, goal, i))
    && (forall i :: 0 <= i < |before| ==> goal[i].id == before[i].id && goal[i].no == before[i].no)
  }

  lemma RelinkShape(digest: Digest, before: seq<Row>, n: nat)
    requires n <= |before|
    ensures var goal := RelinkFrom(digest, before, n);
      && goal[..n] == before[..n]
      && PredecessorHash(goal, n) == PredecessorHash(before, n)
      && IsGoal(digest, before, goal, n)
  {
    var goal := RelinkFrom(digest, before, n);
    forall i: nat | n <= i < |before|
      ensures GoalRow(digest, before, goal, i)
    {
      RelinkAt(digest, before, n, i);
    }
    forall i | 0 <= i < |before|
      ensures goal[i].id == before[i].id && goal[i].no == before[i].no
    {
      if n <= i { assert GoalRow(digest, before, goal, i); }
    }
  }

  /** The table while the loop has re-linked the rows before `pos`. */
  ghost predicate PartWay(rows: seq<Row>, before: seq<Row>, goal: seq<Row>, pos: nat) {
    && |rows| == |before| == |goal| && pos <= |rows|
    && (forall i :: 0 <= i < pos ==> rows[i] == goal[i])
    && (forall i :: pos <= i < |rows| ==> rows[i] == before[i])
  }

  lemma PartWayOrdered(rows: seq<Row>, before: seq<Row>, goal: seq<Row>, pos: nat)
    requires PartWay(rows, before, goal, pos) && Ordered(before)
    requires forall i :: 0 <= i < |before| ==> goal[i].id == before[i].id && goal[i].no == before[i].no
    ensures Ordered(rows)
    ensures forall i :: 0 <= i < |rows| ==> rows[i].no == before[i].no
  {
    assert forall i :: 0 <= i < |rows| ==> rows[i].id == before[i].id && rows[i].no == before[i].no;
  }

  /** The rows up to a cursor are determined by where its sequence number falls. */
  lemma {:induction false} CursorPosition(rows: seq<Row>, cursor: int, n: nat)
    requires Ordered(rows) && n <= |rows|
    requires n > 0 ==> rows[n - 1].no <= cursor
    requires n < |rows| ==> rows[n].no > cursor
    ensures UpTo(rows, cursor) == n
  {
    if n > 0 {
      assert rows[0].no <= rows[n - 1].no;
      CursorPosition(rows[1..], cursor, n - 1);
    }
  }
}
