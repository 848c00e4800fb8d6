/**
 The durable event_history table, reduced to the columns its conditional upsert reads and
 writes. A blank text stands for SQL NULL: every writer binds its columns through nullStr.
 */
module EventTable {

  datatype Kind =
    | ChildWorkflow
    | AwaitChild
    | AwaitAnyChild
    | AwaitAllChildren
    | AwaitPromise
    | OtherKind(name: string)

  datatype Row = Row(
    kind: Kind,
    runID: string,
    request: string,
    response: string,
    error: string,
    promiseResult: string,
    promiseError: string,
    createdAt: nat)

  type Entry<K> = (K, Row)

  /** A row the conflict clause may still complete. */
  predicate Open(r: Row) {
    && (r.kind == AwaitChild || r.kind == AwaitPromise || r.kind == AwaitAllChildren)
    && r.response == "" && r.error == "" && r.promiseResult == "" && r.promiseError == ""
  }

  /** The SET list of the conflict clause: run id, request and creation time are not in it. */
  function Merge(stored: Row, incoming: Row): Row {
    stored.(kind := incoming.kind, response := incoming.response, error := incoming.error,
            promiseResult := incoming.promiseResult, promiseError := incoming.promiseError)
  }

  function Upsert<K>(t: map<K, Row>, k: K, r: Row): map<K, Row> {
    if k !in t then t[k := r]
    else if Open(t[k]) then t[k := Merge(t[k], r)]
    else t
  }

  /** A completed row: what was settled comes from the incoming row, its identity from the stored one. */
  predicate Completes(stored: Row, incoming: Row, now: Row) {
    && now.kind == incoming.kind && now.response == incoming.response && now.error == incoming.error
    && now.promiseResult == incoming.promiseResult && now.promiseError == incoming.promiseError
    && now.runID == stored.runID && now.request == stored.request && now.createdAt == stored.createdAt
  }

  /** What a table holds at a key after a row was written there: the row itself over nothing, its
      completion over an open row, and any other row as it was. */
  predicate RowAfter<K>(t: map<K, Row>, k: K, r: Row, now: Row) {
    if k !in t then now == r
    else if Open(t[k]) then Completes(t[k], r, now)
    else now == t[k]
  }

  /** One write touches one key. An open await or promise takes the incoming result and error, and
      nothing else changes a row that is there. */
  lemma {:induction false} UpsertWrites<K>(t: map<K, Row>, k: K, r: Row)
    ensures var u := Upsert(t, k, r);
            && u.Keys == t.Keys + {k} && RowAfter(t, k, r, u[k])
            && (forall j :: j in t && j != k ==> u[j] == t[j])
  {
  }

  /** A row that is there changes only if it awaits a child, a promise or all children and has no outcome
      yet, and then it always takes the incoming one. */
  lemma {:induction false} OnlyAwaitsComplete<K>(t: map<K, Row>, k: K, r: Row)
    requires k in t
    ensures var o, now := t[k], Upsert(t, k, r)[k];
            var awaits := o.kind in {AwaitChild, AwaitPromise, AwaitAllChildren}
                          && [o.response, o.error, o.promiseResult, o.promiseError] == ["", "", "", ""];
            (now != o ==> awaits) && (awaits ==> Completes(o, r, now))
  {
    var o := t[k];
    var texts := [o.response, o.error, o.promiseResult, o.promiseError];
    assert texts == ["", "", "", ""] ==> texts[0] == texts[1] == texts[2] == texts[3] == "";
    assert Open(o) ==> texts == ["", "", "", ""];
  }

  /** The effect of one INSERT ... ON CONFLICT statement over a whole batch, if it is accepted. */
  function ApplyBatch<K>(t: map<K, Row>, batch: seq<Entry<K>>): map<K, Row> {
    if batch == [] then t
    else
      var n := |batch| - 1;
      Upsert(ApplyBatch(t, batch[..n]), batch[n].0, batch[n].1)
  }

  function ApplyBatches<K>(t: map<K, Row>, batches: seq<seq<Entry<K>>>): map<K, Row> {
    if batches == [] then t
    else ApplyBatch(ApplyBatches(t, batches[..|batches| - 1]), batches[|batches| - 1])
  }

  // ---- Rows are write-once -------------------------------------------------------------

  /** `later` is what a row may have become: itself, or, while it was open, a completion that
      keeps the identity columns. */
  predicate Advances(earlier: Row, later: Row) {
    && later.runID == earlier.runID && later.request == earlier.request
    && later.createdAt == earlier.createdAt
    && (!Open(earlier) ==> later == earlier)
  }

  predicate TableAdvances<K>(t: map<K, Row>, u: map<K, Row>) {
    forall k :: k in t ==> k in u && Advances(t[k], u[k])
  }

  lemma {:induction false} BatchAdvances<K>(t: map<K, Row>, batch: seq<Entry<K>>)
    ensures TableAdvances(t, ApplyBatch(t, batch))
  {
    if batch != [] { BatchAdvances(t, batch[..|batch| - 1]); }
  }

  /** Under any sequence of flushes a row only moves from absent to open to settled; a settled
      row never changes and no row ever changes its run id, request or timestamp. */
  lemma {:induction false} RowsAreWriteOnce<K>(t: map<K, Row>, batches: seq<seq<Entry<K>>>)
    ensures TableAdvances(t, ApplyBatches(t, batches))
  {
    if batches != [] {
      var before := ApplyBatches(t, batches[..|batches| - 1]);
      RowsAreWriteOnce(t, batches[..|batches| - 1]);
      BatchAdvances(before, batches[|batches| - 1]);
    }
  }

  // ---- Retrying a whole batch ------------------------------------------------------------

  /** The rows a batch writes at one key, in batch order. */
  function At<K(==)>(batch: seq<Entry<K>>, k: K): seq<Row> {
    if batch == [] then []
    else
      var n := |batch| - 1;
      At(batch[..n], k) + (if batch[n].0 == k then [batch[n].1] else [])
  }

  datatype Cell = Absent | Present(row: Row)

  function Get<K>(t: map<K, Row>, k: K): Cell {
    if k in t then Present(t[k]) else Absent
  }

  function Write(c: Cell, r: Row): Cell {
    match c
    case Absent => Present(r)
    case Present(o) => if Open(o) then Present(Merge(o, r)) else c
  }

  function WriteAll(c: Cell, rs: seq<Row>): Cell {
    if rs == [] then c else Write(WriteAll(c, rs[..|rs| - 1]), rs[|rs| - 1])
  }

  lemma {:induction false} BatchAtKey<K>(t: map<K, Row>, batch: seq<Entry<K>>, k: K)
    ensures Get(ApplyBatch(t, batch), k) == WriteAll(Get(t, k), At(batch, k))
  {
    if batch != [] {
      var n := |batch| - 1;
      BatchAtKey(t, batch[..n], k);
      if batch[n].0 == k {
        var rs := At(batch, k);
        assert rs[..|rs| - 1] == At(batch[..n], k);
      } else {
        assert At(batch, k) == At(batch[..n], k);
      }
    }
  }

  lemma {:induction false} SettledCellIsFinal(c: Cell, rs: seq<Row>)
    requires c.Present? && !Open(c.row)
    ensures WriteAll(c, rs) == c
  {
    if rs != [] { SettledCellIsFinal(c, rs[..|rs| - 1]); }
  }

  /** Writing rows that are all open leaves the first identity with the last content. */
  lemma {:induction false} OpenWritesKeepLast(c: Cell, rs: seq<Row>)
    requires rs != [] && (forall i :: 0 <= i < |rs| ==> Open(rs[i]))
    requires c.Present? ==> Open(c.row)
    ensures WriteAll(c, rs)
         == Present(Merge(if c.Present? then c.row else rs[0], rs[|rs| - 1]))
  {
    if |rs| > 1 { OpenWritesKeepLast(c, rs[..|rs| - 1]); }
    else { assert WriteAll(c, rs[..0]) == c; }
  }

  lemma {:induction false} OpenResultMeansOpenWrites(c: Cell, rs: seq<Row>)
    requires WriteAll(c, rs).Present? && Open(WriteAll(c, rs).row)
    ensures forall i :: 0 <= i < |rs| ==> Open(rs[i])
    ensures c.Present? ==> Open(c.row)
  {
    if rs != [] {
      var n := |rs| - 1;
      var c' := WriteAll(c, rs[..n]);
      if c'.Present? { OpenResultMeansOpenWrites(c, rs[..n]); }
      else { OnlyNothingIsAbsent(c, rs[..n]); }
    }
  }

  lemma {:induction false} OnlyNothingIsAbsent(c: Cell, rs: seq<Row>)
    ensures WriteAll(c, rs).Absent? <==> c.Absent? && rs == []
  {
    if rs != [] { OnlyNothingIsAbsent(c, rs[..|rs| - 1]); }
  }

  lemma {:induction false} WriteAllTwice(c: Cell, rs: seq<Row>)
    ensures WriteAll(WriteAll(c, rs), rs) == WriteAll(c, rs)
  {
    var once := WriteAll(c, rs);
    OnlyNothingIsAbsent(c, rs);
    if rs != [] {
      if Open(once.row) {
        OpenResultMeansOpenWrites(c, rs);
        OpenWritesKeepLast(c, rs);
        OpenWritesKeepLast(once, rs);
      } else {
        SettledCellIsFinal(once, rs);
      }
    }
  }

  lemma {:induction false} SameCellsSameTable<K>(t: map<K, Row>, u: map<K, Row>)
    requires forall k :: Get(t, k) == Get(u, k)
    ensures t == u
  {
    forall k ensures k in t <==> k in u {
      assert Get(t, k) == Get(u, k);
    }
    forall k | k in t ensures t[k] == u[k] {
      assert Get(t, k) == Get(u, k);
    }
  }

  /** The statement may not write a row twice: it is refused when a key that it inserts or completes
      comes up again. */
  predicate Rejects<K(==)>(t: map<K, Row>, batch: seq<Entry<K>>) {
    exists i, j :: 0 <= i < j < |batch| && batch[i].0 == batch[j].0 && (batch[i].0 !in t || Open(t[batch[i].0]))
  }

  /** Executing the statement: the table after it, and whether it was accepted. */
  function Execute<K(==)>(t: map<K, Row>, batch: seq<Entry<K>>): (map<K, Row>, bool) {
    if Rejects(t, batch) then (t, false) else (ApplyBatch(t, batch), true)
  }

  function ExecuteAll<K(==)>(t: map<K, Row>, batches: seq<seq<Entry<K>>>): map<K, Row> {
    if batches == [] then t
    else Execute(ExecuteAll(t, batches[..|batches| - 1]), batches[|batches| - 1]).0
  }

  lemma {:induction false} AppliedTwice<K>(t: map<K, Row>, batch: seq<Entry<K>>)
    ensures ApplyBatch(ApplyBatch(t, batch), batch) == ApplyBatch(t, batch)
  {
    var once := ApplyBatch(t, batch);
    forall k ensures Get(ApplyBatch(once, batch), k) == Get(once, k) {
      BatchAtKey(t, batch, k);
      BatchAtKey(once, batch, k);
      WriteAllTwice(Get(t, k), At(batch, k));
    }
    SameCellsSameTable(ApplyBatch(once, batch), once);
  }

  lemma {:induction false} StaysAccepted<K>(t: map<K, Row>, u: map<K, Row>, batch: seq<Entry<K>>)
    requires TableAdvances(t, u) && !Rejects(t, batch)
    ensures !Rejects(u, batch)
  {
  }

  /** A batch whose commit was uncertain may be sent again whole: the second copy changes nothing, and
      is accepted or refused as the first was. */
  lemma {:induction false} BatchIsIdempotent<K>(t: map<K, Row>, batch: seq<Entry<K>>)
    ensures Execute(Execute(t, batch).0, batch) == Execute(t, batch)
  {
    if !Rejects(t, batch) {
      BatchAdvances(t, batch);
      StaysAccepted(t, ApplyBatch(t, batch), batch);
      AppliedTwice(t, batch);
    }
  }

  // ---- With other batches in between ---------------------------------------------------------

  /** The row at a key is settled, or open by an await of the same kind as `r`. */
  predicate Fits(c: Cell, r: Row) {
    c.Present? && (Open(c.row) ==> Open(r) && c.row.kind == r.kind)
  }

  predicate SameAwait(r: Row, e: Row) {
    Open(r) && Open(e) ==> e.kind == r.kind
  }

  /** Two open awaits written at one key, by the batch and by another, are of one kind. */
  predicate SameAwaits<K(==)>(batch: seq<Entry<K>>, others: seq<seq<Entry<K>>>) {
    forall i, b, x ::
      0 <= i < |batch| && 0 <= b < |others| && 0 <= x < |others[b]| && others[b][x].0 == batch[i].0 ==>
        SameAwait(batch[i].1, others[b][x].1)
  }

  lemma {:induction false} FitsWrites(c: Cell, rs: seq<Row>, r: Row)
    requires Fits(c, r) && forall i :: 0 <= i < |rs| ==> SameAwait(r, rs[i])
    ensures Fits(WriteAll(c, rs), r)
  {
    if rs != [] { FitsWrites(c, rs[..|rs| - 1], r); }
  }

  lemma {:induction false} AtSameAwait<K>(batch: seq<Entry<K>>, k: K, r: Row)
    requires forall i :: 0 <= i < |batch| && batch[i].0 == k ==> SameAwait(r, batch[i].1)
    ensures forall i :: 0 <= i < |At(batch, k)| ==> SameAwait(r, At(batch, k)[i])
  {
    if batch != [] { AtSameAwait(batch[..|batch| - 1], k, r); }
  }

  lemma {:induction false} FitsAfter<K>(t: map<K, Row>, batches: seq<seq<Entry<K>>>, k: K, r: Row)
    requires Fits(Get(t, k), r)
    requires forall b, i :: 0 <= b < |batches| && 0 <= i < |batches[b]| && batches[b][i].0 == k ==>
               SameAwait(r, batches[b][i].1)
    ensures Fits(Get(ExecuteAll(t, batches), k), r)
  {
    if batches != [] {
      var n := |batches| - 1;
      FitsAfter(t, batches[..n], k, r);
      AtSameAwait(batches[n], k, r);
      var before := ExecuteAll(t, batches[..n]);
      BatchAtKey(before, batches[n], k);
      FitsWrites(Get(before, k), At(batches[n], k), r);
    }
  }

  lemma {:induction false} AtOnce<K>(batch: seq<Entry<K>>, i: nat)
    requires i < |batch| && forall j :: 0 <= j < |batch| && j != i ==> batch[j].0 != batch[i].0
    ensures At(batch, batch[i].0) == [batch[i].1]
  {
    var n := |batch| - 1;
    if i < n {
      AtOnce(batch[..n], i);
    } else {
      AtNowhere(batch[..n], batch[i].0);
    }
  }

  lemma {:induction false} AtNowhere<K>(batch: seq<Entry<K>>, k: K)
    requires forall j :: 0 <= j < |batch| ==> batch[j].0 != k
    ensures At(batch, k) == []
  {
    if batch != [] { AtNowhere(batch[..|batch| - 1], k); }
  }

  lemma {:induction false} ExecutesAdvance<K>(t: map<K, Row>, batches: seq<seq<Entry<K>>>)
    ensures TableAdvances(t, ExecuteAll(t, batches))
  {
    if batches != [] {
      ExecutesAdvance(t, batches[..|batches| - 1]);
      BatchAdvances(ExecuteAll(t, batches[..|batches| - 1]), batches[|batches| - 1]);
    }
  }

  /** At each key the retried copy finds what it would write, or a settled row. */
  lemma {:induction false} RetryAtKey<K>(t: map<K, Row>, batch: seq<Entry<K>>, others: seq<seq<Entry<K>>>, k: K)
    requires !Rejects(t, batch)
    requires SameAwaits(batch, others)
    ensures var now := ExecuteAll(ApplyBatch(t, batch), others);
            WriteAll(Get(now, k), At(batch, k)) == Get(now, k)
  {
    var once := ApplyBatch(t, batch);
    var now := ExecuteAll(once, others);
    ExecutesAdvance(once, others);
    BatchAdvances(t, batch);
    if At(batch, k) == [] {
    } else if k in t && !Open(t[k]) {
      SettledCellIsFinal(Get(now, k), At(batch, k));
    } else {
      var i := KeyIndex(batch, k);
      assert forall j :: 0 <= j < |batch| && j != i ==> batch[j].0 != k;
      AtOnce(batch, i);
      BatchAtKey(t, batch, k);
      WriteAllOne(Get(t, k), batch[i].1);
      FitsAfter(once, others, k, batch[i].1);
      WriteAllOne(Get(now, k), batch[i].1);
    }
  }

  lemma {:induction false} KeyIndex<K>(batch: seq<Entry<K>>, k: K) returns (i: nat)
    requires At(batch, k) != []
    ensures i < |batch| && batch[i].0 == k
  {
    var n := |batch| - 1;
    i := n;
    if batch[n].0 != k { i := KeyIndex(batch[..n], k); }
  }

  lemma {:induction false} WriteAllOne(c: Cell, r: Row)
    ensures WriteAll(c, [r]) == Write(c, r)
  {
    assert [r][..0] == [];
    assert WriteAll(c, []) == c;
  }

  /** The same holds when other batches commit between the two copies, open awaits included, as long as
      two open awaits written at one step are of one kind. */
  lemma {:induction false} RetryAfterOtherBatches<K>(t: map<K, Row>, batch: seq<Entry<K>>, others: seq<seq<Entry<K>>>)
    requires Execute(t, batch).1
    requires SameAwaits(batch, others)
    ensures var now := ExecuteAll(Execute(t, batch).0, others);
            Execute(now, batch) == (now, true)
  {
    var once := ApplyBatch(t, batch);
    var now := ExecuteAll(once, others);
    BatchAdvances(t, batch);
    ExecutesAdvance(once, others);
    StaysAccepted(t, once, batch);
    StaysAccepted(once, now, batch);
    forall k ensures Get(ApplyBatch(now, batch), k) == Get(now, k) {
      BatchAtKey(now, batch, k);
      RetryAtKey(t, batch, others, k);
    }
    SameCellsSameTable(ApplyBatch(now, batch), now);
  }

  // ---- What an accepted batch leaves ---------------------------------------------------------

  /** Each entry of an accepted batch is written at its own key. */
  lemma {:induction false} ExecutedAt<K>(t: map<K, Row>, batch: seq<Entry<K>>, i: nat)
    requires Execute(t, batch).1 && i < |batch|
    ensures var k, u := batch[i].0, Execute(t, batch).0;
            k in u && RowAfter(t, k, batch[i].1, u[k])
  {
    var k := batch[i].0;
    BatchAtKey(t, batch, k);
    if k in t && !Open(t[k]) {
      SettledCellIsFinal(Get(t, k), At(batch, k));
    } else {
      assert forall j :: 0 <= j < |batch| && j != i ==> batch[j].0 != k;
      AtOnce(batch, i);
      WriteAllOne(Get(t, k), batch[i].1);
    }
  }

  /** No other key changes. */
  lemma {:induction false} ExecutedElsewhere<K>(t: map<K, Row>, batch: seq<Entry<K>>, k: K)
    requires forall i :: 0 <= i < |batch| ==> batch[i].0 != k
    ensures Get(Execute(t, batch).0, k) == Get(t, k)
  {
    AtNowhere(batch, k);
    BatchAtKey(t, batch, k);
  }
}
