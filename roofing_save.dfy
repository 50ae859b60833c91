/**
 * Saving a roofing milestone: the participant allocations and the manager
 * override allocations are written by "update the row with this key if there
 * is one, otherwise add a new row". The key of a participant row is
 * (sale, user, milestone); the key of an override row is (sale, user, level),
 * without the milestone.
 *
 * The writes a save makes are computed first as a sequence of `AmountWrite`s;
 * `ApplyWrites` is their effect on the allocation table, and the save
 * handlers are proved to leave the table equal to it.
 */
module RoofingSave {
  import opened Common
  import opened Money
  import opened Store
  import opened RoofingCalculator

  // ---------- Keys and lookups ----------

  /** The physical table a row lives in; identity values are per table. */
  datatype Table = IndustryTable(industry: Industry) | OverrideTable

  function TableOf(s: Source): Table
  {
    if s.Participant? then IndustryTable(s.industry) else OverrideTable
  }

  /** The columns an existing row is looked up by before it is saved. */
  datatype RowKey = RowKey(saleId: int, userId: int, source: Source)

  /** One "save this amount under this key" step; `allocationTypeId` is what a newly added row gets. */
  datatype AmountWrite = AmountWrite(key: RowKey, amount: real, allocationTypeId: Option<int>)

  function KeyOf(a: Allocation): RowKey
  {
    RowKey(a.saleId, a.userId, a.source)
  }

  /** The `FirstOrDefaultAsync` looking for an existing row with key `k`. */
  function FindKey(rows: seq<Allocation>, k: RowKey): (r: Option<nat>)
    ensures r.Some? ==> r.value < |rows| && KeyOf(rows[r.value]) == k
    ensures r.Some? ==> forall j :: 0 <= j < r.value ==> KeyOf(rows[j]) != k
    ensures r.None? ==> forall j :: 0 <= j < |rows| ==> KeyOf(rows[j]) != k
  {
    IndexWhere(rows, (a: Allocation) => KeyOf(a) == k)
  }

  /** The first-match lookup is determined by where the key first occurs. */
  lemma FindKeyIs(rows: seq<Allocation>, k: RowKey, r: Option<nat>)
    requires r.Some? ==> r.value < |rows| && KeyOf(rows[r.value]) == k
    requires r.Some? ==> forall j :: 0 <= j < r.value ==> KeyOf(rows[j]) != k
    requires r.None? ==> forall j :: 0 <= j < |rows| ==> KeyOf(rows[j]) != k
    ensures FindKey(rows, k) == r
  {
  }

  /** Two tables with the same keys row by row give every lookup the same answer. */
  lemma FindKeySameKeys(rows: seq<Allocation>, rows': seq<Allocation>, k: RowKey)
    requires |rows| == |rows'|
    requires forall i :: 0 <= i < |rows| ==> KeyOf(rows'[i]) == KeyOf(rows[i])
    ensures FindKey(rows', k) == FindKey(rows, k)
  {
    FindKeyIs(rows', k, FindKey(rows, k));
  }

  /** A row added at the end is found only when no earlier row has its key. */
  lemma FindKeyAppend(rows: seq<Allocation>, x: Allocation, k: RowKey)
    ensures FindKey(rows + [x], k) ==
              if FindKey(rows, k).Some? then FindKey(rows, k)
              else if KeyOf(x) == k then Some(|rows|)
              else None
  {
    var r := if FindKey(rows, k).Some? then FindKey(rows, k) else if KeyOf(x) == k then Some(|rows|) else None;
    FindKeyIs(rows + [x], k, r);
  }

  /** No two rows share a key. */
  predicate KeysUnique(rows: seq<Allocation>)
  {
    forall i, j :: 0 <= i < j < |rows| ==> KeyOf(rows[i]) != KeyOf(rows[j])
  }

  /** No two rows of the same physical table share an identity value. */
  predicate IdsUnique(rows: seq<Allocation>)
  {
    forall i, j :: 0 <= i < j < |rows| && TableOf(rows[i].source) == TableOf(rows[j].source) ==>
      rows[i].allocationId != rows[j].allocationId
  }

  /** The identity value the table `t` gives its next row. */
  function NextRowId(rows: seq<Allocation>, t: Table): (id: int)
    ensures id >= 1
    ensures forall j :: 0 <= j < |rows| && TableOf(rows[j].source) == t ==> rows[j].allocationId < id
  {
    NextId(rows, (a: Allocation) => if TableOf(a.source) == t then a.allocationId else 0)
  }

  /** A newly added allocation: unapproved, unpaid, in no batch, created and updated now. */
  function NewRow(id: int, w: AmountWrite, now: int): (a: Allocation)
    ensures KeyOf(a) == w.key && a.allocatedAmount == w.amount
    ensures !a.isApproved && !a.isPaid && a.payrollBatchId.None?
    ensures a.createdAt == now && a.updatedAt == now
  {
    Allocation(id, w.key.source, w.key.saleId, w.key.userId, w.allocationTypeId, w.amount,
               false, None, None, false, None, None, now, now)
  }

  /** An existing allocation given a new amount; nothing else about it changes. */
  function Refresh(a: Allocation, amount: real, now: int): Allocation
  {
    a.(allocatedAmount := amount, updatedAt := now)
  }

  // ---------- The upsert ----------

  /** One upsert, looking the key up in `seen` and applying the change to
      `rows`, whose first `|seen|` rows have the keys of `seen`. */
  function UpsertAgainst(seen: seq<Allocation>, rows: seq<Allocation>, w: AmountWrite, now: int): seq<Allocation>
    requires |seen| <= |rows|
  {
    match FindKey(seen, w.key)
    case Some(i) => rows[i := Refresh(rows[i], w.amount, now)]
    case None => rows + [NewRow(NextRowId(rows, TableOf(w.key.source)), w, now)]
  }

  /** An upsert against `seen` either refreshes the row where `seen` has the
      key, leaving all others as they were, or adds one new row at the end;
      it keeps every key and every identity value distinct per table. */
  lemma UpsertAgainstFacts(seen: seq<Allocation>, rows: seq<Allocation>, w: AmountWrite, now: int)
    requires |seen| <= |rows|
    ensures var r := UpsertAgainst(seen, rows, w, now);
      && |rows| <= |r| <= |rows| + 1
      && (|r| == |rows| + 1 <==> FindKey(seen, w.key).None?)
      && (forall i :: 0 <= i < |rows| ==> KeyOf(r[i]) == KeyOf(rows[i]))
      && (forall i :: 0 <= i < |rows| ==> r[i] == Refresh(rows[i], r[i].allocatedAmount, r[i].updatedAt))
      && (|r| == |rows| + 1 ==> r[|rows|] == NewRow(r[|rows|].allocationId, w, now))
      && (forall i :: 0 <= i < |rows| && FindKey(seen, w.key) != Some(i) ==> r[i] == rows[i])
      && (FindKey(seen, w.key).Some? ==>
            r[FindKey(seen, w.key).value] == Refresh(rows[FindKey(seen, w.key).value], w.amount, now))
      && (IdsUnique(rows) ==> IdsUnique(r))
  {
  }

  /** The upsert as it should behave: the lookup sees every row, including
      those added earlier in the same save. */
  function Upsert(rows: seq<Allocation>, w: AmountWrite, now: int): seq<Allocation>
  {
    UpsertAgainst(rows, rows, w, now)
  }

  /** The upsert refreshes the first row with the key or adds a row; either
      way the key is then found, holding the written amount stamped `now`,
      and keys and identity values stay distinct. */
  lemma UpsertFacts(rows: seq<Allocation>, w: AmountWrite, now: int)
    ensures var r := Upsert(rows, w, now);
      && |rows| <= |r| <= |rows| + 1
      && (|r| == |rows| + 1 <==> FindKey(rows, w.key).None?)
      && (forall i :: 0 <= i < |rows| ==> KeyOf(r[i]) == KeyOf(rows[i]))
      && (forall i :: 0 <= i < |rows| ==> r[i] == Refresh(rows[i], r[i].allocatedAmount, r[i].updatedAt))
      && (|r| == |rows| + 1 ==> r[|rows|] == NewRow(r[|rows|].allocationId, w, now))
      && (forall i :: 0 <= i < |rows| && FindKey(rows, w.key) != Some(i) ==> r[i] == rows[i])
      && (FindKey(rows, w.key).Some? ==>
            r[FindKey(rows, w.key).value] == Refresh(rows[FindKey(rows, w.key).value], w.amount, now))
      && (IdsUnique(rows) ==> IdsUnique(r))
      && FindKey(r, w.key).Some?
      && r[FindKey(r, w.key).value].allocatedAmount == w.amount
      && r[FindKey(r, w.key).value].updatedAt == now
      && (FindKey(rows, w.key).Some? ==> FindKey(r, w.key) == FindKey(rows, w.key) && |r| == |rows|)
      && (KeysUnique(rows) ==> KeysUnique(r))
  {
    UpsertAgainstFacts(rows, rows, w, now);
    var r := Upsert(rows, w, now);
    if FindKey(rows, w.key).Some? {
      FindKeySameKeys(rows, r, w.key);
    } else {
      assert r == rows + [r[|rows|]];
      FindKeyAppend(rows, r[|rows|], w.key);
    }
  }

  /** The effect of a sequence of writes, made one after another. */
  function ApplyWrites(rows: seq<Allocation>, ws: seq<AmountWrite>, now: int): seq<Allocation>
  {
    if ws == [] then rows
    else Upsert(ApplyWrites(rows, ws[..|ws| - 1], now), ws[|ws| - 1], now)
  }

  /** Writes keep every row that was there, under its key, and may add rows after them. */
  lemma {:induction false} ApplyWritesKeys(rows: seq<Allocation>, ws: seq<AmountWrite>, now: int)
    ensures |rows| <= |ApplyWrites(rows, ws, now)|
    ensures forall i :: 0 <= i < |rows| ==> KeyOf(ApplyWrites(rows, ws, now)[i]) == KeyOf(rows[i])
  {
    if ws != [] {
      ApplyWritesKeys(rows, ws[..|ws| - 1], now);
      UpsertFacts(ApplyWrites(rows, ws[..|ws| - 1], now), ws[|ws| - 1], now);
    }
  }

  /** Writes made one after another keep one row per key and one id per table. */
  lemma {:induction false} ApplyWritesUnique(rows: seq<Allocation>, ws: seq<AmountWrite>, now: int)
    ensures KeysUnique(rows) ==> KeysUnique(ApplyWrites(rows, ws, now))
    ensures IdsUnique(rows) ==> IdsUnique(ApplyWrites(rows, ws, now))
  {
    if ws != [] {
      ApplyWritesUnique(rows, ws[..|ws| - 1], now);
      UpsertFacts(ApplyWrites(rows, ws[..|ws| - 1], now), ws[|ws| - 1], now);
    }
  }

  /** The upsert as written: the lookup only sees `committed`, the rows that
      were in the database when the save began; rows added earlier in the same
      save are pending and invisible to it. */
  function ApplyWritesCommitted(committed: seq<Allocation>, rows: seq<Allocation>, ws: seq<AmountWrite>, now: int)
    : (r: seq<Allocation>)
    requires |committed| <= |rows|
    ensures |rows| <= |r|
  {
    if ws == [] then rows
    else
      var prev := ApplyWritesCommitted(committed, rows, ws[..|ws| - 1], now);
      UpsertAgainstFacts(committed, prev, ws[|ws| - 1], now);
      UpsertAgainst(committed, prev, ws[|ws| - 1], now)
  }

  /** The amount the last write with key `k` saves, if any write has that key. */
  function LastWrite(ws: seq<AmountWrite>, k: RowKey): (r: Option<real>)
    ensures r.None? <==> forall i :: 0 <= i < |ws| ==> ws[i].key != k
    ensures r.Some? ==> exists i :: 0 <= i < |ws| && ws[i].key == k && ws[i].amount == r.value
  {
    if ws == [] then None
    else if ws[|ws| - 1].key == k then Some(ws[|ws| - 1].amount)
    else
      var r := LastWrite(ws[..|ws| - 1], k);
      assert forall i :: 0 <= i < |ws| - 1 ==> ws[..|ws| - 1][i] == ws[i];
      r
  }

  // ---------- Properties of the upsert ----------

  /** Writing `a` then `b` is writing `a + b`. */
  lemma {:induction false} ApplyWritesAppend(rows: seq<Allocation>, a: seq<AmountWrite>, b: seq<AmountWrite>, now: int)
    ensures ApplyWrites(rows, a + b, now) == ApplyWrites(ApplyWrites(rows, a, now), b, now)
    decreases |b|
  {
    if b == [] {
      assert a + b == a;
    } else {
      assert (a + b)[..|a + b| - 1] == a + b[..|b| - 1];
      ApplyWritesAppend(rows, a, b[..|b| - 1], now);
    }
  }

  /** The first write is made first. */
  lemma ApplyWritesCons(rows: seq<Allocation>, w: AmountWrite, ws: seq<AmountWrite>, now: int)
    ensures ApplyWrites(rows, [w] + ws, now) == ApplyWrites(Upsert(rows, w, now), ws, now)
  {
    ApplyWritesAppend(rows, [w], ws, now);
    assert ApplyWrites(rows, [w], now) == Upsert(ApplyWrites(rows, [], now), w, now);
  }

  /** Rows that were already there keep their id, key, approval, payment,
      batch and creation time; only the amount and the update time change. */
  lemma {:induction false} ApplyWritesKeepsRowState(rows: seq<Allocation>, ws: seq<AmountWrite>, now: int)
    ensures |rows| <= |ApplyWrites(rows, ws, now)|
    ensures var r := ApplyWrites(rows, ws, now);
      forall i :: 0 <= i < |rows| ==> r[i] == Refresh(rows[i], r[i].allocatedAmount, r[i].updatedAt)
  {
    if ws != [] {
      ApplyWritesKeepsRowState(rows, ws[..|ws| - 1], now);
      UpsertFacts(ApplyWrites(rows, ws[..|ws| - 1], now), ws[|ws| - 1], now);
    }
  }

  /** After the writes, each written key is found, and its row holds the
      amount of the last write with that key, stamped `now`. A key that was
      already present is found at the same row as before. */
  lemma {:induction false} Settled(rows: seq<Allocation>, ws: seq<AmountWrite>, now: int, k: RowKey)
    ensures var r := ApplyWrites(rows, ws, now);
      FindKey(rows, k).Some? ==> FindKey(r, k) == FindKey(rows, k)
    ensures var r := ApplyWrites(rows, ws, now);
      LastWrite(ws, k).Some? ==>
        FindKey(r, k).Some? && r[FindKey(r, k).value].allocatedAmount == LastWrite(ws, k).value
        && r[FindKey(r, k).value].updatedAt == now
  {
    if ws != [] {
      var w := ws[|ws| - 1];
      var prev := ApplyWrites(rows, ws[..|ws| - 1], now);
      Settled(rows, ws[..|ws| - 1], now, k);
      UpsertFacts(prev, w, now);
      if w.key != k {
        var r := Upsert(prev, w, now);
        var found := FindKey(prev, w.key);
        if found.Some? {
          FindKeySameKeys(prev, r, k);
        } else {
          assert r == prev + [r[|prev|]];
          FindKeyAppend(prev, r[|prev|], k);
        }
      }
    }
  }

  /** A row is left exactly as it was unless it is the first row with a written key. */
  lemma {:induction false} UnwrittenRowsUntouched(rows: seq<Allocation>, ws: seq<AmountWrite>, now: int)
    ensures |rows| <= |ApplyWrites(rows, ws, now)|
    ensures var r := ApplyWrites(rows, ws, now);
      forall i :: 0 <= i < |rows| && (LastWrite(ws, KeyOf(rows[i])).None? || FindKey(rows, KeyOf(rows[i])) != Some(i))
        ==> r[i] == rows[i]
  {
    if ws != [] {
      var w := ws[|ws| - 1];
      var prev := ApplyWrites(rows, ws[..|ws| - 1], now);
      UnwrittenRowsUntouched(rows, ws[..|ws| - 1], now);
      ApplyWritesKeys(rows, ws[..|ws| - 1], now);
      Settled(rows, ws[..|ws| - 1], now, w.key);
      UpsertFacts(prev, w, now);
      var found := FindKey(prev, w.key);
      if found.Some? {
        forall i | 0 <= i < |rows| && (LastWrite(ws, KeyOf(rows[i])).None? || FindKey(rows, KeyOf(rows[i])) != Some(i))
          ensures ApplyWrites(rows, ws, now)[i] == rows[i]
        {
          if KeyOf(rows[i]) == w.key {
            FindKeySameKeys(rows, prev[..|rows|], w.key);
            assert FindKey(prev[..|rows|], w.key) == found by {
              FindKeyIs(prev[..|rows|], w.key, found);
            }
          }
        }
      }
    }
  }

  /** A row added by the writes: a key that was written and absent before, not approved, paid or batched. */
  predicate AddedRow(rows: seq<Allocation>, ws: seq<AmountWrite>, now: int, a: Allocation)
  {
    LastWrite(ws, KeyOf(a)).Some? && FindKey(rows, KeyOf(a)).None?
    && !a.isApproved && !a.isPaid && a.payrollBatchId.None? && a.createdAt == now
  }

  /** Writing more keeps every earlier `AddedRow` one, even after its amount is refreshed. */
  lemma AddedRowKept(rows: seq<Allocation>, init: seq<AmountWrite>, w: AmountWrite, now: int, a: Allocation, a': Allocation)
    requires AddedRow(rows, init, now, a)
    requires a' == Refresh(a, a'.allocatedAmount, a'.updatedAt)
    ensures AddedRow(rows, init + [w], now, a')
  {
    assert (init + [w])[..|init|] == init;
  }

  /** Rows added by the writes come after the old ones, and each is an `AddedRow`. */
  lemma {:induction false} AddedRows(rows: seq<Allocation>, ws: seq<AmountWrite>, now: int)
    ensures forall i :: |rows| <= i < |ApplyWrites(rows, ws, now)| ==>
              AddedRow(rows, ws, now, ApplyWrites(rows, ws, now)[i])
  {
    if ws != [] {
      var w := ws[|ws| - 1];
      var init := ws[..|ws| - 1];
      assert ws == init + [w];
      var prev := ApplyWrites(rows, init, now);
      AddedRows(rows, init, now);
      ApplyWritesKeys(rows, init, now);
      var r := Upsert(prev, w, now);
      UpsertFacts(prev, w, now);
      forall i | |rows| <= i < |r|
        ensures AddedRow(rows, ws, now, r[i])
      {
        if i < |prev| {
          AddedRowKept(rows, init, w, now, prev[i], r[i]);
        } else {
          FindKeySameKeys(rows, prev[..|rows|], w.key);
        }
      }
    }
  }

  /** The row `before[i]` after writes whose keys were all present: the first
      row with a written key takes the last amount written for it. */
  function OverwrittenRow(before: seq<Allocation>, ws: seq<AmountWrite>, now: int, i: nat): Allocation
    requires i < |before|
  {
    var k := KeyOf(before[i]);
    if FindKey(before, k) == Some(i) && LastWrite(ws, k).Some? then Refresh(before[i], LastWrite(ws, k).value, now)
    else before[i]
  }

  /** One more write with a present key moves each row from its `OverwrittenRow` for the earlier writes to the one for all of them. */
  lemma OverwrittenRowStep(rows: seq<Allocation>, init: seq<AmountWrite>, w: AmountWrite, now: int,
                           prev: seq<Allocation>, r: seq<Allocation>, i: nat)
    requires i < |rows| == |prev| == |r|
    requires FindKey(rows, w.key).Some?
    requires prev[i] == OverwrittenRow(rows, init, now, i)
    requires FindKey(rows, w.key) != Some(i) ==> r[i] == prev[i]
    requires FindKey(rows, w.key) == Some(i) ==> r[i] == Refresh(prev[i], w.amount, now)
    ensures r[i] == OverwrittenRow(rows, init + [w], now, i)
  {
    var ws := init + [w];
    assert ws[..|ws| - 1] == init;
  }

  /** When every written key is already present, the writes add no row and
      change each row as `OverwrittenRow` says. */
  lemma {:induction false} OverwriteWhenPresent(rows: seq<Allocation>, ws: seq<AmountWrite>, now: int)
    requires forall j :: 0 <= j < |ws| ==> FindKey(rows, ws[j].key).Some?
    ensures |ApplyWrites(rows, ws, now)| == |rows|
    ensures forall i :: 0 <= i < |rows| ==> ApplyWrites(rows, ws, now)[i] == OverwrittenRow(rows, ws, now, i)
  {
    if ws != [] {
      var w := ws[|ws| - 1];
      var init := ws[..|ws| - 1];
      assert ws == init + [w];
      assert forall j :: 0 <= j < |init| ==> init[j] == ws[j];
      OverwriteWhenPresent(rows, init, now);
      var prev := ApplyWrites(rows, init, now);
      FindKeySameKeys(rows, prev, w.key);
      var r := Upsert(prev, w, now);
      assert r == ApplyWrites(rows, ws, now);
      forall i | 0 <= i < |rows|
        ensures r[i] == OverwrittenRow(rows, ws, now, i)
      {
        OverwrittenRowStep(rows, init, w, now, prev, r, i);
      }
    }
  }

  /** Saving the same writes again, at any later time, adds no row and
      changes no amount, approval, payment or batch; only update times move.
      Saving them again with the same timestamp changes nothing at all. */
  lemma ResaveChangesOnlyTimestamps(rows: seq<Allocation>, ws: seq<AmountWrite>, now: int, later: int)
    ensures var a := ApplyWrites(rows, ws, now);
      |ApplyWrites(a, ws, later)| == |a|
      && (forall i :: 0 <= i < |a| ==> ApplyWrites(a, ws, later)[i] == a[i].(updatedAt := ApplyWrites(a, ws, later)[i].updatedAt))
    ensures ApplyWrites(ApplyWrites(rows, ws, now), ws, now) == ApplyWrites(rows, ws, now)
  {
    var a := ApplyWrites(rows, ws, now);
    forall j | 0 <= j < |ws|
      ensures FindKey(a, ws[j].key).Some?
    {
      Settled(rows, ws, now, ws[j].key);
    }
    OverwriteWhenPresent(a, ws, later);
    OverwriteWhenPresent(a, ws, now);
    forall i | 0 <= i < |a|
      ensures OverwrittenRow(a, ws, later, i) == a[i].(updatedAt := OverwrittenRow(a, ws, later, i).updatedAt)
      ensures OverwrittenRow(a, ws, now, i) == a[i]
    {
      Settled(rows, ws, now, KeyOf(a[i]));
    }
  }

  // ---------- Pending rows: as written and as intended ----------

  /** When no key is written twice, looking only at the committed rows makes
      no difference: the save as written and the intended upsert agree. */
  lemma {:induction false} CommittedAgreesWhenKeysDistinct(rows: seq<Allocation>, ws: seq<AmountWrite>, now: int)
    requires forall i, j :: 0 <= i < j < |ws| ==> ws[i].key != ws[j].key
    ensures ApplyWritesCommitted(rows, rows, ws, now) == ApplyWrites(rows, ws, now)
  {
    if ws != [] {
      var w := ws[|ws| - 1];
      var init := ws[..|ws| - 1];
      CommittedAgreesWhenKeysDistinct(rows, init, now);
      var prev := ApplyWrites(rows, init, now);
      Settled(rows, init, now, w.key);
      ApplyWritesKeys(rows, init, now);
      if FindKey(rows, w.key).None? {
        AddedRows(rows, init, now);
        forall j | 0 <= j < |prev|
          ensures KeyOf(prev[j]) != w.key
        {
          if j >= |rows| {
            assert AddedRow(rows, init, now, prev[j]);
          }
        }
        FindKeyIs(prev, w.key, None);
      }
    }
  }

  /** Two writes with the same key in one save, against a table without that
      key: as written, both add a row, leaving two rows with the key; the
      intended upsert adds one row and updates it. */
  lemma DuplicateRowsAsWritten(w: AmountWrite, now: int)
    ensures |ApplyWritesCommitted([], [], [w, w], now)| == 2
    ensures KeyOf(ApplyWritesCommitted([], [], [w, w], now)[0]) == w.key
    ensures KeyOf(ApplyWritesCommitted([], [], [w, w], now)[1]) == w.key
    ensures !KeysUnique(ApplyWritesCommitted([], [], [w, w], now))
    ensures |ApplyWrites([], [w, w], now)| == 1
    ensures KeysUnique(ApplyWrites([], [w, w], now))
  {
    assert [w, w][..1] == [w];
    assert [w][..0] == [];
    assert FindKey([], w.key).None?;
    var none: seq<Allocation> := [];
    assert ApplyWritesCommitted(none, none, [], now) == none;
    assert ApplyWrites(none, [], now) == none;
    var c1 := ApplyWritesCommitted([], [], [w], now);
    assert c1 == UpsertAgainst([], [], w, now);
    assert ApplyWritesCommitted([], [], [w, w], now) == UpsertAgainst([], c1, w, now);
    var once := ApplyWrites([], [w], now);
    assert once == Upsert([], w, now);
    assert ApplyWrites([], [w, w], now) == Upsert(once, w, now);
  }

  // ---------- What a milestone save writes ----------

  /** The override writes `SaveOverrideAllocationsAsync` makes from `level`
      on, standing at `current`: each active manager above, up to level 5,
      with an amount when a rate applies and pays more than zero. Unlike the
      preview walk, it does not stop when the chain leads back to the sales
      rep. */
  function SaveWalk(employees: map<int, Employee>, rates: seq<CommissionRate>, saleId: int,
                    current: int, level: int, base: real, m: int, saleDate: int)
    : (ws: seq<AmountWrite>)
    requires level >= 1
    ensures ws != [] ==> level + |ws| <= MaxOverrideLevels + 1
    ensures forall i :: 0 <= i < |ws| ==>
              && ws[i].key.saleId == saleId && ws[i].key.source.Override?
              && level <= ws[i].key.source.overrideLevel <= MaxOverrideLevels
              && ws[i].amount > 0.0 && ws[i].allocationTypeId.None?
    decreases MaxOverrideLevels + 1 - level
  {
    if level > MaxOverrideLevels then []
    else
      match ActiveManager(employees, current)
      case None => []
      case Some(manager) =>
        var rest := SaveWalk(employees, rates, saleId, manager, level + 1, base, m, saleDate);
        match FindBestMatchingRate(rates, OverrideQuery(manager, saleDate))
        case None => rest
        case Some(rate) =>
          var amount := CalculateAllocationAmount(base, m, rate);
          if amount > 0.0 then [AmountWrite(RowKey(saleId, manager, Override(level)), amount, None)] + rest else rest
  }

  /** A preview override line as the write the save makes for it. */
  function LineAsWrite(saleId: int, line: OverrideLine): AmountWrite
  {
    AmountWrite(RowKey(saleId, line.userId, Override(line.overrideLevel)), line.amount, None)
  }

  function LinesAsWrites(saleId: int, lines: seq<OverrideLine>): (ws: seq<AmountWrite>)
    ensures |ws| == |lines|
    ensures forall i :: 0 <= i < |lines| ==> ws[i] == LineAsWrite(saleId, lines[i])
  {
    if lines == [] then [] else [LineAsWrite(saleId, lines[0])] + LinesAsWrites(saleId, lines[1..])
  }

  /** The preview's override lines are a prefix of the save's override writes. */
  lemma {:induction false} PreviewOverridesPrefixSave(employees: map<int, Employee>, rates: seq<CommissionRate>,
                                                      saleId: int, salesRep: int, current: int, level: int,
                                                      base: real, m: int, saleDate: int)
    requires level >= 1
    ensures var lw := LinesAsWrites(saleId, PreviewWalk(employees, rates, salesRep, current, level, base, m, saleDate));
      var sw := SaveWalk(employees, rates, saleId, current, level, base, m, saleDate);
      |lw| <= |sw| && sw[..|lw|] == lw
    decreases MaxOverrideLevels + 1 - level
  {
    var lw := LinesAsWrites(saleId, PreviewWalk(employees, rates, salesRep, current, level, base, m, saleDate));
    var sw := SaveWalk(employees, rates, saleId, current, level, base, m, saleDate);
    if level <= MaxOverrideLevels && ActiveManager(employees, current).Some? {
      var manager := ActiveManager(employees, current).value;
      if manager != salesRep {
        PreviewOverridesPrefixSave(employees, rates, saleId, salesRep, manager, level + 1, base, m, saleDate);
        var h := OverrideStepWrite(rates, saleId, manager, level, base, m, saleDate);
        var lw' := LinesAsWrites(saleId, PreviewWalk(employees, rates, salesRep, manager, level + 1, base, m, saleDate));
        var sw' := SaveWalk(employees, rates, saleId, manager, level + 1, base, m, saleDate);
        PrefixStep(employees, rates, saleId, salesRep, current, level, base, m, saleDate, manager);
        PrefixConcat(h, lw', sw');
        assert lw == h + lw';
        assert sw == h + sw';
      } else {
        assert PreviewWalk(employees, rates, salesRep, current, level, base, m, saleDate) == [];
        assert lw == [];
      }
    } else {
      assert PreviewWalk(employees, rates, salesRep, current, level, base, m, saleDate) == [];
      assert lw == [];
    }
  }

  lemma PrefixConcat<T>(h: seq<T>, a: seq<T>, b: seq<T>)
    requires |a| <= |b| && b[..|a|] == a
    ensures |h + a| <= |h + b| && (h + b)[..|h + a|] == h + a
  {
    assert (h + b)[..|h + a|] == h + b[..|a|];
  }

  /** When no employee reports to the sales rep, the preview's override lines and the save's override writes are the same. */
  lemma {:induction false} PreviewOverridesSaveWithoutCycle(employees: map<int, Employee>, rates: seq<CommissionRate>,
                                                            saleId: int, salesRep: int, current: int, level: int,
                                                            base: real, m: int, saleDate: int)
    requires level >= 1
    requires forall u :: u in employees ==> employees[u].managerId != Some(salesRep)
    ensures LinesAsWrites(saleId, PreviewWalk(employees, rates, salesRep, current, level, base, m, saleDate))
            == SaveWalk(employees, rates, saleId, current, level, base, m, saleDate)
    decreases MaxOverrideLevels + 1 - level
  {
    if level <= MaxOverrideLevels && ActiveManager(employees, current).Some? {
      var manager := ActiveManager(employees, current).value;
      assert employees[current].managerId == Some(manager);
      PreviewOverridesSaveWithoutCycle(employees, rates, saleId, salesRep, manager, level + 1, base, m, saleDate);
      var h := OverrideStepWrite(rates, saleId, manager, level, base, m, saleDate);
      var lw := LinesAsWrites(saleId, PreviewWalk(employees, rates, salesRep, manager, level + 1, base, m, saleDate));
      var sw := SaveWalk(employees, rates, saleId, manager, level + 1, base, m, saleDate);
      assert lw == sw;
      PrefixStep(employees, rates, saleId, salesRep, current, level, base, m, saleDate, manager);
      assert h + lw == h + sw;
      assert LinesAsWrites(saleId, PreviewWalk(employees, rates, salesRep, current, level, base, m, saleDate)) == h + lw;
      assert SaveWalk(employees, rates, saleId, current, level, base, m, saleDate) == h + sw;
    } else {
      assert PreviewWalk(employees, rates, salesRep, current, level, base, m, saleDate) == [];
      assert SaveWalk(employees, rates, saleId, current, level, base, m, saleDate) == [];
    }
  }

  /** The write a manager's override rate makes at a level, if it pays more than zero. */
  function OverrideStepWrite(rates: seq<CommissionRate>, saleId: int, manager: int, level: int,
                             base: real, m: int, saleDate: int): (ws: seq<AmountWrite>)
    ensures |ws| <= 1
  {
    match FindBestMatchingRate(rates, OverrideQuery(manager, saleDate))
    case None => []
    case Some(rate) =>
      var amount := CalculateAllocationAmount(base, m, rate);
      if amount > 0.0 then [AmountWrite(RowKey(saleId, manager, Override(level)), amount, None)] else []
  }

  /** One level of the save walk: the write at this level, then the walk above. */
  lemma SaveWalkStep(employees: map<int, Employee>, rates: seq<CommissionRate>, saleId: int, current: int, level: int,
                     base: real, m: int, saleDate: int, manager: int)
    requires 1 <= level <= MaxOverrideLevels
    requires ActiveManager(employees, current) == Some(manager)
    ensures SaveWalk(employees, rates, saleId, current, level, base, m, saleDate)
            == OverrideStepWrite(rates, saleId, manager, level, base, m, saleDate)
               + SaveWalk(employees, rates, saleId, manager, level + 1, base, m, saleDate)
  {
    var rate := FindBestMatchingRate(rates, OverrideQuery(manager, saleDate));
    if !(rate.Some? && CalculateAllocationAmount(base, m, rate.value) > 0.0) {
      assert OverrideStepWrite(rates, saleId, manager, level, base, m, saleDate) == [];
    }
  }

  /** One level of both walks, below a manager who is not the sales rep: both add the same write. */
  lemma PrefixStep(employees: map<int, Employee>, rates: seq<CommissionRate>,
                   saleId: int, salesRep: int, current: int, level: int,
                   base: real, m: int, saleDate: int, manager: int)
    requires 1 <= level <= MaxOverrideLevels
    requires ActiveManager(employees, current) == Some(manager) && manager != salesRep
    ensures LinesAsWrites(saleId, PreviewWalk(employees, rates, salesRep, current, level, base, m, saleDate))
            == OverrideStepWrite(rates, saleId, manager, level, base, m, saleDate)
               + LinesAsWrites(saleId, PreviewWalk(employees, rates, salesRep, manager, level + 1, base, m, saleDate))
    ensures SaveWalk(employees, rates, saleId, current, level, base, m, saleDate)
            == OverrideStepWrite(rates, saleId, manager, level, base, m, saleDate)
               + SaveWalk(employees, rates, saleId, manager, level + 1, base, m, saleDate)
  {
    SaveWalkStep(employees, rates, saleId, current, level, base, m, saleDate, manager);
    var lines := PreviewWalk(employees, rates, salesRep, manager, level + 1, base, m, saleDate);
    var rate := FindBestMatchingRate(rates, OverrideQuery(manager, saleDate));
    if rate.Some? && CalculateAllocationAmount(base, m, rate.value) > 0.0 {
      var line := OverrideLine(manager, level, CalculateAllocationAmount(base, m, rate.value), rate.value.rateId);
      assert PreviewWalk(employees, rates, salesRep, current, level, base, m, saleDate) == [line] + lines;
      assert ([line] + lines)[1..] == lines;
    } else {
      assert OverrideStepWrite(rates, saleId, manager, level, base, m, saleDate) == [];
    }
  }

  /** A management chain that cycles back to the sales rep: user 1 reports
      to user 2 and user 2 to user 1, and only user 1 has an override rate.
      The preview stops at the cycle and shows no override; the save walks
      on and writes overrides for the sales rep on their own sale, at levels 2 and 4. */
  lemma SaveWalkPaysSalesRepInCycle(rate: CommissionRate)
    requires rate == CommissionRate(1, Roofing, 1, None, None, None, None, Some(10.0), None, None, true, 0, None, 0, None, 0, None)
    ensures var employees := map[1 := Employee(true, Some(2), None, None), 2 := Employee(true, Some(1), None, None)];
      && PreviewWalk(employees, [rate], 1, 1, 1, 100.0, 1, 0) == []
      && SaveWalk(employees, [rate], 7, 1, 1, 100.0, 1, 0)
         == [AmountWrite(RowKey(7, 1, Override(2)), 10.0, None), AmountWrite(RowKey(7, 1, Override(4)), 10.0, None)]
  {
    var employees := map[1 := Employee(true, Some(2), None, None), 2 := Employee(true, Some(1), None, None)];
    assert ActiveManager(employees, 1) == Some(2);
    assert ActiveManager(employees, 2) == Some(1);
    assert FindBestMatchingRate([rate], OverrideQuery(2, 0)).None?;
    assert BestMatch([rate], OverrideQuery(1, 0)) == Some(0);
    assert RawAmount(100.0, 1, rate) == 10.0;
    Round2Nearest(10.0, 10.0);
    assert CalculateAllocationAmount(100.0, 1, rate) == 10.0;
    var w2 := AmountWrite(RowKey(7, 1, Override(2)), 10.0, None);
    var w4 := AmountWrite(RowKey(7, 1, Override(4)), 10.0, None);
    assert SaveWalk(employees, [rate], 7, 2, 6, 100.0, 1, 0) == [];
    assert SaveWalk(employees, [rate], 7, 1, 5, 100.0, 1, 0) == [];
    assert SaveWalk(employees, [rate], 7, 2, 4, 100.0, 1, 0) == [w4];
    assert SaveWalk(employees, [rate], 7, 1, 3, 100.0, 1, 0) == [w4];
    assert SaveWalk(employees, [rate], 7, 2, 2, 100.0, 1, 0) == [w2, w4];
  }

  /** The rate lookup the save makes for a participant. The save loads the
      sale without its customer, so the state code it passes is absent. */
  function SaveQuery(sale: Sale, p: SaleParticipant): RateQuery
  {
    RateQuery(Roofing, p.userId, p.roleId, None, None, sale.saleDate)
  }

  /** The participant write the save makes, if the participant has a rate that pays more than zero. */
  function ParticipantWrite(rates: seq<CommissionRate>, sale: Sale, m: int, allocationTypeId: int, p: SaleParticipant)
    : (w: Option<AmountWrite>)
    ensures w.Some? ==> FindBestMatchingRate(rates, SaveQuery(sale, p)).Some?
    ensures w.Some? ==>
              && w.value.key == RowKey(sale.saleId, p.userId, Participant(Roofing, m))
              && w.value.amount > 0.0
              && w.value.amount == CalculateAllocationAmount(GetCommissionableAmount(sale, m), m,
                                                             FindBestMatchingRate(rates, SaveQuery(sale, p)).value)
              && w.value.allocationTypeId == Some(allocationTypeId)
    ensures w.None? ==> FindBestMatchingRate(rates, SaveQuery(sale, p)).None?
                        || CalculateAllocationAmount(GetCommissionableAmount(sale, m), m,
                                                     FindBestMatchingRate(rates, SaveQuery(sale, p)).value) <= 0.0
  {
    match FindBestMatchingRate(rates, SaveQuery(sale, p))
    case None => None
    case Some(rate) =>
      var amount := CalculateAllocationAmount(GetCommissionableAmount(sale, m), m, rate);
      if amount <= 0.0 then None
      else Some(AmountWrite(RowKey(sale.saleId, p.userId, Participant(Roofing, m)), amount, Some(allocationTypeId)))
  }

  function WriteSeq(w: Option<AmountWrite>): seq<AmountWrite>
  {
    if w.Some? then [w.value] else []
  }

  /** The participant writes of the first participants, in order. */
  function ParticipantWrites(rates: seq<CommissionRate>, sale: Sale, m: int, allocationTypeId: int,
                             ps: seq<SaleParticipant>): seq<AmountWrite>
  {
    if ps == [] then []
    else
      var w := ParticipantWrite(rates, sale, m, allocationTypeId, ps[|ps| - 1]);
      ParticipantWrites(rates, sale, m, allocationTypeId, ps[..|ps| - 1]) + WriteSeq(w)
  }

  /** The override writes for the first participants: every participant's chain is walked, with or without a rate. */
  function OverrideWritesAll(employees: map<int, Employee>, rates: seq<CommissionRate>, sale: Sale, m: int,
                             ps: seq<SaleParticipant>): seq<AmountWrite>
  {
    if ps == [] then []
    else
      OverrideWritesAll(employees, rates, sale, m, ps[..|ps| - 1])
      + SaveWalk(employees, rates, sale.saleId, ps[|ps| - 1].userId, 1, GetCommissionableAmount(sale, m), m, sale.saleDate)
  }

  /** Everything a milestone save writes: the participant rows first, then the override rows. */
  function MilestoneWrites(employees: map<int, Employee>, rates: seq<CommissionRate>, sale: Sale, m: int,
                           allocationTypeId: int): seq<AmountWrite>
  {
    ParticipantWrites(rates, sale, m, allocationTypeId, sale.participants)
    + OverrideWritesAll(employees, rates, sale, m, sale.participants)
  }

  /** Each participant write is keyed by this sale and this milestone, pays
      more than zero and carries the allocation type. */
  lemma {:induction false} ParticipantWritesKeys(rates: seq<CommissionRate>, sale: Sale, m: int, allocationTypeId: int,
                                                 ps: seq<SaleParticipant>)
    ensures forall i :: 0 <= i < |ParticipantWrites(rates, sale, m, allocationTypeId, ps)| ==>
              && ParticipantWrites(rates, sale, m, allocationTypeId, ps)[i].key.saleId == sale.saleId
              && ParticipantWrites(rates, sale, m, allocationTypeId, ps)[i].key.source == Participant(Roofing, m)
              && ParticipantWrites(rates, sale, m, allocationTypeId, ps)[i].amount > 0.0
              && ParticipantWrites(rates, sale, m, allocationTypeId, ps)[i].allocationTypeId == Some(allocationTypeId)
  {
    if ps != [] {
      ParticipantWritesKeys(rates, sale, m, allocationTypeId, ps[..|ps| - 1]);
    }
  }

  /** Each override write is keyed by this sale and an override level. */
  lemma {:induction false} OverrideWritesAllKeys(employees: map<int, Employee>, rates: seq<CommissionRate>, sale: Sale, m: int,
                                                 ps: seq<SaleParticipant>)
    ensures forall i :: 0 <= i < |OverrideWritesAll(employees, rates, sale, m, ps)| ==>
              && OverrideWritesAll(employees, rates, sale, m, ps)[i].key.saleId == sale.saleId
              && OverrideWritesAll(employees, rates, sale, m, ps)[i].key.source.Override?
  {
    if ps != [] {
      OverrideWritesAllKeys(employees, rates, sale, m, ps[..|ps| - 1]);
    }
  }

  /** A milestone save leaves every row of another sale, and every participant
      row of another milestone or industry, exactly as it was. Override rows
      carry no milestone, so they are not protected this way. */
  lemma MilestoneWritesStayOnSale(employees: map<int, Employee>, rates: seq<CommissionRate>, sale: Sale, m: int,
                                  allocationTypeId: int, rows: seq<Allocation>, now: int)
    ensures |rows| <= |ApplyWrites(rows, MilestoneWrites(employees, rates, sale, m, allocationTypeId), now)|
    ensures forall i :: 0 <= i < |rows| && (rows[i].saleId != sale.saleId
                                           || (rows[i].source.Participant? && rows[i].source != Participant(Roofing, m)))
              ==> ApplyWrites(rows, MilestoneWrites(employees, rates, sale, m, allocationTypeId), now)[i] == rows[i]
  {
    var pw := ParticipantWrites(rates, sale, m, allocationTypeId, sale.participants);
    var ow := OverrideWritesAll(employees, rates, sale, m, sale.participants);
    var ws := MilestoneWrites(employees, rates, sale, m, allocationTypeId);
    ParticipantWritesKeys(rates, sale, m, allocationTypeId, sale.participants);
    OverrideWritesAllKeys(employees, rates, sale, m, sale.participants);
    assert forall i :: 0 <= i < |ws| ==> ws[i].key.saleId == sale.saleId
                                          && (ws[i].key.source.Participant? ==> ws[i].key.source == Participant(Roofing, m)) by {
      forall i | 0 <= i < |ws|
        ensures ws[i].key.saleId == sale.saleId && (ws[i].key.source.Participant? ==> ws[i].key.source == Participant(Roofing, m))
      {
        if i < |pw| {
          assert ws[i] == pw[i];
        } else {
          assert ws[i] == ow[i - |pw|];
        }
      }
    }
    UnwrittenRowsUntouched(rows, ws, now);
  }

  /** Without a customer state code on the sale, the save pays each participant
      what the preview shows, whenever the preview shows a positive amount. */
  lemma SaveMatchesPreviewWithoutStateCode(rates: seq<CommissionRate>, sale: Sale, m: int, allocationTypeId: int,
                                           p: SaleParticipant)
    requires sale.customerStateCode.None?
    ensures var w := ParticipantWrite(rates, sale, m, allocationTypeId, p);
      var line := PreviewLine(rates, sale, m, p);
      && (w.Some? <==> line.rateId.Some? && line.allocatedAmount > 0.0)
      && (w.Some? ==> w.value.amount == line.allocatedAmount)
  {
    assert SaveQuery(sale, p) == ParticipantQuery(sale, p);
  }

  // ---------- The save handlers ----------

  /** Where the chain ends, the rest of the walk writes nothing. */
  lemma SaveWalkEnds(employees: map<int, Employee>, rates: seq<CommissionRate>, saleId: int, current: int, level: int,
                     base: real, m: int, saleDate: int, rows: seq<Allocation>, now: int)
    requires level >= 1
    requires level > MaxOverrideLevels || ActiveManager(employees, current).None?
    ensures ApplyWrites(rows, SaveWalk(employees, rates, saleId, current, level, base, m, saleDate), now) == rows
  {
    assert SaveWalk(employees, rates, saleId, current, level, base, m, saleDate) == [];
  }

  /** After the writes of one level, what is left to write is the walk from the next level. */
  lemma SaveWalkAdvance(employees: map<int, Employee>, rates: seq<CommissionRate>, saleId: int, current: int, level: int,
                        base: real, m: int, saleDate: int, manager: int,
                        before: seq<Allocation>, after: seq<Allocation>, now: int)
    requires 1 <= level <= MaxOverrideLevels
    requires ActiveManager(employees, current) == Some(manager)
    requires after == ApplyWrites(before, OverrideStepWrite(rates, saleId, manager, level, base, m, saleDate), now)
    ensures ApplyWrites(after, SaveWalk(employees, rates, saleId, manager, level + 1, base, m, saleDate), now)
            == ApplyWrites(before, SaveWalk(employees, rates, saleId, current, level, base, m, saleDate), now)
  {
    SaveWalkStep(employees, rates, saleId, current, level, base, m, saleDate, manager);
    ApplyWritesAppend(before, OverrideStepWrite(rates, saleId, manager, level, base, m, saleDate),
                      SaveWalk(employees, rates, saleId, manager, level + 1, base, m, saleDate), now);
  }

  /** One level of `SaveOverrideAllocationsAsync`: the manager's override
      rate, and when it pays more than zero, the update of the row with key
      (sale, manager, level) or a new row. */
  method SaveOverrideLevel(db: SparkDb, sale: Sale, manager: int, level: int, base: real, m: int, now: int)
    modifies db`allocations
    ensures db.allocations
            == ApplyWrites(old(db.allocations), OverrideStepWrite(old(db.rates), sale.saleId, manager, level, base, m, sale.saleDate), now)
  {
    var overrideRate := FindBestMatchingRate(db.rates, OverrideQuery(manager, sale.saleDate));
    if overrideRate.Some? {
      var overrideAmount := CalculateAllocationAmount(base, m, overrideRate.value);
      if overrideAmount > 0.0 {
        var w := AmountWrite(RowKey(sale.saleId, manager, Override(level)), overrideAmount, None);
        assert OverrideStepWrite(db.rates, sale.saleId, manager, level, base, m, sale.saleDate) == [w];
        assert ApplyWrites(db.allocations, [w], now) == Upsert(ApplyWrites(db.allocations, [], now), w, now);
        var existing := FindKey(db.allocations, w.key);
        if existing.None? {
          db.allocations := db.allocations + [NewRow(NextRowId(db.allocations, OverrideTable), w, now)];
        } else {
          db.allocations := db.allocations[existing.value := Refresh(db.allocations[existing.value], overrideAmount, now)];
        }
      }
    }
  }

  /** The table after the levels of the save walk from `level` on, each
      level's write made against the table the previous levels left. */
  ghost function SaveFrom(employees: map<int, Employee>, rates: seq<CommissionRate>, saleId: int, current: int,
                          level: int, base: real, m: int, saleDate: int, rows: seq<Allocation>, now: int)
    : seq<Allocation>
    requires level >= 1
    decreases MaxOverrideLevels + 1 - level, 1
  {
    if level > MaxOverrideLevels then rows
    else
      match ActiveManager(employees, current)
      case None => rows
      case Some(manager) => SaveLevel(employees, rates, saleId, manager, level, base, m, saleDate, rows, now)
  }

  /** The table after `manager`'s write at `level` and the levels above. */
  ghost function SaveLevel(employees: map<int, Employee>, rates: seq<CommissionRate>, saleId: int, manager: int,
                           level: int, base: real, m: int, saleDate: int, rows: seq<Allocation>, now: int)
    : seq<Allocation>
    requires 1 <= level <= MaxOverrideLevels
    decreases MaxOverrideLevels + 1 - level, 0
  {
    SaveFrom(employees, rates, saleId, manager, level + 1, base, m, saleDate,
             ApplyWrites(rows, OverrideStepWrite(rates, saleId, manager, level, base, m, saleDate), now), now)
  }

  /** Above the top level, or where the chain ends, the save walk writes nothing more. */
  lemma SaveFromEnds(employees: map<int, Employee>, rates: seq<CommissionRate>, saleId: int, current: int, level: int,
                     base: real, m: int, saleDate: int, rows: seq<Allocation>, now: int)
    requires level > MaxOverrideLevels || ActiveManager(employees, current).None?
    requires level >= 1
    ensures SaveFrom(employees, rates, saleId, current, level, base, m, saleDate, rows, now) == rows
  {
  }

  /** One level of the save walk: that level's write, then the levels above. */
  lemma SaveFromStep(employees: map<int, Employee>, rates: seq<CommissionRate>, saleId: int, current: int, level: int,
                     base: real, m: int, saleDate: int, manager: int, rows: seq<Allocation>, now: int)
    requires 1 <= level <= MaxOverrideLevels
    requires ActiveManager(employees, current) == Some(manager)
    ensures SaveFrom(employees, rates, saleId, current, level, base, m, saleDate, rows, now)
            == SaveFrom(employees, rates, saleId, manager, level + 1, base, m, saleDate,
                        ApplyWrites(rows, OverrideStepWrite(rates, saleId, manager, level, base, m, saleDate), now), now)
  {
  }

  /** Saving level by level is applying the whole walk's writes. */
  lemma {:induction false} SaveFromIsWalk(employees: map<int, Employee>, rates: seq<CommissionRate>, saleId: int,
                                          current: int, level: int, base: real, m: int, saleDate: int,
                                          rows: seq<Allocation>, now: int)
    requires level >= 1
    ensures SaveFrom(employees, rates, saleId, current, level, base, m, saleDate, rows, now)
            == ApplyWrites(rows, SaveWalk(employees, rates, saleId, current, level, base, m, saleDate), now)
    decreases MaxOverrideLevels + 1 - level
  {
    var next := ActiveManager(employees, current);
    if level > MaxOverrideLevels || next.None? {
      SaveFromEnds(employees, rates, saleId, current, level, base, m, saleDate, rows, now);
      SaveWalkEnds(employees, rates, saleId, current, level, base, m, saleDate, rows, now);
    } else {
      var manager := next.value;
      var after := ApplyWrites(rows, OverrideStepWrite(rates, saleId, manager, level, base, m, saleDate), now);
      SaveFromIsWalk(employees, rates, saleId, manager, level + 1, base, m, saleDate, after, now);
      SaveWalkAdvance(employees, rates, saleId, current, level, base, m, saleDate, manager, rows, after, now);
    }
  }

  /** One pass of the loop of `SaveOverrideAllocationsAsync`: the manager
      above `current`, if active, and that manager's row at `level`. */
  method SaveOverrideStep(db: SparkDb, ghost employees: map<int, Employee>, ghost rates: seq<CommissionRate>,
                          sale: Sale, current: int, level: int, base: real, m: int, now: int)
    returns (next: Option<int>)
    requires employees == db.employees && rates == db.rates
    requires 1 <= level <= MaxOverrideLevels
    modifies db`allocations
    ensures next == ActiveManager(employees, current)
    ensures SaveFrom(employees, rates, sale.saleId, current, level, base, m, sale.saleDate, old(db.allocations), now)
            == if next.None? then db.allocations
               else SaveFrom(employees, rates, sale.saleId, next.value, level + 1, base, m, sale.saleDate, db.allocations, now)
  {
    next := ActiveManager(db.employees, current);
    if next.None? {
      SaveFromEnds(employees, rates, sale.saleId, current, level, base, m, sale.saleDate, db.allocations, now);
      return;
    }
    ghost var before := db.allocations;
    SaveOverrideLevel(db, sale, next.value, level, base, m, now);
    SaveFromStep(employees, rates, sale.saleId, current, level, base, m, sale.saleDate, next.value, before, now);
  }

  /** `SaveOverrideAllocationsAsync`: walks up from the sales rep, upserting one override row per paying level. */
  method SaveOverrideAllocations(db: SparkDb, sale: Sale, salesRep: int, base: real, m: int, now: int)
    modifies db`allocations
    ensures db.allocations
            == ApplyWrites(old(db.allocations),
                           SaveWalk(db.employees, db.rates, sale.saleId, salesRep, 1, base, m, sale.saleDate), now)
  {
    ghost var employees, rates := db.employees, db.rates;
    ghost var target := SaveFrom(employees, rates, sale.saleId, salesRep, 1, base, m, sale.saleDate, db.allocations, now);
    SaveFromIsWalk(employees, rates, sale.saleId, salesRep, 1, base, m, sale.saleDate, db.allocations, now);
    var current := salesRep;
    var level := 1;
    while level <= MaxOverrideLevels
      invariant 1 <= level <= MaxOverrideLevels + 1
      invariant employees == db.employees && rates == db.rates
      invariant SaveFrom(employees, rates, sale.saleId, current, level, base, m, sale.saleDate, db.allocations, now) == target
      decreases MaxOverrideLevels + 1 - level
    {
      var next := SaveOverrideStep(db, employees, rates, sale, current, level, base, m, now);
      if next.None? {
        break;
      }
      current := next.value;
      level := level + 1;
    }
    SaveFromEnds(employees, rates, sale.saleId, current, level, base, m, sale.saleDate, db.allocations, now);
  }

  /** One iteration of the participant loop of `SaveMilestoneAllocationsAsync`:
      skip a participant without a rate or with nothing to pay, otherwise
      update the row with key (sale, participant, milestone) or add one. */
  method SaveParticipantAllocation(db: SparkDb, sale: Sale, m: int, allocationTypeId: int,
                                   participant: SaleParticipant, now: int)
    returns (saved: bool)
    modifies db`allocations
    ensures saved <==> ParticipantWrite(db.rates, sale, m, allocationTypeId, participant).Some?
    ensures db.allocations
            == ApplyWrites(old(db.allocations), WriteSeq(ParticipantWrite(db.rates, sale, m, allocationTypeId, participant)), now)
  {
    var commissionableAmount := GetCommissionableAmount(sale, m);
    var rate := FindBestMatchingRate(db.rates, SaveQuery(sale, participant));
    if rate.None? {
      return false;
    }
    var amount := CalculateAllocationAmount(commissionableAmount, m, rate.value);
    if amount <= 0.0 {
      return false;
    }
    var w := AmountWrite(RowKey(sale.saleId, participant.userId, Participant(Roofing, m)), amount, Some(allocationTypeId));
    assert ApplyWrites(db.allocations, [w], now) == Upsert(ApplyWrites(db.allocations, [], now), w, now);
    var existing := FindKey(db.allocations, w.key);
    if existing.None? {
      db.allocations := db.allocations + [NewRow(NextRowId(db.allocations, IndustryTable(Roofing)), w, now)];
    } else {
      db.allocations := db.allocations[existing.value := Refresh(db.allocations[existing.value], amount, now)];
    }
    saved := true;
  }

  /** The participant loop's invariant carries over one participant. */
  lemma ParticipantLoopStep(start: seq<Allocation>, before: seq<Allocation>, after: seq<Allocation>,
                            rates: seq<CommissionRate>, sale: Sale, m: int, allocationTypeId: int,
                            ps: seq<SaleParticipant>, i: nat, now: int)
    requires i < |ps|
    requires before == ApplyWrites(start, ParticipantWrites(rates, sale, m, allocationTypeId, ps[..i]), now)
    requires after == ApplyWrites(before, WriteSeq(ParticipantWrite(rates, sale, m, allocationTypeId, ps[i])), now)
    ensures after == ApplyWrites(start, ParticipantWrites(rates, sale, m, allocationTypeId, ps[..i + 1]), now)
    ensures |ParticipantWrites(rates, sale, m, allocationTypeId, ps[..i + 1])|
            == |ParticipantWrites(rates, sale, m, allocationTypeId, ps[..i])|
               + (if ParticipantWrite(rates, sale, m, allocationTypeId, ps[i]).Some? then 1 else 0)
  {
    var q := ps[..i + 1];
    assert q[..|q| - 1] == ps[..i];
    assert q[|q| - 1] == ps[i];
    assert ParticipantWrites(rates, sale, m, allocationTypeId, q)
           == ParticipantWrites(rates, sale, m, allocationTypeId, ps[..i])
              + WriteSeq(ParticipantWrite(rates, sale, m, allocationTypeId, ps[i]));
    ApplyWritesAppend(start, ParticipantWrites(rates, sale, m, allocationTypeId, ps[..i]),
                      WriteSeq(ParticipantWrite(rates, sale, m, allocationTypeId, ps[i])), now);
  }

  /** Writes made after a prefix of writes extend that prefix. */
  lemma ApplyWritesExtend(start: seq<Allocation>, before: seq<Allocation>, after: seq<Allocation>,
                          a: seq<AmountWrite>, b: seq<AmountWrite>, c: seq<AmountWrite>, now: int)
    requires before == ApplyWrites(start, a + b, now)
    requires after == ApplyWrites(before, c, now)
    ensures after == ApplyWrites(start, a + (b + c), now)
  {
    ApplyWritesAppend(start, a + b, c, now);
    ConcatAssoc(a, b, c);
  }

  lemma ConcatAssoc<T>(a: seq<T>, b: seq<T>, c: seq<T>)
    ensures (a + b) + c == a + (b + c)
  {
  }

  /** The override loop's invariant carries over one participant. */
  lemma OverrideLoopStep(start: seq<Allocation>, before: seq<Allocation>, after: seq<Allocation>,
                         employees: map<int, Employee>, rates: seq<CommissionRate>, sale: Sale, m: int,
                         head: seq<AmountWrite>, ps: seq<SaleParticipant>, j: nat, now: int)
    requires j < |ps|
    requires before == ApplyWrites(start, head + OverrideWritesAll(employees, rates, sale, m, ps[..j]), now)
    requires after == ApplyWrites(before, SaveWalk(employees, rates, sale.saleId, ps[j].userId, 1,
                                                   GetCommissionableAmount(sale, m), m, sale.saleDate), now)
    ensures after == ApplyWrites(start, head + OverrideWritesAll(employees, rates, sale, m, ps[..j + 1]), now)
  {
    var q := ps[..j + 1];
    assert q[..|q| - 1] == ps[..j];
    assert q[|q| - 1] == ps[j];
    var walk := SaveWalk(employees, rates, sale.saleId, ps[j].userId, 1, GetCommissionableAmount(sale, m), m, sale.saleDate);
    var done := OverrideWritesAll(employees, rates, sale, m, ps[..j]);
    assert OverrideWritesAll(employees, rates, sale, m, q) == done + walk;
    ApplyWritesExtend(start, before, after, head, done, walk, now);
  }

  /** The participant loop of `SaveMilestoneAllocationsAsync`; the count is that of the rows saved. */
  method SaveParticipantAllocations(db: SparkDb, sale: Sale, m: int, allocationTypeId: int, now: int)
    returns (savedCount: nat)
    modifies db`allocations
    ensures db.allocations == ApplyWrites(old(db.allocations), ParticipantWrites(db.rates, sale, m, allocationTypeId, sale.participants), now)
    ensures savedCount == |ParticipantWrites(db.rates, sale, m, allocationTypeId, sale.participants)|
  {
    var rates := db.rates;
    var ps := sale.participants;
    ghost var start := db.allocations;
    savedCount := 0;
    var i := 0;
    while i < |ps|
      invariant 0 <= i <= |ps|
      invariant rates == db.rates
      invariant db.allocations == ApplyWrites(start, ParticipantWrites(rates, sale, m, allocationTypeId, ps[..i]), now)
      invariant savedCount == |ParticipantWrites(rates, sale, m, allocationTypeId, ps[..i])|
    {
      ghost var before := db.allocations;
      var saved := SaveParticipantAllocation(db, sale, m, allocationTypeId, ps[i], now);
      if saved {
        savedCount := savedCount + 1;
      }
      ParticipantLoopStep(start, before, db.allocations, rates, sale, m, allocationTypeId, ps, i, now);
      i := i + 1;
    }
    assert ps[..|ps|] == ps;
  }

  /** The override loop of `SaveMilestoneAllocationsAsync`: every participant's chain is walked. */
  method SaveAllOverrideAllocations(db: SparkDb, sale: Sale, m: int, now: int)
    modifies db`allocations
    ensures db.allocations == ApplyWrites(old(db.allocations), OverrideWritesAll(db.employees, db.rates, sale, m, sale.participants), now)
  {
    var employees, rates := db.employees, db.rates;
    var ps := sale.participants;
    var commissionableAmount := GetCommissionableAmount(sale, m);
    ghost var start := db.allocations;
    ghost var head: seq<AmountWrite> := [];
    assert head + OverrideWritesAll(employees, rates, sale, m, ps[..0]) == [];
    var j := 0;
    while j < |ps|
      invariant 0 <= j <= |ps|
      invariant employees == db.employees && rates == db.rates
      invariant db.allocations == ApplyWrites(start, head + OverrideWritesAll(employees, rates, sale, m, ps[..j]), now)
    {
      ghost var before := db.allocations;
      SaveOverrideAllocations(db, sale, ps[j].userId, commissionableAmount, m, now);
      OverrideLoopStep(start, before, db.allocations, employees, rates, sale, m, head, ps, j, now);
      j := j + 1;
    }
    assert ps[..|ps|] == ps;
    assert head + OverrideWritesAll(employees, rates, sale, m, ps) == OverrideWritesAll(employees, rates, sale, m, ps);
  }

  /** `SaveMilestoneAllocationsAsync`: the participant rows, then every
      participant's override chain; the count is that of the participant
      rows saved. */
  method SaveMilestoneAllocations(db: SparkDb, sale: Sale, m: int, allocationTypeId: int, now: int)
    returns (savedCount: nat)
    modifies db`allocations
    ensures db.allocations == ApplyWrites(old(db.allocations), MilestoneWrites(db.employees, db.rates, sale, m, allocationTypeId), now)
    ensures savedCount == |ParticipantWrites(db.rates, sale, m, allocationTypeId, sale.participants)|
  {
    ghost var start := db.allocations;
    savedCount := SaveParticipantAllocations(db, sale, m, allocationTypeId, now);
    ghost var middle := db.allocations;
    SaveAllOverrideAllocations(db, sale, m, now);
    ApplyWritesAppend(start, ParticipantWrites(db.rates, sale, m, allocationTypeId, sale.participants),
                      OverrideWritesAll(db.employees, db.rates, sale, m, sale.participants), now);
  }

  datatype SaveSummary = SaveSummary(saleId: int, milestone: int, allocationsCreated: nat)

  /** The save endpoint: the caller's id must parse, the milestone must be 1
      or 2, the sale must exist and be a roofing project; then the milestone's
      rows are upserted and the number of participant rows saved is reported.
      `allocationTypeId` is the "Closer"/"Participant" allocation type the
      handler finds or creates. */
  method SaveCommission(db: SparkDb, saleId: int, currentUserId: Option<int>, milestone: int,
                        allocationTypeId: int, now: int)
    returns (r: Result<SaveSummary>)
    modifies db`allocations
    ensures currentUserId.None? ==> r == Err(Unauthorized)
    ensures currentUserId.Some? && (milestone < 1 || milestone > 2) ==>
              r == Err(BadRequest("Milestone must be 1 (MP1) or 2 (MP2)"))
    ensures currentUserId.Some? && 1 <= milestone <= 2 && FindSale(db.sales, saleId).None? ==>
              r == Err(NotFound("Sale " + IntToString(saleId) + " not found"))
    ensures currentUserId.Some? && 1 <= milestone <= 2 && FindSale(db.sales, saleId).Some?
            && !IsRoofProject(db.sales[FindSale(db.sales, saleId).value]) ==>
              r == Err(BadRequest("This endpoint is for roofing projects only"))
    ensures currentUserId.Some? && 1 <= milestone <= 2 && FindSale(db.sales, saleId).Some?
            && IsRoofProject(db.sales[FindSale(db.sales, saleId).value]) ==>
              r.Ok?
    ensures r.Err? ==> db.allocations == old(db.allocations)
    ensures r.Ok? ==>
              && currentUserId.Some? && 1 <= milestone <= 2 && FindSale(db.sales, saleId).Some?
              && var sale := db.sales[FindSale(db.sales, saleId).value];
                 && IsRoofProject(sale)
                 && db.allocations
                    == ApplyWrites(old(db.allocations), MilestoneWrites(db.employees, db.rates, sale, milestone, allocationTypeId), now)
                 && r.value == SaveSummary(saleId, milestone,
                                           |ParticipantWrites(db.rates, sale, milestone, allocationTypeId, sale.participants)|)
  {
    if currentUserId.None? {
      return Err(Unauthorized);
    }
    if milestone < 1 || milestone > 2 {
      return Err(BadRequest("Milestone must be 1 (MP1) or 2 (MP2)"));
    }
    var found := FindSale(db.sales, saleId);
    if found.None? {
      return Err(NotFound("Sale " + IntToString(saleId) + " not found"));
    }
    var sale := db.sales[found.value];
    if !IsRoofProject(sale) {
      return Err(BadRequest("This endpoint is for roofing projects only"));
    }
    var savedCount := SaveMilestoneAllocations(db, sale, milestone, allocationTypeId, now);
    r := Ok(SaveSummary(sale.saleId, milestone, savedCount));
  }
}
