/** Grandfathered global uniqueness of unreleased payable amounts: the reconciliation that runs
    when the database is opened, and the triggers and unique indexes that guard every later
    INSERT and UPDATE of amount_reservations. */
module Uniqueness {
  import opened Common
  import opened Domain

  /** The columns the guards look at; enforced is global_unique_enforced. */
  datatype Row = Row(profile: string, amount: int, released: bool, enforced: int)

  type Table = map<Id, Row>

  predicate Live(rows: Table, i: Id) {
    i in rows && !rows[i].released
  }

  function LiveOf(rows: Table, amount: int): set<Id> {
    set i | i in rows && !rows[i].released && rows[i].amount == amount
  }

  /** Two unreleased rows of the same amount. */
  predicate Clash(rows: Table, i: Id, j: Id) {
    i != j && Live(rows, i) && Live(rows, j) && rows[i].amount == rows[j].amount
  }

  ghost predicate Duplicated(rows: Table, i: Id) {
    exists j :: Clash(rows, i, j)
  }

  // ----- The invariant -----

  /** For each amount the unreleased rows number at most one, or none of them is enforced. */
  ghost predicate Grandfathered(rows: Table) {
    && (forall i :: i in rows ==> rows[i].enforced in {0, 1})
    && (forall i, j :: Clash(rows, i, j) ==> rows[i].enforced == 0)
  }

  /** CREATE UNIQUE INDEX uq_active_profile_payable succeeds. */
  ghost predicate ProfileIndexHolds(rows: Table) {
    forall i, j :: Clash(rows, i, j) ==> rows[i].profile != rows[j].profile
  }

  /** CREATE UNIQUE INDEX uq_active_payable succeeds. */
  ghost predicate AmountIndexHolds(rows: Table) {
    forall i, j :: Clash(rows, i, j) ==> rows[i].enforced != 1 || rows[j].enforced != 1
  }

  lemma TwoLiveClash(rows: Table, amount: int)
    ensures |LiveOf(rows, amount)| > 1 <==> exists i, j :: Clash(rows, i, j) && rows[i].amount == amount
  {
    var live := LiveOf(rows, amount);
    if |live| > 1 {
      var i :| i in live;
      var rest := live - {i};
      assert |rest| == |live| - 1;
      var j :| j in rest;
      assert Clash(rows, i, j);
    }
    forall i, j | Clash(rows, i, j) && rows[i].amount == amount ensures |live| > 1 {
      assert {i, j} <= live;
      SubsetSize({i, j}, live);
    }
  }

  // ----- Reconciliation -----

  /** The marker one row is given: 0 exactly inside a group of unreleased duplicates. */
  function Marker(rows: Table, row: Row): int {
    if !row.released && |LiveOf(rows, row.amount)| > 1 then 0 else 1
  }

  function Reconciled(rows: Table): Table {
    map i | i in rows :: rows[i].(enforced := Marker(rows, rows[i]))
  }

  /** reconcileCompatibilityTx: mark every row, then build both unique indexes or roll back. */
  ghost function ReconcileTx(rows: Table): Result<Table, Failure> {
    var marked := Reconciled(rows);
    if ProfileIndexHolds(marked) && AmountIndexHolds(marked) then Ok(marked) else Err(StorageConstraint)
  }

  lemma SameRowsSameClashes(a: Table, b: Table)
    requires a.Keys == b.Keys
    requires forall i :: i in a ==> a[i].released == b[i].released && a[i].amount == b[i].amount
    ensures forall amount :: LiveOf(a, amount) == LiveOf(b, amount)
    ensures forall i, j :: Clash(a, i, j) <==> Clash(b, i, j)
  {
  }

  lemma MarkerIsExact(rows: Table, i: Id)
    requires i in rows
    ensures Marker(rows, rows[i]) == 0 <==> Duplicated(rows, i)
  {
    var live := LiveOf(rows, rows[i].amount);
    TwoLiveClash(rows, rows[i].amount);
    if Marker(rows, rows[i]) == 0 {
      var rest := live - {i};
      assert |rest| == |live| - 1;
      var j :| j in rest;
      assert Clash(rows, i, j);
    }
  }

  lemma MarkingIsStable(rows: Table)
    ensures Reconciled(Reconciled(rows)) == Reconciled(rows)
  {
    SameRowsSameClashes(rows, Reconciled(rows));
    hide LiveOf;
  }

  /** Only the marker is rewritten, and it marks exactly the duplicates. */
  ghost predicate MarksDuplicates(rows: Table, marked: Table) {
    && marked.Keys == rows.Keys
    && (forall i :: i in rows ==> marked[i] == rows[i].(enforced := marked[i].enforced))
    && (forall i :: i in rows ==> marked[i].enforced == if Duplicated(rows, i) then 0 else 1)
  }

  lemma ReconciledMarks(rows: Table)
    ensures MarksDuplicates(rows, Reconciled(rows))
  {
    forall i | i in rows ensures Reconciled(rows)[i].enforced == if Duplicated(rows, i) then 0 else 1 {
      MarkerIsExact(rows, i);
    }
    hide Duplicated, LiveOf;
  }

  lemma MarkedIsSound(rows: Table, marked: Table)
    requires MarksDuplicates(rows, marked)
    ensures Grandfathered(marked) && AmountIndexHolds(marked)
    ensures ProfileIndexHolds(marked) <==> ProfileIndexHolds(rows)
  {
    forall i, j | Clash(marked, i, j) ensures Clash(rows, i, j) && marked[i].enforced == 0 {
      assert Clash(rows, i, j);
      assert Duplicated(rows, i);
    }
    hide Duplicated;
    forall i, j | Clash(rows, i, j) ensures Clash(marked, i, j) {
    }
  }

  /** Reconciliation succeeds exactly when no profile holds the same unreleased amount twice. It
      then establishes the invariant, marks exactly the duplicates, rewrites nothing but the
      marker, and running it again changes nothing. */
  lemma ReconcileEstablishes(rows: Table)
    ensures ReconcileTx(rows).Ok? <==> ProfileIndexHolds(rows)
    ensures var marked := Reconciled(rows);
      Grandfathered(marked) && MarksDuplicates(rows, marked) && Reconciled(marked) == marked
  {
    MarkingIsStable(rows);
    ReconciledMarks(rows);
    MarkedIsSound(rows, Reconciled(rows));
    hide Reconciled, ProfileIndexHolds, AmountIndexHolds, Grandfathered, MarksDuplicates;
  }

  // ----- Guarded writes -----

  /** trg_amount_reservations_global_unique_insert does not abort. */
  predicate InsertAllowed(rows: Table, row: Row) {
    row.enforced == 1 && (row.released || LiveOf(rows, row.amount) == {})
  }

  /** trg_amount_reservations_global_unique_update does not abort. */
  predicate UpdateAllowed(rows: Table, id: Id, row: Row)
    requires id in rows
  {
    var before := rows[id];
    && row.enforced in {0, 1}
    && !(before.enforced == 1 && row.enforced != 1)
    && !(row.enforced == 0 && !row.released && (before.released || row.amount != before.amount))
    && !(!row.released && row.enforced == 1 && LiveOf(rows, row.amount) - {id} != {})
  }

  /** INSERT: primary key, trigger, then both indexes. */
  ghost function InsertTx(rows: Table, id: Id, row: Row): Result<Table, Failure> {
    var next := rows[id := row];
    if id !in rows && InsertAllowed(rows, row) && ProfileIndexHolds(next) && AmountIndexHolds(next) then Ok(next)
    else Err(StorageConstraint)
  }

  /** UPDATE of one row: trigger, then both indexes. */
  ghost function UpdateTx(rows: Table, id: Id, row: Row): Result<Table, Failure> {
    var next := rows[id := row];
    if id !in rows then Ok(rows)
    else if UpdateAllowed(rows, id, row) && ProfileIndexHolds(next) && AmountIndexHolds(next) then Ok(next)
    else Err(StorageConstraint)
  }

  /** What a reachable table looks like. */
  ghost predicate Sound(rows: Table) {
    Grandfathered(rows) && ProfileIndexHolds(rows)
  }

  lemma SoundBuildsBoth(rows: Table)
    requires Grandfathered(rows)
    ensures AmountIndexHolds(rows)
  {
  }

  /** Groups of duplicates only shrink: what is duplicated afterwards already was, by a superset. */
  ghost predicate OnlyShrinks(before: Table, after: Table) {
    forall amount :: |LiveOf(after, amount)| > 1 ==> LiveOf(after, amount) <= LiveOf(before, amount)
  }

  lemma NoneLive(rows: Table, amount: int, id: Id)
    ensures LiveOf(rows, amount) == {} <==> forall j :: Live(rows, j) ==> rows[j].amount != amount
    ensures LiveOf(rows, amount) - {id} == {} <==> forall j :: Live(rows, j) && j != id ==> rows[j].amount != amount
  {
    forall j | Live(rows, j) && rows[j].amount == amount
      ensures j in LiveOf(rows, amount)
      ensures j != id ==> j in LiveOf(rows, amount) - {id}
    {
    }
    forall j | j in LiveOf(rows, amount) ensures Live(rows, j) && rows[j].amount == amount {
    }
  }

  /** The trigger alone decides an INSERT of a new id: the indexes never have to object. */
  lemma InsertGuardIsExact(rows: Table, id: Id, row: Row)
    requires Sound(rows) && id !in rows
    ensures InsertTx(rows, id, row).Ok?
      <==> row.enforced == 1 && (row.released || forall j :: Live(rows, j) ==> rows[j].amount != row.amount)
    ensures InsertTx(rows, id, row).Ok? ==> Sound(rows[id := row]) && OnlyShrinks(rows, rows[id := row])
  {
    var next := rows[id := row];
    NoneLive(rows, row.amount, id);
    if row.released || LiveOf(rows, row.amount) == {} {
      forall i, j | Clash(next, i, j) ensures Clash(rows, i, j) {
        assert Live(rows, i) <== i != id;
        assert Live(rows, j) <== j != id;
      }
      forall amount | |LiveOf(next, amount)| > 1 ensures LiveOf(next, amount) <= LiveOf(rows, amount) {
        TwoLiveClash(next, amount);
        var i, j :| Clash(next, i, j) && next[i].amount == amount;
        assert i in LiveOf(rows, amount);
      }
    }
    if row.enforced == 1 && (row.released || LiveOf(rows, row.amount) == {}) {
      SoundBuildsBoth(next);
    }
  }

  /** Every accepted UPDATE keeps the invariant and lets groups only shrink; an UPDATE that
      leaves the profile alone is decided by the trigger alone. */
  lemma UpdateKeepsSound(rows: Table, id: Id, row: Row)
    requires Sound(rows) && id in rows
    ensures UpdateTx(rows, id, row).Ok? ==> Sound(rows[id := row]) && OnlyShrinks(rows, rows[id := row])
    ensures row.profile == rows[id].profile ==> (UpdateTx(rows, id, row).Ok? <==> UpdateAllowed(rows, id, row))
  {
    var next := rows[id := row];
    NoneLive(rows, row.amount, id);
    if UpdateAllowed(rows, id, row) {
      forall i, j | Clash(next, i, j) ensures Clash(rows, i, j) && next[i].enforced == 0 {
        assert Live(rows, i) <== i != id;
        assert Live(rows, j) <== j != id;
        assert Clash(rows, j, i) <== Clash(rows, i, j);
      }
      assert Grandfathered(next);
      SoundBuildsBoth(next);
      forall amount | |LiveOf(next, amount)| > 1 ensures LiveOf(next, amount) <= LiveOf(rows, amount) {
        forall x | x in LiveOf(next, amount) ensures x in LiveOf(rows, amount) {
          var rest := LiveOf(next, amount) - {x};
          assert |rest| == |LiveOf(next, amount)| - 1;
          var y :| y in rest;
          assert Clash(next, x, y);
        }
      }
    }
  }

  /** What the UPDATE trigger refuses: a marker that is none, an enforced row that loses it, a row without it that
      is revived or changes its amount, and an enforced row with the amount of another unreleased one. */
  lemma UpdateIsRefusedIff(rows: Table, id: Id, row: Row)
    requires Sound(rows) && id in rows && row.profile == rows[id].profile
    ensures UpdateTx(rows, id, row).Err?
       <==> || (row.enforced != 0 && row.enforced != 1)
            || (rows[id].enforced == 1 && row.enforced == 0)
            || (row.enforced == 0 && !row.released && (rows[id].released || row.amount != rows[id].amount))
            || (row.enforced == 1 && !row.released
                && exists j :: j in rows && j != id && !rows[j].released && rows[j].amount == row.amount)
  {
    UpdateKeepsSound(rows, id, row);
    NoneLive(rows, row.amount, id);
    hide Sound, UpdateTx, LiveOf;
    assert forall j :: Live(rows, j) <==> j in rows && !rows[j].released;
  }

  // ----- Runs -----

  datatype Write =
    | Insert(id: Id, row: Row)
    | Update(id: Id, row: Row)
    | Reopen  // the database is opened again

  ghost function Next(rows: Table, write: Write): Table {
    var r := match write
      case Insert(id, row) => InsertTx(rows, id, row)
      case Update(id, row) => UpdateTx(rows, id, row)
      case Reopen => ReconcileTx(rows);
    if r.Ok? then r.value else rows
  }

  ghost function Run(rows: Table, writes: seq<Write>): Table
    decreases |writes|
  {
    if writes == [] then rows else Run(Next(rows, writes[0]), writes[1..])
  }

  lemma NextKeepsSound(rows: Table, write: Write)
    requires Sound(rows)
    ensures Sound(Next(rows, write)) && OnlyShrinks(rows, Next(rows, write))
  {
    match write
    case Insert(id, row) => if id !in rows { InsertGuardIsExact(rows, id, row); }
    case Update(id, row) => if id in rows { UpdateKeepsSound(rows, id, row); }
    case Reopen =>
      ReconcileEstablishes(rows);
      SameRowsSameClashes(rows, Reconciled(rows));
  }

  lemma ShrinksIsTransitive(a: Table, b: Table, c: Table)
    requires OnlyShrinks(a, b) && OnlyShrinks(b, c)
    ensures OnlyShrinks(a, c)
  {
    forall amount | |LiveOf(c, amount)| > 1 ensures LiveOf(c, amount) <= LiveOf(a, amount) {
      SubsetSize(LiveOf(c, amount), LiveOf(b, amount));
    }
  }

  /** Over every run of accepted and refused writes and reopenings, the invariant holds and a
      group of duplicates is never anything but the remains of one that was there at the start. */
  lemma {:induction false} RunKeepsSound(rows: Table, writes: seq<Write>)
    requires Sound(rows)
    ensures Sound(Run(rows, writes)) && AmountIndexHolds(Run(rows, writes)) && OnlyShrinks(rows, Run(rows, writes))
    decreases |writes|
  {
    if writes == [] {
      SoundBuildsBoth(rows);
    } else {
      var next := Next(rows, writes[0]);
      NextKeepsSound(rows, writes[0]);
      RunKeepsSound(next, writes[1..]);
      ShrinksIsTransitive(rows, next, Run(next, writes[1..]));
    }
  }

  /** A database opened without duplicates never gets one, whatever is written to it. */
  lemma {:induction false} CleanStaysClean(rows: Table, writes: seq<Write>)
    requires forall i, j :: !Clash(rows, i, j)
    ensures forall i, j :: !Clash(Run(Reconciled(rows), writes), i, j)
  {
    var marked := Reconciled(rows);
    ReconcileEstablishes(rows);
    SameRowsSameClashes(rows, marked);
    RunKeepsSound(marked, writes);
    var last := Run(marked, writes);
    forall i, j | Clash(last, i, j) ensures false {
      var amount := last[i].amount;
      TwoLiveClash(last, amount);
      assert i in LiveOf(last, amount) && j in LiveOf(last, amount);
      assert Clash(marked, i, j);
    }
  }

  /** Reopening repairs the markers: once a group has shrunk to one row, that row is enforced
      again, so no second row of its amount can be inserted or revived. */
  lemma SurvivorIsEnforcedAgain(rows: Table, id: Id, other: Id, row: Row)
    requires Sound(rows) && Live(rows, id) && LiveOf(rows, rows[id].amount) == {id}
    requires row.amount == rows[id].amount && !row.released && other != id
    ensures Next(rows, Reopen)[id].enforced == 1
    ensures Next(Next(rows, Reopen), Insert(other, row)) == Next(rows, Reopen)
    ensures other in rows ==> Next(Next(rows, Reopen), Update(other, row)) == Next(rows, Reopen)
  {
    hide MarksDuplicates, ProfileIndexHolds, AmountIndexHolds, Grandfathered;
    var marked := Reconciled(rows);
    ReconcileEstablishes(rows);
    SameRowsSameClashes(rows, marked);
    assert id in LiveOf(marked, row.amount) - {other};
    assert |LiveOf(rows, row.amount)| == 1 && id in rows;
    assert marked[id].enforced == 1;
    hide LiveOf, Reconciled;
  }

  // ----- The table as the program updates it -----

  /** What CREATE UNIQUE INDEX checks: the rows in the index, pair by pair. */
  predicate ProfileIndexOf(rows: Table)
    ensures ProfileIndexOf(rows) <==> ProfileIndexHolds(rows)
  {
    forall i <- rows.Keys, j <- rows.Keys :: Clash(rows, i, j) ==> rows[i].profile != rows[j].profile
  }

  predicate AmountIndexOf(rows: Table)
    ensures AmountIndexOf(rows) <==> AmountIndexHolds(rows)
  {
    forall i <- rows.Keys, j <- rows.Keys :: Clash(rows, i, j) ==> rows[i].enforced != 1 || rows[j].enforced != 1
  }

  class Reservations {
    var rows: Table

    constructor (rows: Table)
      ensures this.rows == rows
    {
      this.rows := rows;
    }

    /** The UPDATE ... CASE statement, row by row. */
    method MarkDuplicates()
      modifies this
      ensures rows == Reconciled(old(rows))
    {
      var before := rows;
      var left := before.Keys;
      while left != {}
        invariant left <= before.Keys && rows.Keys == before.Keys
        invariant forall i :: i in before ==> rows[i] == if i in left then before[i] else Reconciled(before)[i]
        decreases |left|
      {
        var i :| i in left;
        if !before[i].released && |LiveOf(before, before[i].amount)| > 1 {
          rows := rows[i := before[i].(enforced := 0)];
        } else {
          rows := rows[i := before[i].(enforced := 1)];
        }
        left := left - {i};
      }
      assert rows == Reconciled(before);
    }

    method Reconcile() returns (ok: bool)
      modifies this
      ensures ok <==> ProfileIndexHolds(old(rows))
      ensures rows == Next(old(rows), Reopen)
      ensures ok ==> Sound(rows)
    {
      hide MarksDuplicates, ProfileIndexHolds, AmountIndexHolds, Grandfathered, Reconciled;
      var before := rows;
      ReconcileEstablishes(before);
      SoundBuildsBoth(Reconciled(before));
      ReconciledMarks(before);
      MarkedIsSound(before, Reconciled(before));
      MarkDuplicates();
      ok := ProfileIndexOf(rows);
      if !ok {
        rows := before;
      }
    }

    method InsertRow(id: Id, row: Row) returns (ok: bool)
      requires Sound(rows)
      modifies this
      ensures Sound(rows) && rows == Next(old(rows), Insert(id, row))
      ensures ok <==> InsertTx(old(rows), id, row).Ok?
    {
      if id in rows {
        return false;
      }
      InsertGuardIsExact(rows, id, row);
      if row.enforced != 1
        || (!row.released && exists i :: i in rows && !rows[i].released && rows[i].amount == row.amount)
      {
        return false;
      }
      rows := rows[id := row];
      return true;
    }

    method UpdateRow(id: Id, row: Row) returns (ok: bool)
      requires Sound(rows)
      modifies this
      ensures Sound(rows) && rows == Next(old(rows), Update(id, row))
      ensures ok <==> UpdateTx(old(rows), id, row).Ok?
    {
      if id !in rows {
        return true;
      }
      UpdateKeepsSound(rows, id, row);
      var before, next := rows[id], rows[id := row];
      var abort := row.enforced != 0 && row.enforced != 1;
      abort := abort || (before.enforced == 1 && row.enforced != 1);
      abort := abort || (row.enforced == 0 && !row.released && (before.released || row.amount != before.amount));
      abort := abort || (!row.released && row.enforced == 1
                         && exists i :: i in rows && i != id && !rows[i].released && rows[i].amount == row.amount);
      NoneLive(rows, row.amount, id);
      assert abort <==> !UpdateAllowed(rows, id, row);
      if abort {
        return false;
      }
      if !ProfileIndexOf(next) || !AmountIndexOf(next) {
        return false;
      }
      rows := next;
      return true;
    }
  }
}
