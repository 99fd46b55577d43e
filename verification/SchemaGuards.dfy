/** The guards of the schema seen from the payment service: on the service's own states the
    triggers and unique indexes refuse exactly what the service's insert is modelled to refuse. */
module SchemaGuards {
  import opened Common
  import opened Domain
  import opened Allocator
  import opened Ledger
  import opened LedgerInvariants
  import opened LedgerWindows
  import Uniqueness

  /** A reservation as the uniqueness guards see it; the service never writes the marker. */
  function GuardedRow(r: Reservation): Uniqueness.Row {
    Uniqueness.Row(r.profile, r.payable, r.releasedAt.Some?, 1)
  }

  function Guarded(res: Reservations): Uniqueness.Table {
    map p | p in res :: GuardedRow(res[p])
  }

  lemma HeldIsLive(res: Reservations, amount: int)
    ensures Held(res, amount)
      <==> exists j :: Uniqueness.Live(Guarded(res), j) && Guarded(res)[j].amount == amount
  {
    if p :| p in res && res[p].payable == amount && res[p].releasedAt.None? {
      assert Uniqueness.Live(Guarded(res), p);
    }
  }

  /** Held amounts that differ need no grandfathering. */
  lemma ServiceStatesAreSound(res: Reservations)
    requires UniqueHeld(res)
    ensures Uniqueness.Sound(Guarded(res))
    ensures forall i, j :: !Uniqueness.Clash(Guarded(res), i, j)
  {
    var rows := Guarded(res);
    forall i, j ensures !Uniqueness.Clash(rows, i, j) {
    }
  }

  /** The reservations while a release pass has reached these rows. */
  function PartlyReleased(res: Reservations, now: int, reached: set<Id>): Reservations {
    map p | p in res :: if p in reached then ReleaseRow(res[p], now) else res[p]
  }

  /** The UPDATE of a release pass, row by row in some order, each under the trigger and indexes. */
  ghost function ReleaseEach(rows: Uniqueness.Table, res: Reservations, now: int, order: seq<Id>)
    : Result<Uniqueness.Table, Failure>
    requires forall i :: 0 <= i < |order| ==> order[i] in res
    decreases |order|
  {
    if order == [] then Ok(rows)
    else
      match Uniqueness.UpdateTx(rows, order[0], GuardedRow(ReleaseRow(res[order[0]], now)))
      case Ok(next) => ReleaseEach(next, res, now, order[1..])
      case Err(e) => Err(e)
  }

  /** Without two live rows of one amount, a row may always be written back as it is or released. */
  lemma WriteBackIsAllowed(rows: Uniqueness.Table, p: Id, row: Uniqueness.Row)
    requires Uniqueness.Sound(rows) && (forall i, j :: !Uniqueness.Clash(rows, i, j)) && p in rows
    requires row == rows[p].(released := row.released) && rows[p].enforced == 1 && (rows[p].released ==> row.released)
    ensures Uniqueness.UpdateTx(rows, p, row) == Ok(rows[p := row])
  {
    Uniqueness.UpdateKeepsSound(rows, p, row);
    Uniqueness.NoneLive(rows, row.amount, p);
    forall j: Id | Uniqueness.Live(rows, j) && j != p && !row.released ensures rows[j].amount != row.amount {
      assert !Uniqueness.Clash(rows, p, j);
    }
    hide Uniqueness.Sound;
  }

  lemma ReleaseOne(res: Reservations, now: int, reached: set<Id>, p: Id)
    requires UniqueHeld(res) && p in res
    ensures Uniqueness.UpdateTx(Guarded(PartlyReleased(res, now, reached)), p, GuardedRow(ReleaseRow(res[p], now)))
         == Ok(Guarded(PartlyReleased(res, now, reached + {p})))
  {
    var partly := PartlyReleased(res, now, reached);
    var rows, row := Guarded(partly), GuardedRow(ReleaseRow(res[p], now));
    assert UniqueHeld(partly);
    ServiceStatesAreSound(partly);
    hide Uniqueness.Sound, Uniqueness.Clash, Uniqueness.UpdateTx, UniqueHeld;
    WriteBackIsAllowed(rows, p, row);
    assert rows[p := row] == Guarded(PartlyReleased(res, now, reached + {p}));
  }

  /** The triggers and indexes never stop a release pass: in whatever order it takes the rows, it
      ends in the service's release of all of them. */
  lemma {:induction false} ReleaseIsAllowed(res: Reservations, now: int, reached: set<Id>, order: seq<Id>)
    requires UniqueHeld(res) && forall i :: 0 <= i < |order| ==> order[i] in res
    requires forall p :: p in res ==> p in reached || p in order
    ensures ReleaseEach(Guarded(PartlyReleased(res, now, reached)), res, now, order) == Ok(Guarded(Release(res, now)))
    decreases |order|
  {
    if order == [] {
      assert PartlyReleased(res, now, reached) == Release(res, now);
    } else {
      ReleaseOne(res, now, reached, order[0]);
      ReleaseIsAllowed(res, now, reached + {order[0]}, order[1..]);
    }
  }

  lemma ReleasedStaysUnique(res: Reservations, now: int)
    requires UniqueHeld(res)
    ensures UniqueHeld(Release(res, now)) && Uniqueness.Sound(Guarded(Release(res, now)))
  {
    var released := Release(res, now);
    assert UniqueHeld(released);
    forall i, j ensures !Uniqueness.Clash(Guarded(released), i, j) {
    }
  }

  /** Inserting the reservation of a new payment passes the uniqueness trigger and both indexes
      exactly when no unreleased reservation holds the amount: what the service's create tests. */
  lemma InsertRefusedIffHeld(before: Reservations, now: int, payment: Id, profile: string, payable: int)
    requires UniqueHeld(before) && payment !in before
    ensures var res := Release(before, now);
      Uniqueness.InsertTx(Guarded(res), payment, Uniqueness.Row(profile, payable, false, 1)).Ok?
      <==> !Held(res, payable)
  {
    var res := Release(before, now);
    ReleasedStaysUnique(before, now);
    HeldIsLive(res, payable);
    Uniqueness.InsertGuardIsExact(Guarded(res), payment, Uniqueness.Row(profile, payable, false, 1));
    hide Uniqueness.Sound, Uniqueness.InsertTx, Held;
  }

  /** amount_reservations_payment_consistency_insert and _update do not abort. */
  predicate MatchesPayment(payments: map<Id, Payment>, payment: Id, r: Reservation) {
    payment in payments && payments[payment].profile == r.profile && payments[payment].payable == r.payable
  }

  /** Whatever step a state takes whose reservations mirror its payments, they still do, so the
      consistency triggers have nothing to refuse. */
  lemma ConsistencyTriggersStaySilent(db: Tables, step: Step, given: set<Id>, clock: int, p: Id)
    requires WindowsOk(db, given, clock) && clock <= ClockAfter(clock, step) && p in Apply(db, step).reservations
    ensures MatchesPayment(Apply(db, step).payments, p, Apply(db, step).reservations[p])
  {
    hide Apply;
    StepKeepsWindows(db, step, given, clock);
    var next := Apply(db, step);
    assert p in next.payments;
    assert Backed(next.payments[p], next.reservations[p]);
  }
}
