/** The v3 cutover: every legacy payment is normalized, the whole set is checked before anything
    is written, and the import then meets the constraints of the v4 tables. */
module Preflight {
  import opened Common
  import opened Domain
  import Uniqueness

  /** What decoding the legacy metadata gives: nothing usable, or JSON with an optional event id. */
  datatype Metadata = Unusable | Usable(json: string, eventId: Option<string>)

  datatype LegacyPayment = LegacyPayment(
    id: string, account: string, status: string, customerName: string, payerName: string, payerUpi: string,
    note: string, idempotencyKey: string, requested: int, payable: int,
    createdAt: int, expiresAt: int, reuseAfter: int, paidAt: Option<int>, resolvedAt: Option<int>, metadata: Metadata)

  datatype Migrated = Migrated(
    id: string, name: string, externalId: string, metadata: string,
    requested: int, payable: int, adjustment: int, profile: string, upiId: string, payee: string, status: Status,
    createdAt: int, expiresAt: int, graceUntil: int, reuseAfter: int, paidAt: Option<int>,
    payerName: string, payerUpi: string, note: string,
    legacyStatus: string, idempotencyKey: string, resolvedAt: Option<int>)

  /** Destinations for the two live accounts. */
  datatype Options = Options(kotakUpi: string, kotakPayee: string, paytmUpi: string, paytmPayee: string)

  datatype LegacyError =
    | EmptyId | BadAmounts | BadTimes | BadAccount | NoDestination
    | BadStatus | PaidWithoutTime | NoGraceWindow | BadMetadata
    | DuplicateId | DuplicateKey | ReservationCollision

  const UNKNOWN_NAME: string := "Unknown (legacy)"
  const GRACE: int := 5 * 60 * 1000

  // ----- One payment, declaratively -----

  function Account(p: LegacyPayment): string { ToLower(Trim(p.account)) }

  function LegacyStatus(p: LegacyPayment): string { ToLower(Trim(p.status)) }

  predicate NameFilled(p: LegacyPayment) { Trim(p.customerName) == "" }

  predicate Late(p: LegacyPayment) { LegacyStatus(p) == "late" }

  function DisplayName(p: LegacyPayment): string {
    var name := if NameFilled(p) then UNKNOWN_NAME else Trim(p.customerName);
    if |name| > 120 then name[..120] else name
  }

  /** The destination snapshots rebuilt for a legacy account. */
  function Destination(account: string, opts: Options): Option<(string, string)> {
    if account == "kotak" then Some((Trim(opts.kotakUpi), Trim(opts.kotakPayee)))
    else if account == "paytm" then Some((Trim(opts.paytmUpi), Trim(opts.paytmPayee)))
    else if account == "slice" then Some(("unknown@legacy", "Slice (legacy)"))
    else None
  }

  predicate Known(profile: string) {
    profile == "kotak" || profile == "paytm" || profile == "slice"
  }

  function MappedStatus(legacy: string): Option<Status> {
    if legacy == "paid" || legacy == "late" then Some(Paid)
    else if legacy == "expired" then Some(Expired)
    else if legacy == "cancelled" then Some(Cancelled)
    else if legacy == "pending" then Some(Pending)
    else None
  }

  predicate AmountsFit(p: LegacyPayment) {
    p.requested > 0 && p.requested % 100 == 0 && 1 <= p.payable - p.requested <= 199 && p.payable % 100 != 0
  }

  /** Five minutes after expiry, pulled back to just before reuse when there is less room. */
  function Grace(p: LegacyPayment): int {
    if p.expiresAt + GRACE < p.reuseAfter then p.expiresAt + GRACE else p.reuseAfter - 1
  }

  /** What a legacy row must look like to be accepted. */
  predicate Acceptable(p: LegacyPayment, opts: Options) {
    && Trim(p.id) != ""
    && AmountsFit(p)
    && p.createdAt < p.expiresAt && p.expiresAt + 1 < p.reuseAfter
    && Destination(Account(p), opts).Some? && Destination(Account(p), opts).value.0 != ""
    && MappedStatus(LegacyStatus(p)).Some?
    && (MappedStatus(LegacyStatus(p)) == Some(Paid) ==> p.paidAt.Some?)
    && p.metadata.Usable?
  }

  /** The row it becomes; a pending row past its grace window is imported as expired. */
  function Normalized(p: LegacyPayment, opts: Options, now: int): Migrated
    requires Acceptable(p, opts)
  {
    var mapped := MappedStatus(LegacyStatus(p)).value;
    var status := if mapped == Pending && now >= Grace(p) then Expired else mapped;
    var (upiId, payee) := Destination(Account(p), opts).value;
    var externalId := if p.metadata.eventId.Some? then Trim(p.metadata.eventId.value) else "";
    Migrated(Trim(p.id), DisplayName(p), externalId, p.metadata.json, p.requested, p.payable, p.payable - p.requested,
             Account(p), upiId, payee, status, p.createdAt, p.expiresAt, Grace(p), p.reuseAfter,
             if status == Paid then p.paidAt else None, Trim(p.payerName), Trim(p.payerUpi), Trim(p.note),
             LegacyStatus(p), Trim(p.idempotencyKey), p.resolvedAt)
  }

  // ----- One payment, in plain numbers and words -----

  /** Where the money of an account went: as configured for the two live ones, and to a stand-in for the third. */
  predicate WentTo(account: string, opts: Options, upiId: string, payee: string) {
    || (account == "kotak" && upiId == Trim(opts.kotakUpi) && payee == Trim(opts.kotakPayee))
    || (account == "paytm" && upiId == Trim(opts.paytmUpi) && payee == Trim(opts.paytmPayee))
    || (account == "slice" && upiId == "unknown@legacy" && payee == "Slice (legacy)")
  }

  /** The status a legacy word becomes; "late" was paid. */
  predicate Becomes(word: string, status: Status) {
    || (word == "pending" && status == Pending) || (word == "expired" && status == Expired)
    || (word == "cancelled" && status == Cancelled) || ((word == "paid" || word == "late") && status == Paid)
  }

  /** The preflight takes a row with an id, whole rupees and an adjustment of 1 to 199 paise that leaves
      none, a span of life and a millisecond of grace, a known account with a destination, a known status,
      a time if it is paid, and metadata that can be read. */
  lemma LegacyIsTakenIff(p: LegacyPayment, opts: Options)
    ensures Acceptable(p, opts)
       <==> && Trim(p.id) != "" && 0 < p.requested && p.requested % 100 == 0
            && p.requested < p.payable <= p.requested + 199 && p.payable % 100 != 0
            && p.createdAt < p.expiresAt && p.expiresAt + 1 < p.reuseAfter
            && (exists upiId, payee :: WentTo(Word(p.account), opts, upiId, payee) && upiId != "")
            && (exists status :: Becomes(Word(p.status), status) && (status == Paid ==> p.paidAt != None))
            && p.metadata != Unusable
  {
    hide Trim, ToLower;
    if Destination(Account(p), opts).Some? {
      var (upiId, payee) := Destination(Account(p), opts).value;
      assert WentTo(Word(p.account), opts, upiId, payee);
    }
    if MappedStatus(LegacyStatus(p)).Some? {
      assert Becomes(Word(p.status), MappedStatus(LegacyStatus(p)).value);
    }
  }

  /** What a row that is taken becomes: its name cut to 120 characters, or a stand-in; its words in lower case
      and its texts without surrounding white space; grace until five minutes after its expiry, or a
      millisecond before its amount may be used again if that is sooner; paid_at only if it is paid;
      expired, if it was pending and its grace is over. */
  predicate MigratedFrom(p: LegacyPayment, opts: Options, now: int, m: Migrated) {
    && m.id == Trim(p.id) && m.metadata == (if p.metadata == Unusable then "" else p.metadata.json)
    && m.externalId == (if p.metadata == Unusable || p.metadata.eventId == None then ""
                        else Trim(p.metadata.eventId.value))
    && (Trim(p.customerName) == "" ==> m.name == "Unknown (legacy)")
    && (Trim(p.customerName) != "" ==>
          m.name <= Trim(p.customerName) && |m.name| == Least(|Trim(p.customerName)|, 120))
    && m.requested == p.requested && m.payable == p.payable && m.adjustment == p.payable - p.requested
    && m.profile == Word(p.account) && WentTo(m.profile, opts, m.upiId, m.payee)
    && m.createdAt == p.createdAt && m.expiresAt == p.expiresAt && m.reuseAfter == p.reuseAfter
    && m.graceUntil == Least(p.expiresAt + 300000, p.reuseAfter - 1)
    && m.payerName == Trim(p.payerName) && m.payerUpi == Trim(p.payerUpi) && m.note == Trim(p.note)
    && m.legacyStatus == Word(p.status) && m.idempotencyKey == Trim(p.idempotencyKey) && m.resolvedAt == p.resolvedAt
    && (if m.legacyStatus == "pending" && m.graceUntil <= now then m.status == Expired
        else Becomes(m.legacyStatus, m.status))
    && m.paidAt == if m.status == Paid then p.paidAt else None
  }

  function Least(a: int, b: int): int {
    if a < b then a else b
  }

  /** It becomes that, and is reported as unnamed or as late if it was. */
  lemma NormalizedIsMigrated(p: LegacyPayment, opts: Options, now: int)
    requires Acceptable(p, opts)
    ensures MigratedFrom(p, opts, now, Normalized(p, opts, now))
    ensures (NameFilled(p) <==> Trim(p.customerName) == "") && (Late(p) <==> Word(p.status) == "late")
  {
    hide Trim, ToLower;
  }

  method DestinationOf(profile: string, opts: Options) returns (r: Option<(string, string)>)
    ensures r == Destination(profile, opts)
  {
    hide Trim;
    r := None;
    if profile == "kotak" {
      r := Some((Trim(opts.kotakUpi), Trim(opts.kotakPayee)));
    } else if profile == "paytm" {
      r := Some((Trim(opts.paytmUpi), Trim(opts.paytmPayee)));
    } else if profile == "slice" {
      r := Some(("unknown@legacy", "Slice (legacy)"));
    }
  }

  method StatusOf(legacy: string) returns (status: Option<Status>, late: bool)
    ensures status == MappedStatus(legacy) && (late <==> legacy == "late")
  {
    status, late := None, false;
    if legacy == "paid" {
      status := Some(Paid);
    } else if legacy == "late" {
      status, late := Some(Paid), true;
    } else if legacy == "expired" {
      status := Some(Expired);
    } else if legacy == "cancelled" {
      status := Some(Cancelled);
    } else if legacy == "pending" {
      status := Some(Pending);
    }
  }

  /** normalizePayment, with its early returns; the amounts are the int64 columns they are read from. */
  method NormalizePayment(p: LegacyPayment, opts: Options, now: int)
    returns (r: Result<Migrated, LegacyError>, filled: bool, late: bool)
    requires Int64(p.requested) && Int64(p.payable)
    ensures r.Ok? <==> Acceptable(p, opts)
    ensures r.Ok? ==> r.value == Normalized(p, opts, now) && filled == NameFilled(p) && late == Late(p)
  {
    hide Trim, ToLower, Destination, MappedStatus, Account, LegacyStatus;
    filled, late := false, false;
    var id, profile, legacyStatus := Trim(p.id), Account(p), LegacyStatus(p);
    var adjustment := Wrap64(p.payable - p.requested);
    if id == "" { return Err(EmptyId), filled, late; }
    if p.requested <= 0 || p.requested % 100 != 0 || p.payable <= p.requested
      || adjustment < 1 || adjustment > 199 || p.payable % 100 == 0
    {
      return Err(BadAmounts), filled, late;
    }
    if p.createdAt >= p.expiresAt || p.expiresAt >= p.reuseAfter { return Err(BadTimes), filled, late; }
    var name := Trim(p.customerName);
    if name == "" { name, filled := UNKNOWN_NAME, true; }
    if |name| > 120 { name := name[..120]; }
    var destination := DestinationOf(profile, opts);
    if destination.None? { return Err(BadAccount), filled, late; }
    var (upiId, payee) := destination.value;
    if upiId == "" { return Err(NoDestination), filled, late; }
    var mapped, wasLate := StatusOf(legacyStatus);
    late := wasLate;
    if mapped.None? { return Err(BadStatus), filled, late; }
    var status := mapped.value;
    var paidAt := p.paidAt;
    if status == Paid && paidAt.None? { return Err(PaidWithoutTime), filled, late; }
    if status != Paid { paidAt := None; }
    var graceUntil := p.expiresAt + GRACE;
    if graceUntil >= p.reuseAfter { graceUntil := p.reuseAfter - 1; }
    if p.expiresAt >= graceUntil { return Err(NoGraceWindow), filled, late; }
    if status == Pending && now >= graceUntil { status := Expired; }
    if p.metadata.Unusable? { return Err(BadMetadata), filled, late; }
    var externalId := "";
    if p.metadata.eventId.Some? && Trim(p.metadata.eventId.value) != "" {
      externalId := Trim(p.metadata.eventId.value);
    }
    r := Ok(Migrated(id, name, externalId, p.metadata.json, p.requested, p.payable, adjustment, profile, upiId, payee,
                     status, p.createdAt, p.expiresAt, graceUntil, p.reuseAfter, paidAt,
                     Trim(p.payerName), Trim(p.payerUpi), Trim(p.note), legacyStatus, Trim(p.idempotencyKey),
                     p.resolvedAt));
  }

  // ----- The table constraints -----

  /** The import stores the zero time as NULL. */
  function StoredTime(t: Option<int>): Option<int> {
    if t == Some(ZERO_INSTANT) then None else t
  }

  predicate Active(m: Migrated, now: int) {
    now < m.reuseAfter
  }

  function ReleasedAt(m: Migrated, now: int): Option<int> {
    if Active(m, now) then None else Some(m.reuseAfter)
  }

  /** The CHECK constraints of payments and amount_reservations on the rows an import inserts. */
  predicate MeetsChecks(m: Migrated, now: int) {
    && m.name != "" && !IsSpace(m.name[0]) && |m.name| <= 120
    && m.requested > 0 && m.requested % 100 == 0
    && m.payable > m.requested && 1 <= m.payable % 100 <= 99
    && 1 <= m.adjustment <= 199 && m.payable == m.requested + m.adjustment
    && m.createdAt < m.expiresAt < m.graceUntil < m.reuseAfter
    && (m.status == Paid <==> StoredTime(m.paidAt).Some?)
    && (ReleasedAt(m, now).Some? ==> ReleasedAt(m, now).value >= m.createdAt)
  }

  /** Every accepted row meets every CHECK, except a paid row whose paid_at is the zero time. */
  lemma AcceptedMeetsChecksIff(p: LegacyPayment, opts: Options, now: int)
    requires Acceptable(p, opts)
    ensures MeetsChecks(Normalized(p, opts, now), now)
      <==> !(MappedStatus(LegacyStatus(p)) == Some(Paid) && p.paidAt == Some(ZERO_INSTANT))
    ensures Known(Normalized(p, opts, now).profile)
    ensures Normalized(p, opts, now).status == Pending ==> now < Normalized(p, opts, now).graceUntil
  {
    TrimIsTight(p.customerName);
    hide Trim, ToLower;
    assert !IsSpace('U');
    assert DisplayName(p)[0] == if NameFilled(p) then 'U' else Trim(p.customerName)[0];
  }

  // ----- The whole set -----

  predicate Collide(a: Migrated, b: Migrated, now: int) {
    || a.id == b.id
    || (a.idempotencyKey != "" && a.idempotencyKey == b.idempotencyKey)
    || (Active(a, now) && Active(b, now) && a.profile == b.profile && a.payable == b.payable)
  }

  ghost predicate AllAcceptable(rows: seq<LegacyPayment>, opts: Options) {
    forall i :: 0 <= i < |rows| ==> Acceptable(rows[i], opts)
  }

  function NormalizedAll(rows: seq<LegacyPayment>, opts: Options, now: int): (out: seq<Migrated>)
    requires AllAcceptable(rows, opts)
    ensures |out| == |rows| && forall i :: 0 <= i < |rows| ==> out[i] == Normalized(rows[i], opts, now)
  {
    seq(|rows|, i requires 0 <= i < |rows| => Normalized(rows[i], opts, now))
  }

  ghost predicate Disjoint(out: seq<Migrated>, now: int) {
    forall i, j :: 0 <= i < j < |out| ==> !Collide(out[i], out[j], now)
  }

  function StatusCount(out: seq<Migrated>, status: Status): nat {
    if out == [] then 0 else StatusCount(out[..|out| - 1], status) + if out[|out| - 1].status == status then 1 else 0
  }

  function ProfileCount(out: seq<Migrated>, profile: string): nat {
    if out == [] then 0
    else ProfileCount(out[..|out| - 1], profile) + if out[|out| - 1].profile == profile then 1 else 0
  }

  function EventIdCount(out: seq<Migrated>): nat {
    if out == [] then 0 else EventIdCount(out[..|out| - 1]) + if out[|out| - 1].externalId != "" then 1 else 0
  }

  function FilledCount(rows: seq<LegacyPayment>): nat {
    if rows == [] then 0 else FilledCount(rows[..|rows| - 1]) + if NameFilled(rows[|rows| - 1]) then 1 else 0
  }

  function LateCount(rows: seq<LegacyPayment>): nat {
    if rows == [] then 0 else LateCount(rows[..|rows| - 1]) + if Late(rows[|rows| - 1]) then 1 else 0
  }

  datatype Report = Report(namesFilled: nat, lateNormalized: nat, eventIds: nat, byStatus: map<Status, nat>,
                           byProfile: map<string, nat>)

  function Get<K>(m: map<K, nat>, k: K): nat {
    if k in m then m[k] else 0
  }

  /** The report counts each accepted row once per category. */
  ghost predicate Reports(report: Report, rows: seq<LegacyPayment>, out: seq<Migrated>) {
    && report.namesFilled == FilledCount(rows) && report.lateNormalized == LateCount(rows)
    && report.eventIds == EventIdCount(out)
    && (forall status :: Get(report.byStatus, status) == StatusCount(out, status))
    && (forall profile :: Get(report.byProfile, profile) == ProfileCount(out, profile))
  }

  lemma {:induction false} CountsAddUp(out: seq<Migrated>)
    requires forall i :: 0 <= i < |out| ==> Known(out[i].profile)
    ensures StatusCount(out, Pending) + StatusCount(out, Paid) + StatusCount(out, Expired)
            + StatusCount(out, Cancelled) == |out|
    ensures ProfileCount(out, "kotak") + ProfileCount(out, "paytm") + ProfileCount(out, "slice") == |out|
  {
    if out != [] {
      CountsAddUp(out[..|out| - 1]);
      assert Known(out[|out| - 1].profile);
    }
  }

  /** Both maps of a report sum to the number of rows. */
  lemma ReportAddsUp(report: Report, rows: seq<LegacyPayment>, opts: Options, now: int)
    requires AllAcceptable(rows, opts) && Reports(report, rows, NormalizedAll(rows, opts, now))
    ensures Get(report.byStatus, Pending) + Get(report.byStatus, Paid) + Get(report.byStatus, Expired)
            + Get(report.byStatus, Cancelled) == |rows|
    ensures Get(report.byProfile, "kotak") + Get(report.byProfile, "paytm") + Get(report.byProfile, "slice") == |rows|
  {
    hide Acceptable, Normalized, Known, StatusCount, ProfileCount, EventIdCount, FilledCount, LateCount;
    var out := NormalizedAll(rows, opts, now);
    forall i | 0 <= i < |out| ensures Known(out[i].profile) {
      AcceptedMeetsChecksIff(rows[i], opts, now);
    }
    CountsAddUp(out);
  }

  function Counted(report: Report, m: Migrated, filled: bool, late: bool): Report {
    Report(report.namesFilled + (if filled then 1 else 0), report.lateNormalized + (if late then 1 else 0),
           report.eventIds + (if m.externalId != "" then 1 else 0),
           report.byStatus[m.status := Get(report.byStatus, m.status) + 1],
           report.byProfile[m.profile := Get(report.byProfile, m.profile) + 1])
  }

  lemma CountingOne(report: Report, rows: seq<LegacyPayment>, n: nat, out: seq<Migrated>, m: Migrated)
    requires n < |rows| && Reports(report, rows[..n], out)
    ensures Reports(Counted(report, m, NameFilled(rows[n]), Late(rows[n])), rows[..n + 1], out + [m])
  {
    var next := Counted(report, m, NameFilled(rows[n]), Late(rows[n]));
    FlagsOneMore(rows, n);
    CountsOneMore(out, m);
    hide NameFilled, Late, StatusCount, ProfileCount, EventIdCount, FilledCount, LateCount;
    forall status ensures Get(next.byStatus, status) == StatusCount(out + [m], status) {
      assert Get(report.byStatus, status) == StatusCount(out, status);
    }
    forall profile ensures Get(next.byProfile, profile) == ProfileCount(out + [m], profile) {
      assert Get(report.byProfile, profile) == ProfileCount(out, profile);
    }
  }

  lemma FlagsOneMore(rows: seq<LegacyPayment>, n: nat)
    requires n < |rows|
    ensures FilledCount(rows[..n + 1]) == FilledCount(rows[..n]) + if NameFilled(rows[n]) then 1 else 0
    ensures LateCount(rows[..n + 1]) == LateCount(rows[..n]) + if Late(rows[n]) then 1 else 0
  {
    hide NameFilled, Late;
    assert rows[..n + 1][..n] == rows[..n];
  }

  lemma {:induction false} CountsOneMore(out: seq<Migrated>, m: Migrated)
    ensures EventIdCount(out + [m]) == EventIdCount(out) + if m.externalId != "" then 1 else 0
    ensures forall status ::
              StatusCount(out + [m], status) == StatusCount(out, status) + if m.status == status then 1 else 0
    ensures forall profile ::
              ProfileCount(out + [m], profile) == ProfileCount(out, profile) + if m.profile == profile then 1 else 0
  {
    assert (out + [m])[..|out|] == out;
  }

  lemma NormalizedOneMore(rows: seq<LegacyPayment>, opts: Options, now: int, n: nat)
    requires n < |rows| && AllAcceptable(rows[..n], opts) && Acceptable(rows[n], opts)
    ensures AllAcceptable(rows[..n + 1], opts)
    ensures NormalizedAll(rows[..n + 1], opts, now)
         == NormalizedAll(rows[..n], opts, now) + [Normalized(rows[n], opts, now)]
  {
    hide Acceptable, Normalized;
    assert rows[..n + 1] == rows[..n] + [rows[n]];
  }

  lemma DisjointOneMore(out: seq<Migrated>, now: int, m: Migrated)
    requires Disjoint(out, now)
    ensures Disjoint(out + [m], now) <==> forall i :: 0 <= i < |out| ==> !Collide(out[i], m, now)
  {
    hide Collide;
    var all := out + [m];
    assert all[|out|] == m;
    forall i | 0 <= i < |out| ensures all[i] == out[i] {
    }
  }

  /** Where the loop is after n rows. */
  ghost predicate Progress(rows: seq<LegacyPayment>, opts: Options, now: int, n: nat, out: seq<Migrated>, seen: Seen,
                           report: Report)
  {
    && n <= |rows| && AllAcceptable(rows[..n], opts)
    && out == NormalizedAll(rows[..n], opts, now) && Disjoint(out, now)
    && Tracks(out, seen, now) && Reports(report, rows[..n], out)
  }

  lemma NoProgress(rows: seq<LegacyPayment>, opts: Options, now: int)
    ensures Progress(rows, opts, now, 0, [], Seen({}, {}, {}), Report(0, 0, 0, map[], map[]))
  {
    NothingCollides(now);
    hide Acceptable, Normalized;
  }

  lemma OneMore(rows: seq<LegacyPayment>, opts: Options, now: int, n: nat, out: seq<Migrated>, seen: Seen,
                report: Report)
    requires Progress(rows, opts, now, n, out, seen, report) && n < |rows| && Acceptable(rows[n], opts)
    ensures var m := Normalized(rows[n], opts, now);
      if Repeats(seen, m, now).Some? then AllAcceptable(rows, opts) ==> !Disjoint(NormalizedAll(rows, opts, now), now)
      else Progress(rows, opts, now, n + 1, out + [m], Remember(seen, m, now),
                    Counted(report, m, NameFilled(rows[n]), Late(rows[n])))
  {
    hide Acceptable, Normalized, NameFilled, Late, Collide, Reports, Tracks, Repeats, Remember, Counted;
    var m := Normalized(rows[n], opts, now);
    TracksFindsCollision(out, seen, now, m);
    DisjointOneMore(out, now, m);
    NormalizedOneMore(rows, opts, now, n);
    hide Disjoint;
    CountingOne(report, rows, n, out, m);
    if Repeats(seen, m, now).Some? {
      PrefixDecides(rows, opts, now, n + 1);
    }
  }

  lemma AllDone(rows: seq<LegacyPayment>, opts: Options, now: int, out: seq<Migrated>, seen: Seen, report: Report)
    requires Progress(rows, opts, now, |rows|, out, seen, report)
    ensures AllAcceptable(rows, opts) && Disjoint(NormalizedAll(rows, opts, now), now)
    ensures out == NormalizedAll(rows, opts, now) && Reports(report, rows, out)
  {
    assert rows[..|rows|] == rows;
  }

  /** preflight: accepted exactly when every row is acceptable and no two rows collide. */
  method Check(rows: seq<LegacyPayment>, opts: Options, now: int)
    returns (r: Result<(seq<Migrated>, Report), LegacyError>)
    requires forall i :: 0 <= i < |rows| ==> Int64(rows[i].requested) && Int64(rows[i].payable)
    ensures r.Ok? <==> AllAcceptable(rows, opts) && Disjoint(NormalizedAll(rows, opts, now), now)
    ensures r.Ok? ==> r.value.0 == NormalizedAll(rows, opts, now) && Reports(r.value.1, rows, r.value.0)
  {
    hide Acceptable, Normalized, NameFilled, Late, Reports, Disjoint, Progress, Repeats, Remember, Counted;
    hide NormalizedAll;
    var out: seq<Migrated> := [];
    var seen := Seen({}, {}, {});
    var report := Report(0, 0, 0, map[], map[]);
    var n := 0;
    NoProgress(rows, opts, now);
    while n < |rows|
      invariant 0 <= n <= |rows| && Progress(rows, opts, now, n, out, seen, report)
    {
      var normalized, filled, late := NormalizePayment(rows[n], opts, now);
      if normalized.Err? { return Err(normalized.error); }
      var m := normalized.value;
      OneMore(rows, opts, now, n, out, seen, report);
      var repeated := Repeats(seen, m, now);
      if repeated.Some? { return Err(repeated.value); }
      seen := Remember(seen, m, now);
      report := Counted(report, m, filled, late);
      out := out + [m];
      n := n + 1;
    }
    AllDone(rows, opts, now, out, seen, report);
    r := Ok((out, report));
  }

  lemma NothingCollides(now: int)
    ensures Disjoint([], now) && Tracks([], Seen({}, {}, {}), now)
  {
  }

  /** The lookup tables ids, idem and activeReservations. */
  datatype Seen = Seen(ids: set<string>, keys: set<string>, active: set<(string, int)>)

  function Repeats(seen: Seen, m: Migrated, now: int): Option<LegacyError> {
    if m.id in seen.ids then Some(DuplicateId)
    else if m.idempotencyKey != "" && m.idempotencyKey in seen.keys then Some(DuplicateKey)
    else if now < m.reuseAfter && (m.profile, m.payable) in seen.active then Some(ReservationCollision)
    else None
  }

  function Remember(seen: Seen, m: Migrated, now: int): Seen {
    Seen(seen.ids + {m.id}, if m.idempotencyKey != "" then seen.keys + {m.idempotencyKey} else seen.keys,
         if now < m.reuseAfter then seen.active + {(m.profile, m.payable)} else seen.active)
  }

  /** They hold exactly the ids, keys and active amounts of the rows so far. */
  ghost predicate Tracks(out: seq<Migrated>, seen: Seen, now: int) {
    && (forall id :: id in seen.ids <==> exists i :: 0 <= i < |out| && out[i].id == id)
    && (forall key :: key in seen.keys <==> exists i :: 0 <= i < |out| && out[i].idempotencyKey == key && key != "")
    && (forall pair :: pair in seen.active
          <==> exists i :: 0 <= i < |out| && Active(out[i], now) && (out[i].profile, out[i].payable) == pair)
  }

  lemma TracksFindsCollision(out: seq<Migrated>, seen: Seen, now: int, m: Migrated)
    requires Tracks(out, seen, now)
    ensures Repeats(seen, m, now).Some? <==> exists i :: 0 <= i < |out| && Collide(out[i], m, now)
    ensures Tracks(out + [m], Remember(seen, m, now), now)
  {
    TracksOneMore(out, seen, now, m);
  }

  lemma TracksOneMore(out: seq<Migrated>, seen: Seen, now: int, m: Migrated)
    requires Tracks(out, seen, now)
    ensures Tracks(out + [m], Remember(seen, m, now), now)
  {
    var all, next := out + [m], Remember(seen, m, now);
    assert all[|out|] == m && forall i :: 0 <= i < |out| ==> all[i] == out[i];
    forall id ensures id in next.ids <==> exists i :: 0 <= i < |all| && all[i].id == id {
      if id in seen.ids { var i :| 0 <= i < |out| && out[i].id == id; assert all[i].id == id; }
    }
    forall key ensures key in next.keys <==> exists i :: 0 <= i < |all| && all[i].idempotencyKey == key && key != "" {
      if key in seen.keys {
        var i :| 0 <= i < |out| && out[i].idempotencyKey == key;
        assert all[i].idempotencyKey == key;
      }
    }
    forall pair ensures pair in next.active
      <==> exists i :: 0 <= i < |all| && Active(all[i], now) && (all[i].profile, all[i].payable) == pair
    {
      if pair in seen.active {
        var i :| 0 <= i < |out| && Active(out[i], now) && (out[i].profile, out[i].payable) == pair;
        assert Active(all[i], now);
      }
    }
  }

  /** A collision among the first n rows is one among all. */
  lemma PrefixDecides(rows: seq<LegacyPayment>, opts: Options, now: int, n: nat)
    requires n <= |rows| && AllAcceptable(rows[..n], opts) && !Disjoint(NormalizedAll(rows[..n], opts, now), now)
    ensures AllAcceptable(rows, opts) ==> !Disjoint(NormalizedAll(rows, opts, now), now)
  {
    hide Acceptable, Normalized, Collide;
    if AllAcceptable(rows, opts) {
      var some, all := NormalizedAll(rows[..n], opts, now), NormalizedAll(rows, opts, now);
      var i, j :| 0 <= i < j < |some| && Collide(some[i], some[j], now);
      assert some[i] == Normalized(rows[..n][i], opts, now) && some[j] == Normalized(rows[..n][j], opts, now);
      assert all[i] == some[i] && all[j] == some[j];
    }
  }

  // ----- The import -----

  /** The reservation an import inserts; the enforcement marker takes its default. */
  function ReservationOf(m: Migrated, now: int): Uniqueness.Row {
    Uniqueness.Row(m.profile, m.payable, ReleasedAt(m, now).Some?, 1)
  }

  /** The primary keys of payments and of the idempotency tombstones. */
  predicate KeysFree(out: seq<Migrated>, n: nat)
    requires n < |out|
  {
    forall i :: 0 <= i < n ==>
      out[i].id != out[n].id && !(out[n].idempotencyKey != "" && out[i].idempotencyKey == out[n].idempotencyKey)
  }

  /** The reservations after the first n payments are inserted, unless one was refused: by a CHECK,
      a primary key, or the guards of the reservations. A refusal rolls the whole import back. */
  ghost function Imported(out: seq<Migrated>, now: int, n: nat): Option<Uniqueness.Table>
    requires n <= |out|
  {
    if n == 0 then Some(map[])
    else if !MeetsChecks(out[n - 1], now) || !KeysFree(out, n - 1) then None
    else
      match Imported(out, now, n - 1)
      case None => None
      case Some(rows) =>
        match Uniqueness.InsertTx(rows, n - 1, ReservationOf(out[n - 1], now))
        case Ok(next) => Some(next)
        case Err(_) => None
  }

  /** Two rows that hold the same payable, under whatever profiles. */
  predicate SameHeldAmount(a: Migrated, b: Migrated, now: int) {
    Active(a, now) && Active(b, now) && a.payable == b.payable
  }

  ghost predicate HeldAmountsDiffer(out: seq<Migrated>, now: int, n: nat)
    requires n <= |out|
  {
    forall i, j :: 0 <= i < j < n ==> !SameHeldAmount(out[i], out[j], now)
  }

  /** The table holds the reservations of the first n rows. */
  ghost predicate Holds(rows: Uniqueness.Table, out: seq<Migrated>, now: int, n: nat)
    requires n <= |out|
  {
    (forall i :: i in rows <==> 0 <= i < n) && forall i :: 0 <= i < n ==> rows[i] == ReservationOf(out[i], now)
  }

  lemma InsertNext(rows: Uniqueness.Table, out: seq<Migrated>, now: int, n: nat)
    requires n < |out| && Uniqueness.Sound(rows) && Holds(rows, out, now, n)
    ensures var r := Uniqueness.InsertTx(rows, n, ReservationOf(out[n], now));
      && (r.Ok? <==> forall j :: 0 <= j < n ==> !SameHeldAmount(out[j], out[n], now))
      && (r.Ok? ==> Uniqueness.Sound(r.value) && Holds(r.value, out, now, n + 1))
  {
    var row := ReservationOf(out[n], now);
    Uniqueness.InsertGuardIsExact(rows, n, row);
    assert forall j :: 0 <= j < n ==> (Uniqueness.Live(rows, j) <==> Active(out[j], now));
    hide Uniqueness.Sound, Uniqueness.ProfileIndexHolds, Uniqueness.AmountIndexHolds, Uniqueness.InsertAllowed;
  }

  ghost predicate AllInsertable(out: seq<Migrated>, now: int, n: nat)
    requires n <= |out|
  {
    forall i :: 0 <= i < n ==> MeetsChecks(out[i], now) && KeysFree(out, i)
  }

  /** What one more row adds to the conditions of the import. */
  lemma OneMoreInsertable(out: seq<Migrated>, now: int, n: nat)
    requires n < |out|
    ensures AllInsertable(out, now, n + 1)
       <==> AllInsertable(out, now, n) && MeetsChecks(out[n], now) && KeysFree(out, n)
    ensures HeldAmountsDiffer(out, now, n + 1)
       <==> HeldAmountsDiffer(out, now, n) && forall j :: 0 <= j < n ==> !SameHeldAmount(out[j], out[n], now)
  {
    hide MeetsChecks, KeysFree, SameHeldAmount;
  }

  /** The first n rows are imported exactly when they may be, and the table then holds them. */
  ghost predicate ImportIsExact(out: seq<Migrated>, now: int, n: nat, imported: Option<Uniqueness.Table>)
    requires n <= |out|
  {
    && (imported.Some? <==> HeldAmountsDiffer(out, now, n) && AllInsertable(out, now, n))
    && (imported.Some? ==> Uniqueness.Sound(imported.value) && Holds(imported.value, out, now, n))
  }

  lemma ImportedNext(out: seq<Migrated>, now: int, n: nat)
    requires n < |out| && ImportIsExact(out, now, n, Imported(out, now, n))
    ensures ImportIsExact(out, now, n + 1, Imported(out, now, n + 1))
  {
    hide Uniqueness.Sound, Uniqueness.InsertTx, Holds, ReservationOf, SameHeldAmount, MeetsChecks, KeysFree;
    hide AllInsertable, HeldAmountsDiffer;
    OneMoreInsertable(out, now, n);
    if Imported(out, now, n).Some? {
      InsertNext(Imported(out, now, n).value, out, now, n);
    }
  }

  lemma ImportedNone(out: seq<Migrated>, now: int)
    ensures ImportIsExact(out, now, 0, Some(map[]))
  {
    hide MeetsChecks, KeysFree, SameHeldAmount;
  }

  lemma {:induction false} ImportedUpTo(out: seq<Migrated>, now: int, n: nat)
    requires n <= |out|
    ensures ImportIsExact(out, now, n, Imported(out, now, n))
  {
    hide ImportIsExact, MeetsChecks, KeysFree;
    if n == 0 {
      ImportedNone(out, now);
    } else {
      ImportedUpTo(out, now, n - 1);
      ImportedNext(out, now, n - 1);
    }
  }

  lemma {:induction false} ImportedIff(out: seq<Migrated>, now: int)
    ensures Imported(out, now, |out|).Some? <==> HeldAmountsDiffer(out, now, |out|) && AllInsertable(out, now, |out|)
  {
    hide Imported, HeldAmountsDiffer, AllInsertable, Uniqueness.Sound, Holds;
    ImportedUpTo(out, now, |out|);
  }

  /** The CHECKs in numbers; the import stores no time for the zero time. */
  predicate RowIsSound(m: Migrated, now: int) {
    && 1 <= |m.name| <= 120 && !IsSpace(m.name[0])
    && 0 < m.requested && m.requested % 100 == 0 && m.payable % 100 != 0
    && 1 <= m.payable - m.requested <= 199 && m.adjustment == m.payable - m.requested
    && m.createdAt < m.expiresAt < m.graceUntil < m.reuseAfter
    && (m.status == Paid <==> m.paidAt.Some? && m.paidAt.value != -62135596800000)
  }

  /** No two rows share their id or a key, and no two unexpired ones their payable. */
  predicate RowsGoTogether(a: Migrated, b: Migrated, now: int) {
    && a.id != b.id && (a.idempotencyKey == "" || a.idempotencyKey != b.idempotencyKey)
    && (now < a.reuseAfter && now < b.reuseAfter ==> a.payable != b.payable)
  }

  /** The import of any rows whatever succeeds if and only if each is sound and any two go together. */
  lemma {:induction false} ImportedRowsIff(out: seq<Migrated>, now: int)
    ensures Imported(out, now, |out|).Some?
       <==> && (forall i :: 0 <= i < |out| ==> RowIsSound(out[i], now))
            && forall i, j :: 0 <= i < j < |out| ==> RowsGoTogether(out[i], out[j], now)
  {
    ImportedIff(out, now);
    hide Imported, IsSpace;
    forall i | 0 <= i < |out| ensures MeetsChecks(out[i], now) <==> RowIsSound(out[i], now) {
      SoundMeetsChecks(out[i], now);
    }
    hide MeetsChecks, RowIsSound;
    forall i, j | 0 <= i < j < |out|
      ensures RowsGoTogether(out[i], out[j], now)
         <==> && out[i].id != out[j].id
              && !(out[j].idempotencyKey != "" && out[i].idempotencyKey == out[j].idempotencyKey)
              && !SameHeldAmount(out[i], out[j], now)
    {
    }
    hide RowsGoTogether, SameHeldAmount;
  }

  lemma SoundMeetsChecks(m: Migrated, now: int)
    ensures MeetsChecks(m, now) <==> RowIsSound(m, now)
  {
    hide IsSpace;
  }

  predicate PaidAtZero(p: LegacyPayment) {
    MappedStatus(LegacyStatus(p)) == Some(Paid) && p.paidAt == Some(ZERO_INSTANT)
  }

  ghost predicate NoneHeldAcrossProfiles(out: seq<Migrated>, now: int) {
    forall i, j :: 0 <= i < j < |out| && out[i].profile != out[j].profile ==> !SameHeldAmount(out[i], out[j], now)
  }

  lemma DisjointIsInsertable(rows: seq<LegacyPayment>, opts: Options, now: int)
    requires AllAcceptable(rows, opts) && Disjoint(NormalizedAll(rows, opts, now), now)
    ensures var out := NormalizedAll(rows, opts, now);
      AllInsertable(out, now, |out|) <==> forall i :: 0 <= i < |rows| ==> !PaidAtZero(rows[i])
  {
    var out := NormalizedAll(rows, opts, now);
    hide Acceptable, Normalized, MeetsChecks, MappedStatus, LegacyStatus;
    forall i | 0 <= i < |rows| ensures MeetsChecks(out[i], now) <==> !PaidAtZero(rows[i]) {
      AcceptedMeetsChecksIff(rows[i], opts, now);
    }
    forall i | 0 <= i < |out| ensures KeysFree(out, i) {
      assert forall j :: 0 <= j < i ==> !Collide(out[j], out[i], now);
    }
  }

  /** The preflight looks for collisions inside one profile only, and lets a zero paid_at pass. An
      accepted set is imported exactly when no two of its held amounts are equal across profiles
      and no paid row is dated at the zero time; otherwise a trigger or a CHECK aborts the import. */
  lemma {:induction false} ImportSucceedsIff(rows: seq<LegacyPayment>, opts: Options, now: int)
    requires AllAcceptable(rows, opts) && Disjoint(NormalizedAll(rows, opts, now), now)
    ensures var out := NormalizedAll(rows, opts, now);
      Imported(out, now, |out|).Some?
      <==> NoneHeldAcrossProfiles(out, now) && forall i :: 0 <= i < |rows| ==> !PaidAtZero(rows[i])
  {
    var out := NormalizedAll(rows, opts, now);
    ImportedUpTo(out, now, |out|);
    DisjointIsInsertable(rows, opts, now);
    hide Acceptable, Normalized, MeetsChecks, PaidAtZero, Imported, AllInsertable;
    forall i, j | 0 <= i < j < |out| && out[i].profile == out[j].profile ensures !SameHeldAmount(out[i], out[j], now) {
      assert !Collide(out[i], out[j], now);
    }
  }

  // ----- Accepted sets that are not imported -----

  /** A one-rupee legacy payment created at 0, reusable after 1000000. */
  function Legacy(id: string, account: string, status: string, paidAt: Option<int>): LegacyPayment {
    LegacyPayment(id, account, status, "n", "", "", "", "", 100, 101, 0, 10, 1000000, paidAt, None, Usable("{}", None))
  }

  predicate Plain(s: string) {
    Tight(s) && NoUpperCase(s)
  }

  lemma LegacyIsAcceptable(id: string, account: string, status: string, paidAt: Option<int>, opts: Options)
    requires Plain(id) && Plain(account) && Plain(status)
    requires Destination(account, opts).Some? && Destination(account, opts).value.0 != ""
    requires MappedStatus(status).Some? && (MappedStatus(status) == Some(Paid) ==> paidAt.Some?)
    ensures var p := Legacy(id, account, status, paidAt);
      && Acceptable(p, opts) && Trim(p.id) == id && Account(p) == account && LegacyStatus(p) == status
      && Trim(p.idempotencyKey) == "" && Grace(p) == 10 + GRACE
  {
    TightIsTrimmed(id);
    TightIsTrimmed(account);
    TightIsTrimmed(status);
    LowerCaseStays(account);
    LowerCaseStays(status);
    TrimOfSpace("");
    hide Trim, ToLower, Destination, MappedStatus;
  }

  lemma AllOfOne(p: LegacyPayment, opts: Options, now: int)
    requires Acceptable(p, opts)
    ensures AllAcceptable([p], opts) && Disjoint(NormalizedAll([p], opts, now), now)
  {
    hide Acceptable, Normalized;
  }

  /** A paid row dated at the zero time: accepted, and refused by the CHECK on paid_at. */
  lemma {:induction false} ZeroTimeIsRefused(opts: Options, now: int)
    requires Trim(opts.kotakUpi) != ""
    ensures var rows := [Legacy("a", "kotak", "paid", Some(ZERO_INSTANT))];
      && AllAcceptable(rows, opts) && Disjoint(NormalizedAll(rows, opts, now), now)
      && !MeetsChecks(NormalizedAll(rows, opts, now)[0], now) && Imported(NormalizedAll(rows, opts, now), now, 1).None?
  {
    var p := Legacy("a", "kotak", "paid", Some(ZERO_INSTANT));
    hide Trim;
    LegacyIsAcceptable("a", "kotak", "paid", Some(ZERO_INSTANT), opts);
    AcceptedMeetsChecksIff(p, opts, now);
    AllOfOne(p, opts, now);
    hide Acceptable, Normalized, LegacyStatus, MeetsChecks, Disjoint;
  }

  /** What the import holds for an accepted, unexpired legacy row. */
  predicate HeldAs(p: LegacyPayment, id: string, account: string, opts: Options) {
    && Acceptable(p, opts)
    && var m := Normalized(p, opts, 5);
    && m.id == id && m.profile == account && m.idempotencyKey == "" && m.payable == 101 && Active(m, 5)
  }

  lemma KotakIsHeld(opts: Options)
    requires Trim(opts.kotakUpi) != ""
    ensures HeldAs(Legacy("a", "kotak", "pending", None), "a", "kotak", opts)
  {
    hide Trim;
    LegacyIsHeld("a", "kotak", opts);
  }

  lemma PaytmIsHeld(opts: Options)
    requires Trim(opts.paytmUpi) != ""
    ensures HeldAs(Legacy("b", "paytm", "pending", None), "b", "paytm", opts)
  {
    hide Trim;
    assert "paytm"[0] != "kotak"[0];
    LegacyIsHeld("b", "paytm", opts);
  }

  /** Two accounts that hold one amount: accepted, and refused by the uniqueness trigger. */
  lemma CrossProfilePairIsRefused(opts: Options)
    requires Trim(opts.kotakUpi) != "" && Trim(opts.paytmUpi) != ""
    ensures var rows := [Legacy("a", "kotak", "pending", None), Legacy("b", "paytm", "pending", None)];
      && AllAcceptable(rows, opts) && Disjoint(NormalizedAll(rows, opts, 5), 5)
      && Imported(NormalizedAll(rows, opts, 5), 5, 2).None?
  {
    hide Trim, Legacy, Acceptable, Normalized, Disjoint, Imported;
    KotakIsHeld(opts);
    PaytmIsHeld(opts);
    PairIsRefused(Legacy("a", "kotak", "pending", None), Legacy("b", "paytm", "pending", None),
                  "a", "b", "kotak", "paytm", opts);
  }

  lemma LegacyIsHeld(id: string, account: string, opts: Options)
    requires Plain(id) && Plain(account) && Destination(account, opts).Some? && Destination(account, opts).value.0 != ""
    ensures HeldAs(Legacy(id, account, "pending", None), id, account, opts)
  {
    hide Trim, Destination;
    LegacyIsAcceptable(id, account, "pending", None, opts);
    hide MappedStatus, DisplayName, LegacyStatus, Account;
  }

  lemma PairIsRefused(p: LegacyPayment, q: LegacyPayment, id: string, other: string, account: string, second: string,
                      opts: Options)
    requires HeldAs(p, id, account, opts) && HeldAs(q, other, second, opts)
    requires id != other && account != second
    ensures AllAcceptable([p, q], opts) && Disjoint(NormalizedAll([p, q], opts, 5), 5)
    ensures Imported(NormalizedAll([p, q], opts, 5), 5, 2).None?
  {
    hide Acceptable, Normalized, MeetsChecks, Imported;
    var out := NormalizedAll([p, q], opts, 5);
    assert out[0] == Normalized(p, opts, 5) && out[1] == Normalized(q, opts, 5);
    assert !Collide(out[0], out[1], 5);
    ImportedUpTo(out, 5, 2);
    assert SameHeldAmount(out[0], out[1], 5);
  }
}
