/** Closing sessions: invoice, debit and settlement in one transaction (closure.py, invoicing.py). */
module Settlement {
  import opened Prelude
  import opened Invoicing
  import opened InvoiceCreation

  // ---------- tables ----------

  datatype EntryKind = ChargingDebit | GatewayTopup | ManualTopup | Adjustment | ReservationFee

  datatype Reference = SessionReference | OtherReference

  datatype Entry = Entry(wallet: int, kind: EntryKind, amount: int, reference: Reference, refId: int)

  datatype SettlementReason = Debited | ZeroInvoice | LegacyExempt

  /** A stored invoice. `basis` records the evidence it was computed from. */
  datatype Issued = Issued(invoice: Invoice, basis: Evidence)

  datatype Row = Row(evidence: Evidence, reasons: seq<string>, issued: Option<Issued>, settled: Option<SettlementReason>)

  /** `wallets` maps a driver to the driver's one wallet. */
  datatype World = World(rows: map<int, Row>, ledger: seq<Entry>, wallets: map<int, int>)

  predicate ForSession(e: Entry, id: int) {
    e.refId == id && (e.kind.ChargingDebit? || e.reference.SessionReference?)
  }

  /** The ledger entries the settlement step looks up. */
  function EntriesFor(ledger: seq<Entry>, id: int): seq<Entry> {
    if ledger == [] then []
    else
      var init, e := EntriesFor(ledger[..|ledger| - 1], id), ledger[|ledger| - 1];
      if ForSession(e, id) then init + [e] else init
  }

  // ---------- invoice step ----------

  datatype Outcome = Ready | Pending | NeedsReview | Failed

  function Code(reason: Reason): string {
    match reason
    case SessionMismatch => "invoice_session_mismatch"
    case MissingDriver => "invoice_missing_driver"
    case Unauthorized => "invoice_unauthorized_session"
    case InvalidInterval => "invoice_invalid_interval"
    case InvalidMeter => "invoice_invalid_meter"
    case ConflictingMeter => "invoice_conflicting_meter"
    case MeterDecreased => "invoice_meter_decreased"
    case InvalidOccupationHistory => "invoice_invalid_occupation_history"
    case MissingTariff => "invoice_missing_tariff"
    case InvalidTariff => "invoice_invalid_tariff"
    case EnergyMismatch => "invoice_energy_mismatch"
    case InvalidIdleInterval => "invoice_invalid_idle_interval"
    case AmountOverflow => "invoice_amount_overflow"
    case SegmentationFailed(_) => "segmentation_failed"
  }

  /** `lap_hoa_don`: reuse the saved invoice, create it, or record why not. A segmentation error is
      technical and aborts the transaction. */
  ghost function Issue(row: Row): (Row, Outcome) {
    var s := row.evidence.session;
    if row.reasons != [] then (row, NeedsReview)
    else if s.endedAt.None? then (row, Pending)
    else if row.issued.Some? then (row, Ready)
    else if s.lifecycle.V1? && s.releasedAt.None? then (row, Pending)
    else
      match CreatedInvoice(row.evidence)
      case Ok(invoice) => (row.(issued := Some(Issued(invoice, row.evidence))), Ready)
      case Err(reason) =>
        if reason.SegmentationFailed? then (row, Failed)
        else (row.(reasons := row.reasons + [Code(reason)]), NeedsReview)
  }

  // ---------- settlement step ----------

  predicate LedgerAgrees(entries: seq<Entry>, wallet: Option<int>, total: int) {
    && |entries| == 1 && wallet.Some?
    && entries[0].wallet == wallet.value
    && entries[0].kind.ChargingDebit? && entries[0].reference.SessionReference?
    && entries[0].amount == -total && total != 0
  }

  function WalletOf(wallets: map<int, int>, driver: int): Option<int> {
    if driver in wallets then Some(wallets[driver]) else None
  }

  /** `tru_vi`: a positive total is debited once from the driver's wallet, which is created if needed. */
  function Debit(w: World, id: int, invoice: Invoice, newWallet: int): World {
    if invoice.total == 0 then w
    else
      var wallets := if invoice.driver in w.wallets then w.wallets else w.wallets[invoice.driver := newWallet];
      w.(wallets := wallets,
         ledger := w.ledger + [Entry(wallets[invoice.driver], ChargingDebit, -invoice.total, SessionReference, id)])
  }

  function MarkSettled(w: World, id: int, row: Row, total: int): World {
    w.(rows := w.rows[id := row.(settled := Some(if total == 0 then ZeroInvoice else Debited))])
  }

  /** The part of the transaction after `lap_hoa_don` has returned the row and its outcome. */
  function SettleRow(w: World, id: int, row: Row, outcome: Outcome, settle: bool, newWallet: int): World {
    if row.settled.Some? || outcome != Ready || row.issued.None? || !settle then w.(rows := w.rows[id := row])
    else
      var invoice := row.issued.value.invoice;
      var entries := EntriesFor(w.ledger, id);
      if entries != [] && !LedgerAgrees(entries, WalletOf(w.wallets, invoice.driver), invoice.total) then
        w.(rows := w.rows[id := row.(reasons := row.reasons + ["settlement_ledger_mismatch"])])
      else
        MarkSettled(if entries == [] then Debit(w, id, invoice, newWallet) else w, id, row, invoice.total)
  }

  /** `_chot_phien_in_session`: one transaction under the session's row lock. */
  ghost function CloseSession(w: World, id: int, settle: bool, newWallet: int): World
    requires id in w.rows
  {
    var (row, outcome) := Issue(w.rows[id]);
    SettleRow(w, id, row, outcome, settle, newWallet)
  }

  // ---------- the tables as the transaction updates them ----------

  class Database {
    var rows: map<int, Row>
    var ledger: seq<Entry>
    var wallets: map<int, int>

    ghost function View(): World
      reads this
    {
      World(rows, ledger, wallets)
    }

    /** `lap_hoa_don` on the locked row. */
    method IssueInvoice(id: int) returns (outcome: Outcome)
      requires id in rows && KeyedTariffs(rows[id].evidence.tariffs)
      modifies this`rows
      ensures rows == old(rows)[id := Issue(old(rows)[id]).0]
      ensures outcome == Issue(old(rows)[id]).1
    {
      var row := rows[id];
      var s := row.evidence.session;
      if row.reasons != [] {
        return NeedsReview;
      }
      if s.endedAt.None? {
        return Pending;
      }
      if row.issued.Some? {
        return Ready;
      }
      if s.lifecycle.V1? && s.releasedAt.None? {
        return Pending;
      }
      var created := CreateInvoice(row.evidence);
      match created {
        case Ok(invoice) =>
          rows := rows[id := row.(issued := Some(Issued(invoice, row.evidence)))];
          return Ready;
        case Err(reason) =>
          if reason.SegmentationFailed? {
            return Failed;
          }
          rows := rows[id := row.(reasons := row.reasons + [Code(reason)])];
          return NeedsReview;
      }
    }

    method LookUpEntries(id: int) returns (entries: seq<Entry>)
      ensures entries == EntriesFor(ledger, id)
    {
      entries := [];
      for i := 0 to |ledger|
        invariant entries == EntriesFor(ledger[..i], id)
      {
        assert ledger[..i + 1][..i] == ledger[..i];
        if ForSession(ledger[i], id) {
          entries := entries + [ledger[i]];
        }
      }
      assert ledger[..|ledger|] == ledger;
    }

    /** Debit and mark, or flag a ledger that disagrees. */
    method SettleIssued(id: int, outcome: Outcome, settle: bool, newWallet: int)
      requires id in rows
      modifies this
      ensures View() == SettleRow(old(View()), id, old(rows)[id], outcome, settle, newWallet)
    {
      var row := rows[id];
      assert rows[id := row] == rows;
      if row.settled.Some? || outcome != Ready || row.issued.None? || !settle {
        return;
      }
      var invoice := row.issued.value.invoice;
      var entries := LookUpEntries(id);
      if entries != [] && !LedgerAgrees(entries, WalletOf(wallets, invoice.driver), invoice.total) {
        rows := rows[id := row.(reasons := row.reasons + ["settlement_ledger_mismatch"])];
        return;
      }
      if entries == [] && invoice.total != 0 {
        if invoice.driver !in wallets {
          wallets := wallets[invoice.driver := newWallet];
        }
        ledger := ledger + [Entry(wallets[invoice.driver], ChargingDebit, -invoice.total, SessionReference, id)];
      }
      rows := rows[id := row.(settled := Some(if invoice.total == 0 then ZeroInvoice else Debited))];
    }

    /** `_chot_phien_in_session`. */
    method Close(id: int, settle: bool, newWallet: int)
      requires id in rows && KeyedTariffs(rows[id].evidence.tariffs)
      modifies this
      ensures View() == CloseSession(old(View()), id, settle, newWallet)
    {
      var outcome := IssueInvoice(id);
      ghost var issued := View();
      SettleIssued(id, outcome, settle, newWallet);
      SettleIgnoresRow(old(View()), id, issued.rows[id], outcome, settle, newWallet);
    }
  }

  /** The settlement part reads the row it is given, not the one in the table. */
  lemma SettleIgnoresRow(w: World, id: int, row: Row, outcome: Outcome, settle: bool, newWallet: int)
    ensures SettleRow(w.(rows := w.rows[id := row]), id, row, outcome, settle, newWallet)
         == SettleRow(w, id, row, outcome, settle, newWallet)
  {
    var r := SettleRow(w, id, row, outcome, settle, newWallet);
    assert w.rows[id := row][id := r.rows[id]] == w.rows[id := r.rows[id]];
  }
}
