/** One debit per session, in every interleaving of workers, scans, rollbacks and other handlers. */
module SettlementProofs {
  import opened Prelude
  import opened Invoicing
  import opened InvoiceCreation
  import opened Settlement
  import InvoiceProofs

  // ---------- steps ----------

  datatype Step =
    | CloseStep(id: int, settle: bool, newWallet: int)
    | RollbackStep
    | UpdateStep(id: int, evidence: Evidence, reasons: seq<string>)
    | NewSessionStep(id: int, evidence: Evidence, reasons: seq<string>)
    | OtherEntryStep(entry: Entry)

  /** Other handlers may change any evidence, but never reopen a session and never drop a reason from an
      ended one; other ledger writers write neither charging debits nor session references. */
  ghost predicate Enabled(w: World, step: Step) {
    match step
    case CloseStep(id, _, _) => id in w.rows
    case RollbackStep => true
    case UpdateStep(id, evidence, reasons) =>
      && id in w.rows
      && (w.rows[id].evidence.session.endedAt.Some? ==>
            evidence.session.endedAt.Some? && w.rows[id].reasons <= reasons)
    case NewSessionStep(id, _, _) => id !in w.rows
    case OtherEntryStep(entry) => !entry.kind.ChargingDebit? && !entry.reference.SessionReference?
  }

  ghost function Next(w: World, step: Step): World {
    if !Enabled(w, step) then w
    else
      match step
      case CloseStep(id, settle, newWallet) => CloseSession(w, id, settle, newWallet)
      case RollbackStep => w
      case UpdateStep(id, evidence, reasons) =>
        w.(rows := w.rows[id := w.rows[id].(evidence := evidence, reasons := reasons)])
      case NewSessionStep(id, evidence, reasons) => w.(rows := w.rows[id := Row(evidence, reasons, None, None)])
      case OtherEntryStep(entry) => w.(ledger := w.ledger + [entry])
  }

  ghost function Run(w: World, steps: seq<Step>): World {
    if steps == [] then w else Next(Run(w, steps[..|steps| - 1]), steps[|steps| - 1])
  }

  // ---------- invariant ----------

  /** The one entry a settled positive invoice leaves in the ledger. */
  function DebitEntry(wallet: int, total: int, id: int): Entry {
    Entry(wallet, ChargingDebit, -total, SessionReference, id)
  }

  ghost predicate SettledRight(row: Row, ledger: seq<Entry>, wallets: map<int, int>, id: int) {
    && (row.issued.Some? ==> row.issued.value.invoice.total >= 0)
    && (row.settled == Some(Debited) ==>
          && row.issued.Some? && row.issued.value.invoice.total > 0
          && row.issued.value.invoice.driver in wallets
          && EntriesFor(ledger, id)
             == [DebitEntry(wallets[row.issued.value.invoice.driver], row.issued.value.invoice.total, id)])
    && (row.settled == Some(ZeroInvoice) ==>
          row.issued.Some? && row.issued.value.invoice.total == 0 && EntriesFor(ledger, id) == [])
  }

  ghost predicate Inv(w: World) {
    forall id :: id in w.rows ==> SettledRight(w.rows[id], w.ledger, w.wallets, id)
  }

  /** At most one charging debit per session: the ledger's unique key. */
  ghost predicate OneDebitEach(ledger: seq<Entry>) {
    forall i, j :: 0 <= i < j < |ledger| && ledger[i].kind.ChargingDebit? && ledger[j].kind.ChargingDebit? ==>
      ledger[i].refId != ledger[j].refId
  }

  // ---------- small facts ----------

  lemma {:induction false} EntriesAppend(ledger: seq<Entry>, e: Entry, id: int)
    ensures EntriesFor(ledger + [e], id) ==
            if ForSession(e, id) then EntriesFor(ledger, id) + [e] else EntriesFor(ledger, id)
  {
  }

  lemma {:induction false} NoEntriesNoDebit(ledger: seq<Entry>, id: int)
    requires EntriesFor(ledger, id) == []
    ensures forall i :: 0 <= i < |ledger| ==> !ForSession(ledger[i], id)
  {
    if ledger == [] {
    } else {
      NoEntriesNoDebit(ledger[..|ledger| - 1], id);
    }
  }

  lemma {:induction false} EntriesBelong(ledger: seq<Entry>, id: int)
    ensures forall k :: 0 <= k < |EntriesFor(ledger, id)| ==> ForSession(EntriesFor(ledger, id)[k], id)
  {
    if ledger == [] {
    } else {
      EntriesBelong(ledger[..|ledger| - 1], id);
    }
  }

  /** What `lap_hoa_don` may do to a row. */
  ghost predicate IssueEffect(row: Row, row': Row, outcome: Outcome) {
    && row'.evidence == row.evidence && row'.settled == row.settled && row.reasons <= row'.reasons
    && (row.issued.Some? ==> row'.issued == row.issued)
    && (row.issued.None? && row'.issued.Some? ==> row'.issued.value.invoice.total >= 0)
    && (outcome == Ready ==>
          row'.issued.Some? && row'.reasons == [] && row.reasons == [] && row.evidence.session.endedAt.Some?)
  }

  lemma IssueDoes(row: Row)
    ensures IssueEffect(row, Issue(row).0, Issue(row).1)
  {
    if row.issued.None? && Issue(row).0.issued.Some? {
      InvoiceProofs.InvoicedEnergyIsMeterAdvance(row.evidence);
    }
  }

  // ---------- the settlement step ----------

  lemma {:induction false} DebitKeepsOthers(w: World, id: int, invoice: Invoice, newWallet: int, other: int)
    requires other != id
    ensures EntriesFor(Debit(w, id, invoice, newWallet).ledger, other) == EntriesFor(w.ledger, other)
  {
  }

  lemma {:induction false} DebitWrites(w: World, id: int, invoice: Invoice, newWallet: int)
    requires EntriesFor(w.ledger, id) == [] && invoice.total > 0
    ensures var w' := Debit(w, id, invoice, newWallet);
            && invoice.driver in w'.wallets
            && EntriesFor(w'.ledger, id) == [DebitEntry(w'.wallets[invoice.driver], invoice.total, id)]
  {
  }

  /** Wallets are never taken away or exchanged. */
  ghost predicate WalletsKept(wallets: map<int, int>, wallets': map<int, int>) {
    forall d :: d in wallets ==> d in wallets' && wallets'[d] == wallets[d]
  }

  lemma {:induction false} RightKept(row: Row, ledger: seq<Entry>, ledger': seq<Entry>, wallets: map<int, int>, wallets': map<int, int>, id: int)
    requires SettledRight(row, ledger, wallets, id) && WalletsKept(wallets, wallets')
    requires EntriesFor(ledger', id) == EntriesFor(ledger, id)
    ensures SettledRight(row, ledger', wallets', id)
  {
  }

  /** Settling a row settles it right and touches no other session. */
  lemma SettleRowRight(w: World, id: int, row: Row, outcome: Outcome, settle: bool, newWallet: int)
    requires row.issued.Some? ==> row.issued.value.invoice.total >= 0
    requires row.settled.Some? ==> SettledRight(row, w.ledger, w.wallets, id)
    ensures var w' := SettleRow(w, id, row, outcome, settle, newWallet);
            && SettledRight(w'.rows[id], w'.ledger, w'.wallets, id)
            && WalletsKept(w.wallets, w'.wallets)
            && (forall other :: other != id ==> EntriesFor(w'.ledger, other) == EntriesFor(w.ledger, other))
            && (row.settled.Some? ==> w'.ledger == w.ledger && w'.rows[id] == row)
  {
    if row.settled.None? && outcome == Ready && row.issued.Some? && settle {
      var invoice, entries := row.issued.value.invoice, EntriesFor(w.ledger, id);
      if entries == [] {
        forall other | other != id
          ensures EntriesFor(Debit(w, id, invoice, newWallet).ledger, other) == EntriesFor(w.ledger, other)
        {
          DebitKeepsOthers(w, id, invoice, newWallet, other);
        }
        if invoice.total > 0 {
          DebitWrites(w, id, invoice, newWallet);
        }
      } else if LedgerAgrees(entries, WalletOf(w.wallets, invoice.driver), invoice.total) {
        EntriesBelong(w.ledger, id);
        assert entries == [DebitEntry(w.wallets[invoice.driver], invoice.total, id)];
      }
    }
  }

  lemma SettleKeepsInv(w: World, id: int, row: Row, outcome: Outcome, settle: bool, newWallet: int)
    requires Inv(w) && id in w.rows && IssueEffect(w.rows[id], row, outcome)
    ensures Inv(SettleRow(w, id, row, outcome, settle, newWallet))
  {
    assert SettledRight(w.rows[id], w.ledger, w.wallets, id);
    SettleRowRight(w, id, row, outcome, settle, newWallet);
    var w' := SettleRow(w, id, row, outcome, settle, newWallet);
    forall other | other in w'.rows ensures SettledRight(w'.rows[other], w'.ledger, w'.wallets, other) {
      if other != id {
        assert SettledRight(w.rows[other], w.ledger, w.wallets, other);
        RightKept(w.rows[other], w.ledger, w'.ledger, w.wallets, w'.wallets, other);
      }
    }
  }

  lemma CloseKeepsInv(w: World, id: int, settle: bool, newWallet: int)
    requires Inv(w) && id in w.rows
    ensures Inv(CloseSession(w, id, settle, newWallet))
  {
    IssueDoes(w.rows[id]);
    SettleKeepsInv(w, id, Issue(w.rows[id]).0, Issue(w.rows[id]).1, settle, newWallet);
  }

  lemma OtherEntryKeepsInv(w: World, entry: Entry)
    requires Inv(w) && !entry.kind.ChargingDebit? && !entry.reference.SessionReference?
    ensures Inv(w.(ledger := w.ledger + [entry]))
  {
  }

  lemma StepKeepsInv(w: World, step: Step)
    requires Inv(w)
    ensures Inv(Next(w, step))
  {
    if Enabled(w, step) {
      match step
      case CloseStep(id, settle, newWallet) => CloseKeepsInv(w, id, settle, newWallet);
      case OtherEntryStep(entry) => OtherEntryKeepsInv(w, entry);
      case UpdateStep(id, evidence, reasons) => assert SettledRight(w.rows[id], w.ledger, w.wallets, id);
      case RollbackStep =>
      case NewSessionStep(_, _, _) =>
    }
  }

  // ---------- whole runs ----------

  /** Nothing issued or settled yet, except sessions exempted by the migration; any ledger. */
  ghost predicate Initial(w: World) {
    forall id :: id in w.rows ==>
      w.rows[id].issued.None? && (w.rows[id].settled.None? || w.rows[id].settled == Some(LegacyExempt))
  }

  /** In every run: a "debited" session has exactly one ledger entry, of minus its positive total, in the
      invoiced driver's wallet; a "zero_invoice" session has none. */
  lemma {:induction false} SettledRightOverRuns(w: World, steps: seq<Step>)
    requires Initial(w)
    ensures Inv(Run(w, steps))
  {
    if steps == [] {
    } else {
      SettledRightOverRuns(w, steps[..|steps| - 1]);
      StepKeepsInv(Run(w, steps[..|steps| - 1]), steps[|steps| - 1]);
    }
  }

  /** What a settled session keeps, whatever happens next. */
  ghost predicate Kept(w: World, w': World, id: int)
    requires id in w.rows
  {
    && id in w'.rows
    && w'.rows[id].settled == w.rows[id].settled
    && (w.rows[id].issued.Some? ==> w'.rows[id].issued == w.rows[id].issued)
    && EntriesFor(w'.ledger, id) == EntriesFor(w.ledger, id)
    && WalletsKept(w.wallets, w'.wallets)
  }

  lemma SettleTouches(w: World, id: int, row: Row, outcome: Outcome, settle: bool, newWallet: int, other: int)
    requires Inv(w) && id in w.rows && IssueEffect(w.rows[id], row, outcome) && other in w.rows
    requires other == id ==> w.rows[id].settled.Some?
    ensures Kept(w, SettleRow(w, id, row, outcome, settle, newWallet), other)
  {
  }

  lemma SettledIsIssued(w: World, id: int)
    requires Inv(w) && id in w.rows && w.rows[id].settled.Some? && w.rows[id].settled != Some(LegacyExempt)
    ensures w.rows[id].issued.Some?
  {
    assert SettledRight(w.rows[id], w.ledger, w.wallets, id);
    match w.rows[id].settled.value
    case Debited =>
    case ZeroInvoice =>
    case LegacyExempt =>
  }

  lemma CloseKeepsSettled(w: World, closed: int, settle: bool, newWallet: int, id: int)
    requires Inv(w) && closed in w.rows
    requires id in w.rows && w.rows[id].settled.Some?
    ensures Kept(w, CloseSession(w, closed, settle, newWallet), id)
  {
    IssueDoes(w.rows[closed]);
    SettleTouches(w, closed, Issue(w.rows[closed]).0, Issue(w.rows[closed]).1, settle, newWallet, id);
  }

  lemma StepKeepsSettled(w: World, step: Step, id: int)
    requires Inv(w) && id in w.rows && w.rows[id].settled.Some?
    ensures Kept(w, Next(w, step), id)
  {
    if Enabled(w, step) {
      match step
      case CloseStep(closed, settle, newWallet) => CloseKeepsSettled(w, closed, settle, newWallet, id);
      case OtherEntryStep(entry) => EntriesAppend(w.ledger, entry, id);
      case UpdateStep(_, _, _) =>
      case NewSessionStep(_, _, _) =>
      case RollbackStep =>
    }
  }

  /** Once settled, a session's settlement, invoice and ledger entries never change again. Only an
      exempted session can be settled without an invoice; one issued to it later adds no entry. */
  lemma {:induction false} SettledForever(w: World, steps: seq<Step>, id: int)
    requires Inv(w) && id in w.rows && w.rows[id].settled.Some?
    ensures Inv(Run(w, steps)) && Kept(w, Run(w, steps), id)
    ensures w.rows[id].issued.None? ==> w.rows[id].settled == Some(LegacyExempt)
  {
    if w.rows[id].settled != Some(LegacyExempt) {
      SettledIsIssued(w, id);
    }
    if steps == [] {
    } else {
      var init := steps[..|steps| - 1];
      SettledForever(w, init, id);
      StepKeepsInv(Run(w, init), steps[|steps| - 1]);
      StepKeepsSettled(Run(w, init), steps[|steps| - 1], id);
    }
  }

  // ---------- one debit ----------

  lemma {:induction false} AppendDebit(ledger: seq<Entry>, e: Entry)
    requires OneDebitEach(ledger)
    requires e.kind.ChargingDebit? ==> EntriesFor(ledger, e.refId) == []
    ensures OneDebitEach(ledger + [e])
  {
    if e.kind.ChargingDebit? {
      NoEntriesNoDebit(ledger, e.refId);
    }
  }

  lemma StepKeepsOneDebit(w: World, step: Step)
    requires OneDebitEach(w.ledger)
    ensures OneDebitEach(Next(w, step).ledger)
  {
    if Enabled(w, step) {
      match step
      case CloseStep(id, settle, newWallet) =>
        SettleKeepsOneDebit(w, id, Issue(w.rows[id]).0, Issue(w.rows[id]).1, settle, newWallet);
      case OtherEntryStep(entry) => AppendDebit(w.ledger, entry);
      case UpdateStep(_, _, _) =>
      case NewSessionStep(_, _, _) =>
      case RollbackStep =>
    }
  }

  lemma SettleKeepsOneDebit(w: World, id: int, row: Row, outcome: Outcome, settle: bool, newWallet: int)
    requires OneDebitEach(w.ledger)
    ensures OneDebitEach(SettleRow(w, id, row, outcome, settle, newWallet).ledger)
  {
    var w' := SettleRow(w, id, row, outcome, settle, newWallet);
    if w'.ledger != w.ledger {
      AppendDebit(w.ledger, w'.ledger[|w.ledger|]);
    }
  }

  /** No interleaving ever debits a session twice, even when settlement and rollback alternate. */
  lemma {:induction false} OneDebitOverRuns(w: World, steps: seq<Step>)
    requires OneDebitEach(w.ledger)
    ensures OneDebitEach(Run(w, steps).ledger)
  {
    if steps == [] {
    } else {
      OneDebitOverRuns(w, steps[..|steps| - 1]);
      StepKeepsOneDebit(Run(w, steps[..|steps| - 1]), steps[|steps| - 1]);
    }
  }

  // ---------- review blocks the money ----------

  ghost predicate UnderReview(w: World, id: int) {
    && id in w.rows && w.rows[id].settled.None? && w.rows[id].reasons != []
    && w.rows[id].evidence.session.endedAt.Some?
  }

  lemma {:induction false} StepKeepsReview(w: World, step: Step, id: int)
    requires Inv(w) && UnderReview(w, id)
    ensures UnderReview(Next(w, step), id) && EntriesFor(Next(w, step).ledger, id) == EntriesFor(w.ledger, id)
  {
    if Enabled(w, step) {
      match step
      case CloseStep(closed, settle, newWallet) =>
        IssueDoes(w.rows[closed]);
        ReviewSurvivesSettle(w, closed, Issue(w.rows[closed]).0, Issue(w.rows[closed]).1, settle, newWallet, id);
      case OtherEntryStep(entry) => EntriesAppend(w.ledger, entry, id);
      case UpdateStep(_, _, _) =>
      case NewSessionStep(_, _, _) =>
      case RollbackStep =>
    }
  }

  lemma {:induction false} ReviewSurvivesSettle(
    w: World, closed: int, row: Row, outcome: Outcome, settle: bool, newWallet: int, id: int)
    requires Inv(w) && UnderReview(w, id) && closed in w.rows && IssueEffect(w.rows[closed], row, outcome)
    ensures var w' := SettleRow(w, closed, row, outcome, settle, newWallet);
            UnderReview(w', id) && EntriesFor(w'.ledger, id) == EntriesFor(w.ledger, id)
  {
  }

  /** A session that ended with a review reason is never settled and never debited afterwards. */
  lemma {:induction false} ReviewedNeverDebited(w: World, steps: seq<Step>, id: int)
    requires Inv(w) && UnderReview(w, id)
    ensures Inv(Run(w, steps)) && UnderReview(Run(w, steps), id)
    ensures EntriesFor(Run(w, steps).ledger, id) == EntriesFor(w.ledger, id)
  {
    if steps == [] {
    } else {
      var init := steps[..|steps| - 1];
      ReviewedNeverDebited(w, init, id);
      StepKeepsInv(Run(w, init), steps[|steps| - 1]);
      StepKeepsReview(Run(w, init), steps[|steps| - 1], id);
    }
  }

  // ---------- every stored invoice is the one its evidence demands ----------

  ghost predicate Genuine(i: Issued) {
    Invoiceable(i.basis.session) && CreatedInvoice(i.basis) == Ok(i.invoice)
  }

  ghost predicate AllGenuine(w: World) {
    forall id :: id in w.rows && w.rows[id].issued.Some? ==> Genuine(w.rows[id].issued.value)
  }

  lemma IssueGenuine(row: Row)
    requires row.issued.Some? ==> Genuine(row.issued.value)
    ensures Issue(row).0.issued.Some? ==> Genuine(Issue(row).0.issued.value)
  {
  }

  lemma SettleRowIssued(w: World, id: int, row: Row, outcome: Outcome, settle: bool, newWallet: int)
    ensures var w' := SettleRow(w, id, row, outcome, settle, newWallet);
            && w'.rows.Keys == w.rows.Keys + {id} && w'.rows[id].issued == row.issued
            && forall other :: other in w.rows && other != id ==> w'.rows[other] == w.rows[other]
  {
  }

  lemma StepKeepsGenuine(w: World, step: Step)
    requires AllGenuine(w)
    ensures AllGenuine(Next(w, step))
  {
    if Enabled(w, step) && step.CloseStep? {
      var row := w.rows[step.id];
      IssueGenuine(row);
      SettleRowIssued(w, step.id, Issue(row).0, Issue(row).1, step.settle, step.newWallet);
    }
  }

  lemma {:induction false} GenuineOverRuns(w: World, steps: seq<Step>)
    requires Initial(w)
    ensures AllGenuine(Run(w, steps))
  {
    if steps == [] {
    } else {
      GenuineOverRuns(w, steps[..|steps| - 1]);
      StepKeepsGenuine(Run(w, steps[..|steps| - 1]), steps[|steps| - 1]);
    }
  }
}
