/** What closing a session does: when it is billed, debited and settled, and when it is not. */
module SettlementOutcome {
  import opened Prelude
  import opened Invoicing
  import opened InvoiceCreation
  import opened Settlement
  import opened SettlementProofs
  import InvoiceProofs

  // ---------- the situation of a session ----------

  /** Under review, still charging, or neither billed nor unplugged yet. */
  predicate Blocked(row: Row) {
    var s := row.evidence.session;
    || row.reasons != [] || s.endedAt.None?
    || (row.issued.None? && s.lifecycle.V1? && s.releasedAt.None?)
  }

  /** The session has this invoice: the stored one, or the one its evidence demands now. */
  ghost predicate HasInvoice(row: Row, issued: Issued) {
    && !Blocked(row)
    && if row.issued.Some? then row.issued == Some(issued)
       else issued.basis == row.evidence && CreatedInvoice(row.evidence) == Ok(issued.invoice)
  }

  ghost predicate Refused(row: Row, reason: Reason) {
    !Blocked(row) && row.issued.None? && CreatedInvoice(row.evidence) == Err(reason)
  }

  /** The entry is a charging debit of the session or refers to it. */
  predicate Concerns(e: Entry, id: int) {
    e.refId == id && (e.kind == ChargingDebit || e.reference == SessionReference)
  }

  ghost predicate NoEntry(ledger: seq<Entry>, id: int) {
    forall i :: 0 <= i < |ledger| ==> !Concerns(ledger[i], id)
  }

  /** The one entry that concerns the session. */
  ghost predicate Sole(ledger: seq<Entry>, id: int, e: Entry) {
    exists k :: 0 <= k < |ledger| && SoleAt(ledger, id, e, k)
  }

  ghost predicate SoleAt(ledger: seq<Entry>, id: int, e: Entry, k: nat)
    requires k < |ledger|
  {
    ledger[k] == e && forall i :: 0 <= i < |ledger| && i != k ==> !Concerns(ledger[i], id)
  }

  /** The ledger already shows the debit of this invoice, and nothing else for the session. */
  ghost predicate AlreadyDebited(w: World, id: int, invoice: Invoice) {
    && invoice.total != 0 && invoice.driver in w.wallets
    && Sole(w.ledger, id, Entry(w.wallets[invoice.driver], ChargingDebit, -invoice.total, SessionReference, id))
  }

  // ---------- looking up the entries ----------

  lemma {:induction false} NoEntryFound(ledger: seq<Entry>, id: int)
    ensures EntriesFor(ledger, id) == [] <==> NoEntry(ledger, id)
  {
    if ledger == [] {
    } else {
      var init := ledger[..|ledger| - 1];
      NoEntryFound(init, id);
      assert forall i :: 0 <= i < |init| ==> init[i] == ledger[i];
    }
  }

  lemma {:induction false} SoleIsFound(ledger: seq<Entry>, id: int, e: Entry, k: nat)
    requires k < |ledger| && SoleAt(ledger, id, e, k) && Concerns(e, id)
    ensures EntriesFor(ledger, id) == [e]
  {
    var init := ledger[..|ledger| - 1];
    if k == |init| {
      NoEntryFound(init, id);
    } else {
      assert SoleAt(init, id, e, k);
      SoleIsFound(init, id, e, k);
    }
  }

  lemma {:induction false} FoundIsSole(ledger: seq<Entry>, id: int, e: Entry) returns (k: nat)
    requires EntriesFor(ledger, id) == [e]
    ensures k < |ledger| && SoleAt(ledger, id, e, k)
  {
    var init := ledger[..|ledger| - 1];
    if Concerns(ledger[|init|], id) {
      k := |init|;
      var found := EntriesFor(init, id) + [ledger[k]];
      assert found == [e] && found[|found| - 1] == ledger[k] && EntriesFor(init, id) == [];
      NoEntryFound(init, id);
      assert forall i :: 0 <= i < |init| ==> !Concerns(init[i], id) && init[i] == ledger[i];
    } else {
      k := FoundIsSole(init, id, e);
      assert forall i :: 0 <= i < |init| && i != k ==> !Concerns(init[i], id) && init[i] == ledger[i];
    }
  }

  lemma {:induction false} AgreesIff(w: World, id: int, invoice: Invoice)
    ensures LedgerAgrees(EntriesFor(w.ledger, id), WalletOf(w.wallets, invoice.driver), invoice.total)
            <==> AlreadyDebited(w, id, invoice)
  {
    var entries := EntriesFor(w.ledger, id);
    if LedgerAgrees(entries, WalletOf(w.wallets, invoice.driver), invoice.total) {
      EntriesBelong(w.ledger, id);
      var k := FoundIsSole(w.ledger, id, entries[0]);
    }
    if AlreadyDebited(w, id, invoice) {
      var e := Entry(w.wallets[invoice.driver], ChargingDebit, -invoice.total, SessionReference, id);
      var k :| 0 <= k < |w.ledger| && SoleAt(w.ledger, id, e, k);
      SoleIsFound(w.ledger, id, e, k);
    }
  }

  // ---------- the invoice step ----------

  lemma IssueBlocked(row: Row)
    requires Blocked(row)
    ensures Issue(row).0 == row && Issue(row).1 != Ready
  {
  }

  lemma IssueReady(row: Row, issued: Issued)
    requires HasInvoice(row, issued)
    ensures Issue(row) == (row.(issued := Some(issued)), Ready)
  {
  }

  lemma IssueRefused(row: Row, reason: Reason)
    requires Refused(row, reason)
    ensures !reason.SegmentationFailed? && Issue(row) == (row.(reasons := [Code(reason)]), NeedsReview)
  {
    assert Invoiceable(row.evidence.session);
    InvoiceProofs.EnergyRejectionsUnreachable(row.evidence);
    assert [] + [Code(reason)] == [Code(reason)];
  }

  lemma CloseIsSettle(w: World, id: int, settle: bool, newWallet: int, issued: Issued)
    requires id in w.rows && HasInvoice(w.rows[id], issued)
    ensures CloseSession(w, id, settle, newWallet)
         == SettleRow(w, id, w.rows[id].(issued := Some(issued)), Ready, settle, newWallet)
  {
    IssueReady(w.rows[id], issued);
  }

  // ---------- the settlement step ----------

  lemma {:induction false} SettleDebits(w: World, id: int, row: Row, newWallet: int, issued: Issued, wallet: int)
    requires row.issued == Some(issued) && row.settled.None? && EntriesFor(w.ledger, id) == []
    requires issued.invoice.total != 0
    requires wallet == if issued.invoice.driver in w.wallets then w.wallets[issued.invoice.driver] else newWallet
    ensures SettleRow(w, id, row, Ready, true, newWallet)
         == World(w.rows[id := row.(settled := Some(Debited))],
                  w.ledger + [Entry(wallet, ChargingDebit, -issued.invoice.total, SessionReference, id)],
                  w.wallets[issued.invoice.driver := wallet])
  {
    var driver := issued.invoice.driver;
    assert driver in w.wallets ==> w.wallets[driver := w.wallets[driver]] == w.wallets;
  }

  lemma {:induction false} SettleFound(w: World, id: int, row: Row, newWallet: int, issued: Issued, agrees: bool)
    requires row.issued == Some(issued) && row.settled.None? && row.reasons == [] && EntriesFor(w.ledger, id) != []
    requires agrees ==
             LedgerAgrees(EntriesFor(w.ledger, id), WalletOf(w.wallets, issued.invoice.driver), issued.invoice.total)
    ensures SettleRow(w, id, row, Ready, true, newWallet) ==
            w.(rows := w.rows[id := if agrees then row.(settled := Some(Debited))
                                    else row.(reasons := ["settlement_ledger_mismatch"])])
  {
    assert [] + ["settlement_ledger_mismatch"] == ["settlement_ledger_mismatch"];
  }

  // ---------- closing ----------

  /** A session under review, still charging, or still plugged in is left exactly as it was. */
  lemma BlockedStays(w: World, id: int, settle: bool, newWallet: int)
    requires id in w.rows && Blocked(w.rows[id])
    ensures CloseSession(w, id, settle, newWallet) == w
  {
    IssueBlocked(w.rows[id]);
    assert w.rows[id := w.rows[id]] == w.rows;
  }

  /** Evidence that is refused leaves its reason on the session, and no money moves. */
  lemma RefusedIsReviewed(w: World, id: int, settle: bool, newWallet: int, reason: Reason)
    requires id in w.rows && Refused(w.rows[id], reason)
    ensures CloseSession(w, id, settle, newWallet)
         == w.(rows := w.rows[id := w.rows[id].(reasons := [Code(reason)])])
  {
    IssueRefused(w.rows[id], reason);
  }

  /** What the session row alone is refused for, and under which name. */
  lemma RowRefusals(w: World, id: int, settle: bool, newWallet: int)
    requires id in w.rows && !Blocked(w.rows[id]) && w.rows[id].issued.None?
    ensures var e, reasons := w.rows[id].evidence, CloseSession(w, id, settle, newWallet).rows[id].reasons;
            if !e.sameStation then reasons == ["invoice_session_mismatch"]
            else if e.session.driver == None then reasons == ["invoice_missing_driver"]
            else if !e.session.accepted then reasons == ["invoice_unauthorized_session"]
            else e.session.endedAt.value <= e.session.startedAt ==> reasons == ["invoice_invalid_interval"]
  {
    var e := w.rows[id].evidence;
    if Admission(e).Some? {
      RefusedIsReviewed(w, id, settle, newWallet, Admission(e).value);
    }
  }

  /** Without `settle`, or once settled, closing stores the invoice and moves no money. */
  lemma OnlyIssued(w: World, id: int, settle: bool, newWallet: int, issued: Issued)
    requires id in w.rows && HasInvoice(w.rows[id], issued) && (!settle || w.rows[id].settled.Some?)
    ensures CloseSession(w, id, settle, newWallet) == w.(rows := w.rows[id := w.rows[id].(issued := Some(issued))])
  {
    IssueReady(w.rows[id], issued);
  }

  /** A positive invoice without a ledger entry is debited once, from the invoiced driver's wallet, and the
      session is settled as debited. */
  lemma ClosingDebits(w: World, id: int, newWallet: int, issued: Issued)
    requires id in w.rows && HasInvoice(w.rows[id], issued) && w.rows[id].settled.None?
    requires NoEntry(w.ledger, id) && issued.invoice.total != 0
    ensures var w', invoice := CloseSession(w, id, true, newWallet), issued.invoice;
            var wallet := if invoice.driver in w.wallets then w.wallets[invoice.driver] else newWallet;
            && w'.rows == w.rows[id := w.rows[id].(issued := Some(issued), settled := Some(Debited))]
            && w'.ledger == w.ledger + [Entry(wallet, ChargingDebit, -invoice.total, SessionReference, id)]
            && w'.wallets == w.wallets[invoice.driver := wallet]
  {
    var driver := issued.invoice.driver;
    CloseIsSettle(w, id, true, newWallet, issued);
    NoEntryFound(w.ledger, id);
    SettleDebits(w, id, w.rows[id].(issued := Some(issued)), newWallet, issued,
                 if driver in w.wallets then w.wallets[driver] else newWallet);
  }

  /** A zero invoice without a ledger entry settles the session, and no money moves. */
  lemma ClosingZero(w: World, id: int, newWallet: int, issued: Issued)
    requires id in w.rows && HasInvoice(w.rows[id], issued) && w.rows[id].settled.None?
    requires NoEntry(w.ledger, id) && issued.invoice.total == 0
    ensures CloseSession(w, id, true, newWallet)
         == w.(rows := w.rows[id := w.rows[id].(issued := Some(issued), settled := Some(ZeroInvoice))])
  {
    IssueReady(w.rows[id], issued);
    NoEntryFound(w.ledger, id);
  }

  /** With entries in the ledger no money moves: the session is settled if they are the one debit of its
      invoice, and is put under review otherwise. */
  lemma ClosingWithEntries(w: World, id: int, newWallet: int, issued: Issued)
    requires id in w.rows && HasInvoice(w.rows[id], issued) && w.rows[id].settled.None? && !NoEntry(w.ledger, id)
    ensures var row := w.rows[id].(issued := Some(issued));
            CloseSession(w, id, true, newWallet) ==
            w.(rows := w.rows[id := if AlreadyDebited(w, id, issued.invoice) then row.(settled := Some(Debited))
                                    else row.(reasons := ["settlement_ledger_mismatch"])])
  {
    CloseIsSettle(w, id, true, newWallet, issued);
    NoEntryFound(w.ledger, id);
    AgreesIff(w, id, issued.invoice);
    SettleFound(w, id, w.rows[id].(issued := Some(issued)), newWallet, issued, AlreadyDebited(w, id, issued.invoice));
  }

  // ---------- every closing, then every run ----------

  lemma Situations(row: Row)
    ensures || Blocked(row) || (exists issued :: HasInvoice(row, issued))
            || (exists reason :: Refused(row, reason))
  {
    if !Blocked(row) {
      if row.issued.Some? {
        assert HasInvoice(row, row.issued.value);
      } else {
        match CreatedInvoice(row.evidence)
        case Ok(invoice) => assert HasInvoice(row, Issued(invoice, row.evidence));
        case Err(reason) => assert Refused(row, reason);
      }
    }
  }

  lemma ReadyIsDecided(w: World, id: int, newWallet: int, issued: Issued)
    requires id in w.rows && HasInvoice(w.rows[id], issued)
    ensures var row := CloseSession(w, id, true, newWallet).rows[id];
            (row.settled.Some? || row.reasons != []) && row.evidence == w.rows[id].evidence
  {
    if w.rows[id].settled.Some? {
      OnlyIssued(w, id, true, newWallet, issued);
    } else if !NoEntry(w.ledger, id) {
      ClosingWithEntries(w, id, newWallet, issued);
    } else if issued.invoice.total == 0 {
      ClosingZero(w, id, newWallet, issued);
    } else {
      ClosingDebits(w, id, newWallet, issued);
    }
  }

  /** Closing to settle decides every ended and unplugged session: it is settled or under review. */
  lemma ClosingDecides(w: World, id: int, newWallet: int)
    requires id in w.rows
    requires var s := w.rows[id].evidence.session; s.endedAt.Some? && (s.lifecycle.V1? ==> s.releasedAt.Some?)
    ensures var row := CloseSession(w, id, true, newWallet).rows[id];
            (row.settled.Some? || row.reasons != []) && row.evidence == w.rows[id].evidence
  {
    Situations(w.rows[id]);
    if Blocked(w.rows[id]) {
      BlockedStays(w, id, true, newWallet);
    } else if issued :| HasInvoice(w.rows[id], issued) {
      ReadyIsDecided(w, id, newWallet, issued);
    } else {
      var reason :| Refused(w.rows[id], reason);
      RefusedIsReviewed(w, id, true, newWallet, reason);
    }
  }

  /** And it stays decided, whatever follows: settled as it is, or never debited. */
  lemma {:induction false} DecidedForever(
    w0: World, before: seq<Step>, id: int, newWallet: int, after: seq<Step>)
    requires Initial(w0)
    requires var w := Run(w0, before);
             && id in w.rows
             && var s := w.rows[id].evidence.session; s.endedAt.Some? && (s.lifecycle.V1? ==> s.releasedAt.Some?)
    ensures var w1 := CloseSession(Run(w0, before), id, true, newWallet);
            var w2 := Run(w1, after);
            && id in w1.rows && id in w2.rows && EntriesFor(w2.ledger, id) == EntriesFor(w1.ledger, id)
            && w2.rows[id].settled == w1.rows[id].settled
            && (w2.rows[id].settled.Some? || w2.rows[id].reasons != [])
  {
    var w := Run(w0, before);
    SettledRightOverRuns(w0, before);
    CloseKeepsInv(w, id, true, newWallet);
    ClosingDecides(w, id, newWallet);
    var w1 := CloseSession(w, id, true, newWallet);
    if w1.rows[id].settled.Some? {
      SettledForever(w1, after, id);
    } else {
      ReviewedNeverDebited(w1, after, id);
    }
  }
}
