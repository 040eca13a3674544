/** The Cashier Collection doctype: a cashier's receipts against sales
    invoices, validated on save and turned into one payment entry per paid
    row on submit. */
module CashierCollections {
  import opened Basics

  /** One row of `collection_table`. A blank `received` is `None`. */
  datatype CollectionRow = CollectionRow(invoice: string, received: Option<real>)

  /** A Payment Entry as it is inserted and submitted. */
  datatype PaymentEntry = PaymentEntry(
    paymentType: string,
    company: string,
    postingDate: int,
    modeOfPayment: string,
    partyType: string,
    party: string,
    paidFrom: string,
    paidTo: string,
    paidAmount: real,
    receivedAmount: real,
    referenceDoctype: string,
    referenceName: string,
    allocatedAmount: real,
    cashierCollection: string)

  const DiscountMessage := "Discount cannot exceed total amount."
  const LedgersMessage := "Please select both 'Paid From' and 'Paid To' accounts before submitting."

  function DuplicateMessage(invoice: string): string
  {
    "Duplicate Sales Invoice: " + invoice
  }

  /** `row.received or 0` */
  function ReceivedOrZero(row: CollectionRow): real
  {
    match row.received
    case None => 0.0
    case Some(x) => x
  }

  /** The collection total: every row's received amount, a blank one
      counting as 0. */
  function ReceivedTotal(rows: seq<CollectionRow>): real
  {
    if rows == [] then 0.0 else ReceivedTotal(rows[..|rows| - 1]) + ReceivedOrZero(rows[|rows| - 1])
  }

  /** The discount is set and non-zero (Python truthiness). */
  predicate DiscountGiven(discount: Option<real>)
  {
    discount.Some? && discount.value != 0.0
  }

  /** `self.discount or 0` */
  function DiscountOrZero(discount: Option<real>): (r: real)
    ensures DiscountGiven(discount) ==> r == discount.value
    ensures !DiscountGiven(discount) ==> r == 0.0
  {
    if DiscountGiven(discount) then discount.value else 0.0
  }

  function Invoices(rows: seq<CollectionRow>): (r: seq<string>)
    ensures |r| == |rows| && forall k :: 0 <= k < |rows| ==> r[k] == rows[k].invoice
  {
    seq(|rows|, k requires 0 <= k < |rows| => rows[k].invoice)
  }

  predicate Distinct(s: seq<string>)
  {
    forall i, j :: 0 <= i < j < |s| ==> s[i] != s[j]
  }

  /** The first invoice that repeats an earlier row's, scanning in order. */
  function FirstDuplicate(s: seq<string>): Option<string>
  {
    if s == [] then None
    else
      var pre := s[..|s| - 1];
      match FirstDuplicate(pre)
      case Some(x) => Some(x)
      case None => if s[|s| - 1] in pre then Some(s[|s| - 1]) else None
  }

  /** The scan finds nothing exactly when the invoices are distinct, and what
      it finds occurs twice. */
  lemma {:induction false} FirstDuplicateSpec(s: seq<string>)
    ensures FirstDuplicate(s).None? <==> Distinct(s)
    ensures FirstDuplicate(s).Some? ==>
      exists i, j :: 0 <= i < j < |s| && s[i] == s[j] && s[j] == FirstDuplicate(s).value
  {
    if s != [] {
      var pre := s[..|s| - 1];
      FirstDuplicateSpec(pre);
      assert forall i :: 0 <= i < |pre| ==> pre[i] == s[i];
    }
  }

  /** The duplicate check's verdict for a table. */
  function DuplicateCheck(rows: seq<CollectionRow>): (r: Outcome)
    ensures r.Pass? <==> Distinct(Invoices(rows))
  {
    FirstDuplicateSpec(Invoices(rows));
    match FirstDuplicate(Invoices(rows))
    case None => Pass
    case Some(x) => Fail(DuplicateMessage(x))
  }

  /** `ensure_ledgers_selected` */
  function LedgersCheck(paidFrom: string, paidTo: string): (r: Outcome)
    ensures r.Pass? <==> paidFrom != "" && paidTo != ""
    ensures r.Fail? ==> r.message == LedgersMessage
  {
    if paidFrom == "" || paidTo == "" then Fail(LedgersMessage) else Pass
  }

  /** The rows that produce a payment entry: a positive received amount. */
  predicate Pays(row: CollectionRow)
  {
    row.received.Some? && row.received.value > 0.0
  }

  /** The Payment Entry inserted for a paying row. */
  function EntryFor(row: CollectionRow, company: string, postingDate: int, paymentMode: string,
                    customer: string, paidFrom: string, paidTo: string, name: string): PaymentEntry
    requires row.received.Some?
  {
    PaymentEntry("Receive", company, postingDate, paymentMode, "Customer", customer, paidFrom, paidTo,
                 row.received.value, row.received.value, "Sales Invoice", row.invoice,
                 row.received.value, name)
  }

  /** The paying rows, in table order. */
  function PayingRows(rows: seq<CollectionRow>): (r: seq<CollectionRow>)
    ensures |r| <= |rows|
    ensures forall m :: 0 <= m < |r| ==> Pays(r[m])
  {
    if rows == [] then []
    else PayingRows(rows[..|rows| - 1]) + (if Pays(rows[|rows| - 1]) then [rows[|rows| - 1]] else [])
  }

  /** A row is among the paying rows exactly when it is in the table and
      pays. */
  lemma {:induction false} PayingRowsMembers(rows: seq<CollectionRow>)
    ensures forall row :: row in PayingRows(rows) <==> row in rows && Pays(row)
  {
    if rows != [] {
      var pre := rows[..|rows| - 1];
      PayingRowsMembers(pre);
      assert rows == pre + [rows[|rows| - 1]];
    }
  }

  /** `create_payment_entries` over fully filled rows: an entry for each
      paying row, in table order. */
  function PaymentEntries(rows: seq<CollectionRow>, company: string, postingDate: int, paymentMode: string,
                          customer: string, paidFrom: string, paidTo: string, name: string): seq<PaymentEntry>
  {
    if rows == [] then []
    else
      var row := rows[|rows| - 1];
      var r0 := PaymentEntries(rows[..|rows| - 1], company, postingDate, paymentMode, customer, paidFrom, paidTo, name);
      if Pays(row) then r0 + [EntryFor(row, company, postingDate, paymentMode, customer, paidFrom, paidTo, name)]
      else r0
  }

  /** The m-th entry is the one built from the m-th paying row, so there
      are exactly as many entries as paying rows, in the same order. */
  lemma {:induction false} PaymentEntriesOfPayingRows(rows: seq<CollectionRow>, company: string, postingDate: int,
                                                      paymentMode: string, customer: string, paidFrom: string,
                                                      paidTo: string, name: string)
    ensures var r := PaymentEntries(rows, company, postingDate, paymentMode, customer, paidFrom, paidTo, name);
      |r| == |PayingRows(rows)| &&
      forall m :: 0 <= m < |r| ==>
        r[m] == EntryFor(PayingRows(rows)[m], company, postingDate, paymentMode, customer, paidFrom, paidTo, name)
  {
    if rows != [] {
      PaymentEntriesOfPayingRows(rows[..|rows| - 1], company, postingDate, paymentMode, customer, paidFrom, paidTo, name);
    }
  }

  /** Every entry is a receipt from the customer into the chosen ledgers,
      allocated in full against a paying row's invoice for that row's
      positive amount; conversely every paying row gets its entry, and the
      entries are those of the paying rows, one each, in table order. */
  lemma {:induction false} PaymentEntriesSpec(rows: seq<CollectionRow>, company: string, postingDate: int,
                                              paymentMode: string, customer: string, paidFrom: string,
                                              paidTo: string, name: string)
    ensures var r := PaymentEntries(rows, company, postingDate, paymentMode, customer, paidFrom, paidTo, name);
      |r| <= |rows| &&
      forall e :: e in r ==>
        e.paymentType == "Receive" && e.partyType == "Customer" && e.referenceDoctype == "Sales Invoice" &&
        e.party == customer && e.paidFrom == paidFrom && e.paidTo == paidTo && e.cashierCollection == name &&
        e.company == company && e.postingDate == postingDate && e.modeOfPayment == paymentMode &&
        e.paidAmount > 0.0 && e.receivedAmount == e.paidAmount && e.allocatedAmount == e.paidAmount &&
        exists k :: 0 <= k < |rows| && Pays(rows[k]) &&
          rows[k].invoice == e.referenceName && rows[k].received.value == e.paidAmount
    ensures var r := PaymentEntries(rows, company, postingDate, paymentMode, customer, paidFrom, paidTo, name);
      forall k :: 0 <= k < |rows| && Pays(rows[k]) ==>
        EntryFor(rows[k], company, postingDate, paymentMode, customer, paidFrom, paidTo, name) in r
    ensures var r := PaymentEntries(rows, company, postingDate, paymentMode, customer, paidFrom, paidTo, name);
      |r| == |PayingRows(rows)| &&
      forall m :: 0 <= m < |r| ==>
        r[m] == EntryFor(PayingRows(rows)[m], company, postingDate, paymentMode, customer, paidFrom, paidTo, name)
  {
    var r := PaymentEntries(rows, company, postingDate, paymentMode, customer, paidFrom, paidTo, name);
    var P := PayingRows(rows);
    PaymentEntriesOfPayingRows(rows, company, postingDate, paymentMode, customer, paidFrom, paidTo, name);
    PayingRowsMembers(rows);
    forall e | e in r
      ensures exists k :: 0 <= k < |rows| && Pays(rows[k]) &&
                rows[k].invoice == e.referenceName && rows[k].received.value == e.paidAmount
    {
      var m :| 0 <= m < |r| && r[m] == e;
      assert P[m] in P;
      var k :| 0 <= k < |rows| && rows[k] == P[m];
    }
    forall k | 0 <= k < |rows| && Pays(rows[k])
      ensures EntryFor(rows[k], company, postingDate, paymentMode, customer, paidFrom, paidTo, name) in r
    {
      assert rows[k] in P;
      var m :| 0 <= m < |P| && P[m] == rows[k];
      assert r[m] == EntryFor(rows[k], company, postingDate, paymentMode, customer, paidFrom, paidTo, name);
    }
  }

  function PaidSum(entries: seq<PaymentEntry>): real
  {
    if entries == [] then 0.0 else PaidSum(entries[..|entries| - 1]) + entries[|entries| - 1].paidAmount
  }

  lemma {:induction false} PaidSumAppend(a: seq<PaymentEntry>, e: PaymentEntry)
    ensures PaidSum(a + [e]) == PaidSum(a) + e.paidAmount
  {
    assert (a + [e])[..|a + [e]| - 1] == a;
  }

  /** With no negative receipt, the entries pay out exactly the collection
      total: the rows with nothing received contribute 0 either way. */
  lemma {:induction false} PaymentEntriesCoverTotal(rows: seq<CollectionRow>, company: string, postingDate: int,
                                                    paymentMode: string, customer: string, paidFrom: string,
                                                    paidTo: string, name: string)
    requires forall k :: 0 <= k < |rows| ==> ReceivedOrZero(rows[k]) >= 0.0
    ensures PaidSum(PaymentEntries(rows, company, postingDate, paymentMode, customer, paidFrom, paidTo, name))
         == ReceivedTotal(rows)
  {
    if rows != [] {
      var pre := rows[..|rows| - 1];
      PaymentEntriesCoverTotal(pre, company, postingDate, paymentMode, customer, paidFrom, paidTo, name);
      var row := rows[|rows| - 1];
      if Pays(row) {
        PaidSumAppend(PaymentEntries(pre, company, postingDate, paymentMode, customer, paidFrom, paidTo, name),
                      EntryFor(row, company, postingDate, paymentMode, customer, paidFrom, paidTo, name));
      }
    }
  }

  class CashierCollection {
    var name: string
    var customer: string
    var postingDate: int
    var paymentMode: string
    var paidFrom: string
    var paidTo: string
    var discount: Option<real>
    var amount: real
    var payableAmount: real
    var collectionTable: seq<CollectionRow>

    constructor (name: string, customer: string, postingDate: int, paymentMode: string,
                 paidFrom: string, paidTo: string, discount: Option<real>, rows: seq<CollectionRow>)
      ensures this.name == name && this.customer == customer && this.postingDate == postingDate
      ensures this.paymentMode == paymentMode && this.paidFrom == paidFrom && this.paidTo == paidTo
      ensures this.discount == discount && collectionTable == rows && amount == 0.0 && payableAmount == 0.0
    {
      this.name := name;
      this.customer := customer;
      this.postingDate := postingDate;
      this.paymentMode := paymentMode;
      this.paidFrom := paidFrom;
      this.paidTo := paidTo;
      this.discount := discount;
      collectionTable := rows;
      amount := 0.0;
      payableAmount := 0.0;
    }

    /** `calculate_totals`: refuses a discount above the total before
        writing anything; otherwise stores the total and what is left to
        pay, which is never negative when a discount is given. */
    method CalculateTotals() returns (outcome: Outcome)
      modifies this`amount, this`payableAmount
      ensures outcome.Fail? <==> DiscountGiven(discount) && discount.value > ReceivedTotal(collectionTable)
      ensures outcome.Fail? ==>
        outcome.message == DiscountMessage && amount == old(amount) && payableAmount == old(payableAmount)
      ensures outcome.Pass? ==>
        amount == ReceivedTotal(collectionTable) &&
        payableAmount == ReceivedTotal(collectionTable) - DiscountOrZero(discount)
      ensures outcome.Pass? && (DiscountGiven(discount) || ReceivedTotal(collectionTable) >= 0.0) ==>
        payableAmount >= 0.0
    {
      var total := ReceivedTotal(collectionTable);
      if DiscountGiven(discount) && discount.value > total {
        return Fail(DiscountMessage);
      }
      amount := total;
      payableAmount := total - DiscountOrZero(discount);
      outcome := Pass;
    }

    /** `prevent_duplicate_invoices`: the scan with a `seen` set. */
    method PreventDuplicateInvoices() returns (outcome: Outcome)
      ensures outcome == DuplicateCheck(collectionTable)
    {
      ghost var s := Invoices(collectionTable);
      var seen: set<string> := {};
      var i := 0;
      while i < |collectionTable|
        invariant 0 <= i <= |collectionTable|
        invariant seen == set k | 0 <= k < i :: s[k]
        invariant FirstDuplicate(s[..i]) == None
      {
        var row := collectionTable[i];
        assert s[..i + 1][..i] == s[..i];
        if row.invoice in seen {
          assert row.invoice in s[..i];
          assert s[..i + 1] == s[..i] + [row.invoice];
          assert FirstDuplicate(s[..i + 1]) == Some(row.invoice);
          assert s[..|s|][..i + 1] == s[..i + 1];
          FirstDuplicateOfPrefix(s, i + 1);
          return Fail(DuplicateMessage(row.invoice));
        }
        assert row.invoice !in s[..i];
        seen := seen + {row.invoice};
        i := i + 1;
      }
      assert s[..i] == s;
      outcome := Pass;
    }

    function LedgersSelected(): (r: Outcome)
      reads this
      ensures r.Pass? <==> paidFrom != "" && paidTo != ""
    {
      LedgersCheck(paidFrom, paidTo)
    }

    /** `validate`: totals, then duplicates, then ledgers; the first
        failing check's error is the one raised. */
    method Validate() returns (outcome: Outcome)
      modifies this`amount, this`payableAmount
      ensures DiscountGiven(discount) && discount.value > ReceivedTotal(collectionTable) ==>
        outcome == Fail(DiscountMessage) && amount == old(amount) && payableAmount == old(payableAmount)
      ensures !(DiscountGiven(discount) && discount.value > ReceivedTotal(collectionTable)) ==>
        amount == ReceivedTotal(collectionTable) &&
        payableAmount == ReceivedTotal(collectionTable) - DiscountOrZero(discount) &&
        outcome == if DuplicateCheck(collectionTable).Fail? then DuplicateCheck(collectionTable)
                   else LedgersCheck(paidFrom, paidTo)
    {
      outcome := CalculateTotals();
      if outcome.Fail? {
        return;
      }
      outcome := PreventDuplicateInvoices();
      if outcome.Fail? {
        return;
      }
      outcome := LedgersSelected();
    }

    /** `on_submit` / `create_payment_entries`: one entry per row with a
        positive receipt. A blank receipt cannot be compared with 0 and
        aborts the submit at that row. */
    method CreatePaymentEntries(company: string) returns (outcome: Outcome, entries: seq<PaymentEntry>)
      ensures outcome.Pass? <==> forall k :: 0 <= k < |collectionTable| ==> collectionTable[k].received.Some?
      ensures outcome.Pass? ==>
        entries == PaymentEntries(collectionTable, company, postingDate, paymentMode, customer, paidFrom, paidTo, name)
      ensures outcome.Fail? ==>
        exists i :: 0 <= i < |collectionTable| && collectionTable[i].received.None? &&
          (forall j :: 0 <= j < i ==> collectionTable[j].received.Some?) &&
          entries == PaymentEntries(collectionTable[..i], company, postingDate, paymentMode, customer, paidFrom, paidTo, name)
    {
      entries := [];
      var i := 0;
      while i < |collectionTable|
        invariant 0 <= i <= |collectionTable|
        invariant forall j :: 0 <= j < i ==> collectionTable[j].received.Some?
        invariant entries == PaymentEntries(collectionTable[..i], company, postingDate, paymentMode, customer, paidFrom, paidTo, name)
      {
        var row := collectionTable[i];
        if row.received.None? {
          return Fail("'>' not supported between instances of 'NoneType' and 'int'"), entries;
        }
        assert collectionTable[..i + 1][..i] == collectionTable[..i];
        if row.received.value > 0.0 {
          var pe := PaymentEntry("Receive", company, postingDate, paymentMode, "Customer", customer, paidFrom, paidTo,
                                 row.received.value, row.received.value, "Sales Invoice", row.invoice,
                                 row.received.value, name);
          entries := entries + [pe];
        }
        i := i + 1;
      }
      assert collectionTable[..i] == collectionTable;
      outcome := Pass;
    }
  }

  /** A duplicate in a prefix is the table's first duplicate. */
  lemma {:induction false} FirstDuplicateOfPrefix(s: seq<string>, n: nat)
    requires n <= |s| && FirstDuplicate(s[..n]).Some?
    ensures FirstDuplicate(s) == FirstDuplicate(s[..n])
    decreases |s| - n
  {
    if n < |s| {
      assert s[..n + 1][..n] == s[..n];
      FirstDuplicateOfPrefix(s, n + 1);
    } else {
      assert s[..n] == s;
    }
  }
}
