/** The scheduled jobs of the purchase module: credit-note reminders, the
    daily promotion sweep and the turnover-incentive snapshots. The record
    store they read and write is the `TaskStore` object; the clock is the
    `today` parameter. */
module Tasks {
  import opened Basics
  import opened Documents
  import SP = SeasonalPromotions
  import TI = TurnoverIncentives

  // ---------------------------------------------------------------------
  // Credit-note reminders

  /** A `Supplier Credit Note Tracking` record; dates are day numbers. */
  datatype CreditNote = CreditNote(
    name: string,
    supplier: string,
    status: string,
    creditNoteAmount: real,
    reminderDate: int,
    expectedSettlementDate: int)

  /** The reminder query: pending and due today or earlier. */
  predicate ReminderDue(n: CreditNote, today: int)
  {
    n.status == "Pending" && n.reminderDate <= today
  }

  /** The names of the due notes, in store order. */
  function DueNames(notes: seq<CreditNote>, today: int): (r: seq<string>)
    ensures |r| <= |notes|
    ensures forall x :: x in r ==> exists k :: 0 <= k < |notes| && notes[k].name == x && ReminderDue(notes[k], today)
    ensures forall k :: 0 <= k < |notes| && ReminderDue(notes[k], today) ==> notes[k].name in r
  {
    if notes == [] then []
    else DueNames(notes[..|notes| - 1], today)
         + (if ReminderDue(notes[|notes| - 1], today) then [notes[|notes| - 1].name] else [])
  }

  /** A due note is reminded again in three days; any other note is left as
      it is. */
  function AdvanceReminder(n: CreditNote, today: int): (r: CreditNote)
    ensures ReminderDue(n, today) ==> r == n.(reminderDate := today + 3)
    ensures !ReminderDue(n, today) ==> r == n
    ensures !ReminderDue(r, today)
  {
    if ReminderDue(n, today) then n.(reminderDate := today + 3) else n
  }

  // ---------------------------------------------------------------------
  // Promotion sweep

  /** The activation query: starts today and is not active. */
  predicate StartsToday(p: SP.Promotion, today: int)
  {
    p.startDate == today && !p.isActive
  }

  /** The expiry query: ended before today and is active. */
  predicate HasExpired(p: SP.Promotion, today: int)
  {
    p.endDate < today && p.isActive
  }

  function Activate(p: SP.Promotion, today: int): SP.Promotion
  {
    if StartsToday(p, today) then p.(isActive := true) else p
  }

  function Expire(p: SP.Promotion, today: int): SP.Promotion
  {
    if HasExpired(p, today) then p.(isActive := false) else p
  }

  /** One promotion after the sweep: the expiry pass runs after the
      activation pass and sees its writes. */
  function Refresh(p: SP.Promotion, today: int): (r: SP.Promotion)
    ensures r == p.(isActive := r.isActive)
    ensures StartsToday(p, today) && today <= p.endDate ==> r.isActive
    ensures p.endDate < today ==> !r.isActive
    ensures !StartsToday(p, today) && !HasExpired(p, today) ==> r == p
  {
    Expire(Activate(p, today), today)
  }

  /** The flag agrees with the promotion's date window on `day`. */
  predicate FlagMatchesWindow(p: SP.Promotion, day: int)
  {
    p.isActive == (p.startDate <= day <= p.endDate)
  }

  /** Run once a day, the sweep keeps the flag in step with the date window
      of a promotion with valid dates. */
  lemma SweepKeepsFlagInStep(p: SP.Promotion, today: int)
    requires SP.ValidateDates(p) == Pass
    requires FlagMatchesWindow(p, today - 1)
    ensures FlagMatchesWindow(Refresh(p, today), today)
  {
  }

  // ---------------------------------------------------------------------
  // Incentive amounts

  /** The scheduler's award for one supplier. */
  datatype Award = Award(turnover: real, amount: real, scheme: string)

  function Min(a: real, b: real): real
  {
    if a <= b then a else b
  }

  /** `calculate_supplier_incentive` up to the record write: no award when
      the trailing-year turnover is not positive or no tier is reached;
      otherwise the chosen tier's percentage of the turnover, capped when
      the tier has a positive maximum. */
  function SupplierIncentive(invoices: seq<PostedInvoice>, tiers: seq<TI.Tier>, supplier: string, today: int): (r: Option<Award>)
    ensures r.None? <==>
      YearlyPurchase(invoices, supplier, today) <= 0.0 ||
      forall t :: t in tiers ==> !TI.Eligible(t, YearlyPurchase(invoices, supplier, today))
    ensures r.Some? ==>
      var x := YearlyPurchase(invoices, supplier, today);
      var t := TI.SelectTier(tiers, x).value;
      r.value.turnover == x && r.value.scheme == t.name &&
      (t.maxIncentiveAmount > 0.0 ==> r.value.amount <= t.maxIncentiveAmount) &&
      r.value.amount <= PercentOf(x, t.incentivePercentage) &&
      (t.maxIncentiveAmount <= 0.0 ==> r.value.amount == PercentOf(x, t.incentivePercentage)) &&
      (r.value.amount == PercentOf(x, t.incentivePercentage) || r.value.amount == t.maxIncentiveAmount)
  {
    var x := YearlyPurchase(invoices, supplier, today);
    if x <= 0.0 then None
    else
      match TI.SelectTier(tiers, x)
      case None => None
      case Some(t) =>
        var amount := PercentOf(x, t.incentivePercentage);
        Some(Award(x, if t.maxIncentiveAmount > 0.0 then Min(amount, t.maxIncentiveAmount) else amount, t.name))
  }

  /** The scheduler's `min` cap and the engine's cap give the same amount. */
  lemma SchedulerCapAgreesWithEngine(amount: real, maxAmount: real)
    ensures (if maxAmount > 0.0 then Min(amount, maxAmount) else amount) == TI.CapIncentive(amount, maxAmount)
  {
  }

  // ---------------------------------------------------------------------
  // Incentive snapshots

  /** A `Supplier Turnover Incentive` record. */
  datatype Snapshot = Snapshot(
    supplier: string,
    calculationDate: int,
    yearlyTurnover: real,
    incentiveAmount: real,
    incentiveScheme: string)

  /** The existing-record lookup is by supplier and calculation date. */
  function Key(s: Snapshot): (string, int)
  {
    (s.supplier, s.calculationDate)
  }

  /** The first record with `key`, the one `get_value` returns. */
  function FindSnapshot(snaps: seq<Snapshot>, key: (string, int)): (r: Option<nat>)
    ensures r.Some? ==> r.value < |snaps| && Key(snaps[r.value]) == key
    ensures r.Some? ==> forall j :: 0 <= j < r.value ==> Key(snaps[j]) != key
    ensures r.None? ==> forall j :: 0 <= j < |snaps| ==> Key(snaps[j]) != key
  {
    if snaps == [] then None
    else if Key(snaps[0]) == key then Some(0)
    else match FindSnapshot(snaps[1..], key)
      case None => None
      case Some(k) => Some(k + 1)
  }

  /** The store after the upsert of `x`: the first record with its key is
      overwritten, or `x` is added when there is none. */
  function Upserted(snaps: seq<Snapshot>, x: Snapshot): seq<Snapshot>
  {
    match FindSnapshot(snaps, Key(x))
    case Some(k) => snaps[k := x]
    case None => snaps + [x]
  }

  /** The records with `key`, in store order. */
  function WithKey(snaps: seq<Snapshot>, key: (string, int)): (r: seq<Snapshot>)
    ensures forall s :: s in r <==> s in snaps && Key(s) == key
  {
    if snaps == [] then []
    else (if Key(snaps[0]) == key then [snaps[0]] else []) + WithKey(snaps[1..], key)
  }

  lemma {:induction false} WithKeyAppend(snaps: seq<Snapshot>, x: Snapshot, key: (string, int))
    ensures WithKey(snaps + [x], key) == WithKey(snaps, key) + (if Key(x) == key then [x] else [])
  {
    if snaps == [] {
      assert [] + [x] == [x];
      assert [x][1..] == [];
    } else {
      assert (snaps + [x])[1..] == snaps[1..] + [x];
      WithKeyAppend(snaps[1..], x, key);
    }
  }

  lemma {:induction false} WithKeyNone(snaps: seq<Snapshot>, key: (string, int))
    requires forall j :: 0 <= j < |snaps| ==> Key(snaps[j]) != key
    ensures WithKey(snaps, key) == []
  {
    if snaps != [] {
      WithKeyNone(snaps[1..], key);
    }
  }

  /** Overwriting a record with one of the same key keeps every key's
      records except that one. */
  lemma {:induction false} WithKeyUpdate(snaps: seq<Snapshot>, k: nat, x: Snapshot, key: (string, int))
    requires k < |snaps| && Key(snaps[k]) == Key(x)
    ensures key != Key(x) ==> WithKey(snaps[k := x], key) == WithKey(snaps, key)
    ensures key == Key(x) && (forall j :: 0 <= j < k ==> Key(snaps[j]) != key) ==>
      WithKey(snaps[k := x], key) == [x] + WithKey(snaps[k + 1..], key)
  {
    var t := snaps[k := x];
    if k == 0 {
      assert t[1..] == snaps[1..] && t[0] == x;
    } else {
      assert t[1..] == snaps[1..][k - 1 := x] && t[0] == snaps[0];
      WithKeyUpdate(snaps[1..], k - 1, x, key);
      assert snaps[1..][k - 1 + 1..] == snaps[k + 1..];
      assert WithKey(t, key) == (if Key(snaps[0]) == key then [snaps[0]] else []) + WithKey(t[1..], key);
    }
  }

  /** At most one record per supplier and date. */
  predicate UniqueKeys(snaps: seq<Snapshot>)
  {
    forall i, j :: 0 <= i < j < |snaps| ==> Key(snaps[i]) != Key(snaps[j])
  }

  lemma {:induction false} WithKeyOfUnique(snaps: seq<Snapshot>, k: nat)
    requires UniqueKeys(snaps) && k < |snaps|
    ensures WithKey(snaps[k + 1..], Key(snaps[k])) == []
  {
    WithKeyNone(snaps[k + 1..], Key(snaps[k]));
  }

  /** After the upsert the store holds exactly one record with the key, the
      new one, provided it held at most one before; records with other keys
      are as they were. */
  lemma UpsertedKeys(snaps: seq<Snapshot>, x: Snapshot, key: (string, int))
    requires UniqueKeys(snaps)
    ensures UniqueKeys(Upserted(snaps, x))
    ensures WithKey(Upserted(snaps, x), Key(x)) == [x]
    ensures key != Key(x) ==> WithKey(Upserted(snaps, x), key) == WithKey(snaps, key)
  {
    match FindSnapshot(snaps, Key(x))
    case Some(k) =>
      WithKeyUpdate(snaps, k, x, key);
      WithKeyUpdate(snaps, k, x, Key(x));
      WithKeyOfUnique(snaps, k);
    case None =>
      WithKeyAppend(snaps, x, key);
      WithKeyAppend(snaps, x, Key(x));
      WithKeyNone(snaps, Key(x));
  }

  /** A second run on the same day updates the record the first run wrote
      instead of adding another: the store is as if only the second had
      run. */
  lemma UpsertTwiceSameKey(snaps: seq<Snapshot>, x: Snapshot, y: Snapshot)
    requires Key(x) == Key(y)
    ensures Upserted(Upserted(snaps, x), y) == Upserted(snaps, y)
  {
    match FindSnapshot(snaps, Key(x))
    case Some(k) =>
      assert FindSnapshot(snaps[k := x], Key(y)) == Some(k) by {
        FindSnapshotUpdate(snaps, k, x);
      }
    case None =>
      FindSnapshotAppended(snaps, x);
  }

  lemma {:induction false} FindSnapshotUpdate(snaps: seq<Snapshot>, k: nat, x: Snapshot)
    requires FindSnapshot(snaps, Key(x)) == Some(k)
    ensures FindSnapshot(snaps[k := x], Key(x)) == Some(k)
  {
    if k != 0 {
      assert snaps[k := x][1..] == snaps[1..][k - 1 := x];
      FindSnapshotUpdate(snaps[1..], k - 1, x);
    }
  }

  lemma {:induction false} FindSnapshotAppended(snaps: seq<Snapshot>, x: Snapshot)
    requires FindSnapshot(snaps, Key(x)) == None
    ensures FindSnapshot(snaps + [x], Key(x)) == Some(|snaps|)
  {
    if snaps == [] {
      assert ([] + [x])[0] == x;
    } else {
      assert (snaps + [x])[1..] == snaps[1..] + [x];
      FindSnapshotAppended(snaps[1..], x);
    }
  }

  // ---------------------------------------------------------------------
  // The nightly batch

  /** A `Supplier` record as the batch query sees it. */
  datatype Supplier = Supplier(name: string, disabled: bool)

  /** The batch query: the names of the suppliers that are not disabled. */
  function EnabledNames(suppliers: seq<Supplier>): (r: seq<string>)
    ensures forall n :: n in r <==> exists k :: 0 <= k < |suppliers| && suppliers[k].name == n && !suppliers[k].disabled
  {
    if suppliers == [] then []
    else EnabledNames(suppliers[..|suppliers| - 1])
         + (if suppliers[|suppliers| - 1].disabled then [] else [suppliers[|suppliers| - 1].name])
  }

  /** The record store for one supplier's calculation. `faults` are the
      suppliers whose calculation raises (a failing query or save); the
      error is logged and their records are left alone. */
  function SupplierStep(snaps: seq<Snapshot>, supplier: string, invoices: seq<PostedInvoice>,
                        tiers: seq<TI.Tier>, today: int, faults: set<string>): seq<Snapshot>
  {
    if supplier in faults then snaps
    else match SupplierIncentive(invoices, tiers, supplier, today)
      case None => snaps
      case Some(a) => Upserted(snaps, Snapshot(supplier, today, a.turnover, a.amount, a.scheme))
  }

  function Batch(snaps: seq<Snapshot>, names: seq<string>, invoices: seq<PostedInvoice>,
                 tiers: seq<TI.Tier>, today: int, faults: set<string>): seq<Snapshot>
  {
    if names == [] then snaps
    else SupplierStep(Batch(snaps, names[..|names| - 1], invoices, tiers, today, faults),
                      names[|names| - 1], invoices, tiers, today, faults)
  }

  /** What the batch leaves for one supplier on `today`: its fresh award
      when it has one and its calculation did not fail. */
  function Expected(snaps: seq<Snapshot>, n: string, names: seq<string>, invoices: seq<PostedInvoice>,
                    tiers: seq<TI.Tier>, today: int, faults: set<string>): seq<Snapshot>
  {
    if n in names && n !in faults && SupplierIncentive(invoices, tiers, n, today).Some? then
      var a := SupplierIncentive(invoices, tiers, n, today).value;
      [Snapshot(n, today, a.turnover, a.amount, a.scheme)]
    else WithKey(snaps, (n, today))
  }

  /** Every supplier is processed whatever happens to the others: after the
      batch each enabled supplier without a failure and with an award has
      exactly one record for today, holding that award; every other
      supplier's records for today are unchanged. */
  lemma {:induction false} BatchOutcome(snaps: seq<Snapshot>, names: seq<string>, invoices: seq<PostedInvoice>,
                                        tiers: seq<TI.Tier>, today: int, faults: set<string>, n: string)
    requires UniqueKeys(snaps)
    ensures UniqueKeys(Batch(snaps, names, invoices, tiers, today, faults))
    ensures WithKey(Batch(snaps, names, invoices, tiers, today, faults), (n, today))
         == Expected(snaps, n, names, invoices, tiers, today, faults)
    ensures forall key: (string, int) :: key.1 != today ==>
      WithKey(Batch(snaps, names, invoices, tiers, today, faults), key) == WithKey(snaps, key)
  {
    if names != [] {
      var pre := names[..|names| - 1];
      var last := names[|names| - 1];
      BatchOutcome(snaps, pre, invoices, tiers, today, faults, n);
      var mid := Batch(snaps, pre, invoices, tiers, today, faults);
      assert forall m :: m in names <==> m in pre || m == last;
      if last !in faults && SupplierIncentive(invoices, tiers, last, today).Some? {
        var a := SupplierIncentive(invoices, tiers, last, today).value;
        var x := Snapshot(last, today, a.turnover, a.amount, a.scheme);
        UpsertedKeys(mid, x, (n, today));
        forall key: (string, int) | key.1 != today
          ensures WithKey(Upserted(mid, x), key) == WithKey(snaps, key)
        {
          UpsertedKeys(mid, x, key);
        }
      }
    }
  }

  // ---------------------------------------------------------------------
  // The record store

  class TaskStore {
    var promotions: seq<SP.Promotion>
    var creditNotes: seq<CreditNote>
    var snapshots: seq<Snapshot>
    const cache: Cache

    constructor (promotions: seq<SP.Promotion>, creditNotes: seq<CreditNote>, snapshots: seq<Snapshot>, cache: Cache)
      ensures this.promotions == promotions && this.creditNotes == creditNotes
      ensures this.snapshots == snapshots && this.cache == cache
    {
      this.promotions := promotions;
      this.creditNotes := creditNotes;
      this.snapshots := snapshots;
      this.cache := cache;
    }

    /** `send_credit_note_reminders` without the e-mail: returns the names
        of the notes reminded, in query order, and moves each one's next
        reminder three days past today. */
    method SendCreditNoteReminders(today: int) returns (reminded: seq<string>)
      modifies this`creditNotes
      ensures reminded == DueNames(old(creditNotes), today)
      ensures |creditNotes| == |old(creditNotes)|
      ensures forall k :: 0 <= k < |creditNotes| ==> creditNotes[k] == AdvanceReminder(old(creditNotes)[k], today)
    {
      ghost var orig := creditNotes;
      reminded := [];
      var i := 0;
      while i < |creditNotes|
        invariant 0 <= i <= |orig| && |creditNotes| == |orig|
        invariant forall k :: 0 <= k < i ==> creditNotes[k] == AdvanceReminder(orig[k], today)
        invariant forall k :: i <= k < |orig| ==> creditNotes[k] == orig[k]
        invariant reminded == DueNames(orig[..i], today)
      {
        var note := creditNotes[i];
        if note.status == "Pending" && note.reminderDate <= today {
          reminded := reminded + [note.name];
          var nextReminder := today + 3;
          creditNotes := creditNotes[i := note.(reminderDate := nextReminder)];
        }
        assert orig[..i + 1][..i] == orig[..i];
        i := i + 1;
      }
      assert orig[..|orig|] == orig;
    }

    /** `update_promotion_status`: the activation pass, then the expiry
        pass, then the promotion cache is dropped. */
    method UpdatePromotionStatus(today: int)
      modifies this`promotions, cache
      ensures |promotions| == |old(promotions)|
      ensures forall k :: 0 <= k < |promotions| ==> promotions[k] == Refresh(old(promotions)[k], today)
      ensures cache.entries == old(cache.entries) - {SP.PromotionCacheKey}
    {
      ghost var orig := promotions;
      var i := 0;
      while i < |promotions|
        invariant 0 <= i <= |orig| && |promotions| == |orig|
        invariant forall k :: 0 <= k < i ==> promotions[k] == Activate(orig[k], today)
        invariant forall k :: i <= k < |orig| ==> promotions[k] == orig[k]
        invariant cache.entries == old(cache.entries)
      {
        if promotions[i].startDate == today && !promotions[i].isActive {
          promotions := promotions[i := promotions[i].(isActive := true)];
        }
        i := i + 1;
      }
      var j := 0;
      while j < |promotions|
        invariant 0 <= j <= |orig| && |promotions| == |orig|
        invariant forall k :: 0 <= k < j ==> promotions[k] == Refresh(orig[k], today)
        invariant forall k :: j <= k < |orig| ==> promotions[k] == Activate(orig[k], today)
        invariant cache.entries == old(cache.entries)
      {
        if promotions[j].endDate < today && promotions[j].isActive {
          promotions := promotions[j := promotions[j].(isActive := false)];
        }
        j := j + 1;
      }
      cache.DeleteValue(SP.PromotionCacheKey);
    }

    /** `create_supplier_incentive_record`: update the first record for
        the supplier and today, or add one. */
    method CreateSupplierIncentiveRecord(supplier: string, turnover: real, incentiveAmount: real, scheme: string, today: int)
      modifies this`snapshots
      ensures snapshots == Upserted(old(snapshots), Snapshot(supplier, today, turnover, incentiveAmount, scheme))
    {
      var existing := FindSnapshot(snapshots, (supplier, today));
      if existing.Some? {
        var doc := snapshots[existing.value];
        snapshots := snapshots[existing.value := doc.(yearlyTurnover := turnover,
                                                      incentiveAmount := incentiveAmount,
                                                      incentiveScheme := scheme)];
      } else {
        snapshots := snapshots + [Snapshot(supplier, today, turnover, incentiveAmount, scheme)];
      }
    }

    /** `calculate_supplier_incentive` for one supplier. */
    method CalculateSupplierIncentive(supplierName: string, invoices: seq<PostedInvoice>, tiers: seq<TI.Tier>,
                                      today: int, faults: set<string>)
      modifies this`snapshots
      ensures snapshots == SupplierStep(old(snapshots), supplierName, invoices, tiers, today, faults)
    {
      if supplierName in faults {
        return;
      }
      var totalPurchase := YearlyPurchase(invoices, supplierName, today);
      if totalPurchase <= 0.0 {
        return;
      }
      var schemes := TI.SelectTier(tiers, totalPurchase);
      if schemes.None? {
        return;
      }
      var scheme := schemes.value;
      var incentiveAmount := PercentOf(totalPurchase, scheme.incentivePercentage);
      if scheme.maxIncentiveAmount > 0.0 {
        incentiveAmount := Min(incentiveAmount, scheme.maxIncentiveAmount);
      }
      CreateSupplierIncentiveRecord(supplierName, totalPurchase, incentiveAmount, scheme.name, today);
    }

    /** `calculate_turnover_incentives`: every enabled supplier in turn. */
    method CalculateTurnoverIncentives(suppliers: seq<Supplier>, invoices: seq<PostedInvoice>, tiers: seq<TI.Tier>,
                                       today: int, faults: set<string>)
      modifies this`snapshots
      ensures snapshots == Batch(old(snapshots), EnabledNames(suppliers), invoices, tiers, today, faults)
    {
      var names := EnabledNames(suppliers);
      var i := 0;
      while i < |names|
        invariant 0 <= i <= |names|
        invariant snapshots == Batch(old(snapshots), names[..i], invoices, tiers, today, faults)
      {
        CalculateSupplierIncentive(names[i], invoices, tiers, today, faults);
        assert names[..i + 1][..i] == names[..i];
        i := i + 1;
      }
      assert names[..|names|] == names;
    }
  }
}
