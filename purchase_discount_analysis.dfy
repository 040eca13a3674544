/** The Purchase Discount Analysis report: its column list and the WHERE
    fragment built from the report filters. The query itself runs in the
    database and is not modelled. */
module PurchaseDiscountAnalysis {

  /** A filter value as the report form sends it. */
  datatype FilterValue = Text(text: string) | Number(number: real)

  /** Python truthiness of a filter value: a non-empty string or a non-zero
      number. */
  predicate Truthy(v: FilterValue)
  {
    match v
    case Text(t) => t != ""
    case Number(x) => x != 0.0
  }

  /** `filters.get(key)` is truthy. */
  predicate Given(filters: map<string, FilterValue>, key: string)
  {
    key in filters && Truthy(filters[key])
  }

  /** The filter keys in the order their clauses are added. */
  const Keys: seq<string> := ["from_date", "to_date", "supplier", "discount_type", "min_discount_amount"]

  /** The clause for each key; each refers to its value only through a
      named placeholder. */
  const ClauseTexts: seq<string> := [
    "pi.posting_date >= %(from_date)s",
    "pi.posting_date <= %(to_date)s",
    "pi.supplier = %(supplier)s",
    "pi.discount_type = %(discount_type)s",
    "COALESCE(pi.total_discount_amount, 0) >= %(min_discount_amount)s"]

  /** The clauses of the first `n` keys that are given, in key order. */
  function ClausesUpTo(filters: map<string, FilterValue>, n: nat): (r: seq<string>)
    requires n <= 5
    ensures |r| <= n
    ensures forall c :: c in r <==> exists j :: 0 <= j < n && Given(filters, Keys[j]) && c == ClauseTexts[j]
  {
    if n == 0 then []
    else ClausesUpTo(filters, n - 1) + (if Given(filters, Keys[n - 1]) then [ClauseTexts[n - 1]] else [])
  }

  /** The positions among the first `n` keys of those that are given, in
      increasing order. */
  function GivenIndices(filters: map<string, FilterValue>, n: nat): (r: seq<nat>)
    requires n <= 5
    ensures forall i :: 0 <= i < |r| ==> r[i] < n
    ensures forall i, j :: 0 <= i < j < |r| ==> r[i] < r[j]
    ensures forall j :: 0 <= j < n ==> (j in r <==> Given(filters, Keys[j]))
  {
    if n == 0 then []
    else GivenIndices(filters, n - 1) + (if Given(filters, Keys[n - 1]) then [n - 1] else [])
  }

  /** The clauses of a prefix are the clause texts of the given keys, one
      each, in key order. */
  lemma {:induction false} ClausesInKeyOrder(filters: map<string, FilterValue>, n: nat)
    requires n <= 5
    ensures var r, idx := ClausesUpTo(filters, n), GivenIndices(filters, n);
      |r| == |idx| && forall i :: 0 <= i < |r| ==> r[i] == ClauseTexts[idx[i]]
  {
    if n > 0 {
      ClausesInKeyOrder(filters, n - 1);
    }
  }

  function Clauses(filters: map<string, FilterValue>): (r: seq<string>)
    ensures |r| <= 5
    ensures forall j :: 0 <= j < 5 ==> (ClauseTexts[j] in r <==> Given(filters, Keys[j]))
    ensures r == [] <==> forall j :: 0 <= j < 5 ==> !Given(filters, Keys[j])
  {
    var r := ClausesUpTo(filters, 5);
    assert forall j :: 0 <= j < 5 && Given(filters, Keys[j]) ==> ClauseTexts[j] in r;
    assert r != [] ==> r[0] in r;
    r
  }

  /** The clauses are the given keys' texts in key order, none repeated. */
  lemma ClausesOrdered(filters: map<string, FilterValue>)
    ensures var r, idx := Clauses(filters), GivenIndices(filters, 5);
      |r| == |idx| && forall i :: 0 <= i < |r| ==> r[i] == ClauseTexts[idx[i]]
    ensures var r := Clauses(filters);
      forall i, j :: 0 <= i < j < |r| ==> r[i] != r[j]
  {
    ClausesInKeyOrder(filters, 5);
    assert forall j, k :: 0 <= j < 5 && 0 <= k < 5 && ClauseTexts[j] == ClauseTexts[k] ==> j == k;
  }

  /** `sep.join(parts)` */
  function Join(parts: seq<string>, sep: string): string
  {
    if parts == [] then ""
    else if |parts| == 1 then parts[0]
    else parts[0] + sep + Join(parts[1..], sep)
  }

  /** The fragment appended after `WHERE pi.docstatus = 1`: empty when no
      filter is given, otherwise each given filter's clause after " AND ". */
  function Conditions(filters: map<string, FilterValue>): (r: string)
    ensures r == "" <==> forall j :: 0 <= j < 5 ==> !Given(filters, Keys[j])
    ensures r != "" ==> r == " AND " + Join(Clauses(filters), " AND ")
  {
    var c := Clauses(filters);
    if c == [] then "" else " AND " + Join(c, " AND ")
  }

  /** The fragment depends only on which filters are given, never on their
      values. */
  lemma ConditionsIgnoreValues(f: map<string, FilterValue>, g: map<string, FilterValue>)
    requires forall j :: 0 <= j < 5 ==> (Given(f, Keys[j]) <==> Given(g, Keys[j]))
    ensures Conditions(f) == Conditions(g)
  {
    ClausesUpToIgnoreValues(f, g, 5);
  }

  lemma {:induction false} ClausesUpToIgnoreValues(f: map<string, FilterValue>, g: map<string, FilterValue>, n: nat)
    requires n <= 5
    requires forall j :: 0 <= j < 5 ==> (Given(f, Keys[j]) <==> Given(g, Keys[j]))
    ensures ClausesUpTo(f, n) == ClausesUpTo(g, n)
  {
    if n > 0 {
      ClausesUpToIgnoreValues(f, g, n - 1);
    }
  }

  /** With every filter given, all five clauses are used, in key order. */
  lemma AllFiltersGiven(filters: map<string, FilterValue>)
    requires forall j :: 0 <= j < 5 ==> Given(filters, Keys[j])
    ensures Clauses(filters) == ClauseTexts
    ensures Conditions(filters) == " AND " + Join(ClauseTexts, " AND ")
  {
    assert Given(filters, Keys[0]) && Given(filters, Keys[1]) && Given(filters, Keys[2]);
    assert Given(filters, Keys[3]) && Given(filters, Keys[4]);
    assert ClausesUpTo(filters, 1) == ClauseTexts[..1];
    assert ClausesUpTo(filters, 2) == ClauseTexts[..2];
    assert ClausesUpTo(filters, 3) == ClauseTexts[..3];
    assert ClausesUpTo(filters, 4) == ClauseTexts[..4];
    assert ClausesUpTo(filters, 5) == ClauseTexts;
  }

  /** `get_conditions`: a clause appended per given filter, then joined. */
  method GetConditions(filters: map<string, FilterValue>) returns (r: string)
    ensures r == Conditions(filters)
  {
    var conditions: seq<string> := [];
    if "from_date" in filters && Truthy(filters["from_date"]) {
      conditions := conditions + ["pi.posting_date >= %(from_date)s"];
    }
    assert conditions == ClausesUpTo(filters, 1);
    if "to_date" in filters && Truthy(filters["to_date"]) {
      conditions := conditions + ["pi.posting_date <= %(to_date)s"];
    }
    assert conditions == ClausesUpTo(filters, 2);
    if "supplier" in filters && Truthy(filters["supplier"]) {
      conditions := conditions + ["pi.supplier = %(supplier)s"];
    }
    assert conditions == ClausesUpTo(filters, 3);
    if "discount_type" in filters && Truthy(filters["discount_type"]) {
      conditions := conditions + ["pi.discount_type = %(discount_type)s"];
    }
    assert conditions == ClausesUpTo(filters, 4);
    if "min_discount_amount" in filters && Truthy(filters["min_discount_amount"]) {
      conditions := conditions + ["COALESCE(pi.total_discount_amount, 0) >= %(min_discount_amount)s"];
    }
    assert conditions == ClausesUpTo(filters, 5);
    r := if |conditions| > 0 then " AND " + Join(conditions, " AND ") else "";
  }

  // ---------------------------------------------------------------------
  // Columns

  datatype Column = Column(fieldname: string, heading: string, fieldtype: string, options: string, width: int)

  /** The column aliases of the report's SELECT, in order. */
  const SelectAliases: seq<string> := ["posting_date", "name", "supplier", "total", "total_discount_amount",
                                       "effective_discount_percentage", "discount_type", "grand_total", "savings"]

  function Fieldnames(cols: seq<Column>): (r: seq<string>)
    ensures |r| == |cols| && forall k :: 0 <= k < |cols| ==> r[k] == cols[k].fieldname
  {
    seq(|cols|, k requires 0 <= k < |cols| => cols[k].fieldname)
  }

  /** `get_columns`: nine columns, one per SELECT alias in the same order,
      no fieldname twice. */
  function GetColumns(): (r: seq<Column>)
    ensures |r| == 9
    ensures Fieldnames(r) == SelectAliases
    ensures forall i, j :: 0 <= i < j < |r| ==> r[i].fieldname != r[j].fieldname
  {
    [Column("posting_date", "Date", "Date", "", 100),
     Column("name", "Invoice", "Link", "Purchase Invoice", 150),
     Column("supplier", "Supplier", "Link", "Supplier", 150),
     Column("total", "Total Amount", "Currency", "", 120),
     Column("total_discount_amount", "Discount Amount", "Currency", "", 120),
     Column("effective_discount_percentage", "Discount %", "Percent", "", 100),
     Column("discount_type", "Discount Type", "Data", "", 120),
     Column("grand_total", "Grand Total", "Currency", "", 120),
     Column("savings", "Savings", "Currency", "", 120)]
  }
}
