/** The BillLineItem record of the Node backend (its columns, defaults and
    nullability) and the line-item arithmetic the bill pages share:
    a row amount is quantity times unit price, and a bill total is the sum of
    the row amounts folded from the left starting at 0.

    Money and quantities are DECIMAL(10,2) columns, modelled exactly as
    integer hundredths; a row amount (hundredths times hundredths) is then in
    ten-thousandths of the currency unit. */
module BillLineItems {
  import opened Wrappers

  /** DECIMAL(10,2) holds ten digits, two of them after the point: the
      magnitude in hundredths stays below 10^10. */
  const DecimalLimit: int := 10_000_000_000

  /** STRING(50) for employee_number. */
  const EmployeeNumberMax: nat := 50

  /** The defaults of the schema, in hundredths where they are amounts. */
  const DefaultQuantity: int := 100
  const DefaultUnitPrice: int := 0
  const DefaultIsLabor: bool := false
  const DefaultIsTaxable: bool := true

  predicate FitsDecimal10x2(hundredths: int)
  {
    -DecimalLimit < hundredths < DecimalLimit
  }

  /** A stored line item. The non-null columns have plain types; the two
      nullable ones (notes, employee_number) are options. */
  datatype LineItem = LineItem(
    description: string,
    quantity: int,
    unitPrice: int,
    notes: Option<string>,
    isLabor: bool,
    isTaxable: bool,
    employeeNumber: Option<string>,
    billId: int)

  /** What the columns can hold: both decimals within DECIMAL(10,2) and an
      employee number of at most 50 characters. */
  predicate FitsColumns(item: LineItem)
  {
    && FitsDecimal10x2(item.quantity)
    && FitsDecimal10x2(item.unitPrice)
    && (item.employeeNumber.Some? ==> |item.employeeNumber.value| <= EmployeeNumberMax)
  }

  /** One attribute handed to create: left out, given as null, or given. */
  datatype Attr<T> = Absent | Null | Given(v: T)

  datatype Attributes = Attributes(
    description: Attr<string>,
    quantity: Attr<int>,
    unitPrice: Attr<int>,
    notes: Attr<string>,
    isLabor: Attr<bool>,
    isTaxable: Attr<bool>,
    employeeNumber: Attr<string>,
    billId: Attr<int>)

  datatype Column = DescriptionColumn | QuantityColumn | UnitPriceColumn | NotesColumn | IsLaborColumn | IsTaxableColumn | EmployeeNumberColumn | BillIdColumn

  /** An absent attribute takes the column default; a null one stays null. */
  function WithDefault<T>(a: Attr<T>, default: T): Attr<T>
  {
    if a.Absent? then Given(default) else a
  }

  function ToOption<T>(a: Attr<T>): Option<T>
  {
    if a.Given? then Some(a.v) else None
  }

  /** The non-null columns that end up null once defaults are applied, in
      declaration order: the notNull violations the model validator reports. */
  function NotNullViolations(a: Attributes): seq<Column>
  {
    (if !a.description.Given? then [DescriptionColumn] else [])
    + (if a.quantity.Null? then [QuantityColumn] else [])
    + (if a.unitPrice.Null? then [UnitPriceColumn] else [])
    + (if a.isLabor.Null? then [IsLaborColumn] else [])
    + (if a.isTaxable.Null? then [IsTaxableColumn] else [])
    + (if !a.billId.Given? then [BillIdColumn] else [])
  }

  /** Building and validating a line item from attributes: defaults fill the
      absent attributes, and any non-null column that is still null rejects
      the whole record. */
  function Create(a: Attributes): (r: Result<LineItem, seq<Column>>)
    ensures r.Err? <==> NotNullViolations(a) != []
    ensures r.Err? ==> r.error == NotNullViolations(a)
    ensures r.Ok? ==>
      && a.description == Given(r.value.description)
      && WithDefault(a.quantity, DefaultQuantity) == Given(r.value.quantity)
      && WithDefault(a.unitPrice, DefaultUnitPrice) == Given(r.value.unitPrice)
      && WithDefault(a.isLabor, DefaultIsLabor) == Given(r.value.isLabor)
      && WithDefault(a.isTaxable, DefaultIsTaxable) == Given(r.value.isTaxable)
      && a.billId == Given(r.value.billId)
      && r.value.notes == ToOption(a.notes)
      && r.value.employeeNumber == ToOption(a.employeeNumber)
  {
    if NotNullViolations(a) != [] then Err(NotNullViolations(a))
    else
      Ok(LineItem(
        a.description.v,
        WithDefault(a.quantity, DefaultQuantity).v,
        WithDefault(a.unitPrice, DefaultUnitPrice).v,
        ToOption(a.notes),
        WithDefault(a.isLabor, DefaultIsLabor).v,
        WithDefault(a.isTaxable, DefaultIsTaxable).v,
        ToOption(a.employeeNumber),
        a.billId.v))
  }

  /** Only the description and the bill are given. */
  function OnlyRequired(description: string, billId: int): Attributes
  {
    Attributes(Given(description), Absent, Absent, Absent, Absent, Absent, Absent, Given(billId))
  }

  /** A new line item with only its required attributes has quantity 1,
      unit price 0, is not labour, is taxable, has no notes and no employee
      number, and fits its columns. */
  lemma NewLineItemDefaults(description: string, billId: int)
    ensures Create(OnlyRequired(description, billId)).Ok?
    ensures var item := Create(OnlyRequired(description, billId)).value;
      && item.quantity == 100 && item.unitPrice == 0
      && !item.isLabor && item.isTaxable
      && item.notes == None && item.employeeNumber == None
      && item.description == description && item.billId == billId
      && FitsColumns(item)
  {
  }

  /** A required column given as null is rejected even though it has a default. */
  lemma NullQuantityRejected(a: Attributes)
    requires a.quantity.Null?
    ensures Create(a).Err? && QuantityColumn in Create(a).error
  {
    assert QuantityColumn in NotNullViolations(a);
  }

  /** The amount of one row: quantity times unit price, in ten-thousandths. */
  function Amount(item: LineItem): int
  {
    item.quantity * item.unitPrice
  }

  /** `items.reduce((sum, item) => sum + item.quantity * item.unit_price, 0)`:
      the left fold of the row amounts from 0. */
  function Total(items: seq<LineItem>): int
  {
    if items == [] then 0 else Total(items[..|items| - 1]) + Amount(items[|items| - 1])
  }

  /** The row amounts, one per item and in order. */
  function Amounts(items: seq<LineItem>): (r: seq<int>)
    ensures |r| == |items|
    ensures forall i :: 0 <= i < |items| ==> r[i] == Amount(items[i])
  {
    seq(|items|, i requires 0 <= i < |items| => Amount(items[i]))
  }

  /** An independent sum: the right fold of a sequence of integers. */
  function Sum(xs: seq<int>): int
  {
    if xs == [] then 0 else xs[0] + Sum(xs[1..])
  }

  /** Appending an item grows the total by exactly that item's amount. */
  lemma TotalAppend(items: seq<LineItem>, x: LineItem)
    ensures Total(items + [x]) == Total(items) + Amount(x)
  {
    assert (items + [x])[..|items|] == items;
  }

  lemma {:induction false} TotalConcat(a: seq<LineItem>, b: seq<LineItem>)
    ensures Total(a + b) == Total(a) + Total(b)
    decreases |b|
  {
    if b == [] {
      assert a + b == a;
    } else {
      var init, x := b[..|b| - 1], b[|b| - 1];
      assert b == init + [x];
      assert a + b == (a + init) + [x];
      TotalConcat(a, init);
      TotalAppend(a + init, x);
      TotalAppend(init, x);
    }
  }

  lemma {:induction false} SumConcat(xs: seq<int>, ys: seq<int>)
    ensures Sum(xs + ys) == Sum(xs) + Sum(ys)
    decreases |xs|
  {
    if xs == [] {
      assert xs + ys == ys;
    } else {
      assert (xs + ys)[1..] == xs[1..] + ys;
      SumConcat(xs[1..], ys);
    }
  }

  /** The total equals the sum of the displayed row amounts, whichever way
      they are added up. */
  lemma {:induction false} TotalIsSumOfAmounts(items: seq<LineItem>)
    ensures Total(items) == Sum(Amounts(items))
    decreases |items|
  {
    if items != [] {
      var init, x := items[..|items| - 1], items[|items| - 1];
      TotalIsSumOfAmounts(init);
      assert Amounts(items) == Amounts(init) + [Amount(x)];
      SumConcat(Amounts(init), [Amount(x)]);
    }
  }

  /** The total does not depend on the order of the line items. */
  lemma {:induction false} TotalPermutation(a: seq<LineItem>, b: seq<LineItem>)
    requires multiset(a) == multiset(b)
    ensures Total(a) == Total(b)
    decreases |a|
  {
    if a == [] {
      assert |b| == |multiset(b)| == 0;
    } else {
      var n := |a| - 1;
      var x := a[n];
      assert a == a[..n] + [x];
      assert x in multiset(b);
      var k :| 0 <= k < |b| && b[k] == x;
      var rest := b[..k] + b[k + 1..];
      assert b == b[..k] + [x] + b[k + 1..];
      assert multiset(a) == multiset(a[..n]) + multiset{x};
      assert multiset(b) == multiset(b[..k]) + multiset{x} + multiset(b[k + 1..]);
      assert multiset(rest) == multiset(b[..k]) + multiset(b[k + 1..]);
      assert multiset(a[..n]) == multiset(a) - multiset{x};
      assert multiset(rest) == multiset(b) - multiset{x};
      TotalPermutation(a[..n], rest);
      TotalAppend(a[..n], x);
      TotalAppend(b[..k], x);
      TotalConcat(b[..k] + [x], b[k + 1..]);
      TotalConcat(b[..k], b[k + 1..]);
    }
  }

  /** The total reads only quantities and unit prices: two lists that agree
      on those, position by position, total the same whatever their
      descriptions, notes and labour or taxable flags. No tax is applied. */
  lemma {:induction false} TotalIgnoresFlags(a: seq<LineItem>, b: seq<LineItem>)
    requires |a| == |b|
    requires forall i :: 0 <= i < |a| ==> a[i].quantity == b[i].quantity && a[i].unitPrice == b[i].unitPrice
    ensures Total(a) == Total(b)
    decreases |a|
  {
    if a != [] {
      var n := |a| - 1;
      TotalIgnoresFlags(a[..n], b[..n]);
    }
  }

  /** Items with non-negative quantities and prices total a non-negative amount. */
  lemma {:induction false} TotalNonNegative(items: seq<LineItem>)
    requires forall i :: 0 <= i < |items| ==> items[i].quantity >= 0 && items[i].unitPrice >= 0
    ensures Total(items) >= 0
    decreases |items|
  {
    if items != [] {
      var n := |items| - 1;
      TotalNonNegative(items[..n]);
      assert Amount(items[n]) >= 0;
    }
  }
}
