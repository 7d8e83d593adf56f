// What model calls cost: recorded per call, settled per ticket, and summed up in two ways.
module Usage {
  datatype Option<T> = None | Some(value: T)

  datatype Row = Row(
    tenant: string, ticket: Option<int>, step: string, model: string, input: int, output: int, outcome: string)

  // Dollars per thousand tokens, in and out.
  datatype Price = Price(input: real, output: real)

  type PriceTable = map<string, Price>

  const PENDING := "pending"

  const PRICES: PriceTable :=
    map["fake-model" := Price(0.0, 0.0), "small-model" := Price(0.25, 1.25), "large-model" := Price(3.0, 15.0)]

  // To the nearest whole number, and to the even one when two are as near.
  function Round(x: real): (n: int)
    ensures x - 0.5 <= n as real <= x + 0.5
    ensures (n as real == x - 0.5 || n as real == x + 0.5) ==> n % 2 == 0
  {
    var whole := x.Floor;
    var part := x - whole as real;
    if part < 0.5 || (part == 0.5 && whole % 2 == 0) then whole else whole + 1
  }

  // The cost of some tokens in millionths of a dollar, before rounding.
  function ExactMicros(prices: PriceTable, model: string, input: int, output: int): real {
    if model !in prices then 0.0
    else (input as real * prices[model].input + output as real * prices[model].output) / 1000.0 * 1000000.0
  }

  function CostMicros(prices: PriceTable, model: string, input: int, output: int): (micros: int)
    ensures ExactMicros(prices, model, input, output) - 0.5 <= micros as real
         <= ExactMicros(prices, model, input, output) + 0.5
  {
    if model !in prices then 0 else Round(ExactMicros(prices, model, input, output))
  }

  // --- Row by row ---

  function Input(rows: seq<Row>): int {
    if rows == [] then 0 else rows[0].input + Input(rows[1..])
  }

  function Output(rows: seq<Row>): int {
    if rows == [] then 0 else rows[0].output + Output(rows[1..])
  }

  function Cost(prices: PriceTable, rows: seq<Row>): int {
    if rows == [] then 0 else CostMicros(prices, rows[0].model, rows[0].input, rows[0].output) + Cost(prices, rows[1..])
  }

  datatype Totals = Totals(input: int, output: int, cost: int)

  function TotalsOf(prices: PriceTable, rows: seq<Row>): Totals {
    Totals(Input(rows), Output(rows), Cost(prices, rows))
  }

  // --- Group by group ---

  datatype Key = Key(step: string, model: string)

  function KeyOf(row: Row): Key {
    Key(row.step, row.model)
  }

  datatype Group = Group(key: Key, calls: nat, input: int, output: int)

  function Of(rows: seq<Row>, key: Key): (r: seq<Row>)
    ensures |r| <= |rows| && forall k :: 0 <= k < |r| ==> KeyOf(r[k]) == key && r[k] in rows
  {
    if rows == [] then [] else if KeyOf(rows[0]) == key then [rows[0]] + Of(rows[1..], key) else Of(rows[1..], key)
  }

  function Besides(rows: seq<Row>, key: Key): (r: seq<Row>)
    ensures |r| <= |rows| && forall k :: 0 <= k < |r| ==> KeyOf(r[k]) != key && r[k] in rows
  {
    if rows == [] then [] else if KeyOf(rows[0]) == key then Besides(rows[1..], key)
      else [rows[0]] + Besides(rows[1..], key)
  }

  // What grouping by step and model means: a group for every key that occurs and no other, each
  // once, with the count and the token sums of its rows. The order of the groups is left open.
  predicate IsGrouping(rows: seq<Row>, groups: seq<Group>) {
    && (forall i, j :: 0 <= i < j < |groups| ==> groups[i].key != groups[j].key)
    && (forall row :: row in rows ==> exists g :: g in groups && g.key == KeyOf(row))
    && (forall g :: g in groups ==> Sums(rows, g))
  }

  predicate Sums(rows: seq<Row>, g: Group) {
    var own := Of(rows, g.key);
    own != [] && g.calls == |own| && g.input == Input(own) && g.output == Output(own)
  }

  function GroupedCost(prices: PriceTable, groups: seq<Group>): int {
    if groups == [] then 0
    else CostMicros(prices, groups[0].key.model, groups[0].input, groups[0].output) + GroupedCost(prices, groups[1..])
  }

  function GroupedInput(groups: seq<Group>): int {
    if groups == [] then 0 else groups[0].input + GroupedInput(groups[1..])
  }

  function GroupedOutput(groups: seq<Group>): int {
    if groups == [] then 0 else groups[0].output + GroupedOutput(groups[1..])
  }

  function Exact(prices: PriceTable, rows: seq<Row>): real {
    if rows == [] then 0.0
    else ExactMicros(prices, rows[0].model, rows[0].input, rows[0].output) + Exact(prices, rows[1..])
  }

  function GroupedExact(prices: PriceTable, groups: seq<Group>): real {
    if groups == [] then 0.0
    else ExactMicros(prices, groups[0].key.model, groups[0].input, groups[0].output) + GroupedExact(prices, groups[1..])
  }

  // Before rounding, cost is linear in the tokens.
  lemma CostsAdd(prices: PriceTable, model: string, input: int, output: int, input': int, output': int)
    ensures ExactMicros(prices, model, input + input', output + output')
         == ExactMicros(prices, model, input, output) + ExactMicros(prices, model, input', output')
  {
    if model in prices {
      var p, q := prices[model].input, prices[model].output;
      assert (input + input') as real * p == input as real * p + input' as real * p;
      assert (output + output') as real * q == output as real * q + output' as real * q;
    }
  }

  lemma {:induction false} OneModelAtOnce(prices: PriceTable, rows: seq<Row>, key: Key)
    requires forall k :: 0 <= k < |rows| ==> KeyOf(rows[k]) == key
    ensures Exact(prices, rows) == ExactMicros(prices, key.model, Input(rows), Output(rows))
  {
    if rows != [] {
      OneModelAtOnce(prices, rows[1..], key);
      CostsAdd(prices, key.model, rows[0].input, rows[0].output, Input(rows[1..]), Output(rows[1..]));
      assert KeyOf(rows[0]) == key;
    }
  }

  lemma {:induction false} Parted(prices: PriceTable, rows: seq<Row>, key: Key)
    ensures Exact(prices, rows) == Exact(prices, Of(rows, key)) + Exact(prices, Besides(rows, key))
    ensures Input(rows) == Input(Of(rows, key)) + Input(Besides(rows, key))
    ensures Output(rows) == Output(Of(rows, key)) + Output(Besides(rows, key))
    ensures |rows| == |Of(rows, key)| + |Besides(rows, key)|
  {
    if rows != [] {
      Parted(prices, rows[1..], key);
      assert ([rows[0]] + Of(rows[1..], key))[1..] == Of(rows[1..], key);
      assert ([rows[0]] + Besides(rows[1..], key))[1..] == Besides(rows[1..], key);
    }
  }

  lemma {:induction false} OthersStay(rows: seq<Row>, key: Key, other: Key)
    requires key != other
    ensures Of(Besides(rows, key), other) == Of(rows, other)
  {
    if rows != [] {
      OthersStay(rows[1..], key, other);
      assert ([rows[0]] + Besides(rows[1..], key))[1..] == Besides(rows[1..], key);
    }
  }

  lemma {:induction false} RowsBesides(rows: seq<Row>, key: Key, row: Row)
    ensures row in Besides(rows, key) <==> row in rows && KeyOf(row) != key
  {
    if rows != [] {
      RowsBesides(rows[1..], key, row);
    }
  }

  // Taking a group and its rows away leaves a grouping of the rest.
  lemma GroupingWithout(rows: seq<Row>, groups: seq<Group>)
    requires IsGrouping(rows, groups) && groups != []
    ensures IsGrouping(Besides(rows, groups[0].key), groups[1..])
  {
    var key, rest := groups[0].key, Besides(rows, groups[0].key);
    forall row | row in rest ensures exists g :: g in groups[1..] && g.key == KeyOf(row) {
      RowsBesides(rows, key, row);
      var g :| g in groups && g.key == KeyOf(row);
      assert g in groups[1..];
    }
    forall g | g in groups[1..] ensures Sums(rest, g) {
      assert g in groups && Sums(rows, g);
      OthersStay(rows, key, g.key);
    }
  }

  lemma SomeGroup(rows: seq<Row>, groups: seq<Group>)
    requires IsGrouping(rows, groups) && rows != []
    ensures groups != []
  {
    var row := rows[0];
    assert row in rows;
  }

  // However the rows are grouped, the exact costs and the token counts agree.
  lemma {:induction false} GroupsAreExact(prices: PriceTable, rows: seq<Row>, groups: seq<Group>)
    requires IsGrouping(rows, groups)
    ensures GroupedExact(prices, groups) == Exact(prices, rows)
    ensures GroupedInput(groups) == Input(rows) && GroupedOutput(groups) == Output(rows)
    decreases |groups|
  {
    if rows != [] {
      SomeGroup(rows, groups);
    }
    if groups != [] {
      var g := groups[0];
      assert Sums(rows, g);
      GroupingWithout(rows, groups);
      GroupsAreExact(prices, Besides(rows, g.key), groups[1..]);
      Parted(prices, rows, g.key);
      OneModelAtOnce(prices, Of(rows, g.key), g.key);
    }
  }

  lemma {:induction false} RoundedRows(prices: PriceTable, rows: seq<Row>)
    ensures Exact(prices, rows) - |rows| as real / 2.0 <= Cost(prices, rows) as real
         <= Exact(prices, rows) + |rows| as real / 2.0
  {
    if rows != [] {
      RoundedRows(prices, rows[1..]);
    }
  }

  lemma {:induction false} RoundedGroups(prices: PriceTable, groups: seq<Group>)
    ensures GroupedExact(prices, groups) - |groups| as real / 2.0 <= GroupedCost(prices, groups) as real
         <= GroupedExact(prices, groups) + |groups| as real / 2.0
  {
    if groups != [] {
      RoundedGroups(prices, groups[1..]);
    }
  }

  // The two ways of adding up agree on tokens, and on cost to half a millionth per row and group.
  lemma SummaryAgreesWithTotals(prices: PriceTable, rows: seq<Row>, groups: seq<Group>)
    requires IsGrouping(rows, groups)
    ensures GroupedInput(groups) == TotalsOf(prices, rows).input &&
      GroupedOutput(groups) == TotalsOf(prices, rows).output
    ensures -(|rows| + |groups|) <= 2 * (GroupedCost(prices, groups) - TotalsOf(prices, rows).cost) <= |rows| + |groups|
  {
    GroupsAreExact(prices, rows, groups);
    RoundedRows(prices, rows);
    RoundedGroups(prices, groups);
  }

  // --- Prices for which nothing is rounded away ---

  // Every price is a whole number of millionths per token.
  ghost predicate WholeMicros(prices: PriceTable) {
    forall model :: model in prices ==> Whole(prices[model].input * 1000.0) && Whole(prices[model].output * 1000.0)
  }

  predicate Whole(x: real) {
    x == x.Floor as real
  }

  lemma WholeCost(prices: PriceTable, model: string, input: int, output: int)
    requires WholeMicros(prices)
    ensures CostMicros(prices, model, input, output) as real == ExactMicros(prices, model, input, output)
  {
    if model in prices {
      var p, q := (prices[model].input * 1000.0).Floor, (prices[model].output * 1000.0).Floor;
      assert input as real * prices[model].input * 1000.0 == input as real * p as real == (input * p) as real;
      assert output as real * prices[model].output * 1000.0 == output as real * q as real == (output * q) as real;
      assert ExactMicros(prices, model, input, output) == (input * p + output * q) as real;
    }
  }

  lemma {:induction false} WholeRows(prices: PriceTable, rows: seq<Row>)
    requires WholeMicros(prices)
    ensures Cost(prices, rows) as real == Exact(prices, rows)
  {
    if rows != [] {
      WholeCost(prices, rows[0].model, rows[0].input, rows[0].output);
      WholeRows(prices, rows[1..]);
    }
  }

  lemma {:induction false} WholeGroups(prices: PriceTable, groups: seq<Group>)
    requires WholeMicros(prices)
    ensures GroupedCost(prices, groups) as real == GroupedExact(prices, groups)
  {
    if groups != [] {
      WholeCost(prices, groups[0].key.model, groups[0].input, groups[0].output);
      WholeGroups(prices, groups[1..]);
    }
  }

  // For such prices, and so for the shipped ones, the two ways agree to the millionth.
  lemma WholePricesAgree(prices: PriceTable, rows: seq<Row>, groups: seq<Group>)
    requires IsGrouping(rows, groups) && WholeMicros(prices)
    ensures GroupedCost(prices, groups) == TotalsOf(prices, rows).cost
  {
    GroupsAreExact(prices, rows, groups);
    WholeRows(prices, rows);
    WholeGroups(prices, groups);
  }

  lemma ShippedPricesAgree(rows: seq<Row>, groups: seq<Group>)
    requires IsGrouping(rows, groups)
    ensures GroupedCost(PRICES, groups) == TotalsOf(PRICES, rows).cost
  {
    assert Whole(0.25 * 1000.0) && Whole(1.25 * 1000.0) && Whole(3.0 * 1000.0) && Whole(15.0 * 1000.0) &&
      Whole(0.0 * 1000.0);
    WholePricesAgree(PRICES, rows, groups);
  }

  // The two ways agree on a log, whatever groups the summary lists.
  ghost predicate WaysAgree(prices: PriceTable) {
    forall rows, groups :: IsGrouping(rows, groups) ==> GroupedCost(prices, groups) == Cost(prices, rows)
  }

  // They agree on every log exactly for such prices.
  lemma WaysAgreeExactly(prices: PriceTable)
    ensures WaysAgree(prices) <==> WholeMicros(prices)
  {
    if WholeMicros(prices) {
      forall rows, groups | IsGrouping(rows, groups) ensures GroupedCost(prices, groups) == Cost(prices, rows) {
        WholePricesAgree(prices, rows, groups);
      }
    } else {
      var rows, groups := SomeLogDisagrees(prices);
    }
  }

  // A price that is no whole number of millionths is rounded in every call of one token, and enough of
  // those calls make up for any rounding of their sum.
  lemma SomeLogDisagrees(prices: PriceTable) returns (rows: seq<Row>, groups: seq<Group>)
    requires !WholeMicros(prices)
    ensures IsGrouping(rows, groups) && GroupedCost(prices, groups) != Cost(prices, rows)
  {
    var row := SomeRoundedCall(prices);
    hide CostMicros, ExactMicros, IsGrouping, Whole;
    var off := Off(prices, row);
    var n := Enough(off);
    rows := Calls(row, n);
    groups := [Group(KeyOf(row), n, Input(rows), Output(rows))];
    ManyCalls(prices, row, n);
    OneGroup(row, n);
    OneModelAtOnce(prices, rows, KeyOf(row));
    assert groups[1..] == [];
    assert GroupedCost(prices, groups) == CostMicros(prices, row.model, Input(rows), Output(rows));
  }

  // By how much a row's cost is rounded.
  function Off(prices: PriceTable, row: Row): real {
    ExactMicros(prices, row.model, row.input, row.output) - CostMicros(prices, row.model, row.input, row.output) as real
  }

  lemma SomeRoundedCall(prices: PriceTable) returns (row: Row)
    requires !WholeMicros(prices)
    ensures Off(prices, row) != 0.0 && row.input >= 0 && row.output >= 0
  {
    var model :| model in prices && !(Whole(prices[model].input * 1000.0) && Whole(prices[model].output * 1000.0));
    var input := if Whole(prices[model].input * 1000.0) then 0 else 1;
    row := Row("", None, "", model, input, 1 - input, PENDING);
    assert ExactMicros(prices, model, 1, 0) == prices[model].input * 1000.0;
    assert ExactMicros(prices, model, 0, 1) == prices[model].output * 1000.0;
    hide ExactMicros;
  }

  function Times(n: nat, x: real): real {
    if n == 0 then 0.0 else x + Times(n - 1, x)
  }

  function Prod(a: real, b: real): real {
    a * b
  }

  lemma {:induction false} TimesGrows(n: nat, x: real, size: real)
    requires size > 0.0 && (x == size || x == -size)
    ensures Times(n, x) == if x == size then Prod(n as real, size) else -Prod(n as real, size)
  {
    if n > 0 {
      TimesGrows(n - 1, x, size);
      assert (n - 1) as real == n as real - 1.0;
      assert (n as real - 1.0) * size == n as real * size - size;
    }
  }

  // So many that half a millionth is less than what they are off by.
  lemma Enough(off: real) returns (n: nat)
    requires off != 0.0
    ensures n > 0 && (Times(n, off) > 0.5 || Times(n, off) < -0.5)
  {
    hide Prod, Times;
    var size := if off > 0.0 then off else -off;
    var inverse := Inverse(size);
    n := inverse.Floor + 1;
    LargerProd(n as real, inverse, size);
    TimesGrows(n, off, size);
  }

  lemma Inverse(size: real) returns (inverse: real)
    requires size > 0.0
    ensures inverse > 0.0 && Prod(inverse, size) == 1.0
  {
    inverse := 1.0 / size;
  }

  lemma LargerProd(a: real, b: real, c: real)
    requires a > b && c > 0.0
    ensures Prod(a, c) > Prod(b, c)
  {
    assert (a - b) * c > 0.0;
  }

  function Calls(row: Row, n: nat): (rows: seq<Row>)
    ensures |rows| == n && forall other :: other in rows ==> other == row
  {
    if n == 0 then [] else [row] + Calls(row, n - 1)
  }

  lemma {:induction false} ManyCalls(prices: PriceTable, row: Row, n: nat)
    ensures Of(Calls(row, n), KeyOf(row)) == Calls(row, n)
    ensures Exact(prices, Calls(row, n)) - Cost(prices, Calls(row, n)) as real == Times(n, Off(prices, row))
  {
    hide CostMicros, ExactMicros;
    if n > 0 {
      ManyCalls(prices, row, n - 1);
      assert Calls(row, n)[1..] == Calls(row, n - 1);
    }
  }

  lemma OneGroup(row: Row, n: nat)
    requires n > 0
    ensures IsGrouping(Calls(row, n), [Group(KeyOf(row), n, Input(Calls(row, n)), Output(Calls(row, n)))])
  {
    var rows := Calls(row, n);
    var g := Group(KeyOf(row), n, Input(rows), Output(rows));
    ManyCalls(map[], row, n);
    hide Of, Input, Output, Calls;
    assert Sums(rows, g) && g in [g];
  }

  // For other prices they need not: two calls of half a millionth each.
  lemma TwoHalvesAreRoundedAway()
    ensures var prices: PriceTable := map["m" := Price(0.0005, 0.0)];
      var row := Row("t", None, "draft", "m", 1, 0, PENDING);
      var groups := [Group(Key("draft", "m"), 2, 2, 0)];
      IsGrouping([row, row], groups) && GroupedCost(prices, groups) == 1 && TotalsOf(prices, [row, row]).cost == 0
  {
    var prices: PriceTable := map["m" := Price(0.0005, 0.0)];
    var row := Row("t", None, "draft", "m", 1, 0, PENDING);
    var rows, groups := [row, row], [Group(Key("draft", "m"), 2, 2, 0)];
    TwoRows(prices, row);
    assert ExactMicros(prices, "m", 1, 0) == 0.5 && ExactMicros(prices, "m", 2, 0) == 1.0;
    assert CostMicros(prices, "m", 1, 0) == 0 && CostMicros(prices, "m", 2, 0) == 1;
    hide CostMicros, Cost;
    assert groups[1..] == [] && groups[0] in groups;
    assert rows[0] in rows;
  }

  lemma TwoRows(prices: PriceTable, row: Row)
    ensures Of([row, row], KeyOf(row)) == [row, row]
    ensures Input([row, row]) == 2 * row.input && Output([row, row]) == 2 * row.output
    ensures Cost(prices, [row, row]) == 2 * CostMicros(prices, row.model, row.input, row.output)
  {
    hide CostMicros;
    assert [row, row][1..] == [row] && [row][1..] == [];
    assert Of([row], KeyOf(row)) == [row];
    assert Input([row]) == row.input + Input([]) && Output([row]) == row.output + Output([]);
    assert Cost(prices, [row]) == CostMicros(prices, row.model, row.input, row.output);
  }

  // --- Every log has its summary ---

  function Grouped(rows: seq<Row>): seq<Group>
    decreases |rows|
  {
    if rows == [] then [] else
      var key := KeyOf(rows[0]);
      var own := Of(rows, key);
      FewerBesides(rows);
      [Group(key, |own|, Input(own), Output(own))] + Grouped(Besides(rows, key))
  }

  lemma FewerBesides(rows: seq<Row>)
    requires rows != []
    ensures |Besides(rows, KeyOf(rows[0]))| < |rows|
  {
  }

  lemma GroupingWith(rows: seq<Row>, groups: seq<Group>, g: Group)
    requires IsGrouping(Besides(rows, g.key), groups) && Sums(rows, g)
    ensures IsGrouping(rows, [g] + groups)
  {
    hide Of, Besides, Input, Output;
    var rest, all := Besides(rows, g.key), [g] + groups;
    assert all[0] == g && all[1..] == groups;
    forall h | h in groups ensures h.key != g.key && Sums(rows, h) {
      assert Sums(rest, h);
      assert KeyOf(Of(rest, h.key)[0]) == h.key;
      OthersStay(rows, g.key, h.key);
    }
    hide Sums;
    forall row | row in rows ensures exists h :: h in all && h.key == KeyOf(row) {
      RowsBesides(rows, g.key, row);
      if row in rest {
        var h :| h in groups && h.key == KeyOf(row);
        assert h in all;
      } else {
        assert g in all;
      }
    }
  }

  lemma {:induction false} GroupedIsGrouping(rows: seq<Row>)
    ensures IsGrouping(rows, Grouped(rows))
    decreases |rows|
  {
    if rows != [] {
      var key := KeyOf(rows[0]);
      FewerBesides(rows);
      GroupedIsGrouping(Besides(rows, key));
      GroupingWith(rows, Grouped(Besides(rows, key)), Grouped(rows)[0]);
    }
  }

  // --- The log ---

  predicate Pending(row: Row, ticket: int) {
    row.ticket == Some(ticket) && row.outcome == PENDING
  }

  function PendingCount(rows: seq<Row>, ticket: int): nat {
    if rows == [] then 0 else (if Pending(rows[0], ticket) then 1 else 0) + PendingCount(rows[1..], ticket)
  }

  function InTenant(rows: seq<Row>, tenant: string): (r: seq<Row>)
    ensures forall row :: row in r <==> row in rows && row.tenant == tenant
  {
    if rows == [] then []
    else if rows[0].tenant == tenant then [rows[0]] + InTenant(rows[1..], tenant)
    else InTenant(rows[1..], tenant)
  }

  function WithOutcome(rows: seq<Row>, outcome: string): nat {
    if rows == [] then 0 else (if rows[0].outcome == outcome then 1 else 0) + WithOutcome(rows[1..], outcome)
  }

  // What settling does to a log: the pending rows of one ticket get the outcome.
  function Settled(rows: seq<Row>, ticket: int, outcome: string): (r: seq<Row>)
    ensures |r| == |rows|
    ensures forall k :: 0 <= k < |rows| ==>
      r[k] == if Pending(rows[k], ticket) then rows[k].(outcome := outcome) else rows[k]
  {
    seq(|rows|, k requires 0 <= k < |rows| => if Pending(rows[k], ticket) then rows[k].(outcome := outcome)
      else rows[k])
  }

  // Settling moves exactly the counted rows from one outcome to the other, and costs nothing.
  lemma {:induction false} SettlingMovesOutcomes(prices: PriceTable, rows: seq<Row>, ticket: int, outcome: string)
    requires outcome != PENDING
    ensures WithOutcome(Settled(rows, ticket, outcome), outcome) ==
      WithOutcome(rows, outcome) + PendingCount(rows, ticket)
    ensures WithOutcome(Settled(rows, ticket, outcome), PENDING) ==
      WithOutcome(rows, PENDING) - PendingCount(rows, ticket)
    ensures PendingCount(Settled(rows, ticket, outcome), ticket) == 0
    ensures TotalsOf(prices, Settled(rows, ticket, outcome)) == TotalsOf(prices, rows)
  {
    if rows != [] {
      SettlingMovesOutcomes(prices, rows[1..], ticket, outcome);
      assert Settled(rows, ticket, outcome)[1..] == Settled(rows[1..], ticket, outcome);
    }
  }

  class UsageLog {
    const prices: PriceTable
    var rows: seq<Row>

    constructor (prices: PriceTable)
      ensures rows == [] && this.prices == prices
    {
      this.prices := prices;
      rows := [];
    }

    method Record(tenant: string, ticket: Option<int>, step: string, model: string, input: int, output: int)
        returns (id: nat)
      modifies this
      ensures id == |old(rows)|
      ensures rows == old(rows) + [Row(tenant, ticket, step, model, input, output, PENDING)]
    {
      id := |rows|;
      rows := rows + [Row(tenant, ticket, step, model, input, output, PENDING)];
    }

    // Settles a ticket's pending rows and says how many there were; a second call finds none.
    method Settle(ticket: int, outcome: string) returns (changed: nat)
      modifies this
      ensures rows == Settled(old(rows), ticket, outcome)
      ensures forall k :: 0 <= k < |rows| ==>
        var was := old(rows)[k];
        rows[k] == if was.ticket == Some(ticket) && was.outcome == "pending" then was.(outcome := outcome) else was
      ensures changed == PendingCount(old(rows), ticket)
      ensures outcome != PENDING ==> PendingCount(rows, ticket) == 0
      ensures outcome != PENDING ==> WithOutcome(rows, outcome) == WithOutcome(old(rows), outcome) + changed
      ensures outcome != PENDING ==> TotalsOf(prices, rows) == TotalsOf(prices, old(rows))
    {
      changed := PendingCount(rows, ticket);
      if outcome != PENDING {
        SettlingMovesOutcomes(prices, rows, ticket, outcome);
      }
      rows := Settled(rows, ticket, outcome);
    }

    // A tenant's groups, which add up to its totals.
    method Summary(tenant: string) returns (groups: seq<Group>)
      ensures IsGrouping(InTenant(rows, tenant), groups)
      ensures GroupedInput(groups) == Input(InTenant(rows, tenant)) &&
        GroupedOutput(groups) == Output(InTenant(rows, tenant))
      ensures WholeMicros(prices) ==> GroupedCost(prices, groups) == Cost(prices, InTenant(rows, tenant))
    {
      var own := InTenant(rows, tenant);
      groups := Grouped(own);
      GroupedIsGrouping(own);
      SummaryAgreesWithTotals(prices, own, groups);
      if WholeMicros(prices) {
        WholePricesAgree(prices, own, groups);
      }
    }
  }
}
