/** Semi-finished goods: a conversion consumes inputs and produces an output through an append-only
    stock ledger. Quantities and costs are exact reals. */
module InventoryConversion {

  import opened Basics

  datatype Error = NotPositive | NoSuchIngredient | NoSuchRecipe | InputsRequired | NoInputs | DuplicateInputs
                 | BadQuantity | InsufficientStock

  /** A row without a branch counts in no branch's balance, only in the balance over all of them. */
  datatype Event = Event(ingredient: string, branch: Option<string>, quantityIn: real, quantityOut: real,
                         unitCost: real)

  datatype Line = Line(ingredient: string, qty: real)

  datatype RecipeInput = RecipeInput(ingredient: string, required: real, wastePercent: Option<real>)

  datatype Recipe = Recipe(yieldQuantity: Option<real>, inputs: seq<RecipeInput>)

  /** Inputs come from a recipe, which may be missing, or are listed by the caller. */
  datatype Inputs = FromRecipe(recipe: Option<Recipe>) | Listed(lines: seq<Line>)

  // ----- balances -----

  predicate Seen(e: Event, ingredient: string, branch: Option<string>) {
    e.ingredient == ingredient && (branch.None? || e.branch == branch)
  }

  function Balance(ledger: seq<Event>, ingredient: string, branch: Option<string>): real {
    if ledger == [] then 0.0
    else
      var e := ledger[|ledger| - 1];
      Balance(ledger[..|ledger| - 1], ingredient, branch)
      + if Seen(e, ingredient, branch) then e.quantityIn - e.quantityOut else 0.0
  }

  lemma {:induction false} BalanceAppend(ledger: seq<Event>, e: Event, ingredient: string, branch: Option<string>)
    ensures Balance(ledger + [e], ingredient, branch)
         == Balance(ledger, ingredient, branch) + if Seen(e, ingredient, branch) then e.quantityIn - e.quantityOut else 0.0
  {
    assert (ledger + [e])[..|ledger|] == ledger;
  }

  // ----- recipes -----

  function YieldOf(recipe: Recipe): (y: real)
    ensures y != 0.0
  {
    if recipe.yieldQuantity.None? || recipe.yieldQuantity.value == 0.0 then 1.0 else recipe.yieldQuantity.value
  }

  function WasteFactor(input: RecipeInput): real {
    1.0 + (if input.wastePercent.Some? then input.wastePercent.value else 0.0) / 100.0
  }

  function Scaled(recipe: Recipe, produced: real): seq<Line> {
    seq(|recipe.inputs|, i requires 0 <= i < |recipe.inputs| =>
      Line(recipe.inputs[i].ingredient,
           recipe.inputs[i].required * WasteFactor(recipe.inputs[i]) * (produced / YieldOf(recipe))))
  }

  function Resolve(inputs: Inputs, produced: real): Result<seq<Line>, Error> {
    match inputs
    case FromRecipe(None) => Err(NoSuchRecipe)
    case FromRecipe(Some(recipe)) => Ok(Scaled(recipe, produced))
    case Listed(lines) => if lines == [] then Err(InputsRequired) else Ok(lines)
  }

  lemma ScaleSplits(k: real, p: real, q: real, y: real)
    requires y != 0.0
    ensures k * ((p + q) / y) == k * (p / y) + k * (q / y)
  {
    assert (p + q) / y == p / y + q / y;
  }

  /** Recipe consumption is linear in the produced quantity: it adds up over batches, and producing
      the recipe's own yield consumes the listed quantities plus waste. */
  lemma {:induction false} ScalingIsLinear(recipe: Recipe, p: real, q: real, i: nat)
    requires i < |recipe.inputs|
    ensures Scaled(recipe, p + q)[i].qty == Scaled(recipe, p)[i].qty + Scaled(recipe, q)[i].qty
    ensures Scaled(recipe, YieldOf(recipe))[i].qty == recipe.inputs[i].required * WasteFactor(recipe.inputs[i])
    ensures Scaled(recipe, p)[i].qty * q == Scaled(recipe, q)[i].qty * p
  {
    var k, y := recipe.inputs[i].required * WasteFactor(recipe.inputs[i]), YieldOf(recipe);
    ScaleSplits(k, p, q, y);
    ScaleSwaps(k, p, q, y);
    assert k * (y / y) == k;
  }

  lemma ScaleSwaps(k: real, p: real, q: real, y: real)
    requires y != 0.0
    ensures k * (p / y) * q == k * (q / y) * p
  {
    var u := 1.0 / y;
    assert p / y == p * u && q / y == q * u;
    assert k * (p * u) * q == k * (q * u) * p;
  }

  // ----- a conversion -----

  predicate Distinct(lines: seq<Line>) {
    forall i, j :: 0 <= i < j < |lines| ==> lines[i].ingredient != lines[j].ingredient
  }

  predicate InStock(ledger: seq<Event>, branch: Option<string>, line: Line) {
    line.qty <= Balance(ledger, line.ingredient, branch)
  }

  predicate AllInStock(ledger: seq<Event>, branch: Option<string>, lines: seq<Line>) {
    forall i :: 0 <= i < |lines| ==> InStock(ledger, branch, lines[i])
  }

  predicate LinesValid(lines: seq<Line>, costs: map<string, real>) {
    forall i :: 0 <= i < |lines| ==> lines[i].ingredient in costs && lines[i].qty > 0.0
  }

  function LineFault(line: Line, costs: map<string, real>): Option<Error> {
    if line.ingredient !in costs then Some(NoSuchIngredient) else if line.qty <= 0.0 then Some(BadQuantity) else None
  }

  /** The fault of the first faulty line. */
  function FirstFault(lines: seq<Line>, costs: map<string, real>): Option<Error> {
    if lines == [] then None
    else
      var earlier := FirstFault(lines[..|lines| - 1], costs);
      if earlier.Some? then earlier else LineFault(lines[|lines| - 1], costs)
  }

  lemma {:induction false} FaultStays(lines: seq<Line>, costs: map<string, real>, i: nat)
    requires i <= |lines| && FirstFault(lines[..i], costs).Some?
    ensures FirstFault(lines, costs) == FirstFault(lines[..i], costs)
    decreases |lines|
  {
    if i < |lines| {
      var n := |lines| - 1;
      assert lines[..n][..i] == lines[..i];
      FaultStays(lines[..n], costs, i);
    } else {
      assert lines[..i] == lines;
    }
  }

  lemma {:induction false} ValidIffNoFault(lines: seq<Line>, costs: map<string, real>)
    ensures LinesValid(lines, costs) <==> FirstFault(lines, costs).None?
  {
    if lines != [] {
      var n := |lines| - 1;
      ValidIffNoFault(lines[..n], costs);
      assert LinesValid(lines, costs) <==> LinesValid(lines[..n], costs) && LineFault(lines[n], costs).None? by {
        assert forall i :: 0 <= i < n ==> lines[..n][i] == lines[i];
      }
    }
  }

  /** Why a conversion is refused, in the order of the checks. */
  function Refusal(ledger: seq<Event>, costs: map<string, real>, branch: Option<string>, output: string, produced: real,
                   inputs: Inputs, allowNegative: bool): Option<Error> {
    if produced <= 0.0 then Some(NotPositive)
    else if output !in costs then Some(NoSuchIngredient)
    else if Resolve(inputs, produced).Err? then Some(Resolve(inputs, produced).error)
    else
      var lines := Resolve(inputs, produced).value;
      if lines == [] then Some(NoInputs)
      else if !Distinct(lines) then Some(DuplicateInputs)
      else if FirstFault(lines, costs).Some? then FirstFault(lines, costs)
      else if !allowNegative && !AllInStock(ledger, branch, lines) then Some(InsufficientStock)
      else None
  }

  predicate Acceptable(ledger: seq<Event>, costs: map<string, real>, branch: Option<string>, lines: seq<Line>,
      allowNegative: bool) {
    && lines != [] && Distinct(lines)
    && LinesValid(lines, costs)
    && (allowNegative || AllInStock(ledger, branch, lines))
  }

  function Out(line: Line, branch: Option<string>): Event { Event(line.ingredient, branch, 0.0, line.qty, 0.0) }

  function Outs(lines: seq<Line>, branch: Option<string>): seq<Event> {
    seq(|lines|, i requires 0 <= i < |lines| => Out(lines[i], branch))
  }

  function Cost(lines: seq<Line>, costs: map<string, real>): real
    requires forall i :: 0 <= i < |lines| ==> lines[i].ingredient in costs
  {
    if lines == [] then 0.0
    else var l := lines[|lines| - 1]; Cost(lines[..|lines| - 1], costs) + costs[l.ingredient] * l.qty
  }

  /** The ledger after a conversion: one row out for each input, then one row in. */
  function After(ledger: seq<Event>, branch: Option<string>, lines: seq<Line>, output: string, produced: real,
      unitCost: real): seq<Event> {
    ledger + Outs(lines, branch) + [Event(output, branch, produced, 0.0, unitCost)]
  }

  /** What the lines take of one ingredient. */
  function Taken(lines: seq<Line>, ingredient: string): real {
    if lines == [] then 0.0
    else
      var l := lines[|lines| - 1];
      Taken(lines[..|lines| - 1], ingredient) + if l.ingredient == ingredient then l.qty else 0.0
  }

  class Stock {
    const costs: map<string, real>
    var ledger: seq<Event>

    constructor (costs: map<string, real>)
      ensures this.costs == costs && ledger == []
    {
      this.costs := costs;
      ledger := [];
    }

    /** A refusal changes nothing. A success appends one row per input and one for the output, whose
        quantity times unit cost is the cost of the inputs. */
    method Convert(branch: Option<string>, output: string, produced: real, inputs: Inputs, allowNegative: bool)
      returns (r: Result<real, Error>)
      modifies this
      ensures r.Ok? <==>
              && produced > 0.0 && output in costs
              && Resolve(inputs, produced).Ok?
              && Acceptable(old(ledger), costs, branch, Resolve(inputs, produced).value, allowNegative)
      ensures r.Err? ==> ledger == old(ledger)
      ensures r.Err? ==> Refusal(old(ledger), costs, branch, output, produced, inputs, allowNegative) == Some(r.error)
      ensures r.Ok? ==>
                var lines := Resolve(inputs, produced).value;
                ledger == After(old(ledger), branch, lines, output, produced, r.value) && produced * r.value == Cost(lines, costs)
    {
      if produced <= 0.0 {
        return Err(NotPositive);
      }
      if output !in costs {
        return Err(NoSuchIngredient);
      }
      var resolved := Resolve(inputs, produced);
      if resolved.Err? {
        return Err(resolved.error);
      }
      var lines := resolved.value;
      if lines == [] {
        return Err(NoInputs);
      }
      var distinct := HasDistinctInputs(lines);
      if !distinct {
        return Err(DuplicateInputs);
      }
      var refusal := CheckLines(lines);
      if refusal.Some? {
        return Err(refusal.value);
      }
      var inputCost := PriceInStock(branch, lines, allowNegative);
      if inputCost.None? {
        return Err(InsufficientStock);
      }
      Consume(branch, lines);
      var unitCost := inputCost.value / produced;
      ledger := ledger + [Event(output, branch, produced, 0.0, unitCost)];
      r := Ok(unitCost);
    }

    method CheckLines(lines: seq<Line>) returns (refusal: Option<Error>)
      ensures refusal == FirstFault(lines, costs)
      ensures refusal.None? <==> LinesValid(lines, costs)
    {
      ValidIffNoFault(lines, costs);
      for i := 0 to |lines|
        invariant FirstFault(lines[..i], costs).None?
      {
        assert lines[..i + 1][..i] == lines[..i];
        if lines[i].ingredient !in costs {
          FaultStays(lines, costs, i + 1);
          return Some(NoSuchIngredient);
        }
        if lines[i].qty <= 0.0 {
          FaultStays(lines, costs, i + 1);
          return Some(BadQuantity);
        }
      }
      assert lines[..|lines|] == lines;
      refusal := None;
    }

    /** The cost of the inputs, or nothing if some input is short and that is not allowed. */
    method PriceInStock(branch: Option<string>, lines: seq<Line>, allowNegative: bool) returns (cost: Option<real>)
      requires LinesValid(lines, costs)
      ensures cost.Some? <==> allowNegative || AllInStock(ledger, branch, lines)
      ensures cost.Some? ==> cost.value == Cost(lines, costs)
    {
      var inputCost := 0.0;
      for i := 0 to |lines|
        invariant allowNegative || forall j :: 0 <= j < i ==> InStock(ledger, branch, lines[j])
        invariant inputCost == Cost(lines[..i], costs)
      {
        if Balance(ledger, lines[i].ingredient, branch) < lines[i].qty && !allowNegative {
          return None;
        }
        assert lines[..i + 1][..i] == lines[..i];
        inputCost := inputCost + costs[lines[i].ingredient] * lines[i].qty;
      }
      assert lines[..|lines|] == lines;
      cost := Some(inputCost);
    }

    method Consume(branch: Option<string>, lines: seq<Line>)
      modifies this
      ensures ledger == old(ledger) + Outs(lines, branch)
    {
      for i := 0 to |lines|
        invariant ledger == old(ledger) + Outs(lines, branch)[..i]
      {
        ledger := ledger + [Out(lines[i], branch)];
      }
    }
  }

  method HasDistinctInputs(lines: seq<Line>) returns (ok: bool)
    ensures ok <==> Distinct(lines)
  {
    var seen: set<string> := {};
    for i := 0 to |lines|
      invariant seen == set j | 0 <= j < i :: lines[j].ingredient
      invariant Distinct(lines[..i])
    {
      if lines[i].ingredient in seen {
        return false;
      }
      seen := seen + {lines[i].ingredient};
    }
    assert lines[..|lines|] == lines;
    ok := true;
  }

  // ----- stock never goes negative -----

  predicate Affects(branch: Option<string>, view: Option<string>) { view.None? || view == branch }

  lemma {:induction false} OutsBalance(ledger: seq<Event>, lines: seq<Line>, branch: Option<string>,
      ingredient: string, view: Option<string>)
    ensures Balance(ledger + Outs(lines, branch), ingredient, view)
         == Balance(ledger, ingredient, view) - if Affects(branch, view) then Taken(lines, ingredient) else 0.0
  {
    if lines == [] {
      assert ledger + Outs(lines, branch) == ledger;
    } else {
      var n := |lines| - 1;
      OutsBalance(ledger, lines[..n], branch, ingredient, view);
      assert ledger + Outs(lines, branch) == ledger + Outs(lines[..n], branch) + [Out(lines[n], branch)];
      BalanceAppend(ledger + Outs(lines[..n], branch), Out(lines[n], branch), ingredient, view);
    }
  }

  /** Every balance after a conversion, from every view. */
  lemma {:induction false} AfterBalance(ledger: seq<Event>, branch: Option<string>, lines: seq<Line>, output: string,
      produced: real, cost: real, ingredient: string, view: Option<string>)
    ensures Balance(After(ledger, branch, lines, output, produced, cost), ingredient, view)
         == Balance(ledger, ingredient, view)
            + if !Affects(branch, view)
                then 0.0 else (if ingredient == output then produced else 0.0) - Taken(lines, ingredient)
  {
    OutsBalance(ledger, lines, branch, ingredient, view);
    BalanceAppend(ledger + Outs(lines, branch), Event(output, branch, produced, 0.0, cost), ingredient, view);
  }

  /** With distinct inputs at most one line takes an ingredient. */
  lemma {:induction false} TakenByOne(lines: seq<Line>, ingredient: string)
    requires Distinct(lines)
    ensures (exists i :: 0 <= i < |lines| && lines[i].ingredient == ingredient && lines[i].qty == Taken(lines, ingredient))
         || (Taken(lines, ingredient) == 0.0 && forall i :: 0 <= i < |lines| ==> lines[i].ingredient != ingredient)
  {
    if lines != [] {
      var n := |lines| - 1;
      TakenByOne(lines[..n], ingredient);
      if lines[n].ingredient != ingredient && exists i :: 0 <= i < n && lines[..n][i].ingredient == ingredient {
        var i :| 0 <= i < n && lines[..n][i].ingredient == ingredient && lines[..n][i].qty == Taken(lines[..n], ingredient);
        assert lines[i] == lines[..n][i];
      } else {
        assert forall i :: 0 <= i < n ==> lines[..n][i] == lines[i];
      }
    }
  }

  ghost predicate NoDeficit(ledger: seq<Event>, view: Option<string>) {
    forall ingredient :: Balance(ledger, ingredient, view) >= 0.0
  }

  /** A strict conversion leaves no deficit in the view it checked, not even between its own rows. */
  lemma {:induction false} StrictConversionKeepsStock(ledger: seq<Event>, costs: map<string, real>,
      branch: Option<string>, lines: seq<Line>, output: string, produced: real, cost: real, k: nat)
    requires Acceptable(ledger, costs, branch, lines, false) && produced > 0.0
    requires NoDeficit(ledger, branch)
    requires |ledger| <= k <= |ledger| + |lines| + 1
    ensures NoDeficit(After(ledger, branch, lines, output, produced, cost)[..k], branch)
  {
    var after := After(ledger, branch, lines, output, produced, cost);
    var m := if k <= |ledger| + |lines| then k - |ledger| else |lines|;
    var rows := ledger + Outs(lines[..m], branch);
    assert NoDeficit(rows, branch) by {
      forall ingredient ensures Balance(rows, ingredient, branch) >= 0.0 {
        OutsBalance(ledger, lines[..m], branch, ingredient, branch);
        TakenByOne(lines[..m], ingredient);
        assert forall i :: 0 <= i < m ==> lines[..m][i] == lines[i];
      }
    }
    if k <= |ledger| + |lines| {
      assert after[..k] == rows;
    } else {
      var e := Event(output, branch, produced, 0.0, cost);
      assert lines[..m] == lines;
      assert after[..k] == rows + [e];
      forall ingredient ensures Balance(after[..k], ingredient, branch) >= 0.0 {
        BalanceAppend(rows, e, ingredient, branch);
      }
    }
  }

  // ----- runs -----

  datatype Conversion = Conversion(branch: Option<string>, inputs: Inputs, output: string, produced: real, cost: real)

  /** Strict conversions only; a refused one changes nothing. */
  function Apply(ledger: seq<Event>, costs: map<string, real>, c: Conversion): seq<Event> {
    if c.produced <= 0.0 || c.output !in costs || Resolve(c.inputs, c.produced).Err? then ledger
    else
      var lines := Resolve(c.inputs, c.produced).value;
      if Acceptable(ledger, costs, c.branch, lines, false) then After(ledger, c.branch, lines, c.output, c.produced, c.cost)
      else ledger
  }

  function Run(ledger: seq<Event>, costs: map<string, real>, cs: seq<Conversion>): seq<Event> {
    if cs == [] then ledger else Apply(Run(ledger, costs, cs[..|cs| - 1]), costs, cs[|cs| - 1])
  }

  /** Over every run of strict conversions that touch view `view` only from `view` itself, no
      ingredient is ever in deficit there. For a named branch this says nothing about the others. */
  lemma {:induction false} RunKeepsStock(ledger: seq<Event>, costs: map<string, real>, cs: seq<Conversion>,
      view: Option<string>)
    requires NoDeficit(ledger, view)
    requires view.None? ==> forall i :: 0 <= i < |cs| ==> cs[i].branch.None?
    ensures NoDeficit(Run(ledger, costs, cs), view)
  {
    if cs != [] {
      var n := |cs| - 1;
      RunKeepsStock(ledger, costs, cs[..n], view);
      ApplyKeepsStock(Run(ledger, costs, cs[..n]), costs, cs[n], view);
    }
  }

  lemma {:induction false} ApplyKeepsStock(ledger: seq<Event>, costs: map<string, real>, c: Conversion,
      view: Option<string>)
    requires NoDeficit(ledger, view) && (view.None? ==> c.branch.None?)
    ensures NoDeficit(Apply(ledger, costs, c), view)
  {
    var after := Apply(ledger, costs, c);
    if after != ledger {
      var lines := Resolve(c.inputs, c.produced).value;
      if c.branch == view {
        StrictConversionKeepsStock(ledger, costs, view, lines, c.output, c.produced, c.cost, |after|);
        assert after[..|after|] == after;
      } else {
        forall ingredient ensures Balance(after, ingredient, view) >= 0.0 {
          AfterBalance(ledger, c.branch, lines, c.output, c.produced, c.cost, ingredient, view);
        }
      }
    }
  }

  /** A branch conversion checks its branch only, so the balance over all branches can go negative;
      exactly when it does, for an ingredient that was not in deficit before. */
  lemma {:induction false} TotalDeficitIff(ledger: seq<Event>, costs: map<string, real>, branch: Option<string>,
      lines: seq<Line>, output: string, produced: real, cost: real)
    requires Acceptable(ledger, costs, branch, lines, false) && produced > 0.0
    requires NoDeficit(ledger, None)
    ensures !NoDeficit(After(ledger, branch, lines, output, produced, cost), None)
       <==> exists i :: 0 <= i < |lines| && !Covered(ledger, lines[i], output, produced)
  {
    var after := After(ledger, branch, lines, output, produced, cost);
    forall i | 0 <= i < |lines|
      ensures Balance(after, lines[i].ingredient, None) >= 0.0 <==> Covered(ledger, lines[i], output, produced)
    {
      AfterBalance(ledger, branch, lines, output, produced, cost, lines[i].ingredient, None);
      TakenByOne(lines, lines[i].ingredient);
    }
    forall ingredient | forall i :: 0 <= i < |lines| ==> lines[i].ingredient != ingredient
      ensures Balance(after, ingredient, None) >= 0.0
    {
      AfterBalance(ledger, branch, lines, output, produced, cost, ingredient, None);
      TakenByOne(lines, ingredient);
    }
  }

  /** Converting a single input that is in stock. */
  lemma {:induction false} SingleInput(ledger: seq<Event>, costs: map<string, real>, branch: Option<string>,
      line: Line, output: string, cost: real)
    requires line.ingredient in costs && output in costs && line.ingredient != output
    requires 0.0 < line.qty <= Balance(ledger, line.ingredient, branch)
    ensures var after := Apply(ledger, costs, Conversion(branch, Listed([line]), output, 1.0, cost));
            forall view ::
              Balance(after, line.ingredient, view) == Balance(ledger, line.ingredient, view)
              - if Affects(branch, view) then line.qty else 0.0
  {
    var lines := [line];
    assert lines[..0] == [] && Taken(lines, line.ingredient) == line.qty;
    assert InStock(ledger, branch, line);
    forall view
      ensures Balance(After(ledger, branch, lines, output, 1.0, cost), line.ingredient, view)
           == Balance(ledger, line.ingredient, view) - if Affects(branch, view) then line.qty else 0.0
    {
      AfterBalance(ledger, branch, lines, output, 1.0, cost, line.ingredient, view);
    }
  }

  /** Such a run: what lies in one branch is consumed once without naming a branch and once from the
      branch, and both conversions pass their check. */
  lemma {:induction false} MixedViewsOverdraw(rice: string, batter: string, north: string, costs: map<string, real>)
    requires rice != batter && rice in costs && batter in costs
    ensures var ledger := [Event(rice, Some(north), 10.0, 0.0, 1.0)];
            var anywhere := Conversion(None, Listed([Line(rice, 10.0)]), batter, 1.0, 10.0);
            && NoDeficit(ledger, None)
            && Balance(Run(ledger, costs, [anywhere, anywhere.(branch := Some(north))]), rice, None) == -10.0
  {
    var e := Event(rice, Some(north), 10.0, 0.0, 1.0);
    var anywhere := Conversion(None, Listed([Line(rice, 10.0)]), batter, 1.0, 10.0);
    var cs := [anywhere, anywhere.(branch := Some(north))];
    forall i, v ensures Balance([e], i, v) == if Seen(e, i, v) then 10.0 else 0.0 {
      assert [e] == [] + [e];
      BalanceAppend([], e, i, v);
    }
    SingleInput([e], costs, None, Line(rice, 10.0), batter, 10.0);
    var once := Apply([e], costs, anywhere);
    assert cs[..1] == [anywhere] && cs[..1][..0] == [] && Run([e], costs, cs[..1]) == once;
    SingleInput(once, costs, Some(north), Line(rice, 10.0), batter, 10.0);
  }

  /** What a line takes is on hand over all branches, counting what this conversion produces of it. */
  predicate Covered(ledger: seq<Event>, line: Line, output: string, produced: real) {
    line.qty <= Balance(ledger, line.ingredient, None) + if line.ingredient == output then produced else 0.0
  }

  // ----- batches -----

  lemma {:induction false} TakenAdds(recipe: Recipe, p: real, q: real, ingredient: string, n: nat)
    requires n <= |recipe.inputs|
    ensures Taken(Scaled(recipe, p + q)[..n], ingredient)
        == Taken(Scaled(recipe, p)[..n], ingredient) + Taken(Scaled(recipe, q)[..n], ingredient)
  {
    if n > 0 {
      var m := n - 1;
      TakenAdds(recipe, p, q, ingredient, m);
      ScalingIsLinear(recipe, p, q, m);
      assert Scaled(recipe, p + q)[..n][..m] == Scaled(recipe, p + q)[..m];
      assert Scaled(recipe, p)[..n][..m] == Scaled(recipe, p)[..m];
      assert Scaled(recipe, q)[..n][..m] == Scaled(recipe, q)[..m];
    }
  }

  /** The ledger after producing `produced` of a recipe. */
  function Batch(ledger: seq<Event>, branch: Option<string>, recipe: Recipe, output: string, produced: real,
      cost: real): seq<Event> {
    After(ledger, branch, Scaled(recipe, produced), output, produced, cost)
  }

  /** One large batch and two smaller ones leave the same balances, of everything and everywhere. */
  lemma {:induction false} BatchesLeaveTheSameStock(ledger: seq<Event>, branch: Option<string>, recipe: Recipe,
      output: string, p: real, q: real, c1: real, c2: real, c3: real, ingredient: string, view: Option<string>)
    ensures Balance(Batch(Batch(ledger, branch, recipe, output, p, c1), branch, recipe, output, q, c2), ingredient, view)
         == Balance(Batch(ledger, branch, recipe, output, p + q, c3), ingredient, view)
  {
    var first := Batch(ledger, branch, recipe, output, p, c1);
    AfterBalance(ledger, branch, Scaled(recipe, p), output, p, c1, ingredient, view);
    AfterBalance(first, branch, Scaled(recipe, q), output, q, c2, ingredient, view);
    AfterBalance(ledger, branch, Scaled(recipe, p + q), output, p + q, c3, ingredient, view);
    var n := |recipe.inputs|;
    TakenAdds(recipe, p, q, ingredient, n);
    assert Scaled(recipe, p + q)[..n] == Scaled(recipe, p + q);
    assert Scaled(recipe, p)[..n] == Scaled(recipe, p);
    assert Scaled(recipe, q)[..n] == Scaled(recipe, q);
  }

  lemma SameSign(x: real, p: real, y: real, q: real)
    requires p > 0.0 && q > 0.0 && x * q == y * p
    ensures x > 0.0 <==> y > 0.0
  {
    if x > 0.0 { assert x * q > 0.0; } else { assert x * q <= 0.0; }
  }

  lemma {:induction false} ScaledValid(recipe: Recipe, costs: map<string, real>, p: real, q: real)
    requires p > 0.0 && q > 0.0
    ensures LinesValid(Scaled(recipe, p), costs) <==> LinesValid(Scaled(recipe, q), costs)
    ensures Distinct(Scaled(recipe, p)) <==> Distinct(Scaled(recipe, q))
  {
    forall i: nat | i < |recipe.inputs|
      ensures Scaled(recipe, p)[i].qty > 0.0 <==> Scaled(recipe, q)[i].qty > 0.0
    {
      ScalingIsLinear(recipe, p, q, i);
      SameSign(Scaled(recipe, p)[i].qty, p, Scaled(recipe, q)[i].qty, q);
    }
    assert forall i :: 0 <= i < |recipe.inputs| ==> Scaled(recipe, p)[i].ingredient == Scaled(recipe, q)[i].ingredient;
  }

  /** A recipe can be produced strictly in this quantity. */
  predicate Producible(ledger: seq<Event>, costs: map<string, real>, branch: Option<string>, recipe: Recipe,
      produced: real) {
    Acceptable(ledger, costs, branch, Scaled(recipe, produced), false)
  }

  /** Unless the recipe consumes its own output, a quantity can be produced in one batch exactly when
      it can be produced in two. */
  lemma {:induction false} BatchingDoesNotMatter(ledger: seq<Event>, costs: map<string, real>, branch: Option<string>,
      recipe: Recipe, output: string, p: real, q: real, cost: real)
    requires p > 0.0 && q > 0.0
    requires forall i :: 0 <= i < |recipe.inputs| ==> recipe.inputs[i].ingredient != output
    ensures Producible(ledger, costs, branch, recipe, p + q)
       <==> Producible(ledger, costs, branch, recipe, p)
            && Producible(Batch(ledger, branch, recipe, output, p, cost), costs, branch, recipe, q)
  {
    ScaledValid(recipe, costs, p, p + q);
    ScaledValid(recipe, costs, q, p + q);
    var whole, first, second := Scaled(recipe, p + q), Scaled(recipe, p), Scaled(recipe, q);
    var after := Batch(ledger, branch, recipe, output, p, cost);
    assert |whole| == |first| == |second| == |recipe.inputs|;
    if LinesValid(second, costs) && Distinct(first) {
      forall i | 0 <= i < |whole|
        ensures InStock(ledger, branch, whole[i]) <==>
            InStock(ledger, branch, first[i]) && InStock(after, branch, second[i])
      {
        StockSplits(ledger, costs, branch, recipe, output, p, q, cost, i);
      }
      AllSplit(ledger, after, branch, whole, first, second);
    }
  }

  lemma {:induction false} AllSplit(ledger: seq<Event>, after: seq<Event>, branch: Option<string>, whole: seq<Line>,
      first: seq<Line>, second: seq<Line>)
    requires |whole| == |first| == |second|
    requires forall i :: 0 <= i < |whole| ==>
               (InStock(ledger, branch, whole[i]) <==> InStock(ledger, branch, first[i]) && InStock(after, branch, second[i]))
    ensures AllInStock(ledger, branch, whole) <==>
        AllInStock(ledger, branch, first) && AllInStock(after, branch, second)
  {
    if AllInStock(ledger, branch, whole) {
      forall i | 0 <= i < |first| ensures InStock(ledger, branch, first[i]) && InStock(after, branch, second[i]) {
        assert InStock(ledger, branch, whole[i]);
      }
    }
  }

  lemma {:induction false} StockSplits(ledger: seq<Event>, costs: map<string, real>, branch: Option<string>,
      recipe: Recipe, output: string, p: real, q: real, cost: real, i: nat)
    requires i < |recipe.inputs| && recipe.inputs[i].ingredient != output
    requires LinesValid(Scaled(recipe, q), costs) && Distinct(Scaled(recipe, p))
    ensures InStock(ledger, branch, Scaled(recipe, p + q)[i])
       <==> InStock(ledger, branch, Scaled(recipe, p)[i])
            && InStock(Batch(ledger, branch, recipe, output, p, cost), branch, Scaled(recipe, q)[i])
  {
    var lines, ingredient := Scaled(recipe, p), recipe.inputs[i].ingredient;
    ScalingIsLinear(recipe, p, q, i);
    AfterBalance(ledger, branch, lines, output, p, cost, ingredient, branch);
    TakenByOne(lines, ingredient);
    assert lines[i].ingredient == ingredient && Scaled(recipe, q)[i].qty > 0.0;
  }
}
