/** The accounting engine of `app.js`: food lookup in the reference table,
    portion scaling, the Mifflin–St Jeor daily target, the day's totals, the
    remaining budget and reverse sizing as functions, and the global `state`
    object that the form handlers update in place as a class. */
module App {
  import opened JsValues
  import opened JsStrings
  import opened JsArrays
  import opened DailyLog
  import opened Profiles

  /** A row of the food table: energy and macronutrients per 100 g. */
  datatype Food = Food(name: string, kcal100: real, p: real, f: real, c: real)

  /** A logged entry: a snapshot of the food's name, the grams eaten, the
      values scaled to those grams, and the `Date.now()` time stamp. */
  datatype Entry = Entry(name: string, grams: real, kcal: real, p: real, f: real, c: real, ts: int)

  /** What `pfcFor` returns: protein, fat and carbohydrate in grams. */
  datatype Macros = Macros(p: real, f: real, c: real)

  /** The built-in table used when `data/foods.json` cannot be loaded. */
  const FallbackFoods: seq<Food> := [
    Food("Куриная грудка, варёная", 165.0, 31.0, 3.6, 0.0),
    Food("Гречка, сухая", 329.0, 12.6, 3.3, 62.0),
    Food("Рис, сухой", 344.0, 6.7, 0.7, 78.0),
    Food("Творог 5%", 145.0, 17.0, 5.0, 2.8),
    Food("Яйцо куриное", 143.0, 12.6, 10.6, 0.7),
    Food("Яблоко", 52.0, 0.3, 0.2, 14.0),
    Food("Банан", 96.0, 1.2, 0.3, 21.8),
    Food("Овсянка, сухая", 380.0, 13.0, 7.0, 67.0),
    Food("Лосось, запечённый", 208.0, 22.0, 13.0, 0.0),
    Food("Арахисовая паста", 588.0, 25.0, 50.0, 20.0)
  ]

  // ----- Food resolution -----

  /** The query as `findFood` compares it: trimmed, then lower-cased. */
  function QueryKey(query: string): string {
    Lower(Trim(query))
  }

  /** The food's lower-cased name equals the key. */
  predicate NameIs(food: Food, key: string) {
    Lower(food.name) == key
  }

  /** The food's lower-cased name contains the key. */
  predicate NameHas(food: Food, key: string) {
    Includes(Lower(food.name), key)
  }

  ghost predicate FirstExact(foods: seq<Food>, key: string, k: int) {
    0 <= k < |foods| && NameIs(foods[k], key) && forall j :: 0 <= j < k ==> !NameIs(foods[j], key)
  }

  /** No food's lower-cased name equals `key`. */
  ghost predicate NoExact(foods: seq<Food>, key: string) {
    forall j :: 0 <= j < |foods| ==> !NameIs(foods[j], key)
  }

  ghost predicate FirstContaining(foods: seq<Food>, key: string, k: int) {
    0 <= k < |foods| && NameHas(foods[k], key) && forall j :: 0 <= j < k ==> !NameHas(foods[j], key)
  }

  /** An exact name match is also a substring match. */
  lemma ExactIsContaining(food: Food, key: string)
    requires NameIs(food, key)
    ensures NameHas(food, key)
  {
    IncludesSelfAndEmpty(Lower(food.name));
  }

  /** The two searches of `findFood` for a normalised key: the first food,
      in table order, whose lower-cased name equals the key; failing that,
      the first whose name contains it; "not found" only when no name
      contains it. */
  function FindByKey(foods: seq<Food>, key: string): (r: Option<Food>)
    ensures r.None? <==> forall j :: 0 <= j < |foods| ==> !NameHas(foods[j], key)
    ensures forall k :: FirstExact(foods, key, k) ==> r == Some(foods[k])
    ensures NoExact(foods, key) ==>
              forall k :: FirstContaining(foods, key, k) ==> r == Some(foods[k])
  {
    var i := FindIndex(foods, f => NameIs(f, key));
    if i != -1 then
      ExactIsContaining(foods[i], key);
      Some(foods[i])
    else
      var j := FindIndex(foods, f => NameHas(f, key));
      if j != -1 then Some(foods[j]) else None
  }

  /** `findFood`: the lookup of the trimmed, lower-cased query. Not found
      exactly when no lower-cased name contains it; the first exact match in
      table order wins, and failing one, the first containing match. */
  function FindFood(foods: seq<Food>, query: string): (r: Option<Food>)
    ensures r.None? <==> forall j :: 0 <= j < |foods| ==> !NameHas(foods[j], QueryKey(query))
    ensures forall k :: FirstExact(foods, QueryKey(query), k) ==> r == Some(foods[k])
    ensures NoExact(foods, QueryKey(query)) ==>
              forall k :: FirstContaining(foods, QueryKey(query), k) ==> r == Some(foods[k])
  {
    FindByKey(foods, QueryKey(query))
  }

  /** A query that trims to nothing matches the first food, provided no food
      has an empty name (an empty name would be an exact match). */
  lemma EmptyQueryFindsFirst(foods: seq<Food>, query: string)
    requires |foods| > 0 && Trim(query) == []
    requires forall j :: 0 <= j < |foods| ==> foods[j].name != []
    ensures FindFood(foods, query) == Some(foods[0])
  {
    var key := QueryKey(query);
    assert key == [];
    forall j | 0 <= j < |foods| ensures !NameIs(foods[j], key) {
      assert |Lower(foods[j].name)| > 0;
    }
    IncludesSelfAndEmpty(Lower(foods[0].name));
    assert FirstContaining(foods, key, 0);
  }

  /** Trimming the query before the lookup, as the form handlers do, does
      not change the result. */
  lemma FindFoodTrimmed(foods: seq<Food>, query: string)
    ensures FindFood(foods, Trim(query)) == FindFood(foods, query)
  {
    TrimIdempotent(query);
    assert QueryKey(Trim(query)) == QueryKey(query);
  }

  /** "грудка" has no exact match in the built-in table and is found as a
      substring of "Куриная грудка, варёная". */
  lemma FindBreastInFallbackTable()
    ensures FindFood(FallbackFoods, "грудка") == Some(FallbackFoods[0])
  {
    BreastKey();
    BreastNotExact();
    BreastContained();
    assert FirstContaining(FallbackFoods, "грудка", 0);
  }

  lemma BreastKey()
    ensures QueryKey("грудка") == "грудка"
  {
    var w := "грудка";
    assert !IsSpace(w[0]) && !IsSpace(w[|w| - 1]);
    TrimUnchanged(w);
    BreastLower();
    assert QueryKey(w) == Lower(Trim(w)) == Lower(w);
  }

  lemma BreastLower()
    ensures Lower("грудка") == "грудка"
  {
    var w := "грудка";
    assert forall i :: 0 <= i < |w| ==> !IsUpper(w[i]);
  }

  lemma BreastNotExact()
    ensures forall j :: 0 <= j < |FallbackFoods| ==> !NameIs(FallbackFoods[j], "грудка")
  {
    forall j | 0 <= j < |FallbackFoods| ensures !NameIs(FallbackFoods[j], "грудка") {
      if j == 5 {
        assert Lower(FallbackFoods[5].name)[0] == LowerChar('Я') != 'г';
      }
    }
  }

  lemma BreastContained()
    ensures NameHas(FallbackFoods[0], "грудка")
  {
    var name := FallbackFoods[0].name;
    assert name[8..14] == "грудка";
    assert Lower(name)[8..14] == Lower(name[8..14]);
    assert OccursAt(Lower(name), "грудка", 8);
  }

  // ----- Portion scaling -----

  /** `kcalFor`: the food's energy for `grams`, scaled linearly from 100 g. */
  function KcalFor(food: Food, grams: real): (r: real)
    ensures grams == 100.0 ==> r == food.kcal100
    ensures food.kcal100 >= 0.0 && grams >= 0.0 ==> r >= 0.0
  {
    (food.kcal100 * grams) / 100.0
  }

  /** `pfcFor`: the food's macronutrients for `grams`, each scaled linearly
      from 100 g. */
  function PfcFor(food: Food, grams: real): (r: Macros)
    ensures grams == 100.0 ==> r == Macros(food.p, food.f, food.c)
    ensures food.p >= 0.0 && food.f >= 0.0 && food.c >= 0.0 && grams >= 0.0 ==>
              r.p >= 0.0 && r.f >= 0.0 && r.c >= 0.0
  {
    Macros((food.p * grams) / 100.0, (food.f * grams) / 100.0, (food.c * grams) / 100.0)
  }

  /** Scaling is additive in the grams: two portions weigh in as their sum. */
  lemma ScalingAdditive(food: Food, g1: real, g2: real)
    ensures KcalFor(food, g1 + g2) == KcalFor(food, g1) + KcalFor(food, g2)
    ensures PfcFor(food, g1 + g2).p == PfcFor(food, g1).p + PfcFor(food, g2).p
    ensures PfcFor(food, g1 + g2).f == PfcFor(food, g1).f + PfcFor(food, g2).f
    ensures PfcFor(food, g1 + g2).c == PfcFor(food, g1).c + PfcFor(food, g2).c
  {
  }

  /** 150 g of boiled chicken breast: 247.5 kcal, 46.5 g protein, 5.4 g fat,
      no carbohydrate. */
  lemma ChickenBreastPortion()
    ensures KcalFor(FallbackFoods[0], 150.0) == 247.5
    ensures PfcFor(FallbackFoods[0], 150.0) == Macros(46.5, 5.4, 0.0)
  {
  }

  // ----- Daily target -----

  /** `calcBMR`: the Mifflin–St Jeor estimate, with the male constant +5 for
      gender "male" and -161 for every other value. */
  function CalcBMR(p: Profile): (r: real)
    ensures r == 10.0 * p.weight + 6.25 * p.height - 5.0 * p.age - 161.0 + (if p.gender == "male" then 166.0 else 0.0)
  {
    if p.gender == "male" then 10.0 * p.weight + 6.25 * p.height - 5.0 * p.age + 5.0
    else 10.0 * p.weight + 6.25 * p.height - 5.0 * p.age - 161.0
  }

  /** Each kilogram adds 10 kcal, each centimetre 6.25 kcal, and each year
      takes 5 kcal off, whatever the gender; goal and location play no
      part. */
  lemma BmrSlopes(p: Profile, dw: real, dh: real, da: real, goal: string, location: string)
    ensures CalcBMR(p.(weight := p.weight + dw, height := p.height + dh, age := p.age + da, goal := goal, location := location))
            == CalcBMR(p) + 10.0 * dw + 6.25 * dh - 5.0 * da
  {
  }

  /** At equal age, height and weight the male estimate is exactly 166 kcal
      above the estimate for any other gender value. */
  lemma BmrGenderGap(p: Profile, other: string)
    requires p.gender == "male" && other != "male"
    ensures CalcBMR(p) - CalcBMR(p.(gender := other)) == 166.0
  {
  }

  /** `applyGoal`: "lose" is a 15 % deficit, "gain" a 15 % surplus, and every
      other goal leaves the estimate as it is. */
  function ApplyGoal(bmr: real, goal: string): (r: real)
    ensures goal == "lose" ==> r == bmr - 0.15 * bmr
    ensures goal == "gain" ==> r == bmr + 0.15 * bmr
    ensures goal != "lose" && goal != "gain" ==> r == bmr
  {
    if goal == "lose" then bmr * 0.85
    else if goal == "gain" then bmr * 1.15
    else bmr
  }

  /** For a positive estimate, losing targets less than maintaining, which
      targets less than gaining. */
  lemma GoalOrdering(bmr: real)
    requires bmr > 0.0
    ensures ApplyGoal(bmr, "lose") < ApplyGoal(bmr, "maintain") < ApplyGoal(bmr, "gain")
  {
  }

  /** The default profile: an estimate of 1673.75 kcal, shown as 1674 for
      "maintain", 1423 for "lose" (1422.6875 rounded) and 1925 for "gain"
      (1924.8125 rounded). */
  lemma DefaultProfileTargets()
    ensures CalcBMR(DefaultProfile) == 1673.75
    ensures Round(ApplyGoal(CalcBMR(DefaultProfile), DefaultProfile.goal)) == 1674
    ensures Round(ApplyGoal(CalcBMR(DefaultProfile), "lose")) == 1423
    ensures Round(ApplyGoal(CalcBMR(DefaultProfile), "gain")) == 1925
  {
    assert DefaultProfile.gender == "male";
    assert DefaultProfile.goal == "maintain";
  }

  // ----- Day totals and remaining budget -----

  function EntryValues(e: Entry): Totals {
    Totals(e.kcal, e.p, e.f, e.c)
  }

  /** `sumToday`: the field-wise sums of kcal, p, f and c over the day's
      entries; all zeros for an empty day. */
  function SumToday(log: seq<Entry>): (r: Totals)
    ensures log == [] ==> r == Zero
  {
    SumBy(log, EntryValues)
  }

  /** Appending an entry adds exactly its kcal, p, f and c to the totals. */
  lemma SumTodayAppend(log: seq<Entry>, e: Entry)
    ensures SumToday(log + [e]) == Plus(SumToday(log), EntryValues(e))
  {
    SumByAppend(log, e, EntryValues);
  }

  /** The totals do not depend on the order of the entries. */
  lemma SumTodayOrderFree(a: seq<Entry>, b: seq<Entry>)
    requires multiset(a) == multiset(b)
    ensures SumToday(a) == SumToday(b)
  {
    SumByPermutation(a, b, EntryValues);
  }

  /** `getLeftKcal`: the unrounded target minus the day's energy, rounded,
      and never below zero: the nearest integer to the difference when that
      is not negative, and zero once the target is eaten up. */
  function GetLeftKcal(p: Profile, log: seq<Entry>): (r: int)
    ensures r >= 0
    ensures var d := ApplyGoal(CalcBMR(p), p.goal) - SumToday(log).kcal;
      && (d >= -0.5 ==> r as real - 0.5 <= d < r as real + 0.5)
      && (d < 0.5 ==> r == 0)
  {
    ClampInt(Round(ApplyGoal(CalcBMR(p), p.goal) - SumToday(log).kcal))
  }

  /** The dashboard's remainder: the rounded target minus the day's energy,
      floored at zero. */
  function DashboardLeft(p: Profile, log: seq<Entry>): (r: real)
    ensures var d := Round(ApplyGoal(CalcBMR(p), p.goal)) as real - SumToday(log).kcal;
      r >= 0.0 && r >= d && (r == 0.0 || r == d)
  {
    ClampReal(Round(ApplyGoal(CalcBMR(p), p.goal)) as real - SumToday(log).kcal)
  }

  // ----- Reverse sizing -----

  /** How many grams fit: a number, or unbounded when the food has no energy
      (the source then divides by zero and shows "Infinity"). */
  datatype FitResult = Grams(g: int) | Unlimited

  /** The budget the fit form uses: a positive override wins; otherwise the
      remaining budget, floored at zero. */
  function FitBudget(leftInput: Number, leftKcal: int): (left: real)
    ensures left >= 0.0
    ensures Positive(leftInput) ==> left == leftInput.value
    ensures !Positive(leftInput) ==> left == (if leftKcal > 0 then leftKcal as real else 0.0)
  {
    if Positive(leftInput) then leftInput.value else ClampInt(leftKcal) as real
  }

  /** `g` grams of a food with `kcal100` per 100 g stay within `left` kcal. */
  predicate WithinBudget(g: int, kcal100: real, left: real) {
    g as real * kcal100 / 100.0 <= left
  }

  /** The portion the fit form reports: no grams when there is no budget;
      otherwise the budget divided by the energy density, in grams, rounded
      down. For a positive density that is the largest whole number of grams
      whose energy does not exceed the budget. */
  function FitPortion(left: real, kcal100: real): (r: FitResult)
    ensures left <= 0.0 ==> r == Grams(0)
    ensures r.Unlimited? <==> left > 0.0 && kcal100 == 0.0
    ensures left > 0.0 && kcal100 > 0.0 ==>
              r.Grams? && r.g >= 0 && WithinBudget(r.g, kcal100, left) && !WithinBudget(r.g + 1, kcal100, left)
    ensures left > 0.0 && kcal100 < 0.0 ==> r.Grams? && r.g < 0
  {
    if left <= 0.0 then Grams(0)
    else if kcal100 == 0.0 then Unlimited
    else
      var g := Floor(left / kcal100 * 100.0);
      PortionBracket(left, kcal100);
      Grams(g)
  }

  /** The floor of `left / kcal100 * 100` brackets the budget between its
      energy and that of one gram more; with a negative energy density it is
      negative. */
  lemma PortionBracket(left: real, kcal100: real)
    requires left > 0.0 && kcal100 != 0.0
    ensures var g := Floor(left / kcal100 * 100.0);
      && (kcal100 > 0.0 ==> g as real * kcal100 / 100.0 <= left < (g + 1) as real * kcal100 / 100.0)
      && (kcal100 < 0.0 ==> g < 0)
  {
    var x := left / kcal100 * 100.0;
    var g := Floor(x);
    var y := (g + 1) as real;
    if kcal100 > 0.0 {
      DensityTimesHundred(left, kcal100);
      BracketBelow(g as real, x, kcal100, left);
      BracketAbove(x, y, kcal100, left);
    } else {
      assert left / kcal100 < 0.0;
    }
  }

  /** Undoing the division of `left / kcal100 * 100` by the density. */
  lemma DensityTimesHundred(left: real, kcal100: real)
    requires kcal100 != 0.0
    ensures (left / kcal100 * 100.0) * kcal100 == 100.0 * left
  {
    var q := left / kcal100;
    assert q * kcal100 == left;
    calc {
      (q * 100.0) * kcal100;
      100.0 * (q * kcal100);
    }
  }

  /** A whole number of grams no larger than the exact quotient stays within
      the budget. */
  lemma BracketBelow(g: real, x: real, kcal100: real, left: real)
    requires g <= x && kcal100 > 0.0 && x * kcal100 == 100.0 * left
    ensures g * kcal100 / 100.0 <= left
  {
    ScaleMonotone(g, x, kcal100);
    HundredthMonotone(g * kcal100, 100.0 * left);
  }

  /** A whole number of grams above the exact quotient exceeds the budget. */
  lemma BracketAbove(x: real, y: real, kcal100: real, left: real)
    requires x < y && kcal100 > 0.0 && x * kcal100 == 100.0 * left
    ensures left < y * kcal100 / 100.0
  {
    ScaleMonotone(x, y, kcal100);
    HundredthMonotone(100.0 * left, y * kcal100);
  }

  lemma HundredthMonotone(a: real, b: real)
    requires a <= b
    ensures a / 100.0 <= b / 100.0
    ensures a < b ==> a / 100.0 < b / 100.0
  {
  }

  lemma ScaleMonotone(a: real, b: real, k: real)
    requires a <= b && k > 0.0
    ensures a * k <= b * k
    ensures a < b ==> a * k < b * k
  {
  }

  /** 500 kcal of chicken breast (165 kcal per 100 g) is 303 g; a zero
      budget is 0 g. */
  lemma ChickenBreastFit()
    ensures FitPortion(500.0, 165.0) == Grams(303)
    ensures FitPortion(0.0, 165.0) == Grams(0)
  {
  }

  /** The outcome of the fit form. */
  datatype FitOutcome = FitNotFound | Portion(food: Food, result: FitResult)

  /** `r` is a whole, non-negative number of grams within the budget, and
      with a positive budget one gram more would exceed it. */
  predicate LargestFit(r: FitResult, kcal100: real, left: real) {
    && r.Grams? && r.g >= 0 && WithinBudget(r.g, kcal100, left)
    && (left > 0.0 ==> !WithinBudget(r.g + 1, kcal100, left))
  }

  /** The fit form once the food is found: the budget is a positive override
      or else the remaining budget, and the portion is sized against it. */
  function FitFor(food: Food, leftInput: Number, leftKcal: int): (r: FitResult)
    ensures food.kcal100 > 0.0 ==> LargestFit(r, food.kcal100, FitBudget(leftInput, leftKcal))
    ensures !Positive(leftInput) && leftKcal <= 0 ==> r == Grams(0)
    ensures Positive(leftInput) && food.kcal100 == 0.0 ==> r == Unlimited
  {
    FitPortion(FitBudget(leftInput, leftKcal), food.kcal100)
  }

  /** The fit form: look the trimmed name up, then size a portion against a
      positive override budget or else the remaining budget. */
  function FitFood(foods: seq<Food>, p: Profile, log: seq<Entry>, query: string, leftInput: Number): (r: FitOutcome)
    ensures r.FitNotFound? <==> FindFood(foods, query).None?
    ensures r.Portion? ==> Some(r.food) == FindFood(foods, query)
    ensures r.Portion? ==> r.result == FitFor(r.food, leftInput, GetLeftKcal(p, log))
    ensures r.Portion? && r.food.kcal100 > 0.0 ==>
              LargestFit(r.result, r.food.kcal100, FitBudget(leftInput, GetLeftKcal(p, log)))
    ensures r.Portion? && !Positive(leftInput) && GetLeftKcal(p, log) == 0 ==> r.result == Grams(0)
    ensures r.Portion? && Positive(leftInput) && r.food.kcal100 == 0.0 ==> r.result == Unlimited
  {
    FindFoodTrimmed(foods, query);
    var found := FindFood(foods, Trim(query));
    if found.None? then FitNotFound
    else
      var leftKcal := GetLeftKcal(p, log);
      var result := FitFor(found.value, leftInput, leftKcal);
      assert found == FindFood(foods, query);
      Portion(found.value, result)
  }

  // ----- Quick add -----

  /** The entry quick-add logs: the table's own name for the food (not the
      query), the grams, the scaled values and the time stamp. */
  function NewEntry(food: Food, grams: real, now: int): (e: Entry)
    ensures e.name == food.name && e.grams == grams && e.ts == now
    ensures e.kcal == KcalFor(food, grams)
    ensures Macros(e.p, e.f, e.c) == PfcFor(food, grams)
  {
    var m := PfcFor(food, grams);
    Entry(food.name, grams, KcalFor(food, grams), m.p, m.f, m.c, now)
  }

  /** The outcome of the quick-add form. */
  datatype QuickOutcome = NotFound | NeedGrams | Added(entry: Entry)

  /** The checks of the quick-add form, in their order: an unknown food
      first, then missing, zero, NaN or negative grams; otherwise the entry
      for the found food. The query is trimmed before the lookup. */
  function QuickCheck(foods: seq<Food>, query: string, grams: Number, now: int): (r: QuickOutcome)
    ensures FindFood(foods, query).None? ==> r == NotFound
    ensures FindFood(foods, query).Some? && !Positive(grams) ==> r == NeedGrams
    ensures FindFood(foods, query).Some? && Positive(grams) ==>
              r == Added(NewEntry(FindFood(foods, query).value, grams.value, now))
  {
    var name := Trim(query);
    FindFoodTrimmed(foods, query);
    var food := FindFood(foods, name);
    if food.None? then NotFound
    else if !Truthy(grams) || grams.value <= 0.0 then NeedGrams
    else Added(NewEntry(food.value, grams.value, now))
  }

  /** The global `state` object: the profile, the food table, the history of
      days, and `todayLog`, which is not a copy but the very list stored
      under one date of the history (the date `ensureToday` last saw). */
  class State {
    var profile: Profile
    var foods: seq<Food>
    var history: map<string, seq<Entry>>
    /** The date whose list `todayLog` is. */
    var todayKey: string

    ghost predicate Valid()
      reads this
    {
      todayKey in history
    }

    /** `state.todayLog`. */
    function TodayLog(): seq<Entry>
      reads this
      requires Valid()
    {
      history[todayKey]
    }

    /** Start-up: the stored profile and history (already loaded), the food
        table, then `ensureToday`. */
    constructor (profile: Profile, history: map<string, seq<Entry>>, foods: seq<Food>, today: string)
      ensures Valid()
      ensures this.profile == profile && this.foods == foods
      ensures this.history == EnsureDay(history, today) && todayKey == today
    {
      this.profile := profile;
      this.foods := foods;
      this.history := EnsureDay(history, today);
      todayKey := today;
    }

    /** `ensureToday`: create today's list if it is missing and make
        `todayLog` that list. */
    method EnsureToday(today: string)
      modifies this
      ensures Valid()
      ensures history == EnsureDay(old(history), today) && todayKey == today
      ensures profile == old(profile) && foods == old(foods)
    {
      if today !in history {
        history := history[today := []];
      }
      todayKey := today;
    }

    /** The profile form's submit. */
    method UpdateProfile(form: ProfileForm)
      modifies this
      ensures profile == Submit(old(profile), form)
      ensures history == old(history) && foods == old(foods) && todayKey == old(todayKey)
    {
      profile := Submit(profile, form);
    }

    /** The reset button: today's list becomes a new empty list, which
        `todayLog` then is; every other date is left alone. */
    method ResetDay(today: string)
      modifies this
      ensures Valid()
      ensures history == old(history)[today := []] && todayKey == today
      ensures forall d :: d in old(history) && d != today ==> d in history && history[d] == old(history)[d]
      ensures profile == old(profile) && foods == old(foods)
    {
      history := history[today := []];
      EnsureToday(today);
    }

    /** The clear button: the reset, once the user confirms it. */
    method ClearLog(today: string, confirmed: bool)
      requires Valid()
      modifies this
      ensures Valid()
      ensures confirmed ==> history == old(history)[today := []] && todayKey == today
      ensures !confirmed ==> history == old(history) && todayKey == old(todayKey)
      ensures profile == old(profile) && foods == old(foods)
    {
      if confirmed {
        ResetDay(today);
      }
    }

    /** The quick-add form: the outcome of its checks, then the push of the
        new entry onto `todayLog` when both checks pass. */
    method QuickAdd(query: string, grams: Number, now: int) returns (outcome: QuickOutcome)
      requires Valid()
      modifies this
      ensures Valid()
      ensures profile == old(profile) && foods == old(foods) && todayKey == old(todayKey)
      ensures outcome == QuickCheck(foods, query, grams, now)
      ensures !outcome.Added? ==> history == old(history)
      ensures outcome.Added? ==> history == old(history)[todayKey := old(TodayLog()) + [outcome.entry]]
      ensures outcome.Added? ==>
                SumToday(TodayLog()) == Plus(SumToday(old(TodayLog())), EntryValues(outcome.entry))
    {
      outcome := QuickCheck(foods, query, grams, now);
      if outcome.Added? {
        PushToday(outcome.entry);
      }
    }

    /** The push onto `todayLog` in the quick-add handler: the entry lands
        at the end of the day's list stored in the history, since `todayLog`
        is that list. */
    method PushToday(entry: Entry)
      requires Valid()
      modifies this
      ensures Valid()
      ensures profile == old(profile) && foods == old(foods) && todayKey == old(todayKey)
      ensures history == old(history)[todayKey := old(TodayLog()) + [entry]]
      ensures SumToday(TodayLog()) == Plus(SumToday(old(TodayLog())), EntryValues(entry))
    {
      var log := history[todayKey];
      SumTodayAppend(log, entry);
      history := history[todayKey := log + [entry]];
    }

    /** The delete button of a log row: the first occurrence of the entry is
        removed from `todayLog` and the others keep their order; an entry no
        longer in the list changes nothing. */
    method DeleteEntry(entry: Entry)
      requires Valid()
      modifies this
      ensures Valid()
      ensures profile == old(profile) && foods == old(foods) && todayKey == old(todayKey)
      ensures history == old(history)[todayKey := RemoveFirst(old(TodayLog()), entry)]
      ensures entry in old(TodayLog()) ==>
                SumToday(TodayLog()) == Minus(SumToday(old(TodayLog())), EntryValues(entry))
    {
      var log := history[todayKey];
      var idx := IndexOf(log, entry);
      if idx > -1 {
        SumByRemoveFirst(log, entry, EntryValues);
        history := history[todayKey := log[..idx] + log[idx + 1..]];
      }
    }
  }
}
