/** The trimmed-down variant `ja/app.js`: the same Mifflin–St Jeor target,
    rounded; the day's totals; foods looked up through an external product
    search whose answer is normalised and filtered here; and the global
    `state` object its handlers update in place, as a class. */
module AppJa {
  import opened JsValues
  import opened JsStrings
  import opened JsArrays
  import opened DailyLog
  import opened Profiles
  import App

  /** The nutriments block of a search hit; a field is `None` when it is
      absent or `null` in the response. */
  datatype Nutriments = Nutriments(
    energyKcal100g: Option<real>, proteins100g: Option<real>,
    fat100g: Option<real>, carbohydrates100g: Option<real>)

  /** A product of the search response: its name and its nutriments block,
      either of which may be missing. */
  datatype RawProduct = RawProduct(productName: Option<string>, nutriments: Option<Nutriments>)

  /** A food as the lookup returns it: `kcal100` is `None` (`null`) when the
      product carries no energy value. */
  datatype Food = Food(name: string, kcal100: Option<real>, p: real, f: real, c: real)

  /** A logged item: name, grams, and the kcal (`k`), protein, fat and
      carbohydrate for those grams. */
  datatype Item = Item(name: string, g: real, k: real, p: real, f: real, c: real)

  /** The name given to a product without one. */
  const DefaultName := "Продукт"

  // ----- Product normalisation -----

  /** The energy per 100 g of a product: missing when the product has no
      nutriments block or the block has no energy value. The three functions
      below read protein, fat and carbohydrate the same way. */
  function Energy(raw: RawProduct): Option<real> {
    if raw.nutriments.Some? then raw.nutriments.value.energyKcal100g else None
  }

  function Protein(raw: RawProduct): Option<real> {
    if raw.nutriments.Some? then raw.nutriments.value.proteins100g else None
  }

  function Fat(raw: RawProduct): Option<real> {
    if raw.nutriments.Some? then raw.nutriments.value.fat100g else None
  }

  function Carbs(raw: RawProduct): Option<real> {
    if raw.nutriments.Some? then raw.nutriments.value.carbohydrates100g else None
  }

  /** A missing value read as 0. */
  function OrZero(x: Option<real>): real {
    if x.Some? then x.value else 0.0
  }

  /** The `map` step of `fetchFoodByName`: a missing or empty name becomes
      "Продукт", a missing energy value stays missing, and missing protein,
      fat or carbohydrate become 0. */
  function ToFood(raw: RawProduct): (r: Food)
    ensures raw.productName.Some? && raw.productName.value != "" ==> r.name == raw.productName.value
    ensures raw.productName.None? || raw.productName.value == "" ==> r.name == DefaultName
    ensures r.kcal100 == Energy(raw)
    ensures Protein(raw).None? ==> r.p == 0.0
    ensures Fat(raw).None? ==> r.f == 0.0
    ensures Carbs(raw).None? ==> r.c == 0.0
    ensures Protein(raw).Some? ==> r.p == Protein(raw).value
    ensures Fat(raw).Some? ==> r.f == Fat(raw).value
    ensures Carbs(raw).Some? ==> r.c == Carbs(raw).value
  {
    var name := if raw.productName.Some? && raw.productName.value != "" then raw.productName.value else DefaultName;
    Food(name, Energy(raw), OrZero(Protein(raw)), OrZero(Fat(raw)), OrZero(Carbs(raw)))
  }

  /** The test the search result's filter applies: an energy value that is
      present and not zero (JavaScript truthiness of a number). */
  predicate HasEnergy(food: Food) {
    food.kcal100.Some? && food.kcal100.value != 0.0
  }

  /** The filter step of the search: the foods with an energy value, in
      their order. */
  function KeepWithEnergy(foods: seq<Food>): (r: seq<Food>)
    ensures |r| <= |foods|
    ensures forall i :: 0 <= i < |r| ==> HasEnergy(r[i])
    ensures forall x :: x in r <==> x in foods && HasEnergy(x)
  {
    if foods == [] then []
    else (if HasEnergy(foods[0]) then [foods[0]] else []) + KeepWithEnergy(foods[1..])
  }

  /** Filtering two lists laid end to end keeps each one's survivors, in
      order: the filter never reorders. */
  lemma {:induction false} KeepWithEnergyConcat(a: seq<Food>, b: seq<Food>)
    ensures KeepWithEnergy(a + b) == KeepWithEnergy(a) + KeepWithEnergy(b)
  {
    if a == [] {
      assert a + b == b;
    } else {
      assert (a + b)[0] == a[0];
      assert (a + b)[1..] == a[1..] + b;
      KeepWithEnergyConcat(a[1..], b);
    }
  }

  /** The `map` step over the whole response. */
  function ToFoods(products: seq<RawProduct>): (r: seq<Food>)
    ensures |r| == |products|
    ensures forall i :: 0 <= i < |products| ==> r[i] == ToFood(products[i])
  {
    seq(|products|, i requires 0 <= i < |products| => ToFood(products[i]))
  }

  /** Mapping two responses laid end to end maps each in turn: the map step
      keeps the response's order. */
  lemma ToFoodsConcat(a: seq<RawProduct>, b: seq<RawProduct>)
    ensures ToFoods(a + b) == ToFoods(a) + ToFoods(b)
  {
    forall i | 0 <= i < |a| + |b|
      ensures ToFoods(a + b)[i] == (ToFoods(a) + ToFoods(b))[i]
    {
      if i < |a| {
        assert (a + b)[i] == a[i];
      } else {
        assert (a + b)[i] == b[i - |a|];
      }
    }
  }

  /** What `fetchFoodByName` returns for the products of a response: at most
      as many foods as products, each with an energy value, each the
      normalisation of some product. */
  function NormalizeProducts(products: seq<RawProduct>): (r: seq<Food>)
    ensures |r| <= |products|
    ensures forall i :: 0 <= i < |r| ==> HasEnergy(r[i])
    ensures forall x :: x in r ==> exists i :: 0 <= i < |products| && ToFood(products[i]) == x
  {
    KeepWithEnergy(ToFoods(products))
  }

  /** The output follows the input order: the foods of two responses laid
      end to end are the foods of the first followed by those of the
      second. */
  lemma NormalizeConcat(a: seq<RawProduct>, b: seq<RawProduct>)
    ensures NormalizeProducts(a + b) == NormalizeProducts(a) + NormalizeProducts(b)
  {
    ToFoodsConcat(a, b);
    KeepWithEnergyConcat(ToFoods(a), ToFoods(b));
  }

  /** A product whose energy value is present and non-zero survives, as its
      normalisation. */
  lemma NormalizeKeepsEnergetic(products: seq<RawProduct>, i: nat)
    requires i < |products| && Energy(products[i]).Some? && Energy(products[i]).value != 0.0
    ensures ToFood(products[i]) in NormalizeProducts(products)
  {
    assert ToFoods(products)[i] == ToFood(products[i]);
  }

  // ----- Daily target -----

  /** `bmr`: the Mifflin–St Jeor estimate, +5 for "male" and -161 for any
      other gender value. */
  function Bmr(p: Profile): (r: real)
    ensures r == App.CalcBMR(p)
  {
    if p.gender == "male" then 10.0 * p.weight + 6.25 * p.height - 5.0 * p.age + 5.0
    else 10.0 * p.weight + 6.25 * p.height - 5.0 * p.age - 161.0
  }

  /** `targetKcal`: the goal-adjusted estimate rounded to whole kcal; it is
      the target the other variant's dashboard shows. */
  function TargetKcal(p: Profile): (r: int)
    ensures r == Round(App.ApplyGoal(App.CalcBMR(p), p.goal))
    ensures r as real - 0.5 <= App.ApplyGoal(Bmr(p), p.goal) < r as real + 0.5
  {
    var base := Bmr(p);
    var g := p.goal;
    Round(if g == "lose" then base * 0.85 else if g == "gain" then base * 1.15 else base)
  }

  /** The default profile's target is 1674 kcal. */
  lemma DefaultTarget()
    ensures Bmr(DefaultProfile) == 1673.75
    ensures TargetKcal(DefaultProfile) == 1674
  {
    App.DefaultProfileTargets();
  }

  // ----- Day totals and remaining budget -----

  function ItemValues(it: Item): Totals {
    Totals(it.k, it.p, it.f, it.c)
  }

  /** Today's list, or no items when the history has no list for today. */
  function DayItems(history: map<string, seq<Item>>, today: string): seq<Item> {
    if today in history then history[today] else []
  }

  /** `sumToday`: all zeros when today has no list, otherwise the field-wise
      sums over today's items. */
  function SumToday(history: map<string, seq<Item>>, today: string): (r: Totals)
    ensures today !in history ==> r == Zero
    ensures today in history && history[today] == [] ==> r == Zero
  {
    SumBy(DayItems(history, today), ItemValues)
  }

  /** Appending an item to today's list adds exactly its values. */
  lemma SumTodayAppend(history: map<string, seq<Item>>, today: string, it: Item)
    ensures SumToday(history[today := DayItems(history, today) + [it]], today)
            == Plus(SumToday(history, today), ItemValues(it))
  {
    SumByAppend(DayItems(history, today), it, ItemValues);
  }

  /** The totals do not depend on the order of today's items. */
  lemma SumTodayOrderFree(history: map<string, seq<Item>>, today: string, items: seq<Item>)
    requires today in history && multiset(items) == multiset(history[today])
    ensures SumToday(history[today := items], today) == SumToday(history, today)
  {
    SumByPermutation(items, history[today], ItemValues);
  }

  /** The remainder shown on top: the target minus the rounded kcal eaten,
      never negative, and never above the target when the target and the
      kcal eaten are not negative. */
  function DisplayLeft(t: int, eaten: real): (r: int)
    ensures r >= 0 && r >= t - Round(eaten)
    ensures r == 0 || r == t - Round(eaten)
    ensures t >= 0 && eaten >= 0.0 ==> r <= t
  {
    ClampInt(t - Round(eaten))
  }

  // ----- Adding food -----

  /** The item the add form pushes: the first result's name, the grams, and
      each value scaled from 100 g, as `kcalFor` and `pfcFor` of the other
      variant scale them. */
  function ItemFor(food: Food, g: real): (it: Item)
    requires food.kcal100.Some?
    ensures it.name == food.name && it.g == g
    ensures var same := App.Food(food.name, food.kcal100.value, food.p, food.f, food.c);
      it.k == App.KcalFor(same, g) && App.PfcFor(same, g) == App.Macros(it.p, it.f, it.c)
    ensures g == 100.0 ==> it.k == food.kcal100.value && it.p == food.p && it.f == food.f && it.c == food.c
  {
    var k := (food.kcal100.value * g) / 100.0;
    Item(food.name, g, k, (food.p * g) / 100.0, (food.f * g) / 100.0, (food.c * g) / 100.0)
  }

  /** The outcome of the add form. */
  datatype AddOutcome = Skipped | NoResults | Added(item: Item)

  /** The global `state` object of this variant: the profile and the history
      of days. Its handlers address today's list through the history. */
  class State {
    var profile: Profile
    var history: map<string, seq<Item>>

    /** Start-up: the stored profile and history (already loaded), then
        `ensureToday`. */
    constructor (profile: Profile, history: map<string, seq<Item>>, today: string)
      ensures this.profile == profile && this.history == EnsureDay(history, today)
    {
      this.profile := profile;
      this.history := EnsureDay(history, today);
    }

    /** `ensureToday`: create today's list when it is missing. */
    method EnsureToday(today: string)
      modifies this
      ensures history == EnsureDay(old(history), today) && profile == old(profile)
    {
      if today !in history {
        history := history[today := []];
      }
    }

    /** The profile form's submit. */
    method UpdateProfile(form: ProfileForm)
      modifies this
      ensures profile == Submit(old(profile), form) && history == old(history)
    {
      profile := Submit(profile, form);
    }

    /** The reset button: today's list becomes empty and every other date is
        left alone. */
    method ResetDay(today: string)
      modifies this
      ensures history == old(history)[today := []] && profile == old(profile)
      ensures forall d :: d in old(history) && d != today ==> d in history && history[d] == old(history)[d]
      ensures SumToday(history, today) == Zero
    {
      history := history[today := []];
    }

    /** The add form, given the trimmed name's search response: an empty
        name or grams that are 0 or NaN change nothing, and so does a
        response without a usable product; otherwise one item built from the
        first usable product is appended to today's list (created if
        missing), and its values are added to the day's totals. Negative
        grams are not rejected. */
    method AddFood(nameInput: string, grams: Number, today: string, products: seq<RawProduct>)
      returns (outcome: AddOutcome)
      modifies this
      ensures profile == old(profile)
      ensures Trim(nameInput) == [] || !Truthy(grams) ==> outcome == Skipped && history == old(history)
      ensures Trim(nameInput) != [] && Truthy(grams) && NormalizeProducts(products) == [] ==>
                outcome == NoResults && history == old(history)
      ensures Trim(nameInput) != [] && Truthy(grams) && NormalizeProducts(products) != [] ==>
                && outcome == Added(ItemFor(NormalizeProducts(products)[0], grams.value))
                && history == old(history)[today := DayItems(old(history), today) + [outcome.item]]
      ensures outcome.Added? ==>
                SumToday(history, today) == Plus(SumToday(old(history), today), ItemValues(outcome.item))
    {
      var name := Trim(nameInput);
      if name == [] || !Truthy(grams) {
        return Skipped;
      }
      var items := NormalizeProducts(products);
      if |items| == 0 {
        return NoResults;
      }
      var item := ItemFor(items[0], grams.value);
      PushItem(today, item);
      outcome := Added(item);
    }

    /** The last step of the add form: today's list is created if missing,
        the item goes to its end, and its values are added to the day's
        totals. */
    method PushItem(today: string, item: Item)
      modifies this
      ensures profile == old(profile)
      ensures history == old(history)[today := DayItems(old(history), today) + [item]]
      ensures SumToday(history, today) == Plus(SumToday(old(history), today), ItemValues(item))
    {
      SumTodayAppend(history, today, item);
      EnsureToday(today);
      history := history[today := history[today] + [item]];
    }

    /** The delete button of a row: the first occurrence of the item is
        removed from today's list and the others keep their order; an item
        no longer in the list, or a day without a list, changes nothing. */
    method DeleteItem(today: string, item: Item)
      modifies this
      ensures profile == old(profile)
      ensures today in old(history) ==> history == old(history)[today := RemoveFirst(old(history)[today], item)]
      ensures today !in old(history) ==> history == old(history)
      ensures item in DayItems(old(history), today) ==>
                SumToday(history, today) == Minus(SumToday(old(history), today), ItemValues(item))
    {
      if today in history {
        var arr := history[today];
        var ix := IndexOf(arr, item);
        if ix > -1 {
          SumByRemoveFirst(arr, item, ItemValues);
          history := history[today := arr[..ix] + arr[ix + 1..]];
        }
      }
    }
  }
}
