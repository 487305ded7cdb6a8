/** The recommendation logic of the home screen as values: the ingredient names sent to
    find-by-ingredients, the mapping of its results, the bundled default recipes, the badge,
    and the fallback chain as a whole when each stage runs to completion in turn. */
module Recommendation {
  import opened Outcomes
  import opened Inventory

  /** A recipe card on the home screen. Recipes found from the stock carry the two counts;
      random and default recipes lack them. */
  datatype Recipe = Recipe(id: int, title: string, image: string,
                           usedIngredients: Option<int>, missedIngredients: Option<int>)

  /** One record of the find-by-ingredients response, as far as the screen reads it. */
  datatype Match = Match(id: int, title: string, image: string,
                         usedIngredientCount: Option<int>, missedIngredientCount: Option<int>)

  /** Which stage of the chain produced the list on screen. */
  datatype Stage = InventoryMatch | RandomCatalog | StaticDefault

  /** The settled state of a refresh. */
  datatype Recommended = Recommended(recipes: seq<Recipe>, usingStock: bool, stage: Stage)

  /** The four recipes bundled with the screen, used when the random stage has nothing. */
  const DefaultRecipes: seq<Recipe> := [
    Recipe(1, "Macarr\U{e3}o", "https://spoonacular.com/recipeImages/716429-556x370.jpg", None, None),
    Recipe(2, "Pizza", "https://spoonacular.com/recipeImages/715538-556x370.jpg", None, None),
    Recipe(3, "Salada", "https://spoonacular.com/recipeImages/782601-556x370.jpg", None, None),
    Recipe(4, "Sopa", "https://spoonacular.com/recipeImages/631878-556x370.jpg", None, None)
  ]

  /** `estoque.map(item => item.name)`. */
  function Names(stock: seq<Ingredient>): (names: seq<string>)
    ensures |names| == |stock|
    ensures forall i :: 0 <= i < |stock| ==> names[i] == stock[i].name
  {
    if stock == [] then [] else [stock[0].name] + Names(stock[1..])
  }

  /** The characters of all names together. */
  function TotalLength(names: seq<string>): nat
  {
    if names == [] then 0 else |names[0]| + TotalLength(names[1..])
  }

  /** `names.join(',')`: the names in order with one separator between neighbours, none before
      the first name and none after the last. */
  function Join(names: seq<string>): (s: string)
    ensures names == [] ==> s == ""
    ensures names != [] ==> |s| == TotalLength(names) + |names| - 1
    ensures names != [] ==> names[0] <= s
    ensures names != [] ==> |names[|names| - 1]| <= |s| && s[|s| - |names[|names| - 1]|..] == names[|names| - 1]
  {
    if names == [] then ""
    else if |names| == 1 then names[0]
    else
      var rest := Join(names[1..]);
      var s := names[0] + "," + rest;
      assert names[1..][|names[1..]| - 1] == names[|names| - 1];
      assert s[|s| - |rest|..] == rest;
      s
  }

  /** Appending a name to a non-empty list appends one comma and that name: the separator is a
      comma between every pair of neighbours, whatever the names contain. */
  lemma {:induction false} JoinSnoc(names: seq<string>, n: string)
    requires names != []
    ensures Join(names + [n]) == Join(names) + "," + n
    decreases |names|
  {
    var longer := names + [n];
    assert longer[0] == names[0];
    assert longer[1..] == names[1..] + [n];
    if |names| == 1 {
      assert longer[1..] == [n];
    } else {
      JoinSnoc(names[1..], n);
      assert Join(longer) == names[0] + "," + (Join(names[1..]) + "," + n);
    }
  }

  /** The `ingredients` parameter of the find-by-ingredients request. */
  function IngredientsParam(stock: seq<Ingredient>): string
  {
    Join(Names(stock))
  }

  /** `map` then `join(',')`: one more item adds a comma and its name at the end of the
      parameter, so the parameter is the stock's names in stock order, comma-separated. */
  lemma IngredientsParamSnoc(stock: seq<Ingredient>, item: Ingredient)
    ensures IngredientsParam([item]) == item.name
    ensures stock != [] ==> IngredientsParam(stock + [item]) == IngredientsParam(stock) + "," + item.name
  {
    assert Names([item]) == [item.name];
    if stock != [] {
      assert Names(stock + [item]) == Names(stock) + [item.name];
      JoinSnoc(Names(stock), item.name);
    }
  }

  /** When no name contains a comma, the catalog reads back exactly the stock's names, in
      stock order. */
  lemma IngredientsParamRoundTrip(stock: seq<Ingredient>)
    requires stock != []
    requires forall i :: 0 <= i < |stock| ==> ',' !in stock[i].name
    ensures Split(IngredientsParam(stock)) == Names(stock)
  {
    JoinSplit(Names(stock));
  }

  /** Splitting at every comma, as the catalog reads the `ingredients` parameter. */
  function Split(s: string): (parts: seq<string>)
    ensures |parts| >= 1
  {
    if s == [] then [""]
    else
      var rest := Split(s[1..]);
      if s[0] == ',' then [""] + rest else [[s[0]] + rest[0]] + rest[1..]
  }

  /** A text without a comma is a single part. */
  lemma {:induction false} SplitNoComma(s: string)
    requires ',' !in s
    ensures Split(s) == [s]
  {
    if s != [] {
      assert ',' !in s[1..];
      SplitNoComma(s[1..]);
      assert [s[0]] + s[1..] == s;
    }
  }

  /** A comma-free head followed by a comma splits off as the first part. */
  lemma {:induction false} SplitAfterHead(head: string, tail: string)
    requires ',' !in head
    ensures Split(head + "," + tail) == [head] + Split(tail)
  {
    if head == [] {
      assert head + "," + tail == [','] + tail;
      assert ([','] + tail)[1..] == tail;
    } else {
      var s := head + "," + tail;
      assert s[0] == head[0];
      assert s[1..] == head[1..] + "," + tail;
      assert ',' !in head[1..];
      SplitAfterHead(head[1..], tail);
      assert [head[0]] + head[1..] == head;
    }
  }

  /** Joining comma-free names and splitting at commas gives the names back, in order. */
  lemma {:induction false} JoinSplit(names: seq<string>)
    requires |names| > 0
    requires forall i :: 0 <= i < |names| ==> ',' !in names[i]
    ensures Split(Join(names)) == names
  {
    if |names| == 1 {
      SplitNoComma(names[0]);
    } else {
      SplitAfterHead(names[0], Join(names[1..]));
      JoinSplit(names[1..]);
    }
  }

  /** One find-by-ingredients record as a card. */
  function FromMatch(m: Match): Recipe
  {
    Recipe(m.id, m.title, m.image, m.usedIngredientCount, m.missedIngredientCount)
  }

  /** `response.data.map(...)`: one card per record, in response order, copying id, title and
      image and renaming the two counts. */
  function FromMatches(matches: seq<Match>): (cards: seq<Recipe>)
    ensures |cards| == |matches|
    ensures forall i :: 0 <= i < |matches| ==>
              && cards[i].id == matches[i].id
              && cards[i].title == matches[i].title
              && cards[i].image == matches[i].image
              && cards[i].usedIngredients == matches[i].usedIngredientCount
              && cards[i].missedIngredients == matches[i].missedIngredientCount
  {
    if matches == [] then [] else [FromMatch(matches[0])] + FromMatches(matches[1..])
  }

  /** JavaScript's `count || 0` on a count that may be missing. */
  function OrZero(count: Option<int>): int
  {
    if count.Some? then count.value else 0
  }

  /** The two numbers of a card's badge `used/(used+missed)`, shown only while the list comes
      from the stock; a missing count reads as 0. */
  function Badge(card: Recipe, usingStock: bool): (b: Option<(int, int)>)
    ensures b.Some? <==> usingStock
    ensures b.Some? ==> b.value.0 == OrZero(card.usedIngredients)
    ensures b.Some? ==> b.value.1 - b.value.0 == OrZero(card.missedIngredients)
    ensures b.Some? && OrZero(card.usedIngredients) >= 0 && OrZero(card.missedIngredients) >= 0 ==>
              0 <= b.value.0 <= b.value.1
    ensures b.Some? && card.usedIngredients.None? && card.missedIngredients.None? ==> b.value == (0, 0)
  {
    if usingStock then
      var used := OrZero(card.usedIngredients);
      Some((used, used + OrZero(card.missedIngredients)))
    else None
  }

  /** The list the random stage settles on: `response.data.recipes` whenever that field is
      present, even as an empty array; the defaults when it is missing or the call failed. */
  function RandomStage(random: Remote<Option<seq<Recipe>>>): (r: seq<Recipe>)
    ensures random.Success? && random.data.Some? ==> r == random.data.value
    ensures random.Failure? || random.data.None? ==> r == DefaultRecipes
    ensures r == [] <==> random == Success(Some([]))
  {
    if random.Success? && random.data.Some? then random.data.value else DefaultRecipes
  }

  /** The whole chain with each stage awaited in turn: stage one only for a non-empty stock and
      only a non-empty response counts; otherwise the random stage, and the defaults below it. */
  function Recommend(stock: seq<Ingredient>, byIngredients: Remote<seq<Match>>,
                     random: Remote<Option<seq<Recipe>>>): (r: Recommended)
    ensures r.usingStock <==> r.stage == InventoryMatch
    ensures r.stage == InventoryMatch <==>
              stock != [] && byIngredients.Success? && byIngredients.data != []
    ensures r.stage == InventoryMatch ==> r.recipes == FromMatches(byIngredients.data)
    ensures r.stage == RandomCatalog <==>
              r.stage != InventoryMatch && random.Success? && random.data.Some?
    ensures r.stage == RandomCatalog ==> r.recipes == random.data.value
    ensures r.stage == StaticDefault ==> r.recipes == DefaultRecipes
    ensures r.recipes == [] <==> r.stage == RandomCatalog && random.data.value == []
  {
    if stock != [] && byIngredients.Success? && |byIngredients.data| > 0 then
      Recommended(FromMatches(byIngredients.data), true, InventoryMatch)
    else if random.Success? && random.data.Some? then
      Recommended(random.data.value, false, RandomCatalog)
    else
      Recommended(DefaultRecipes, false, StaticDefault)
  }

  /** With an empty stock the find-by-ingredients outcome plays no part: no such request is
      made. */
  lemma EmptyStockSkipsStageOne(one: Remote<seq<Match>>, other: Remote<seq<Match>>,
                                random: Remote<Option<seq<Recipe>>>)
    ensures Recommend([], one, random) == Recommend([], other, random)
    ensures Recommend([], one, random).stage != InventoryMatch
  {
  }

  /** An empty `recipes` array from the random stage is shown as it is: the screen can settle
      on an empty list, and the defaults are not used. */
  lemma EmptyRandomCountsAsPresent(stock: seq<Ingredient>, byIngredients: Remote<seq<Match>>)
    requires stock == [] || byIngredients.Failure? || byIngredients.data == []
    ensures Recommend(stock, byIngredients, Success(Some([]))) == Recommended([], false, RandomCatalog)
  {
  }
}
