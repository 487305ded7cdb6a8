/** The home screen: its state fields and the two fetch functions, split at the points where
    they wait for the network, so that responses can arrive in any order. */
module HomeScreen {
  import opened Outcomes
  import opened Inventory
  import opened Storage
  import opened Recommendation
  import StockScreen

  /** `getEstoque`: the stored list, or an empty stock when nothing is stored or the payload
      does not parse. */
  function GetEstoque(slot: Slot): (stock: seq<Ingredient>)
    ensures slot.Saved? ==> stock == slot.items
    ensures slot.Absent? || slot.Unparsable? ==> stock == []
  {
    if slot.Saved? then slot.items else []
  }

  /** The persistence round trip between the two screens: starting with storage in step with
      the stock screen, the user makes any sequence of adds and removes, each saved
      successfully. Afterwards `getEstoque` on the home screen reads exactly the stock the
      stock screen holds, which is the changes applied in order. */
  method SavedStockReadsBack(stock: StockScreen.Screen, changes: seq<Change>)
    requires GetEstoque(stock.store.item) == stock.estoque
    modifies stock, stock.store
    ensures GetEstoque(stock.store.item) == stock.estoque
    ensures stock.estoque == ApplyAll(old(stock.estoque), changes)
    ensures UniqueIds(old(stock.estoque)) ==> UniqueIds(stock.estoque)
  {
    for i := 0 to |changes|
      invariant GetEstoque(stock.store.item) == stock.estoque
      invariant stock.estoque == ApplyAll(old(stock.estoque), changes[..i])
    {
      assert changes[..i + 1][..i] == changes[..i];
      match changes[i]
      case Added(suggestion) =>
        stock.Add(suggestion, true);
      case Removed(id) =>
        stock.Remove(id, true);
    }
    assert changes[..|changes|] == changes;
    if UniqueIds(old(stock.estoque)) {
      ApplyAllKeepsUnique(old(stock.estoque), changes);
    }
  }

  class Screen {
    var recommendedRecipes: seq<Recipe>
    var loading: bool
    var usingStock: bool
    /** Every find-by-ingredients request sent, by its `ingredients` parameter, oldest first. */
    var stockQueries: seq<string>
    /** Find-by-ingredients requests sent and not yet answered. */
    var pendingStock: nat
    /** Random-recipe requests sent and not yet answered. */
    var pendingRandom: nat
    const store: Store

    constructor(store: Store)
      ensures this.store == store
      ensures recommendedRecipes == [] && loading && !usingStock
      ensures stockQueries == [] && pendingStock == 0 && pendingRandom == 0
    {
      this.store := store;
      recommendedRecipes, loading, usingStock := [], true, false;
      stockQueries, pendingStock, pendingRandom := [], 0, 0;
    }

    /** `fetchRecipesFromStock` up to its network call. An empty stock starts the random stage
        (without awaiting it), clears `usingStock` and, through `finally`, ends `loading`; no
        find-by-ingredients request is sent. A non-empty stock sets `usingStock` and sends the
        comma-joined names. */
    method FetchRecipesFromStock()
      modifies this
      ensures var stock := GetEstoque(store.item);
              if stock == [] then
                && pendingRandom == old(pendingRandom) + 1 && !usingStock && !loading
                && stockQueries == old(stockQueries) && pendingStock == old(pendingStock)
              else
                && usingStock && loading == old(loading)
                && stockQueries == old(stockQueries) + [IngredientsParam(stock)]
                && pendingStock == old(pendingStock) + 1 && pendingRandom == old(pendingRandom)
      ensures recommendedRecipes == old(recommendedRecipes)
    {
      var stock := GetEstoque(store.item);
      if |stock| == 0 {
        pendingRandom := pendingRandom + 1;
        usingStock := false;
      } else {
        usingStock := true;
        stockQueries := stockQueries + [IngredientsParam(stock)];
        pendingStock := pendingStock + 1;
        return;
      }
      loading := false;
    }

    /** The rest of `fetchRecipesFromStock` once the find-by-ingredients call settles, applied
        whenever it arrives. A non-empty list is shown as cards (leaving `usingStock` as it is);
        an empty list or an error starts the random stage and clears `usingStock`. `loading`
        ends on every path. */
    method StockResponded(outcome: Remote<seq<Match>>)
      requires pendingStock > 0
      modifies this
      ensures pendingStock == old(pendingStock) - 1 && !loading
      ensures stockQueries == old(stockQueries)
      ensures if outcome.Success? && outcome.data != [] then
                && recommendedRecipes == FromMatches(outcome.data)
                && usingStock == old(usingStock) && pendingRandom == old(pendingRandom)
              else
                && recommendedRecipes == old(recommendedRecipes)
                && !usingStock && pendingRandom == old(pendingRandom) + 1
    {
      if outcome.Success? && |outcome.data| > 0 {
        recommendedRecipes := FromMatches(outcome.data);
      } else {
        pendingRandom := pendingRandom + 1;
        usingStock := false;
      }
      loading := false;
      pendingStock := pendingStock - 1;
    }

    /** `fetchRandomRecipes` once its call settles, applied whenever it arrives: the response's
        `recipes` field when present (even empty), the defaults when it is missing or the call
        failed; only the failure path touches `loading`. */
    method RandomResponded(outcome: Remote<Option<seq<Recipe>>>)
      requires pendingRandom > 0
      modifies this
      ensures pendingRandom == old(pendingRandom) - 1
      ensures recommendedRecipes == RandomStage(outcome)
      ensures loading == (old(loading) && outcome.Success?)
      ensures usingStock == old(usingStock)
      ensures stockQueries == old(stockQueries) && pendingStock == old(pendingStock)
    {
      pendingRandom := pendingRandom - 1;
      match outcome
      case Success(data) =>
        if data.Some? {
          recommendedRecipes := data.value;
        } else {
          recommendedRecipes := DefaultRecipes;
        }
      case Failure =>
        recommendedRecipes := DefaultRecipes;
        loading := false;
    }
  }

  /** A refresh (on mount or on focus) during which nothing else happens: each request is
      answered before the next event. The screen settles on exactly what `Recommend` gives for
      the stored stock, with `loading` over, and sends a find-by-ingredients request only for a
      non-empty stock. */
  method SettledRefresh(home: Screen, byIngredients: Remote<seq<Match>>,
                        random: Remote<Option<seq<Recipe>>>)
    modifies home
    ensures var r := Recommend(GetEstoque(home.store.item), byIngredients, random);
            home.recommendedRecipes == r.recipes && home.usingStock == r.usingStock
    ensures !home.loading
    ensures var stock := GetEstoque(home.store.item);
            home.stockQueries == old(home.stockQueries) + (if stock == [] then [] else [IngredientsParam(stock)])
    ensures home.pendingStock == old(home.pendingStock) && home.pendingRandom == old(home.pendingRandom)
  {
    var randomBefore := home.pendingRandom;
    var stockBefore := home.pendingStock;
    home.FetchRecipesFromStock();
    if home.pendingStock > stockBefore {
      home.StockResponded(byIngredients);
    }
    if home.pendingRandom > randomBefore {
      home.RandomResponded(random);
    }
  }

  /** The stock holds only tomato; find-by-ingredients is asked for "tomato" and answers one
      recipe, which is shown with its counts and the stock badge 1/3. */
  method TomatoScenario()
  {
    var tomato := Ingredient(1, "tomato", CdnPrefix + "tomato.png");
    var store := new Store(Saved([tomato]));
    var home := new Screen(store);
    var soup := Match(10, "Tomato Soup", "soup.jpg", Some(1), Some(2));
    SettledRefresh(home, Success([soup]), Failure);
    assert home.stockQueries == ["tomato"];
    assert home.recommendedRecipes == [Recipe(10, "Tomato Soup", "soup.jpg", Some(1), Some(2))];
    assert home.usingStock;
    assert Badge(home.recommendedRecipes[0], home.usingStock) == Some((1, 3));
  }

  /** An empty stock: no find-by-ingredients request; a failed random call gives the defaults. */
  method EmptyStockScenario()
  {
    var store := new Store(Unparsable);
    var home := new Screen(store);
    SettledRefresh(home, Success([]), Failure);
    assert home.stockQueries == [];
    assert home.recommendedRecipes == DefaultRecipes && !home.usingStock && !home.loading;
  }

  /** Two overlapping refreshes. The first sends find-by-ingredients; the stock is then emptied
      and the second refresh starts the random stage, which answers first. The first refresh's
      late answer is still applied, so stock-based cards end up shown with `usingStock` off. */
  method LateStockResponseScenario(m: Match)
  {
    var store := new Store(Saved([Ingredient(1, "tomato", "t.png")]));
    var home := new Screen(store);
    home.FetchRecipesFromStock();
    store.item := Saved([]);
    home.FetchRecipesFromStock();
    home.RandomResponded(Success(Some([])));
    assert home.recommendedRecipes == [] && !home.usingStock;
    home.StockResponded(Success([m]));
    assert home.recommendedRecipes == [FromMatch(m)] && !home.usingStock;
  }
}
