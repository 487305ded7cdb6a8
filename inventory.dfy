/** The ingredient stock of the stock screen as a value: an ordered list of ingredients,
    with the pure updates `adicionarIngrediente` and `removerIngrediente` compute. */
module Inventory {

  /** An ingredient as stored in the stock (`image` is a full URL) or as returned by the
      autocomplete endpoint (`image` is a file name). */
  datatype Ingredient = Ingredient(id: int, name: string, image: string)

  /** The CDN folder that ingredient image file names are resolved against. */
  const CdnPrefix: string := "https://spoonacular.com/cdn/ingredients_100x100/"

  /** The image the screen falls back to. */
  const PlaceholderImage: string := "https://spoonacular.com/cdn/ingredients_100x100/apple.jpg"

  /** JavaScript's `s || fallback` on a string: only the empty string is falsy. */
  function OrElse(s: string, fallback: string): string
  {
    if s != "" then s else fallback
  }

  /** The stored image URL: the template string `${CdnPrefix}${file}`, or the placeholder when
      that string is falsy. Since the prefix is not empty, the placeholder is never chosen. */
  function ImageUrl(file: string): (url: string)
    ensures url == CdnPrefix + file
  {
    OrElse(CdnPrefix + file, PlaceholderImage)
  }

  /** `stock.some(item => item.id === id)`, scanning from the front. */
  function Contains(stock: seq<Ingredient>, id: int): (b: bool)
    ensures b <==> exists i :: 0 <= i < |stock| && stock[i].id == id
  {
    if stock == [] then false
    else stock[0].id == id || Contains(stock[1..], id)
  }

  /** No two entries of the stock share an id. */
  predicate UniqueIds(stock: seq<Ingredient>)
  {
    forall i, j :: 0 <= i < j < |stock| ==> stock[i].id != stock[j].id
  }

  /** The stock entry built from an autocomplete suggestion. */
  function Entry(suggestion: Ingredient): Ingredient
  {
    Ingredient(suggestion.id, suggestion.name, ImageUrl(suggestion.image))
  }

  /** `adicionarIngrediente` on the list: a suggestion whose id is already stocked changes
      nothing; otherwise exactly one entry is appended, after every earlier one. */
  function Add(stock: seq<Ingredient>, suggestion: Ingredient): (r: seq<Ingredient>)
    ensures Contains(stock, suggestion.id) ==> r == stock
    ensures !Contains(stock, suggestion.id) ==>
              && |r| == |stock| + 1
              && r[..|stock|] == stock
              && r[|stock|] == Ingredient(suggestion.id, suggestion.name, CdnPrefix + suggestion.image)
    ensures Contains(r, suggestion.id)
  {
    if Contains(stock, suggestion.id) then stock else stock + [Entry(suggestion)]
  }

  /** `removerIngrediente` on the list: `stock.filter(item => item.id !== id)`. */
  function Remove(stock: seq<Ingredient>, id: int): (r: seq<Ingredient>)
    ensures forall x :: x in r <==> x in stock && x.id != id
    ensures !Contains(r, id)
    ensures |r| <= |stock|
  {
    if stock == [] then []
    else (if stock[0].id == id then [] else [stock[0]]) + Remove(stock[1..], id)
  }

  /** Adding preserves uniqueness of ids. */
  lemma AddKeepsUnique(stock: seq<Ingredient>, suggestion: Ingredient)
    requires UniqueIds(stock)
    ensures UniqueIds(Add(stock, suggestion))
  {
  }

  /** Adding the same suggestion twice is the same as adding it once. */
  lemma AddIdempotent(stock: seq<Ingredient>, suggestion: Ingredient)
    ensures Add(Add(stock, suggestion), suggestion) == Add(stock, suggestion)
  {
  }

  /** The stock after a sequence of adds, starting from `stock`. */
  function AddAll(stock: seq<Ingredient>, suggestions: seq<Ingredient>): seq<Ingredient>
    decreases |suggestions|
  {
    if suggestions == [] then stock else AddAll(Add(stock, suggestions[0]), suggestions[1..])
  }

  /** Whatever adds are made, in whatever order and with whatever repetitions, the stock keeps
      unique ids, holds every id added, and keeps its earlier entries as a prefix. */
  lemma {:induction false} AddAllDeduplicates(stock: seq<Ingredient>, suggestions: seq<Ingredient>)
    requires UniqueIds(stock)
    ensures UniqueIds(AddAll(stock, suggestions))
    ensures forall k :: 0 <= k < |suggestions| ==> Contains(AddAll(stock, suggestions), suggestions[k].id)
    ensures stock <= AddAll(stock, suggestions)
    decreases |suggestions|
  {
    if suggestions != [] {
      var next := Add(stock, suggestions[0]);
      AddKeepsUnique(stock, suggestions[0]);
      AddAllDeduplicates(next, suggestions[1..]);
      AddAllKeepsIds(next, suggestions[1..], suggestions[0].id);
      forall k | 1 <= k < |suggestions|
        ensures Contains(AddAll(stock, suggestions), suggestions[k].id)
      {
        assert suggestions[k] == suggestions[1..][k - 1];
      }
    }
  }

  /** An id once in the stock stays there under further adds. */
  lemma {:induction false} AddAllKeepsIds(stock: seq<Ingredient>, suggestions: seq<Ingredient>, id: int)
    requires Contains(stock, id)
    ensures Contains(AddAll(stock, suggestions), id)
    decreases |suggestions|
  {
    if suggestions != [] {
      var next := Add(stock, suggestions[0]);
      assert stock <= next;
      assert Contains(next, id) by {
        var i :| 0 <= i < |stock| && stock[i].id == id;
        assert next[i] == stock[i];
      }
      AddAllKeepsIds(next, suggestions[1..], id);
    }
  }

  /** Removing an id that is not in the stock leaves it unchanged. */
  lemma {:induction false} RemoveAbsent(stock: seq<Ingredient>, id: int)
    requires !Contains(stock, id)
    ensures Remove(stock, id) == stock
  {
    if stock != [] {
      RemoveAbsent(stock[1..], id);
      assert [stock[0]] + stock[1..] == stock;
    }
  }

  /** Remove works entry by entry: the kept entries stay in their relative order. */
  lemma {:induction false} RemoveAppend(a: seq<Ingredient>, b: seq<Ingredient>, id: int)
    ensures Remove(a + b, id) == Remove(a, id) + Remove(b, id)
  {
    if a == [] {
      assert a + b == b;
    } else {
      var t := a[1..];
      assert (a + b)[1..] == t + b;
      RemoveAppend(t, b, id);
    }
  }

  /** Removing preserves uniqueness of ids. */
  lemma {:induction false} RemoveKeepsUnique(stock: seq<Ingredient>, id: int)
    requires UniqueIds(stock)
    ensures UniqueIds(Remove(stock, id))
  {
    if stock != [] {
      RemoveKeepsUnique(stock[1..], id);
      var rest := Remove(stock[1..], id);
      forall x | x in rest ensures x.id != stock[0].id {
        var j :| 0 <= j < |stock[1..]| && stock[1..][j] == x;
        assert stock[j + 1] == x;
      }
    }
  }

  /** Remove undoes an add of a new id. */
  lemma RemoveUndoesAdd(stock: seq<Ingredient>, suggestion: Ingredient)
    requires !Contains(stock, suggestion.id)
    ensures Remove(Add(stock, suggestion), suggestion.id) == stock
  {
    RemoveAppend(stock, [Entry(suggestion)], suggestion.id);
    RemoveAbsent(stock, suggestion.id);
    assert Remove([Entry(suggestion)], suggestion.id) == [];
  }

  /** On a stock with unique ids, removing a stocked id drops exactly one entry. */
  lemma {:induction false} RemoveStockedDropsOne(stock: seq<Ingredient>, id: int)
    requires UniqueIds(stock)
    requires Contains(stock, id)
    ensures |Remove(stock, id)| == |stock| - 1
  {
    if stock[0].id == id {
      assert !Contains(stock[1..], id) by {
        forall j | 0 <= j < |stock[1..]| ensures stock[1..][j].id != id {
          assert stock[1..][j] == stock[j + 1];
        }
      }
      RemoveAbsent(stock[1..], id);
    } else {
      assert UniqueIds(stock[1..]);
      RemoveStockedDropsOne(stock[1..], id);
    }
  }

  /** A change the user makes to the stock: pressing a suggestion or a trash icon. */
  datatype Change = Added(suggestion: Ingredient) | Removed(id: int)

  /** The stock after a sequence of changes, oldest first. */
  function ApplyAll(stock: seq<Ingredient>, changes: seq<Change>): seq<Ingredient>
    decreases |changes|
  {
    if changes == [] then stock
    else
      var before := ApplyAll(stock, changes[..|changes| - 1]);
      match changes[|changes| - 1]
      case Added(suggestion) => Add(before, suggestion)
      case Removed(id) => Remove(before, id)
  }

  /** Any sequence of adds and removes keeps unique ids unique. */
  lemma {:induction false} ApplyAllKeepsUnique(stock: seq<Ingredient>, changes: seq<Change>)
    requires UniqueIds(stock)
    ensures UniqueIds(ApplyAll(stock, changes))
    decreases |changes|
  {
    if changes != [] {
      var before := ApplyAll(stock, changes[..|changes| - 1]);
      ApplyAllKeepsUnique(stock, changes[..|changes| - 1]);
      match changes[|changes| - 1]
      case Added(suggestion) => AddKeepsUnique(before, suggestion);
      case Removed(id) => RemoveKeepsUnique(before, id);
    }
  }
}
