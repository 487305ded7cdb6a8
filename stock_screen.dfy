/** The stock screen: its state fields, the load and save effects, the debounced ingredient
    autocomplete and the add/remove handlers. */
module StockScreen {
  import opened Outcomes
  import opened Inventory
  import opened Storage
  import Debounce
  import opened JsText

  /** Milliseconds of quiet after the last change of `query` before the autocomplete runs. */
  const LookupDelay: nat := 500

  /** The autocomplete runs only for a query whose `length` (in UTF-16 units) exceeds this. */
  const MinLookupLength: nat := 2

  class Screen {
    var query: string
    var estoque: seq<Ingredient>
    var suggestions: seq<Ingredient>
    var loading: bool
    /** The timer armed by the effect that depends on `query`. */
    var timer: Debounce.Timer
    /** Milliseconds since the screen mounted. */
    var now: nat
    /** Autocomplete requests sent and not yet answered. */
    var inFlight: nat
    /** Every autocomplete request sent, by its `query` parameter, oldest first. */
    var lookups: seq<string>
    const store: Store

    /** The state the debounce effect works on. */
    function Debounced(): Debounce.Clock
      reads this
    {
      Debounce.Clock(query, timer, now)
    }

    /** Mounting: all state at its initial value, and the debounce effect, which runs once on
        mount, has armed a timer. The load effect is the separate method `Load`. */
    constructor(store: Store)
      ensures this.store == store
      ensures query == "" && estoque == [] && suggestions == [] && !loading
      ensures timer == Debounce.Pending(LookupDelay) && now == 0
      ensures inFlight == 0 && lookups == []
    {
      this.store := store;
      query, estoque, suggestions, loading := "", [], [], false;
      timer, now := Debounce.Pending(LookupDelay), 0;
      inFlight, lookups := 0, [];
    }

    /** The load effect: a decoded list replaces the stock; an absent or unparsable item keeps
        the current (initially empty) stock. Writing the loaded list back, as the save effect
        then does, leaves the item as it was. */
    method Load()
      modifies this
      ensures estoque == if store.item.Saved? then store.item.items else old(estoque)
      ensures query == old(query) && suggestions == old(suggestions) && loading == old(loading)
      ensures Debounced() == old(Debounced()) && inFlight == old(inFlight) && lookups == old(lookups)
    {
      match store.item
      case Saved(items) => estoque := items;
      case Absent =>
      case Unparsable =>
    }

    /** `onChangeText`: the new text, and the debounce effect re-armed if the text changed. */
    method SetQuery(text: string)
      modifies this
      ensures query == text
      ensures Debounced() == Debounce.Step(old(Debounced()), Debounce.Type(text), LookupDelay).0
      ensures text != old(query) ==> timer == Debounce.Pending(now + LookupDelay)
      ensures text == old(query) ==> timer == old(timer)
      ensures estoque == old(estoque) && suggestions == old(suggestions) && loading == old(loading)
      ensures inFlight == old(inFlight) && lookups == old(lookups)
    {
      if text != query {
        query := text;
        timer := Debounce.Pending(now + LookupDelay);
      }
    }

    /** Time passes. If the pending timer comes due, its callback runs with the current query
        (every change of `query` replaced the timer): a query longer than two characters sends
        one autocomplete request and sets `loading`; a shorter one clears the suggestions. */
    method Advance(ms: nat)
      modifies this
      ensures Debounced() == Debounce.Step(old(Debounced()), Debounce.Wait(ms), LookupDelay).0
      ensures estoque == old(estoque)
      ensures var fired := Debounce.Step(old(Debounced()), Debounce.Wait(ms), LookupDelay).1;
              if fired.None? then
                suggestions == old(suggestions) && loading == old(loading)
                && inFlight == old(inFlight) && lookups == old(lookups)
              else if Length(fired.value) > MinLookupLength then
                fired.value == query
                && lookups == old(lookups) + [query] && inFlight == old(inFlight) + 1
                && loading && suggestions == old(suggestions)
              else
                suggestions == [] && loading == old(loading)
                && inFlight == old(inFlight) && lookups == old(lookups)
    {
      now := now + ms;
      if timer.Pending? && timer.deadline <= now {
        timer := Debounce.Idle;
        if Length(query) > MinLookupLength {
          loading := true;
          lookups := lookups + [query];
          inFlight := inFlight + 1;
        } else {
          suggestions := [];
        }
      }
    }

    /** An autocomplete response arrives and is applied, whichever request it answers: the
        returned list, or no suggestions after an error; `loading` ends either way. */
    method LookupDone(outcome: Remote<seq<Ingredient>>)
      requires inFlight > 0
      modifies this
      ensures suggestions == if outcome.Success? then outcome.data else []
      ensures !loading && inFlight == old(inFlight) - 1
      ensures query == old(query) && estoque == old(estoque)
      ensures Debounced() == old(Debounced()) && lookups == old(lookups)
    {
      suggestions := if outcome.Success? then outcome.data else [];
      loading := false;
      inFlight := inFlight - 1;
    }

    /** `adicionarIngrediente`, followed by the save effect (`persisted` says whether the
        storage write succeeded; a failed write is only logged). A suggestion whose id is
        already stocked changes nothing at all. A new one is appended, the query is emptied
        (re-arming the debounce timer if it was not empty) and the suggestions are cleared. */
    method Add(suggestion: Ingredient, persisted: bool)
      modifies this, store
      ensures estoque == Inventory.Add(old(estoque), suggestion)
      ensures Contains(old(estoque), suggestion.id) ==> unchanged(this) && unchanged(store)
      ensures !Contains(old(estoque), suggestion.id) ==>
                && query == "" && suggestions == []
                && Debounced() == Debounce.Step(old(Debounced()), Debounce.Type(""), LookupDelay).0
                && store.item == (if persisted then Saved(estoque) else old(store.item))
      ensures loading == old(loading) && inFlight == old(inFlight) && lookups == old(lookups)
    {
      if !Contains(estoque, suggestion.id) {
        estoque := estoque + [Entry(suggestion)];
        SetQuery("");
        suggestions := [];
        if persisted {
          store.item := Saved(estoque);
        }
      }
    }

    /** `removerIngrediente`, followed by the save effect (the filtered list is a new array,
        so the effect runs even when nothing was removed). */
    method Remove(id: int, persisted: bool)
      modifies this, store
      ensures estoque == Inventory.Remove(old(estoque), id)
      ensures store.item == if persisted then Saved(estoque) else old(store.item)
      ensures query == old(query) && suggestions == old(suggestions) && loading == old(loading)
      ensures Debounced() == old(Debounced()) && inFlight == old(inFlight) && lookups == old(lookups)
    {
      estoque := Inventory.Remove(estoque, id);
      if persisted {
        store.item := Saved(estoque);
      }
    }
  }

  /** Typing "t", "to", "tom" 100 ms apart and then waiting: nothing is sent 499 ms after the
      last keystroke, one request for "tom" at 500 ms, and nothing more afterwards. */
  method TypingScenario()
  {
    var store := new Store(Absent);
    var screen := new Screen(store);
    screen.SetQuery("t");
    screen.Advance(100);
    screen.SetQuery("to");
    screen.Advance(100);
    screen.SetQuery("tom");
    BmpLength("tom");
    screen.Advance(499);
    assert screen.lookups == [];
    screen.Advance(1);
    assert screen.lookups == ["tom"] && screen.loading;
    screen.Advance(5000);
    assert screen.lookups == ["tom"];
    screen.LookupDone(Failure);
    assert screen.suggestions == [] && !screen.loading;
  }

  /** Adding a stocked id is a no-op, adding a new one clears the box, and removing it again
      restores the stock, which the storage item mirrors after each successful write. */
  method AddRemoveScenario(tomato: Ingredient)
  {
    var store := new Store(Absent);
    var screen := new Screen(store);
    screen.Load();
    assert screen.estoque == [];
    screen.SetQuery("tom");
    screen.Add(tomato, true);
    assert screen.estoque == [Entry(tomato)] && screen.query == "" && screen.suggestions == [];
    assert store.item == Saved([Entry(tomato)]);
    screen.Add(tomato, true);
    assert screen.estoque == [Entry(tomato)];
    RemoveUndoesAdd([], tomato);
    screen.Remove(tomato.id, true);
    assert screen.estoque == [] && store.item == Saved([]);
  }
}
