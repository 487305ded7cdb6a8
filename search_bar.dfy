/** The recipe search box on the home screen: a debounced text search whose results fall back
    to two bundled suggestions, and the rule that decides whether the list is shown. */
module SearchBar {
  import opened Outcomes
  import Debounce
  import opened JsText

  /** One recipe search result. */
  datatype RecipeHit = RecipeHit(id: int, title: string, image: string)

  /** Milliseconds of quiet after the last change of `query` before the search runs. */
  const SearchDelay: nat := 600

  /** The search runs only for a query whose `length` (in UTF-16 units) exceeds this. */
  const MinSearchLength: nat := 1

  /** The two suggestions shown when there is nothing better. */
  const InitialSuggestions: seq<RecipeHit> := [
    RecipeHit(1, "Noodles", "https://spoonacular.com/recipeImages/123-312x231.jpg"),
    RecipeHit(2, "Pasta", "https://spoonacular.com/recipeImages/456-312x231.jpg")
  ]

  /** The list a finished search leaves: the results when there is at least one, the initial
      suggestions after an empty answer or an error. Never empty. */
  function Settle(outcome: Remote<seq<RecipeHit>>): (r: seq<RecipeHit>)
    ensures |r| > 0
    ensures outcome.Success? && outcome.data != [] ==> r == outcome.data
    ensures outcome.Failure? || outcome.data == [] ==> r == InitialSuggestions
  {
    if outcome.Success? && |outcome.data| > 0 then outcome.data else InitialSuggestions
  }

  /** What the box renders below the text field. */
  datatype View = Spinner | ResultList(items: seq<RecipeHit>) | NoList

  /** The render condition: a spinner while loading, otherwise the list when suggestions are
      enabled, the query is longer than one character and there is something to show. */
  function Render(loading: bool, showSuggestions: bool, query: string, resultados: seq<RecipeHit>): (v: View)
    ensures v.Spinner? <==> loading
    ensures v.ResultList? <==> !loading && showSuggestions && Length(query) > MinSearchLength && |resultados| > 0
    ensures v.ResultList? ==> v.items == resultados
  {
    if loading then Spinner
    else if showSuggestions && Length(query) > MinSearchLength && |resultados| > 0 then ResultList(resultados)
    else NoList
  }

  /** A query of one character outside the Basic Multilingual Plane (such as U+1F345) is already two
      UTF-16 units long, so whatever results there are get listed. */
  lemma AstralQueryIsLongEnough(c: char, resultados: seq<RecipeHit>)
    requires (c as int) >= AstralStart
    requires resultados != []
    ensures Render(false, true, [c], resultados) == ResultList(resultados)
  {
    AstralCountsTwo(c);
  }

  class Box {
    var query: string
    var resultados: seq<RecipeHit>
    var loading: bool
    var showSuggestions: bool
    /** The timer armed by the effect that depends on `query`. */
    var timer: Debounce.Timer
    /** Milliseconds since the box mounted. */
    var now: nat
    /** Searches sent and not yet answered. */
    var inFlight: nat
    /** Every search sent, by its `query` parameter, oldest first. */
    var searches: seq<string>

    /** The state the debounce effect works on. */
    function Debounced(): Debounce.Clock
      reads this
    {
      Debounce.Clock(query, timer, now)
    }

    /** What the box shows now. */
    function Shown(): View
      reads this
    {
      Render(loading, showSuggestions, query, resultados)
    }

    /** Mounting: initial state, and the debounce effect, which runs once on mount, has armed
        a timer. */
    constructor()
      ensures query == "" && resultados == [] && !loading && showSuggestions
      ensures timer == Debounce.Pending(SearchDelay) && now == 0
      ensures inFlight == 0 && searches == []
    {
      query, resultados, loading, showSuggestions := "", [], false, true;
      timer, now := Debounce.Pending(SearchDelay), 0;
      inFlight, searches := 0, [];
    }

    /** `onChangeText`: the new text, and the debounce effect re-armed if the text changed. */
    method SetQuery(text: string)
      modifies this
      ensures query == text
      ensures Debounced() == Debounce.Step(old(Debounced()), Debounce.Type(text), SearchDelay).0
      ensures text != old(query) ==> timer == Debounce.Pending(now + SearchDelay)
      ensures text == old(query) ==> timer == old(timer)
      ensures resultados == old(resultados) && loading == old(loading)
      ensures showSuggestions == old(showSuggestions)
      ensures inFlight == old(inFlight) && searches == old(searches)
    {
      if text != query {
        query := text;
        timer := Debounce.Pending(now + SearchDelay);
      }
    }

    /** Time passes. If the pending timer comes due, its callback runs with the current query:
        a query longer than one character sends one search and sets `loading`; a shorter one
        puts the initial suggestions in the list. */
    method Advance(ms: nat)
      modifies this
      ensures Debounced() == Debounce.Step(old(Debounced()), Debounce.Wait(ms), SearchDelay).0
      ensures showSuggestions == old(showSuggestions)
      ensures var fired := Debounce.Step(old(Debounced()), Debounce.Wait(ms), SearchDelay).1;
              if fired.None? then
                resultados == old(resultados) && loading == old(loading)
                && inFlight == old(inFlight) && searches == old(searches)
              else if Length(fired.value) > MinSearchLength then
                fired.value == query
                && searches == old(searches) + [query] && inFlight == old(inFlight) + 1
                && loading && resultados == old(resultados)
              else
                resultados == InitialSuggestions && loading == old(loading)
                && inFlight == old(inFlight) && searches == old(searches)
    {
      now := now + ms;
      if timer.Pending? && timer.deadline <= now {
        timer := Debounce.Idle;
        if Length(query) > MinSearchLength {
          loading := true;
          searches := searches + [query];
          inFlight := inFlight + 1;
        } else {
          resultados := InitialSuggestions;
        }
      }
    }

    /** A search response arrives and is applied, whichever search it answers; `loading` ends
        either way and the list is never left empty. */
    method SearchDone(outcome: Remote<seq<RecipeHit>>)
      requires inFlight > 0
      modifies this
      ensures resultados == Settle(outcome) && |resultados| > 0
      ensures !loading && inFlight == old(inFlight) - 1
      ensures Debounced() == old(Debounced()) && showSuggestions == old(showSuggestions)
      ensures searches == old(searches)
    {
      resultados := Settle(outcome);
      loading := false;
      inFlight := inFlight - 1;
    }

    /** `onFocus` of the text field: suggestions are enabled again. */
    method Focus()
      modifies this
      ensures showSuggestions
      ensures Debounced() == old(Debounced()) && resultados == old(resultados) && loading == old(loading)
      ensures inFlight == old(inFlight) && searches == old(searches)
    {
      showSuggestions := true;
    }

    /** Pressing a result: the screen navigates to that recipe's details and the list is hidden. */
    method Select(hit: RecipeHit) returns (recipeId: int)
      modifies this
      ensures recipeId == hit.id
      ensures !showSuggestions && !Shown().ResultList?
      ensures Debounced() == old(Debounced()) && resultados == old(resultados) && loading == old(loading)
      ensures inFlight == old(inFlight) && searches == old(searches)
    {
      recipeId := hit.id;
      showSuggestions := false;
    }
  }

  /** Typing "pa", "pas", "past" 100 ms apart: one search for "past" 600 ms after the last
      keystroke, an empty answer brings back the initial suggestions, which are listed. */
  method SearchScenario()
  {
    var box := new Box();
    box.SetQuery("pa");
    box.Advance(100);
    box.SetQuery("pas");
    box.Advance(100);
    box.SetQuery("past");
    BmpLength("past");
    box.Advance(599);
    assert box.searches == [];
    box.Advance(1);
    assert box.searches == ["past"] && box.Shown() == Spinner;
    box.SearchDone(Success([]));
    assert box.resultados == InitialSuggestions;
    assert box.Shown() == ResultList(InitialSuggestions);
    var id := box.Select(InitialSuggestions[1]);
    assert id == 2 && box.Shown() == NoList;
    box.Focus();
    assert box.Shown() == ResultList(InitialSuggestions);
  }
}
