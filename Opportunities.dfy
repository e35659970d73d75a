/**
 * The opportunities screen: the three-step filter over the loaded listings
 * (category, state, free-text search) and the screen state that drives it.
 */
module Opportunities {
  import opened JsString
  import opened Types
  import opened Listings
  import opened Sieve

  /** The category title that switches the category step off. */
  const AllCategories: string := "Todos"

  /** The titles of the screen's eight category buttons, in order. */
  const Categories: seq<string> := [
    "Todos", "Combate à Fome", "Proteção Animal", "Meio Ambiente",
    "Educação", "Saúde", "Habitação", "Assistência Social"
  ]

  /** `location.split(",")[1]?.trim()`: the trimmed text between the first
      and the second comma, or `undefined` when there is no comma at all. */
  function StateOf(location: string): (r: Option<string>)
    ensures r.Some? <==> ',' in location
  {
    SplitHasSecond(location, ',');
    match At(Split(location, ','), 1)
    case None => None
    case Some(segment) => Some(Trim(segment))
  }

  /** A location with one comma is in the state written after it, trimmed. */
  lemma StateOfOneComma(a: string, b: string)
    requires ',' !in a && ',' !in b
    ensures StateOf(a + "," + b) == Some(Trim(b))
  {
    SplitOnce(a, ',', b);
  }

  /** Only the second piece counts: text after a second comma is ignored. */
  lemma StateOfSecondPiece(a: string, b: string, c: string)
    requires ',' !in a && ',' !in b
    ensures StateOf(a + "," + b + "," + c) == Some(Trim(b))
  {
    assert a + "," + b + "," + c == a + [','] + (b + [','] + c);
    SplitAtFirst(a, ',', b + [','] + c);
    SplitAtFirst(b, ',', c);
  }

  /** A location written "<City>, <ST>" is in state `ST`. */
  lemma StateOfCityState(location: string, city: string, st: string)
    requires location == city + ", " + st
    requires ',' !in city && IsStateCode(st)
    ensures StateOf(location) == Some(st)
  {
    CityState(location, city, st);
  }

  /** The category step's callback: exact, case-sensitive equality. */
  function InCategory(category: string): Opportunity -> bool
  {
    (o: Opportunity) => o.category == category
  }

  /** The state step's callback: the location's state piece is the code. */
  function InState(code: string): Opportunity -> bool
  {
    (o: Opportunity) => StateOf(o.location) == Some(code)
  }

  /** The search step's callback: the query, lower-cased once, occurs in the
      lower-cased title, organization or location. */
  function MatchesQuery(query: string): Opportunity -> bool
  {
    var q := Lower(query);
    (o: Opportunity) => Includes(Lower(o.title), q) || Includes(Lower(o.organization), q) || Includes(Lower(o.location), q)
  }

  /** The screen's filter condition: each step that is switched on holds. */
  predicate Passes(o: Opportunity, category: string, state: string, query: string)
  {
    && (category == AllCategories || InCategory(category)(o))
    && (state == "" || InState(state)(o))
    && (query == "" || MatchesQuery(query)(o))
  }

  function Passing(category: string, state: string, query: string): Opportunity -> bool
  {
    (o: Opportunity) => Passes(o, category, state, query)
  }

  /** What the screen shows for the given selections: the loaded listings
      that pass every step that is switched on, in their loaded order. */
  function Filtered(s: seq<Opportunity>, category: string, state: string, query: string): seq<Opportunity>
  {
    Select(s, Passing(category, state, query))
  }

  /** The filtered list holds each listing that passes every active step,
      as many times as the loaded list does, and nothing else. */
  lemma FilteredCount(s: seq<Opportunity>, category: string, state: string, query: string, x: Opportunity)
    ensures multiset(Filtered(s, category, state, query))[x]
            == if Passes(x, category, state, query) then multiset(s)[x] else 0
  {
    SelectCount(s, Passing(category, state, query), x);
  }

  /** A listing is shown exactly when it is loaded and passes every active
      step: its category is the selected one unless "Todos" is selected, its
      state piece is the selected state when one is selected, and the query
      occurs in its title, organization or location when there is a query. */
  lemma FilteredMember(s: seq<Opportunity>, category: string, state: string, query: string, x: Opportunity)
    ensures x in Filtered(s, category, state, query) <==>
            && x in s
            && (category != AllCategories ==> x.category == category)
            && (state != "" ==> StateOf(x.location) == Some(state))
            && (query != "" ==> MatchesQuery(query)(x))
  {
    SelectMember(s, Passing(category, state, query), x);
  }

  /** With a state selected, a listing whose location has no comma is never shown. */
  lemma FilteredNeedsComma(s: seq<Opportunity>, category: string, state: string, query: string, x: Opportunity)
    requires state != "" && ',' !in x.location
    ensures x !in Filtered(s, category, state, query)
  {
    FilteredMember(s, category, state, query, x);
  }

  /** The filtered list keeps the loaded order: it is the loaded list at
      increasing positions, which are exactly those of the passing listings. */
  lemma FilteredSubsequence(s: seq<Opportunity>, category: string, state: string, query: string)
    returns (idx: seq<nat>)
    ensures |idx| == |Filtered(s, category, state, query)|
    ensures forall i, j | 0 <= i < j < |idx| :: idx[i] < idx[j]
    ensures forall i | 0 <= i < |idx| :: idx[i] < |s| && Filtered(s, category, state, query)[i] == s[idx[i]]
    ensures forall j | 0 <= j < |s| :: j in idx <==> Passes(s[j], category, state, query)
  {
    idx := SelectIndices(s, Passing(category, state, query));
  }

  /** Filtering the filtered list again with the same selections gives it back. */
  lemma FilteredIdempotent(s: seq<Opportunity>, category: string, state: string, query: string)
    ensures Filtered(Filtered(s, category, state, query), category, state, query) == Filtered(s, category, state, query)
  {
    SelectIdempotent(s, Passing(category, state, query));
  }

  /** With "Todos", no state and no query the whole list is shown. */
  lemma FilteredDefaults(s: seq<Opportunity>)
    ensures Filtered(s, AllCategories, "", "") == s
  {
    SelectAll(s, Passing(AllCategories, "", ""));
  }

  /** One step of `filterOpportunities`: filter by `keep` when the step is
      switched on, otherwise pass the list through unchanged. */
  function Step(s: seq<Opportunity>, active: bool, keep: Opportunity -> bool): seq<Opportunity>
  {
    if active then Select(s, keep) else s
  }

  /** The order of the three steps does not matter: running search, then
      state, then category, each only when switched on, gives the same
      list as the screen's order, for every selection. */
  lemma FilteredAnyOrder(s: seq<Opportunity>, category: string, state: string, query: string)
    ensures Step(Step(Step(s, query != "", MatchesQuery(query)), state != "", InState(state)),
                 category != AllCategories, InCategory(category))
            == Filtered(s, category, state, query)
  {
    var byQuery := (o: Opportunity) => query == "" || MatchesQuery(query)(o);
    var byQueryState := (o: Opportunity) => byQuery(o) && (state == "" || InState(state)(o));
    var t1 := Step(s, query != "", MatchesQuery(query));
    if query != "" {
      SelectSame(s, MatchesQuery(query), byQuery);
    } else {
      SelectAll(s, byQuery);
    }
    assert t1 == Select(s, byQuery);
    var t2 := Step(t1, state != "", InState(state));
    if state != "" {
      SelectSelect(s, byQuery, InState(state), byQueryState);
    } else {
      SelectSame(s, byQuery, byQueryState);
    }
    assert t2 == Select(s, byQueryState);
    if category != AllCategories {
      SelectSelect(s, byQueryState, InCategory(category), Passing(category, state, query));
    } else {
      SelectSame(s, byQueryState, Passing(category, state, query));
    }
  }

  /** The search ignores the case of the query: typing it in capitals
      shows the same listings as typing it lower-cased. */
  lemma QueryCaseInsensitive(s: seq<Opportunity>, category: string, state: string, query: string)
    ensures Filtered(s, category, state, Lower(query)) == Filtered(s, category, state, query)
  {
    LowerIdempotent(query);
    SelectSame(s, Passing(category, state, Lower(query)), Passing(category, state, query));
  }

  /** Whether the category button titled `title` is drawn as selected. */
  predicate IsSelected(selectedCategory: string, title: string)
  {
    selectedCategory == title
  }

  /** The category titles are distinct, so at most one button is selected. */
  lemma AtMostOneCategorySelected(selectedCategory: string)
    ensures forall i, j | 0 <= i < j < |Categories| :: !(IsSelected(selectedCategory, Categories[i]) && IsSelected(selectedCategory, Categories[j]))
  {
    assert forall i, j | 0 <= i < j < |Categories| :: Categories[i] != Categories[j] by {
      assert Categories[0][0] == 'T' && Categories[1][0] == 'C' && Categories[2][0] == 'P';
      assert Categories[3][0] == 'M' && Categories[4][0] == 'E' && Categories[5][0] == 'S';
      assert Categories[6][0] == 'H' && Categories[7][0] == 'A';
    }
  }

  /** The screen's state: the loaded listings, what is shown, the loading
      flag, the three selections and the states offered by the state bar. */
  class OpportunitiesScreen {
    var opportunities: seq<Opportunity>
    var filteredOpportunities: seq<Opportunity>
    var loading: bool
    var searchQuery: string
    var selectedCategory: string
    var states: seq<IBGEState>
    var selectedState: string

    /** The effect that re-runs the filter whenever the listings or a
        selection change keeps the shown list current. */
    ghost predicate Valid()
      reads this
    {
      filteredOpportunities == Filtered(opportunities, selectedCategory, selectedState, searchQuery)
    }

    /** Nothing loaded yet, "Todos", no state, no query, loading. */
    constructor ()
      ensures opportunities == [] && filteredOpportunities == [] && states == []
      ensures loading
      ensures selectedCategory == AllCategories && selectedState == "" && searchQuery == ""
      ensures Valid()
    {
      opportunities := [];
      filteredOpportunities := [];
      loading := true;
      searchQuery := "";
      selectedCategory := AllCategories;
      states := [];
      selectedState := "";
    }

    /** `filterOpportunities`: the three steps applied in turn to the loaded
        listings, the result stored as the shown list. */
    method FilterOpportunities()
      modifies this
      ensures filteredOpportunities == Filtered(opportunities, selectedCategory, selectedState, searchQuery)
      ensures opportunities == old(opportunities) && loading == old(loading) && states == old(states)
      ensures searchQuery == old(searchQuery) && selectedCategory == old(selectedCategory)
      ensures selectedState == old(selectedState)
    {
      var filtered := opportunities;
      ghost var s := opportunities;

      if selectedCategory != AllCategories {
        filtered := Filter(filtered, InCategory(selectedCategory));
        SelectSame(s, InCategory(selectedCategory), Passing(selectedCategory, "", ""));
      } else {
        SelectAll(s, Passing(selectedCategory, "", ""));
      }
      assert filtered == Select(s, Passing(selectedCategory, "", ""));

      if selectedState != "" {
        SelectSelect(s, Passing(selectedCategory, "", ""), InState(selectedState), Passing(selectedCategory, selectedState, ""));
        filtered := Filter(filtered, InState(selectedState));
      }
      assert filtered == Select(s, Passing(selectedCategory, selectedState, ""));

      if searchQuery != "" {
        SelectSelect(s, Passing(selectedCategory, selectedState, ""), MatchesQuery(searchQuery), Passing(selectedCategory, selectedState, searchQuery));
        filtered := Filter(filtered, MatchesQuery(searchQuery));
      }

      filteredOpportunities := filtered;
    }

    /** The load effect: store the listings and the states, show the
        listings, stop loading; the filter effect then runs on them. */
    method Load(data: seq<Opportunity>, statesData: seq<IBGEState>)
      modifies this
      ensures opportunities == data && states == statesData && !loading
      ensures searchQuery == old(searchQuery) && selectedCategory == old(selectedCategory)
      ensures selectedState == old(selectedState)
      ensures Valid()
      ensures selectedCategory == AllCategories && selectedState == "" && searchQuery == ""
              ==> filteredOpportunities == data
    {
      opportunities := data;
      filteredOpportunities := data;
      states := statesData;
      loading := false;
      FilterOpportunities();
      FilteredDefaults(data);
    }

    /** `handleStateSelect`: select the state's two-letter code. */
    method SelectState(state: IBGEState)
      modifies this
      ensures selectedState == state.sigla
      ensures opportunities == old(opportunities) && loading == old(loading) && states == old(states)
      ensures searchQuery == old(searchQuery) && selectedCategory == old(selectedCategory)
      ensures Valid()
    {
      selectedState := state.sigla;
      FilterOpportunities();
    }

    /** The "Todos" state button: no state selected, the state step is off. */
    method ClearState()
      modifies this
      ensures selectedState == ""
      ensures opportunities == old(opportunities) && loading == old(loading) && states == old(states)
      ensures searchQuery == old(searchQuery) && selectedCategory == old(selectedCategory)
      ensures Valid()
      ensures filteredOpportunities == Filtered(opportunities, selectedCategory, "", searchQuery)
    {
      selectedState := "";
      FilterOpportunities();
    }

    /** Typing in the search box (and the clear button, with ""). */
    method SetSearchQuery(query: string)
      modifies this
      ensures searchQuery == query
      ensures opportunities == old(opportunities) && loading == old(loading) && states == old(states)
      ensures selectedCategory == old(selectedCategory) && selectedState == old(selectedState)
      ensures Valid()
    {
      searchQuery := query;
      FilterOpportunities();
    }

    /** Pressing a category button: select its title. */
    method SelectCategory(title: string)
      modifies this
      ensures selectedCategory == title
      ensures opportunities == old(opportunities) && loading == old(loading) && states == old(states)
      ensures searchQuery == old(searchQuery) && selectedState == old(selectedState)
      ensures Valid()
    {
      selectedCategory := title;
      FilterOpportunities();
    }
  }
}
