/**
 * The home screen: the featured listings, narrowed to one category when a
 * category button other than "Todos" is selected.
 */
module Home {
  import opened Types
  import opened Sieve
  import Opportunities

  /** The titles of the home screen's six category buttons, in order. */
  const Categories: seq<string> := [
    "Todos", "Combate à Fome", "Proteção Animal", "Meio Ambiente", "Educação", "Saúde"
  ]

  /** The screen's state: the featured listings once loaded, the loading
      flag, the selected category and the states fetched alongside. */
  datatype HomeState = HomeState(
    featuredOpportunities: seq<Opportunity>,
    loading: bool,
    selectedCategory: string,
    states: seq<IBGEState>)

  /** Nothing loaded yet, "Todos" selected, loading. */
  function Initial(): (h: HomeState)
    ensures h.selectedCategory == Opportunities.AllCategories
    ensures h.loading && h.featuredOpportunities == [] && h.states == []
  {
    HomeState([], true, "Todos", [])
  }

  /** The load effect: the featured listings and the states are stored and
      loading stops; the selected category is kept. */
  function Loaded(h: HomeState, featured: seq<Opportunity>, statesData: seq<IBGEState>): (h': HomeState)
    ensures h'.featuredOpportunities == featured && h'.states == statesData && !h'.loading
    ensures h'.selectedCategory == h.selectedCategory
  {
    h.(featuredOpportunities := featured, states := statesData, loading := false)
  }

  /** Pressing a category button selects its title and changes nothing else. */
  function PressCategory(h: HomeState, title: string): (h': HomeState)
    ensures h'.selectedCategory == title
    ensures h'.featuredOpportunities == h.featuredOpportunities && h'.loading == h.loading
    ensures h'.states == h.states
  {
    h.(selectedCategory := title)
  }

  /** `filteredOpportunities`: the featured list itself under "Todos",
      otherwise the featured listings of the selected category. */
  function FilteredOpportunities(h: HomeState): (r: seq<Opportunity>)
    ensures h.selectedCategory == "Todos" ==> r == h.featuredOpportunities
    ensures h.selectedCategory != "Todos" ==> forall i | 0 <= i < |r| :: r[i].category == h.selectedCategory
  {
    if h.selectedCategory == "Todos" then h.featuredOpportunities
    else
      var keep := Opportunities.InCategory(h.selectedCategory);
      SelectPasses(h.featuredOpportunities, keep);
      Select(h.featuredOpportunities, keep)
  }

  /** The home list is what the opportunities screen's filter shows for the
      same category with no state and no query. */
  lemma HomeIsCategoryFilter(h: HomeState)
    ensures FilteredOpportunities(h)
            == Opportunities.Filtered(h.featuredOpportunities, h.selectedCategory, "", "")
  {
    var c := h.selectedCategory;
    if c == "Todos" {
      Opportunities.FilteredDefaults(h.featuredOpportunities);
    } else {
      SelectSame(h.featuredOpportunities, Opportunities.InCategory(c), Opportunities.Passing(c, "", ""));
    }
  }

  /** A featured listing is shown exactly when "Todos" is selected or its
      category is the selected one. */
  lemma HomeMember(h: HomeState, x: Opportunity)
    ensures x in FilteredOpportunities(h) <==>
            x in h.featuredOpportunities && (h.selectedCategory == "Todos" || x.category == h.selectedCategory)
  {
    HomeIsCategoryFilter(h);
    Opportunities.FilteredMember(h.featuredOpportunities, h.selectedCategory, "", "", x);
  }

  /** The shown listings keep the featured order: they sit at increasing
      positions of the featured list, exactly the positions whose listing is
      of the selected category (every position under "Todos"). */
  lemma HomeOrder(h: HomeState) returns (idx: seq<nat>)
    ensures |idx| == |FilteredOpportunities(h)|
    ensures forall i, j | 0 <= i < j < |idx| :: idx[i] < idx[j]
    ensures forall i | 0 <= i < |idx| ::
              idx[i] < |h.featuredOpportunities| && FilteredOpportunities(h)[i] == h.featuredOpportunities[idx[i]]
    ensures forall j | 0 <= j < |h.featuredOpportunities| ::
              j in idx <==> h.selectedCategory == "Todos" || h.featuredOpportunities[j].category == h.selectedCategory
  {
    HomeIsCategoryFilter(h);
    idx := Opportunities.FilteredSubsequence(h.featuredOpportunities, h.selectedCategory, "", "");
  }

  /** The six titles are distinct, so at most one button is drawn selected. */
  lemma AtMostOneCategorySelected(h: HomeState)
    ensures forall i, j | 0 <= i < j < |Categories| ::
              !(Opportunities.IsSelected(h.selectedCategory, Categories[i]) && Opportunities.IsSelected(h.selectedCategory, Categories[j]))
  {
    assert forall i, j | 0 <= i < j < |Categories| :: Categories[i] != Categories[j] by {
      assert Categories[0][0] == 'T' && Categories[1][0] == 'C' && Categories[2][0] == 'P';
      assert Categories[3][0] == 'M' && Categories[4][0] == 'E' && Categories[5][0] == 'S';
    }
  }
}
