/** The search screen of App.tsx: the recipe cache keyed by the normalised query, the
    fetch on a miss, the search form's guard and the pantry results. Each awaited
    `fetchRecipesByQuery` is the `Outcome` it settles with; the queries handed to it are
    recorded in `fetched`, in order. */
module App {
  import opened Common
  import opened Strings
  import opened Types

  /** The query loaded when the screen mounts. */
  const InitialQuery: string := "Platos gourmet de temporada con presentación elegante"

  /** The label shown as the search query after a pantry scan. */
  const PantryLabel: string := "Basado en tu despensa 📸"

  /** `query.trim().toLowerCase()`: the cache key of a query. Only blank queries have the
      empty key. */
  function RecipeKey(query: string): (key: string)
    ensures key == [] <==> IsBlank(query)
  {
    ToLower(Trim(query))
  }

  /** A string that is its own normalisation, as every cache key is. */
  ghost predicate IsKey(key: string)
  {
    RecipeKey(key) == key
  }

  /** Keys carry no surrounding blanks and no capitals, so normalising a key gives it back. */
  lemma RecipeKeyNormalised(query: string)
    ensures Trim(RecipeKey(query)) == RecipeKey(query)
    ensures ToLower(RecipeKey(query)) == RecipeKey(query)
    ensures IsKey(RecipeKey(query))
  {
    var t := Trim(query);
    TrimToLower(t);
    TrimIdempotent(query);
    ToLowerIdempotent(t);
  }

  /** Queries that differ only in surrounding blanks or in case share one cache entry. */
  lemma EquivalentQueriesShareKey(query: string, before: string, after: string)
    requires IsBlank(before) && IsBlank(after)
    ensures RecipeKey(before + query + after) == RecipeKey(query)
    ensures RecipeKey(ToLower(query)) == RecipeKey(query)
  {
    TrimPadded(before, query, after);
    TrimToLower(query);
    ToLowerIdempotent(Trim(query));
  }

  /** The source's own lookup `if (cache.current[key])` also succeeds for a search for
      "constructor": that key names a member every object inherits, so on an empty cache the
      search issues no fetch and the screen is handed a function instead of recipes. */
  lemma InheritedKeyHitsAsWritten(empty: map<string, seq<Recipe>>)
    requires empty == map[]
    ensures RecipeKey("constructor") == "constructor"
    ensures HitAsWritten(empty, RecipeKey("constructor")) && !Hit(empty, RecipeKey("constructor"))
  {
    TrimUntouched("constructor");
    ToLowerFixesLower("constructor");
  }

  class SearchScreen {
    var view: View
    var searchQuery: string
    var recipes: seq<Recipe>
    var selectedRecipe: Option<Recipe>
    var loading: bool
    var cache: map<string, seq<Recipe>>
    /** The queries handed to `fetchRecipesByQuery`, oldest first. */
    var fetched: seq<string>

    /** Every cache key is a normalised query. */
    ghost predicate Valid()
      reads this
    {
      forall key :: key in cache ==> IsKey(key)
    }

    /** The state before the mount effect runs. */
    constructor ()
      ensures Valid()
      ensures view == HomeView && searchQuery == "" && recipes == [] && selectedRecipe == None
      ensures !loading && cache == map[] && fetched == []
    {
      view, searchQuery, recipes, selectedRecipe := HomeView, "", [], None;
      loading, cache, fetched := false, map[], [];
    }

    /** What one `loadRecipes(query)` does to the recipes, the cache, the loading flag and
        the fetch log, the fetch settling with `outcome`. */
    twostate predicate Loaded(query: string, outcome: Outcome<seq<Recipe>>)
      reads this
    {
      var key := RecipeKey(query);
      if Hit(old(cache), key) then
        && recipes == old(cache)[key] && cache == old(cache)
        && loading == old(loading) && fetched == old(fetched)
      else
        && fetched == old(fetched) + [query] && !loading
        && (outcome.Ok? ==> cache == old(cache)[key := outcome.value] && recipes == outcome.value)
        && (outcome.Failed? ==> cache == old(cache) && recipes == old(recipes))
    }

    /** `loadRecipes`: a hit shows the cached list without fetching; a miss fetches the raw
        query, and a successful fetch is stored under the key and shown. */
    method LoadRecipes(query: string, outcome: Outcome<seq<Recipe>>)
      requires Valid()
      modifies this
      ensures Valid() && Loaded(query, outcome)
      ensures view == old(view) && searchQuery == old(searchQuery) && selectedRecipe == old(selectedRecipe)
    {
      var key := RecipeKey(query);
      if Hit(cache, key) {
        recipes := cache[key];
        return;
      }
      loading := true;
      fetched := fetched + [query];
      match outcome {
        case Ok(data) =>
          RecipeKeyNormalised(query);
          cache := cache[key := data];
          recipes := data;
        case Failed =>
      }
      loading := false;
    }

    /** The mount effect: load the initial query. */
    method Mount(outcome: Outcome<seq<Recipe>>)
      requires Valid()
      modifies this
      ensures Valid() && Loaded(InitialQuery, outcome)
      ensures view == old(view) && searchQuery == old(searchQuery) && selectedRecipe == old(selectedRecipe)
    {
      LoadRecipes(InitialQuery, outcome);
    }

    /** The search box's `onChange`. */
    method SetSearchQuery(text: string)
      modifies this`searchQuery
      ensures searchQuery == text
    {
      searchQuery := text;
    }

    /** `handleSearch`: a blank query does nothing; otherwise load it and show the results. */
    method HandleSearch(outcome: Outcome<seq<Recipe>>)
      requires Valid()
      modifies this
      ensures Valid()
      ensures IsBlank(old(searchQuery)) ==> unchanged(this)
      ensures !IsBlank(old(searchQuery)) ==>
        Loaded(old(searchQuery), outcome) && view == SearchView &&
        searchQuery == old(searchQuery) && selectedRecipe == old(selectedRecipe)
    {
      if Trim(searchQuery) != "" {
        LoadRecipes(searchQuery, outcome);
        view := SearchView;
      }
    }

    /** A suggested-query button: show it in the search box, load it and show the results. */
    method PickSuggestion(query: string, outcome: Outcome<seq<Recipe>>)
      requires Valid()
      modifies this
      ensures Valid() && Loaded(query, outcome)
      ensures searchQuery == query && view == SearchView && selectedRecipe == old(selectedRecipe)
    {
      searchQuery := query;
      LoadRecipes(query, outcome);
      view := SearchView;
    }

    /** `handlePantryResults`: show the pantry recipes under the pantry label, bypassing the cache. */
    method HandlePantryResults(pantryRecipes: seq<Recipe>)
      requires Valid()
      modifies this`recipes, this`view, this`searchQuery
      ensures Valid()
      ensures recipes == pantryRecipes && view == SearchView && searchQuery == PantryLabel
    {
      recipes := pantryRecipes;
      view := SearchView;
      searchQuery := PantryLabel;
    }

    /** `handleRecipeClick`: open the details of one recipe. */
    method HandleRecipeClick(recipe: Recipe)
      modifies this`selectedRecipe, this`view
      ensures selectedRecipe == Some(recipe) && view == DetailsView
    {
      selectedRecipe := Some(recipe);
      view := DetailsView;
    }

    /** The logo: back to the home view with an empty search box. */
    method GoHome()
      modifies this`view, this`searchQuery
      ensures view == HomeView && searchQuery == ""
    {
      view := HomeView;
      searchQuery := "";
    }

    /** The header's "Inicio" and "Academia" buttons and the details screen's `onBack`:
        only the view changes, and the search box keeps its text. */
    method ShowView(target: View)
      modifies this`view
      ensures view == target
    {
      view := target;
    }

    /** The `onLoading` callback handed to the pantry scanner. */
    method SetLoading(isLoading: bool)
      modifies this`loading
      ensures loading == isLoading
    {
      loading := isLoading;
    }
  }

  /** What the normalised keys of `Valid` buy: every stored list can be found again, since
      searching for its own key, padded with blanks on either side, lands on that very entry. */
  lemma StoredEntriesReachable(screen: SearchScreen, key: string, before: string, after: string)
    requires screen.Valid() && key in screen.cache
    requires IsBlank(before) && IsBlank(after)
    ensures Hit(screen.cache, RecipeKey(before + key + after))
    ensures RecipeKey(before + key + after) == key
  {
    EquivalentQueriesShareKey(key, before, after);
  }

  /** After a successful miss, loading any equivalent query is a hit: one fetch in all,
      and the second load shows the same list whatever its own fetch would have given. */
  method RepeatedQueryFetchesOnce(screen: SearchScreen, first: string, second: string,
                                  data: seq<Recipe>, secondOutcome: Outcome<seq<Recipe>>)
    requires screen.Valid()
    requires RecipeKey(first) == RecipeKey(second) && RecipeKey(first) !in screen.cache
    modifies screen
    ensures screen.Valid()
    ensures screen.fetched == old(screen.fetched) + [first]
    ensures screen.recipes == data && screen.cache == old(screen.cache)[RecipeKey(first) := data]
    ensures !screen.loading
  {
    screen.LoadRecipes(first, Ok(data));
    screen.LoadRecipes(second, secondOutcome);
  }
}
