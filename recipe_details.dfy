/** The details screen of components/RecipeDetails.tsx: the two progress lists toggled by
    the reader, the transformation of the recipe by a free-text request, the nutrition
    analysis made when the screen opens, and the values shown for a missing calorie count or
    step number. Each awaited service call is the `Outcome` it settles with; the arguments
    handed to the service are recorded, in order. */
module RecipeDetails {
  import opened Common
  import opened Strings
  import opened Types

  /** The alert shown when a transformation fails. */
  const TransformAlert: string := "No pude transformar la receta. Intenta con otra petición."

  /** The calories shown when the recipe has none (or zero). */
  const DefaultCalories: int := 350

  /** The quick requests offered under the transformation input. */
  const TransformTags: seq<string> := ["Vegana", "Baja en carbos", "Para niños", "Sustituir ingredientes"]

  /** Each quick request passes the blank guard of `handleTransform`, so picking a tag and
      sending it always reaches the service. */
  lemma TransformTagsNotBlank(tag: string)
    requires tag in TransformTags
    ensures !IsBlank(tag) && tag != ""
  {
    assert !IsSpace(tag[0]);
  }

  /** Every element occurs at most once. */
  predicate NoDup<T(==)>(xs: seq<T>)
  {
    forall i, j :: 0 <= i < j < |xs| ==> xs[i] != xs[j]
  }

  /** `xs.filter(i => i !== x)`: every occurrence of `x` dropped, everything else kept. */
  function Without<T(==,!new)>(xs: seq<T>, x: T): (r: seq<T>)
    ensures x !in r
    ensures multiset(r) == multiset(xs)[x := 0]
    ensures forall y :: y != x ==> (y in r <==> y in xs)
    ensures NoDup(xs) ==> NoDup(r)
  {
    if xs == [] then []
    else
      var rest := Without(xs[1..], x);
      assert xs == [xs[0]] + xs[1..];
      if xs[0] == x then rest
      else
        assert NoDup(xs) ==> NoDup(xs[1..]) && xs[0] !in rest by {
          if NoDup(xs) {
            assert forall j :: 1 <= j < |xs| ==> xs[j] != xs[0];
            assert xs[0] !in xs[1..];
          }
        }
        [xs[0]] + rest
  }

  /** `filter` works element by element: dropping `x` from a concatenation drops it from
      each part, so what is kept stays in its original order. */
  lemma {:induction false} WithoutConcat<T(!new)>(xs: seq<T>, ys: seq<T>, x: T)
    ensures Without(xs + ys, x) == Without(xs, x) + Without(ys, x)
  {
    if xs != [] {
      assert (xs + ys)[1..] == xs[1..] + ys;
      WithoutConcat(xs[1..], ys, x);
    } else {
      assert xs + ys == ys;
    }
  }

  /** Dropping an element that is absent changes nothing. */
  lemma {:induction false} WithoutAbsent<T(!new)>(xs: seq<T>, x: T)
    requires x !in xs
    ensures Without(xs, x) == xs
  {
    if xs != [] {
      assert x !in xs[1..];
      WithoutAbsent(xs[1..], x);
    }
  }

  /** Dropping `x` from `xs + [x]` gives `xs` back when `x` was not in `xs`. */
  lemma {:induction false} WithoutAppended<T(!new)>(xs: seq<T>, x: T)
    requires x !in xs
    ensures Without(xs + [x], x) == xs
  {
    if xs == [] {
      assert [x][1..] == [];
    } else {
      assert (xs + [x])[1..] == xs[1..] + [x];
      WithoutAppended(xs[1..], x);
    }
  }

  /** `prev.includes(x) ? prev.filter(i => i !== x) : [...prev, x]`: membership of `x`
      flips, membership of every other element is kept, and a new element goes at the end. */
  function Toggle<T(==,!new)>(xs: seq<T>, x: T): (r: seq<T>)
    ensures x in r <==> x !in xs
    ensures forall y :: y != x ==> (y in r <==> y in xs)
    ensures x in xs ==> multiset(r) == multiset(xs)[x := 0]
    ensures x !in xs ==> |r| == |xs| + 1 && r[..|xs|] == xs && r[|xs|] == x
  {
    if x in xs then Without(xs, x) else xs + [x]
  }

  /** Toggling keeps a list free of duplicates. */
  lemma TogglePreservesNoDup<T(!new)>(xs: seq<T>, x: T)
    requires NoDup(xs)
    ensures NoDup(Toggle(xs, x))
  {
  }

  /** Toggling an absent element twice gives the original list back. */
  lemma ToggleTwiceRestores<T(!new)>(xs: seq<T>, x: T)
    requires x !in xs
    ensures Toggle(Toggle(xs, x), x) == xs
  {
    var once := Toggle(xs, x);
    assert once == xs + [x];
    WithoutAppended(xs, x);
  }

  /** `markedIngredients.includes(ing.item)`: rows are marked by their item name. */
  predicate IngredientMarked(marked: seq<string>, ing: Ingredient)
  {
    ing.item in marked
  }

  /** Clicking a row flips the mark of every row that names the same item, and of no other. */
  lemma SameItemRowsToggleTogether(marked: seq<string>, rows: seq<Ingredient>, clicked: nat)
    requires clicked < |rows|
    ensures forall j :: 0 <= j < |rows| ==>
      (IngredientMarked(Toggle(marked, rows[clicked].item), rows[j]) <==>
        if rows[j].item == rows[clicked].item then !IngredientMarked(marked, rows[j])
        else IngredientMarked(marked, rows[j]))
  {
  }

  /** `recipe.calories || 350`: never zero, and the recipe's own count when it has one. */
  function DisplayedCalories(recipe: Recipe): (shown: int)
    ensures shown != 0
    ensures recipe.calories.Some? && recipe.calories.value != 0 ==> shown == recipe.calories.value
    ensures recipe.calories.None? || recipe.calories.value == 0 ==> shown == DefaultCalories
  {
    if recipe.calories.Some? && recipe.calories.value != 0 then recipe.calories.value else DefaultCalories
  }

  /** One `modifyRecipe(recipe, request)` call. */
  datatype ModifyRequest = ModifyRequest(recipe: Recipe, request: string)

  class RecipeView {
    /** The recipe the screen was opened with. */
    const initialRecipe: Recipe
    var recipe: Recipe
    /** Positions of the steps marked as done. */
    var completedSteps: seq<int>
    /** Item names of the ingredients marked as at hand. */
    var markedIngredients: seq<string>
    var isTransforming: bool
    var transformQuery: string
    var showTransformInput: bool
    var nutrition: Option<Nutrition>
    var isLoadingNutrition: bool
    /** The calls made to `modifyRecipe`, oldest first. */
    var modifyRequests: seq<ModifyRequest>
    /** The recipes handed to `analyzeNutrition`, oldest first. */
    var analyzed: seq<Recipe>
    var alerts: seq<string>

    /** Neither progress list holds an element twice. */
    ghost predicate Valid()
      reads this
    {
      NoDup(completedSteps) && NoDup(markedIngredients)
    }

    /** The state when the screen is opened, before its effect runs. */
    constructor (initial: Recipe)
      ensures Valid()
      ensures initialRecipe == initial && recipe == initial
      ensures completedSteps == [] && markedIngredients == []
      ensures !isTransforming && transformQuery == "" && !showTransformInput
      ensures nutrition == None && !isLoadingNutrition
      ensures modifyRequests == [] && analyzed == [] && alerts == []
    {
      initialRecipe, recipe := initial, initial;
      completedSteps, markedIngredients := [], [];
      isTransforming, transformQuery, showTransformInput := false, "", false;
      nutrition, isLoadingNutrition := None, false;
      modifyRequests, analyzed, alerts := [], [], [];
    }

    /** The effect `loadNutrition`: analyse the recipe the screen was opened with, keep the
        report on success, and end with the loading flag down either way. */
    method LoadNutrition(outcome: Outcome<Nutrition>)
      modifies this`nutrition, this`isLoadingNutrition, this`analyzed
      ensures analyzed == old(analyzed) + [initialRecipe] && !isLoadingNutrition
      ensures outcome.Ok? ==> nutrition == Some(outcome.value)
      ensures outcome.Failed? ==> nutrition == old(nutrition)
    {
      isLoadingNutrition := true;
      analyzed := analyzed + [initialRecipe];
      match outcome {
        case Ok(data) => nutrition := Some(data);
        case Failed =>
      }
      isLoadingNutrition := false;
    }

    /** `toggleStep(index)`. */
    method ToggleStep(index: int)
      requires Valid()
      modifies this`completedSteps
      ensures Valid()
      ensures completedSteps == Toggle(old(completedSteps), index)
    {
      TogglePreservesNoDup(completedSteps, index);
      completedSteps := Toggle(completedSteps, index);
    }

    /** `toggleIngredient(item)`. */
    method ToggleIngredient(item: string)
      requires Valid()
      modifies this`markedIngredients
      ensures Valid()
      ensures markedIngredients == Toggle(old(markedIngredients), item)
    {
      TogglePreservesNoDup(markedIngredients, item);
      markedIngredients := Toggle(markedIngredients, item);
    }

    /** The "Customizar con IA" button. */
    method ToggleTransformInput()
      modifies this`showTransformInput
      ensures showTransformInput == !old(showTransformInput)
    {
      showTransformInput := !showTransformInput;
    }

    /** The transformation input's `onChange`, and each quick-request tag. */
    method SetTransformQuery(text: string)
      modifies this`transformQuery
      ensures transformQuery == text
    {
      transformQuery := text;
    }

    /** `handleTransform`: a blank request changes nothing. Otherwise the current recipe and
        the request as typed go to the service; a new recipe replaces the old one, clears the
        request, hides the input and resets the progress, while a failure only raises the
        alert. The nutrition report is left as it was either way. */
    method Transform(outcome: Outcome<Recipe>)
      requires Valid()
      modifies this
      ensures Valid()
      ensures IsBlank(old(transformQuery)) ==> unchanged(this)
      ensures !IsBlank(old(transformQuery)) ==>
        && modifyRequests == old(modifyRequests) + [ModifyRequest(old(recipe), old(transformQuery))]
        && !isTransforming
        && nutrition == old(nutrition) && isLoadingNutrition == old(isLoadingNutrition)
        && analyzed == old(analyzed)
        && (outcome.Ok? ==>
              && recipe == outcome.value && transformQuery == "" && !showTransformInput
              && completedSteps == [] && markedIngredients == [] && alerts == old(alerts))
        && (outcome.Failed? ==>
              && recipe == old(recipe) && transformQuery == old(transformQuery)
              && showTransformInput == old(showTransformInput)
              && completedSteps == old(completedSteps) && markedIngredients == old(markedIngredients)
              && alerts == old(alerts) + [TransformAlert])
    {
      if Trim(transformQuery) == "" {
        return;
      }
      isTransforming := true;
      modifyRequests := modifyRequests + [ModifyRequest(recipe, transformQuery)];
      match outcome {
        case Ok(newRecipe) =>
          recipe := newRecipe;
          transformQuery := "";
          showTransformInput := false;
          completedSteps := [];
          markedIngredients := [];
        case Failed =>
          alerts := alerts + [TransformAlert];
      }
      isTransforming := false;
    }
  }
}
