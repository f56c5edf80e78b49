/** The records of types.ts, plus the display defaults the screens apply to fields the
    provider may leave out. Numbers are modelled as integers; a field the response schema
    does not require is an `Option`, and an absent string field that the schema requires is
    the empty string. */
module Types {
  import opened Common

  datatype Ingredient = Ingredient(item: string, amount: string)

  datatype Step = Step(order: int, instruction: string, tip: Option<string>)

  /** 'Fácil' | 'Media' | 'Avanzada'. */
  datatype Difficulty = Facil | Media | Avanzada

  datatype Recipe = Recipe(
    id: string,
    title: string,
    description: string,
    prepTime: string,
    cookTime: string,
    servings: int,
    difficulty: Difficulty,
    calories: Option<int>,
    ingredients: seq<Ingredient>,
    steps: seq<Step>,
    tags: seq<string>,
    imageUrl: string)

  datatype Lesson = Lesson(
    title: string,
    objective: string,
    estimatedTime: Option<string>,
    difficulty: Option<string>,
    theory: string,
    practicalSteps: seq<Step>,
    proTips: seq<string>)

  /** 'home' | 'details' | 'search' | 'chef' | 'academy'. */
  datatype View = HomeView | DetailsView | SearchView | ChefView | AcademyView

  datatype Role = User | Model

  datatype ChatMessage = ChatMessage(role: Role, text: string)

  /** The nutrition report of the nutrition response schema; `analyzeNutrition` is typed `any`. */
  datatype Macros = Macros(protein: Option<string>, carbs: Option<string>, fats: Option<string>)

  datatype Nutrition = Nutrition(score: int, summary: string, advice: string, macros: Option<Macros>)

  /** `step.order || idx + 1`: the number shown beside the step at position `idx`, which is
      never 0 and is the position counted from 1 when the provider sent no order. */
  function StepBadge(step: Step, idx: nat): (n: int)
    ensures n != 0
    ensures step.order != 0 ==> n == step.order
    ensures step.order == 0 ==> n == idx + 1 && n >= 1
  {
    if step.order != 0 then step.order else idx + 1
  }
}
