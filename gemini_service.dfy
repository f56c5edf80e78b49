/** What services/geminiService.ts does with a provider response once the call has
    settled: the default text for a missing answer, the single JSON parse, and the image
    URL every freshly fetched recipe is given. The network call itself and JSON.parse are
    not modelled: the settled call is a `Reply`, and JSON.parse (with the shape the caller
    expects of its result) is the parameter `parse`, which gives `None` where it throws. */
module GeminiService {
  import opened Common
  import opened Strings
  import opened Types

  /** The settled `ai.models.generateContent` promise: rejected, or resolved with a
      response whose `text` may be missing. */
  datatype Reply = CallFailed | Answered(text: Option<string>)

  /** What the list calls parse when the response has no text. */
  const ListFallback: string := "[]"

  /** What the single-object calls parse when the response has no text. */
  const ObjectFallback: string := "{}"

  /** The seed of the chef recommendation's image when the recipe has no id. */
  const RecommendationSeed: string := "chef-rec"

  const ImageUrlPrefix: string := "https://loremflickr.com/800/600/food,meal,cooked,dish/all?lock="

  /** `Math.floor(Math.random() * 1000)`: one draw of the random number generator. */
  type Roll = r: int | 0 <= r < 1000

  /** `JSON.parse(response.text || fallback)` after the awaited call: a failed call or a
      parse that throws fails; otherwise the parsed value, unchanged. */
  function ParseReply<T>(reply: Reply, fallback: string, parse: string -> Option<T>): (r: Outcome<T>)
    ensures r.Ok? <==> reply.Answered? && parse(TextOr(reply.text, fallback)).Some?
    ensures r.Ok? ==> parse(TextOr(reply.text, fallback)) == Some(r.value)
  {
    match reply
    case CallFailed => Failed
    case Answered(text) =>
      match parse(TextOr(text, fallback))
      case None => Failed
      case Some(v) => Ok(v)
  }

  /** A response without text, or with empty text, is read exactly as one whose text is
      the fallback literal. */
  lemma MissingTextReadsAsFallback<T>(fallback: string, parse: string -> Option<T>)
    ensures ParseReply(Answered(None), fallback, parse) == ParseReply(Answered(Some(fallback)), fallback, parse)
    ensures ParseReply(Answered(Some("")), fallback, parse) == ParseReply(Answered(Some(fallback)), fallback, parse)
  {
  }

  /** The `lock` number of the image URL: the seed's length plus the random draw. */
  function ImageLock(seed: string, roll: Roll): (n: nat)
    ensures |seed| <= n <= |seed| + 999
  {
    |seed| + roll
  }

  /** `getFoodImageUrl(query, seed)`: a fixed prefix followed by the decimal numeral of the
      lock number; the query does not take part. */
  function FoodImageUrl(query: string, seed: string, roll: Roll): (url: string)
    ensures StartsWith(url, ImageUrlPrefix)
    ensures var numeral := url[|ImageUrlPrefix|..];
      && numeral != [] && (forall k :: 0 <= k < |numeral| ==> IsDigit(numeral[k]))
      && (numeral[0] == '0' ==> numeral == "0")
      && ParseDecimal(numeral) == ImageLock(seed, roll)
  {
    var numeral := NatToString(ImageLock(seed, roll));
    DecimalRoundTrip(ImageLock(seed, roll));
    assert (ImageUrlPrefix + numeral)[|ImageUrlPrefix|..] == numeral;
    ImageUrlPrefix + numeral
  }

  lemma FoodImageUrlIgnoresQuery(q1: string, q2: string, seed: string, roll: Roll)
    ensures FoodImageUrl(q1, seed, roll) == FoodImageUrl(q2, seed, roll)
  {
  }

  /** `r.id || idx.toString()`: the seed of the image of the element at position `idx`
      of a fetched list. It is never empty. */
  function ListSeed(r: Recipe, idx: nat): (seed: string)
    ensures r.id != "" ==> seed == r.id
    ensures r.id == "" ==> seed == NatToString(idx)
    ensures seed != []
  {
    StringOr(r.id, NatToString(idx))
  }

  /** `out` is `parsed` with the same length and order, every field but `imageUrl` kept,
      and every `imageUrl` synthesised from the element's title, seed and random draw. */
  ghost predicate Reimaged(parsed: seq<Recipe>, out: seq<Recipe>, rolls: nat -> Roll)
  {
    && |out| == |parsed|
    && (forall i :: 0 <= i < |parsed| ==> out[i].(imageUrl := parsed[i].imageUrl) == parsed[i])
    && (forall i :: 0 <= i < |parsed| ==>
          out[i].imageUrl == FoodImageUrl(parsed[i].title, ListSeed(parsed[i], i), rolls(i)))
  }

  /** The `map` both list calls apply to the parsed array; `rolls(i)` is the random draw
      made for the element at position `i`. */
  function WithFoodImages(parsed: seq<Recipe>, rolls: nat -> Roll): (out: seq<Recipe>)
    ensures Reimaged(parsed, out, rolls)
    ensures forall i :: 0 <= i < |out| ==> StartsWith(out[i].imageUrl, ImageUrlPrefix)
  {
    seq(|parsed|, i requires 0 <= i < |parsed| =>
      parsed[i].(imageUrl := FoodImageUrl(parsed[i].title, ListSeed(parsed[i], i), rolls(i))))
  }

  /** Whatever `imageUrl` the provider sent, the processed list does not depend on it. */
  lemma ProviderImageIgnored(parsed: seq<Recipe>, urls: seq<string>, rolls: nat -> Roll)
    requires |urls| == |parsed|
    ensures WithFoodImages(parsed, rolls) ==
            WithFoodImages(seq(|parsed|, i requires 0 <= i < |parsed| => parsed[i].(imageUrl := urls[i])), rolls)
  {
  }

  /** `fetchRecipesByQuery`: the settled promise for a search. */
  function FetchRecipesByQuery(reply: Reply, parse: string -> Option<seq<Recipe>>, rolls: nat -> Roll): (r: Outcome<seq<Recipe>>)
    ensures r.Ok? <==> reply.Answered? && parse(TextOr(reply.text, ListFallback)).Some?
    ensures r.Ok? ==> Reimaged(parse(TextOr(reply.text, ListFallback)).value, r.value, rolls)
  {
    match ParseReply(reply, ListFallback, parse)
    case Failed => Failed
    case Ok(parsed) => Ok(WithFoodImages(parsed, rolls))
  }

  /** `analyzePantryImage`: the settled promise for a pantry photo. */
  function AnalyzePantryImage(reply: Reply, parse: string -> Option<seq<Recipe>>, rolls: nat -> Roll): (r: Outcome<seq<Recipe>>)
    ensures r.Ok? <==> reply.Answered? && parse(TextOr(reply.text, ListFallback)).Some?
    ensures r.Ok? ==> Reimaged(parse(TextOr(reply.text, ListFallback)).value, r.value, rolls)
  {
    match ParseReply(reply, ListFallback, parse)
    case Failed => Failed
    case Ok(parsed) => Ok(WithFoodImages(parsed, rolls))
  }

  /** `modifyRecipe`: the parsed recipe, carrying over the image of the recipe it modifies. */
  function ModifyRecipe(original: Recipe, reply: Reply, parse: string -> Option<Recipe>): (r: Outcome<Recipe>)
    ensures r.Ok? <==> reply.Answered? && parse(TextOr(reply.text, ObjectFallback)).Some?
    ensures r.Ok? ==> var parsed := parse(TextOr(reply.text, ObjectFallback)).value;
      r.value.imageUrl == original.imageUrl && r.value.(imageUrl := parsed.imageUrl) == parsed
  {
    match ParseReply(reply, ObjectFallback, parse)
    case Failed => Failed
    case Ok(modified) => Ok(modified.(imageUrl := original.imageUrl))
  }

  /** `analyzeNutrition`: the parsed report, with no post-processing. */
  function AnalyzeNutrition(reply: Reply, parse: string -> Option<Nutrition>): (r: Outcome<Nutrition>)
    ensures r.Ok? <==> reply.Answered? && parse(TextOr(reply.text, ObjectFallback)).Some?
    ensures r.Ok? ==> parse(TextOr(reply.text, ObjectFallback)) == Some(r.value)
  {
    ParseReply(reply, ObjectFallback, parse)
  }

  /** `generateLesson`: the parsed lesson, with no post-processing. */
  function GenerateLesson(reply: Reply, parse: string -> Option<Lesson>): (r: Outcome<Lesson>)
    ensures r.Ok? <==> reply.Answered? && parse(TextOr(reply.text, ObjectFallback)).Some?
    ensures r.Ok? ==> parse(TextOr(reply.text, ObjectFallback)) == Some(r.value)
  {
    ParseReply(reply, ObjectFallback, parse)
  }

  /** `getChefRecommendation`: the parsed recipe with a synthesised image whose seed is its
      id, or "chef-rec" when it has none. */
  function GetChefRecommendation(reply: Reply, parse: string -> Option<Recipe>, roll: Roll): (r: Outcome<Recipe>)
    ensures r.Ok? <==> reply.Answered? && parse(TextOr(reply.text, ObjectFallback)).Some?
    ensures r.Ok? ==> var parsed := parse(TextOr(reply.text, ObjectFallback)).value;
      && r.value.(imageUrl := parsed.imageUrl) == parsed
      && r.value.imageUrl == FoodImageUrl(parsed.title, StringOr(parsed.id, RecommendationSeed), roll)
      && StartsWith(r.value.imageUrl, ImageUrlPrefix)
  {
    match ParseReply(reply, ObjectFallback, parse)
    case Failed => Failed
    case Ok(recipe) => Ok(recipe.(imageUrl := FoodImageUrl(recipe.title, StringOr(recipe.id, RecommendationSeed), roll)))
  }
}
