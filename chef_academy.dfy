/** The lesson screen of components/ChefAcademy.tsx: the choice of topic, the blank-topic
    guard and the lesson cache, which (unlike the recipe cache) is keyed by the topic exactly
    as given. Each awaited `generateLesson` is the `Outcome` it settles with; the topics
    handed to it are recorded in `generated`, in order. */
module ChefAcademy {
  import opened Common
  import opened Strings
  import opened Types

  /** The suggested topics shown under the form. */
  const CommonTopics: seq<string> := [
    "Técnicas de corte de cuchillo",
    "Cómo hacer el risotto perfecto",
    "Secretos de la salsa Holandesa",
    "Masas fermentadas para pan",
    "Técnicas de salteado profesional"
  ]

  const DefaultDifficulty: string := "Personalizada"

  const DefaultEstimatedTime: string := "45 min"

  /** `topicOverride || query`: the override when it is present and not empty, otherwise
      the text typed in the form. */
  function ActiveTopic(topicOverride: Option<string>, query: string): (topic: string)
    ensures topicOverride.Some? && topicOverride.value != "" ==> topic == topicOverride.value
    ensures topicOverride.None? || topicOverride.value == "" ==> topic == query
  {
    TextOr(topicOverride, query)
  }

  /** `lesson.difficulty || 'Personalizada'`: never empty. */
  function DisplayedDifficulty(lesson: Lesson): (shown: string)
    ensures shown != ""
    ensures lesson.difficulty.Some? && lesson.difficulty.value != "" ==> shown == lesson.difficulty.value
    ensures lesson.difficulty.None? || lesson.difficulty.value == "" ==> shown == DefaultDifficulty
  {
    TextOr(lesson.difficulty, DefaultDifficulty)
  }

  /** `lesson.estimatedTime || '45 min'`: never empty. */
  function DisplayedEstimatedTime(lesson: Lesson): (shown: string)
    ensures shown != ""
    ensures lesson.estimatedTime.Some? && lesson.estimatedTime.value != "" ==> shown == lesson.estimatedTime.value
    ensures lesson.estimatedTime.None? || lesson.estimatedTime.value == "" ==> shown == DefaultEstimatedTime
  {
    TextOr(lesson.estimatedTime, DefaultEstimatedTime)
  }

  /** Every suggested topic passes the blank-topic guard. */
  lemma CommonTopicsNotBlank(topic: string)
    requires topic in CommonTopics
    ensures !IsBlank(topic) && topic != ""
  {
    assert !IsSpace(topic[0]);
  }

  class Academy {
    var query: string
    var lesson: Option<Lesson>
    var loading: bool
    var lessonCache: map<string, Lesson>
    /** The topics handed to `generateLesson`, oldest first. */
    var generated: seq<string>

    /** Only topics that passed the guard are stored, and each of them was generated. */
    ghost predicate Valid()
      reads this
    {
      forall topic :: topic in lessonCache ==> !IsBlank(topic) && topic in generated
    }

    /** The state when the screen is first shown. */
    constructor ()
      ensures Valid()
      ensures query == "" && lesson == None && !loading && lessonCache == map[] && generated == []
    {
      query, lesson, loading := "", None, false;
      lessonCache, generated := map[], [];
    }

    /** What `handleStartLesson` does for a topic that passed the guard, the generation
        settling with `outcome`: a cached lesson is shown without generating and without
        touching `loading`; otherwise the topic is generated, a successful lesson is stored
        under the topic as given and shown, and `loading` ends false. */
    twostate predicate Started(topic: string, outcome: Outcome<Lesson>)
      reads this
    {
      if Hit(old(lessonCache), topic) then
        && lesson == Some(old(lessonCache)[topic]) && lessonCache == old(lessonCache)
        && loading == old(loading) && generated == old(generated)
      else
        && generated == old(generated) + [topic] && !loading
        && (outcome.Ok? ==> lessonCache == old(lessonCache)[topic := outcome.value] && lesson == Some(outcome.value))
        && (outcome.Failed? ==> lessonCache == old(lessonCache) && lesson == old(lesson))
    }

    /** `handleStartLesson(e, topicOverride)`: a blank active topic changes nothing. */
    method StartLesson(topicOverride: Option<string>, outcome: Outcome<Lesson>)
      requires Valid()
      modifies this
      ensures Valid()
      ensures IsBlank(ActiveTopic(topicOverride, old(query))) ==> unchanged(this)
      ensures !IsBlank(ActiveTopic(topicOverride, old(query))) ==>
        Started(ActiveTopic(topicOverride, old(query)), outcome) && query == old(query)
    {
      var topic := ActiveTopic(topicOverride, query);
      if Trim(topic) == "" {
        return;
      }
      if Hit(lessonCache, topic) {
        lesson := Some(lessonCache[topic]);
        return;
      }
      loading := true;
      generated := generated + [topic];
      match outcome {
        case Ok(data) =>
          lessonCache := lessonCache[topic := data];
          lesson := Some(data);
        case Failed =>
      }
      loading := false;
    }

    /** The form's input `onChange`. */
    method SetQuery(text: string)
      modifies this`query
      ensures query == text
    {
      query := text;
    }

    /** A suggested-topic button: show the topic in the form and start it as the override. */
    method PickTopic(topic: string, outcome: Outcome<Lesson>)
      requires Valid() && topic in CommonTopics
      modifies this
      ensures Valid() && Started(topic, outcome) && query == topic
    {
      CommonTopicsNotBlank(topic);
      query := topic;
      StartLesson(Some(topic), outcome);
    }
  }

  /** Because the cache takes the topic as given, two spellings of one topic are two entries:
      after "Risotto" has been generated, "risotto " is generated again. */
  method RespellingGeneratesAgain(academy: Academy, first: Lesson, secondOutcome: Outcome<Lesson>)
    requires academy.Valid()
    requires "Risotto" !in academy.lessonCache && "risotto " !in academy.lessonCache
    modifies academy
    ensures academy.Valid()
    ensures academy.generated == old(academy.generated) + ["Risotto", "risotto "]
    ensures "Risotto" in academy.lessonCache && academy.lessonCache["Risotto"] == first
  {
    assert !IsSpace("Risotto"[0]) && !IsSpace("risotto "[0]);
    academy.StartLesson(Some("Risotto"), Ok(first));
    academy.StartLesson(Some("risotto "), secondOutcome);
  }
}
