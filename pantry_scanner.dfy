/** The photo upload of components/PantryScanner.tsx: the base64 payload cut out of the data
    URL, the preview, and the order of the callbacks made to the screen that hosts the
    scanner. Reading the file is not modelled: a selection is the data URL it reads as, or
    nothing when no file was chosen. The awaited `analyzePantryImage` is the `Outcome` it
    settles with, and the payloads handed to it are recorded in `analyzed`, in order. */
module PantryScanner {
  import opened Common
  import opened Strings
  import opened Types

  const AnalysisAlert: string := "Hubo un error analizando la imagen. Intenta con una foto más clara."

  /** `dataUrl.split(',')[1]`: the text between the first and the second comma, and
      `undefined` when there is no comma at all. */
  function DataUrlPayload(dataUrl: string): (payload: Option<string>)
    ensures payload.None? <==> ',' !in dataUrl
    ensures payload.Some? ==> ',' !in payload.value
  {
    var parts := Split(dataUrl, ',');
    if |parts| >= 2 then Some(parts[1]) else None
  }

  /** A data URL is a header and a base64 body, neither holding a comma: the payload is the body. */
  lemma PayloadIsBody(header: string, body: string)
    requires ',' !in header && ',' !in body
    ensures DataUrlPayload(header + [','] + body) == Some(body)
  {
    SplitOnce(header, ',', body);
  }

  /** A call the scanner makes to the screen that hosts it, or the alert it raises. */
  datatype ScanEvent = LoadingChanged(isLoading: bool) | RecipesFound(recipes: seq<Recipe>) | Alerted(message: string)

  /** The number of `onRecipesFound` calls among `events`. */
  function FoundCount(events: seq<ScanEvent>): (n: nat)
    ensures n <= |events|
    ensures n == 0 <==> forall k :: 0 <= k < |events| ==> !events[k].RecipesFound?
  {
    if events == [] then 0
    else FoundCount(events[1..]) + (if events[0].RecipesFound? then 1 else 0)
  }

  /** `onLoading(true)` first, `onLoading(false)` last, and no other loading call between. */
  predicate Bracketed(events: seq<ScanEvent>)
  {
    && |events| >= 2
    && events[0] == LoadingChanged(true) && events[|events| - 1] == LoadingChanged(false)
    && forall k :: 0 < k < |events| - 1 ==> !events[k].LoadingChanged?
  }

  /** The callbacks of one analysis that settles with `outcome`. */
  function ScanEvents(outcome: Outcome<seq<Recipe>>): (events: seq<ScanEvent>)
    ensures Bracketed(events) && |events| == 3
    ensures FoundCount(events) == (if outcome.Ok? then 1 else 0)
    ensures forall k :: 0 <= k < |events| && events[k].RecipesFound? ==> outcome.Ok? && events[k].recipes == outcome.value
    ensures outcome.Failed? <==> exists k :: 0 <= k < |events| && events[k] == Alerted(AnalysisAlert)
  {
    var middle := match outcome
      case Ok(recipes) => RecipesFound(recipes)
      case Failed => Alerted(AnalysisAlert);
    var events := [LoadingChanged(true), middle, LoadingChanged(false)];
    assert events[1..][1..][1..] == [];
    assert events[1] == middle;
    events
  }

  class Scanner {
    var preview: Option<string>
    /** Every call made to the host, and every alert, oldest first. */
    var events: seq<ScanEvent>
    /** The payloads handed to `analyzePantryImage`, oldest first. */
    var analyzed: seq<Option<string>>

    constructor ()
      ensures preview == None && events == [] && analyzed == []
    {
      preview, events, analyzed := None, [], [];
    }

    /** `handleFileChange` for a selection that reads as `selected`: no file does nothing;
        otherwise the payload is analysed and the preview shows the whole data URL, inside a
        raised and then lowered loading flag. */
    method HandleFileChange(selected: Option<string>, outcome: Outcome<seq<Recipe>>)
      modifies this
      ensures selected.None? ==> unchanged(this)
      ensures selected.Some? ==>
        && preview == selected
        && analyzed == old(analyzed) + [DataUrlPayload(selected.value)]
        && events == old(events) + ScanEvents(outcome)
    {
      if selected.None? {
        return;
      }
      var dataUrl := selected.value;
      var payload := DataUrlPayload(dataUrl);
      preview := Some(dataUrl);
      events := events + [LoadingChanged(true)];
      analyzed := analyzed + [payload];
      match outcome {
        case Ok(recipes) =>
          events := events + [RecipesFound(recipes)];
        case Failed =>
          events := events + [Alerted(AnalysisAlert)];
      }
      events := events + [LoadingChanged(false)];
    }
  }
}
