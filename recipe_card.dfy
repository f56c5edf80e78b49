/** The share button of components/RecipeCard.tsx: which page address may be shared, the
    title and text composed from the recipe, the clipboard text used when the browser cannot
    share, and the message reported for each way the attempt can end. The browser is not
    modelled: whether native sharing is offered, and how each awaited share or clipboard
    write settles, are parameters. */
module RecipeCard {
  import opened Common
  import opened Strings
  import opened Types

  const SharedMessage: string := "¡Receta compartida!"
  const LinkCopiedMessage: string := "Enlace copiado al portapapeles"
  const DetailsCopiedMessage: string := "Detalles copiados al portapapeles"
  const ShareFailedMessage: string := "No se pudo compartir la receta"

  const TitlePrefix: string := "¡Mira esta receta: "
  const TextPrefix: string := "He encontrado esta increíble receta gourmet en CulinaGlass: "
  const Paragraph: string := "\n\n"

  /** The address may go into the share data only when it is an absolute web address. */
  predicate IsValidHttpUrl(url: string)
  {
    StartsWith(url, "http://") || StartsWith(url, "https://")
  }

  /** An address with a web scheme is valid, and the addresses of a local file or of an
      embedded `about:` document, on which sharing a URL would fail, are not. */
  lemma WebSchemesOnly(rest: string)
    ensures IsValidHttpUrl("http://" + rest) && IsValidHttpUrl("https://" + rest)
    ensures !IsValidHttpUrl("file://" + rest) && !IsValidHttpUrl("about:" + rest) && !IsValidHttpUrl("")
  {
    assert ("http://" + rest)[..7] == "http://";
    assert ("https://" + rest)[..8] == "https://";
    assert ("file://" + rest)[0] == 'f';
    assert ("about:" + rest)[0] == 'a';
  }

  /** The `ShareData` handed to the browser. */
  datatype ShareData = ShareData(title: string, text: string, url: Option<string>)

  /** The share data for `recipe` on the page at `currentUrl`: a title and a text naming the
      recipe, and the address exactly when it is valid. */
  function MakeShareData(recipe: Recipe, currentUrl: string): (data: ShareData)
    ensures data.url.Some? <==> IsValidHttpUrl(currentUrl)
    ensures data.url.Some? ==> data.url.value == currentUrl
    ensures StartsWith(data.title, TitlePrefix) && data.title[|TitlePrefix|..] == recipe.title + "!"
    ensures StartsWith(data.text, TextPrefix)
    ensures data.text[|TextPrefix|..] == recipe.title + ". " + recipe.description
  {
    var title := TitlePrefix + recipe.title + "!";
    var text := TextPrefix + recipe.title + ". " + recipe.description;
    assert title[..|TitlePrefix|] == TitlePrefix && title[|TitlePrefix|..] == recipe.title + "!";
    assert text[..|TextPrefix|] == TextPrefix && text[|TextPrefix|..] == recipe.title + ". " + recipe.description;
    ShareData(title, text, if IsValidHttpUrl(currentUrl) then Some(currentUrl) else None)
  }

  /** The clipboard text when the browser cannot share: title and text as two paragraphs,
      and the address as a third one only when the data carries it. */
  function FallbackText(data: ShareData): (text: string)
    ensures StartsWith(text, data.title + Paragraph + data.text)
    ensures data.url.None? ==> text == data.title + Paragraph + data.text
    ensures data.url.Some? ==> text[|data.title + Paragraph + data.text|..] == Paragraph + data.url.value
  {
    var body := data.title + Paragraph + data.text;
    var text := body + (if data.url.Some? then Paragraph + data.url.value else "");
    assert text[..|body|] == body;
    text
  }

  /** The clipboard text of the fallback carries the page address exactly when it is valid:
      the title and the text as two paragraphs, and a third one holding the whole address. */
  lemma FallbackCarriesUrlIffValid(recipe: Recipe, currentUrl: string)
    ensures var data := MakeShareData(recipe, currentUrl);
      FallbackText(data) == data.title + Paragraph + data.text + (if IsValidHttpUrl(currentUrl) then Paragraph + currentUrl else "")
  {
  }

  /** The clipboard text of the last attempt, after an error other than a cancellation. */
  function LastEffortText(recipe: Recipe): (text: string)
    ensures StartsWith(text, recipe.title) && text[|recipe.title|..] == ": " + recipe.description
  {
    recipe.title + ": " + recipe.description
  }

  /** How an awaited share or clipboard write settled: done, or rejected, possibly by the
      reader cancelling (a DOMException named AbortError). */
  datatype Attempt = Done | Rejected(aborted: bool)

  /** What one press of the share button does: the data handed to the browser's share sheet,
      the texts whose clipboard write was attempted, in order (a rejected write
      included), and the message handed to `onShare`. */
  datatype ShareEffect = ShareEffect(shared: Option<ShareData>, copied: seq<string>, message: Option<string>)

  /** `handleShare` on the page at `currentUrl`. `nativeOffered` is whether the browser offers
      to share this data; `first` is how the share, or else the clipboard write, settled; and
      `lastCopyDone` is whether the last-effort write succeeds when it is made. */
  function HandleShare(recipe: Recipe, currentUrl: string, nativeOffered: bool, first: Attempt, lastCopyDone: bool): (e: ShareEffect)
    ensures e.shared.Some? <==> nativeOffered
    ensures e.shared.Some? ==> e.shared.value == MakeShareData(recipe, currentUrl)
    ensures !nativeOffered ==> |e.copied| >= 1 && e.copied[0] == FallbackText(MakeShareData(recipe, currentUrl))
    ensures e.message.None? <==> first == Rejected(true)
    ensures first.Done? ==> e.message == Some(if nativeOffered then SharedMessage else LinkCopiedMessage)
    ensures first.Done? || first == Rejected(true) ==>
      e.copied == (if nativeOffered then [] else [FallbackText(MakeShareData(recipe, currentUrl))])
    ensures first.Rejected? ==> (e.message.Some? <==> |e.copied| == (if nativeOffered then 1 else 2))
    ensures first == Rejected(false) ==>
      && e.copied[|e.copied| - 1] == LastEffortText(recipe)
      && e.message == Some(if lastCopyDone then DetailsCopiedMessage else ShareFailedMessage)
    ensures |e.copied| <= 2
  {
    var data := MakeShareData(recipe, currentUrl);
    var shared := if nativeOffered then Some(data) else None;
    var copied := if nativeOffered then [] else [FallbackText(data)];
    match first
    case Done => ShareEffect(shared, copied, Some(if nativeOffered then SharedMessage else LinkCopiedMessage))
    case Rejected(aborted) =>
      if aborted then ShareEffect(shared, copied, None)
      else ShareEffect(shared, copied + [LastEffortText(recipe)],
                       Some(if lastCopyDone then DetailsCopiedMessage else ShareFailedMessage))
  }

  /** A cancelled share reports nothing and makes no last-effort copy, however it was tried. */
  lemma CancelIsSilent(recipe: Recipe, currentUrl: string, nativeOffered: bool, lastCopyDone: bool)
    ensures var e := HandleShare(recipe, currentUrl, nativeOffered, Rejected(true), lastCopyDone);
      && e.message == None
      && (nativeOffered ==> e.copied == [])
      && (!nativeOffered ==> e.copied == [FallbackText(MakeShareData(recipe, currentUrl))])
  {
  }

  /** The outcome of the last-effort write matters only after an error that was not a
      cancellation. */
  lemma LastCopyMattersOnlyAfterError(recipe: Recipe, currentUrl: string, nativeOffered: bool, first: Attempt)
    ensures first != Rejected(false) ==>
      HandleShare(recipe, currentUrl, nativeOffered, first, true) == HandleShare(recipe, currentUrl, nativeOffered, first, false)
  {
  }
}
