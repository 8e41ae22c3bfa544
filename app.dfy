/**
 * The image-generation request lifecycle of the NovaVision front end: the four pieces of
 * UI state, the Generate guard, the start step, the four outcomes of the request and the
 * terminal step that always clears the busy flag, plus the "New Image" and download actions.
 */
module ImageApp {
  import opened Wrappers
  import opened Strings
  import DataUrl

  /** What the request to the generation endpoint came back with; the network itself is not modelled. */
  datatype Outcome =
    | NotOk                            // a response whose status is not 2xx
    | OkNoImage                        // a 2xx response whose JSON has no `image_base64`
    | OkImage(imageBase64: string)     // a 2xx response carrying `image_base64`
    | Thrown                           // `fetch`, `res.json()` or the field access threw

  /** The four `useState` fields of the component. `error == ""` means no error. */
  datatype Session = Session(prompt: string, image: Option<string>, loading: bool, error: string)

  const NotOkMessage: string :=
    "Something went wrong while generating.\n" +
    "Possible reason: your free monthly AI credits on Hugging Face may be finished.\n" +
    "Try again after your credits reset next month or update the API key."

  const NoImageMessage: string :=
    "No image received from AI.\n" +
    "This can also happen if your free monthly credits are over.\n" +
    "Try a simpler prompt or wait for credits to reset."

  const NetworkMessage: string :=
    "Network / server error while contacting the AI.\n" +
    "If everything looks fine, your free monthly AI credits might be finished.\n" +
    "Try again later or next month."

  const PngBase64Prefix := "data:image/png;base64,"

  /** The `src` of the generated image: the PNG, base64 data-URL header, then the payload. */
  function PngDataUrl(imageBase64: string): (url: string)
    ensures IsPngImage(url) <==> imageBase64 != ""
    ensures PngBase64Prefix <= url && url[|PngBase64Prefix|..] == imageBase64
  {
    PngBase64Prefix + imageBase64
  }

  /** The URL built from a payload parses, as a data URL, back to that payload. */
  lemma PngDataUrlParses(imageBase64: string)
    ensures DataUrl.Parse(PngDataUrl(imageBase64)) == Some(DataUrl.Parts("image/png", true, imageBase64))
  {
    var p := DataUrl.Parts("image/png", true, imageBase64);
    assert PngDataUrl(imageBase64) == DataUrl.Format(p);
    DataUrl.ParseFormat(p);
  }

  /** The URL is the PNG, base64 data-URL header followed by a non-empty payload. */
  predicate IsPngImage(url: string) {
    PngBase64Prefix < url
  }

  /** Such a URL parses as a PNG, base64 data URL whose data is everything after the header. */
  lemma PngImageParses(url: string)
    requires IsPngImage(url)
    ensures DataUrl.Parse(url) == Some(DataUrl.Parts("image/png", true, url[|PngBase64Prefix|..]))
    ensures url[|PngBase64Prefix|..] != ""
  {
    assert url == PngDataUrl(url[|PngBase64Prefix|..]);
    PngDataUrlParses(url[|PngBase64Prefix|..]);
  }

  /** A truthy `image_base64`: present and not the empty string. */
  predicate HasImage(o: Outcome) {
    o.OkImage? && o.imageBase64 != ""
  }

  /** The Generate button is disabled, which is also when `generateImage` returns at once. */
  function GenerateDisabled(prompt: string, loading: bool): (disabled: bool)
    ensures disabled <==> loading || forall k :: 0 <= k < |prompt| ==> IsWhitespace(prompt[k])
  {
    loading || IsBlank(prompt)
  }

  /** The state between two user actions: idle, and never an image beside an error. */
  predicate Settled(s: Session) {
    !s.loading &&
    !(s.image.Some? && s.error != "") &&
    (s.image.Some? ==> IsPngImage(s.image.value))
  }

  /**
   * The state at the end of a request that was sent, as a table over its outcome: settled,
   * the prompt kept, and either the image or an error message, never both and never neither.
   */
  function Resolved(prompt: string, o: Outcome): (r: Session)
    ensures Settled(r) && r.prompt == prompt
    ensures r.image.Some? <==> HasImage(o)
    ensures r.error == "" <==> HasImage(o)
  {
    match o
    case NotOk => Session(prompt, None, false, NotOkMessage)
    case Thrown => Session(prompt, None, false, NetworkMessage)
    case OkNoImage => Session(prompt, None, false, NoImageMessage)
    case OkImage(b) =>
      if b == "" then Session(prompt, None, false, NoImageMessage)
      else Session(prompt, Some(PngDataUrl(b)), false, "")
  }

  /** One click on Generate: nothing while the button is disabled, else a completed request. */
  function Generated(s: Session, o: Outcome): (r: Session)
    ensures GenerateDisabled(s.prompt, s.loading) ==> r == s
    ensures !GenerateDisabled(s.prompt, s.loading) ==> Settled(r) && !r.loading
    ensures Settled(s) ==> Settled(r)
  {
    if GenerateDisabled(s.prompt, s.loading) then s else Resolved(s.prompt, o)
  }

  /** The rows of the error banner: nothing when there is no error, else one row per line. */
  function BannerLines(error: string): (lines: seq<string>)
    ensures error == "" ==> lines == []
    ensures error != "" ==> Join(lines, '\n') == error && forall i :: 0 <= i < |lines| ==> '\n' !in lines[i]
  {
    if error == "" then []
    else
      JoinSplit(error, '\n');
      Split(error, '\n')
  }

  /** A message written as three lines joined by "\n" shows as exactly those three banner rows. */
  lemma ThreeLines(a: string, b: string, c: string)
    requires NoNewline(a) && NoNewline(b) && NoNewline(c)
    ensures BannerLines(a + "\n" + b + "\n" + c) == [a, b, c]
  {
    var lines := [a, b, c];
    assert Join(lines, '\n') == a + "\n" + b + "\n" + c by {
      assert Join(lines[2..], '\n') == c;
      assert lines[1..][1..] == lines[2..];
    }
    SplitJoin(lines, '\n');
  }

  /** No line break anywhere in `s`. */
  predicate NoNewline(s: string) {
    forall i :: 0 <= i < |s| ==> s[i] != '\n'
  }

  lemma NoNewlineConcat(x: string, y: string)
    requires NoNewline(x) && NoNewline(y)
    ensures NoNewline(x + y)
  {
  }

  // Each message line is free of line breaks. The verifier reads short literals directly;
  // a longer line is checked eight characters at a time.

  lemma NotOkLine0()
    ensures NoNewline("Something went wrong while generating.")
  {
  }

  lemma NotOkLine1()
    ensures NoNewline("Possible reason: your free monthly AI credits on Hugging Face may be finished.")
  {
    assert NoNewline("Possible");
    assert NoNewline(" reason:");
    NoNewlineConcat("Possible", " reason:");
    assert NoNewline(" your fr");
    NoNewlineConcat("Possible reason:", " your fr");
    assert NoNewline("ee month");
    NoNewlineConcat("Possible reason: your fr", "ee month");
    assert NoNewline("ly AI cr");
    NoNewlineConcat("Possible reason: your free month", "ly AI cr");
    assert NoNewline("edits on");
    NoNewlineConcat("Possible reason: your free monthly AI cr", "edits on");
    assert NoNewline(" Hugging");
    NoNewlineConcat("Possible reason: your free monthly AI credits on", " Hugging");
    assert NoNewline(" Face ma");
    NoNewlineConcat("Possible reason: your free monthly AI credits on Hugging", " Face ma");
    assert NoNewline("y be fin");
    NoNewlineConcat("Possible reason: your free monthly AI credits on Hugging Face ma", "y be fin");
    assert NoNewline("ished.");
    NoNewlineConcat("Possible reason: your free monthly AI credits on Hugging Face may be fin", "ished.");
  }

  lemma NotOkLine2()
    ensures NoNewline("Try again after your credits reset next month or update the API key.")
  {
    assert NoNewline("Try agai");
    assert NoNewline("n after ");
    NoNewlineConcat("Try agai", "n after ");
    assert NoNewline("your cre");
    NoNewlineConcat("Try again after ", "your cre");
    assert NoNewline("dits res");
    NoNewlineConcat("Try again after your cre", "dits res");
    assert NoNewline("et next ");
    NoNewlineConcat("Try again after your credits res", "et next ");
    assert NoNewline("month or");
    NoNewlineConcat("Try again after your credits reset next ", "month or");
    assert NoNewline(" update ");
    NoNewlineConcat("Try again after your credits reset next month or", " update ");
    assert NoNewline("the API ");
    NoNewlineConcat("Try again after your credits reset next month or update ", "the API ");
    assert NoNewline("key.");
    NoNewlineConcat("Try again after your credits reset next month or update the API ", "key.");
  }

  /** `NotOkMessage` is its three lines joined by line breaks. */
  lemma NotOkMessageIsThreeLines()
    ensures NotOkMessage ==
      "Something went wrong while generating." + "\n" +
      "Possible reason: your free monthly AI credits on Hugging Face may be finished." + "\n" +
      "Try again after your credits reset next month or update the API key."
  {
  }

  /** The banner shows `NotOkMessage` as exactly the three lines of its source text. */
  lemma NotOkMessageRows()
    ensures BannerLines(NotOkMessage) == [
      "Something went wrong while generating.",
      "Possible reason: your free monthly AI credits on Hugging Face may be finished.",
      "Try again after your credits reset next month or update the API key."]
  {
    NotOkLine0();
    NotOkLine1();
    NotOkLine2();
    NotOkMessageIsThreeLines();
    ThreeLines(
      "Something went wrong while generating.",
      "Possible reason: your free monthly AI credits on Hugging Face may be finished.",
      "Try again after your credits reset next month or update the API key.");
  }

  lemma NoImageLine0()
    ensures NoNewline("No image received from AI.")
  {
  }

  lemma NoImageLine1()
    ensures NoNewline("This can also happen if your free monthly credits are over.")
  {
    assert NoNewline("This can");
    assert NoNewline(" also ha");
    NoNewlineConcat("This can", " also ha");
    assert NoNewline("ppen if ");
    NoNewlineConcat("This can also ha", "ppen if ");
    assert NoNewline("your fre");
    NoNewlineConcat("This can also happen if ", "your fre");
    assert NoNewline("e monthl");
    NoNewlineConcat("This can also happen if your fre", "e monthl");
    assert NoNewline("y credit");
    NoNewlineConcat("This can also happen if your free monthl", "y credit");
    assert NoNewline("s are ov");
    NoNewlineConcat("This can also happen if your free monthly credit", "s are ov");
    assert NoNewline("er.");
    NoNewlineConcat("This can also happen if your free monthly credits are ov", "er.");
  }

  lemma NoImageLine2()
    ensures NoNewline("Try a simpler prompt or wait for credits to reset.")
  {
    assert NoNewline("Try a si");
    assert NoNewline("mpler pr");
    NoNewlineConcat("Try a si", "mpler pr");
    assert NoNewline("ompt or ");
    NoNewlineConcat("Try a simpler pr", "ompt or ");
    assert NoNewline("wait for");
    NoNewlineConcat("Try a simpler prompt or ", "wait for");
    assert NoNewline(" credits");
    NoNewlineConcat("Try a simpler prompt or wait for", " credits");
    assert NoNewline(" to rese");
    NoNewlineConcat("Try a simpler prompt or wait for credits", " to rese");
    assert NoNewline("t.");
    NoNewlineConcat("Try a simpler prompt or wait for credits to rese", "t.");
  }

  /** `NoImageMessage` is its three lines joined by line breaks. */
  lemma NoImageMessageIsThreeLines()
    ensures NoImageMessage ==
      "No image received from AI." + "\n" +
      "This can also happen if your free monthly credits are over." + "\n" +
      "Try a simpler prompt or wait for credits to reset."
  {
  }

  /** The banner shows `NoImageMessage` as exactly the three lines of its source text. */
  lemma NoImageMessageRows()
    ensures BannerLines(NoImageMessage) == [
      "No image received from AI.",
      "This can also happen if your free monthly credits are over.",
      "Try a simpler prompt or wait for credits to reset."]
  {
    NoImageLine0();
    NoImageLine1();
    NoImageLine2();
    NoImageMessageIsThreeLines();
    ThreeLines(
      "No image received from AI.",
      "This can also happen if your free monthly credits are over.",
      "Try a simpler prompt or wait for credits to reset.");
  }

  lemma NetworkLine0()
    ensures NoNewline("Network / server error while contacting the AI.")
  {
    assert NoNewline("Network ");
    assert NoNewline("/ server");
    NoNewlineConcat("Network ", "/ server");
    assert NoNewline(" error w");
    NoNewlineConcat("Network / server", " error w");
    assert NoNewline("hile con");
    NoNewlineConcat("Network / server error w", "hile con");
    assert NoNewline("tacting ");
    NoNewlineConcat("Network / server error while con", "tacting ");
    assert NoNewline("the AI.");
    NoNewlineConcat("Network / server error while contacting ", "the AI.");
  }

  lemma NetworkLine1()
    ensures NoNewline("If everything looks fine, your free monthly AI credits might be finished.")
  {
    assert NoNewline("If every");
    assert NoNewline("thing lo");
    NoNewlineConcat("If every", "thing lo");
    assert NoNewline("oks fine");
    NoNewlineConcat("If everything lo", "oks fine");
    assert NoNewline(", your f");
    NoNewlineConcat("If everything looks fine", ", your f");
    assert NoNewline("ree mont");
    NoNewlineConcat("If everything looks fine, your f", "ree mont");
    assert NoNewline("hly AI c");
    NoNewlineConcat("If everything looks fine, your free mont", "hly AI c");
    assert NoNewline("redits m");
    NoNewlineConcat("If everything looks fine, your free monthly AI c", "redits m");
    assert NoNewline("ight be ");
    NoNewlineConcat("If everything looks fine, your free monthly AI credits m", "ight be ");
    assert NoNewline("finished");
    NoNewlineConcat("If everything looks fine, your free monthly AI credits might be ", "finished");
    assert NoNewline(".");
    NoNewlineConcat("If everything looks fine, your free monthly AI credits might be finished", ".");
  }

  lemma NetworkLine2()
    ensures NoNewline("Try again later or next month.")
  {
  }

  /** `NetworkMessage` is its three lines joined by line breaks. */
  lemma NetworkMessageIsThreeLines()
    ensures NetworkMessage ==
      "Network / server error while contacting the AI." + "\n" +
      "If everything looks fine, your free monthly AI credits might be finished." + "\n" +
      "Try again later or next month."
  {
  }

  /** The banner shows `NetworkMessage` as exactly the three lines of its source text. */
  lemma NetworkMessageRows()
    ensures BannerLines(NetworkMessage) == [
      "Network / server error while contacting the AI.",
      "If everything looks fine, your free monthly AI credits might be finished.",
      "Try again later or next month."]
  {
    NetworkLine0();
    NetworkLine1();
    NetworkLine2();
    NetworkMessageIsThreeLines();
    ThreeLines(
      "Network / server error while contacting the AI.",
      "If everything looks fine, your free monthly AI credits might be finished.",
      "Try again later or next month.");
  }

  /** The component: its state fields and one method per user action. */
  class App {
    var prompt: string
    var image: Option<string>
    var loading: bool
    var error: string

    function State(): Session
      reads this
    {
      Session(prompt, image, loading, error)
    }

    ghost predicate Valid()
      reads this
    {
      Settled(State())
    }

    /** The initial `useState` values. */
    constructor ()
      ensures State() == Session("", None, false, "")
      ensures Valid()
    {
      prompt, image, loading, error := "", None, false, "";
    }

    /** Typing in the prompt box. */
    method SetPrompt(text: string)
      modifies this
      ensures State() == old(State()).(prompt := text)
      ensures old(Valid()) ==> Valid()
    {
      prompt := text;
    }

    /**
     * The body of the `try` block, entered right after the start step. Returns whether it
     * threw; each early return clears `loading` itself.
     */
    method AwaitResponse(outcome: Outcome) returns (thrown: bool)
      requires loading && error == "" && image.None?
      modifies this
      ensures thrown <==> outcome.Thrown?
      ensures prompt == old(prompt)
      ensures outcome.Thrown? ==> State() == old(State())
      ensures outcome.NotOk? ==> State() == old(State()).(error := NotOkMessage, loading := false)
      ensures (outcome.OkNoImage? || outcome == OkImage("")) ==>
        State() == old(State()).(error := NoImageMessage, loading := false)
      ensures HasImage(outcome) ==>
        State() == old(State()).(image := Some(PngBase64Prefix + outcome.imageBase64))
    {
      // fetch, res.json() and reading the field throw before any setter runs
      if outcome.Thrown? {
        return true;
      }
      if outcome.NotOk? {
        error := NotOkMessage;
        loading := false;
        return false;
      }
      // a missing `image_base64` is `undefined`, as falsy as ""
      var imageBase64 := if outcome.OkImage? then outcome.imageBase64 else "";
      if imageBase64 == "" {
        error := NoImageMessage;
        loading := false;
        return false;
      }
      image := Some(PngDataUrl(imageBase64));
      thrown := false;
    }

    /** `generateImage`: returns whether the request was sent. */
    method GenerateImage(outcome: Outcome) returns (requested: bool)
      modifies this
      ensures requested <==> !GenerateDisabled(old(prompt), old(loading))
      ensures !requested ==> State() == old(State())
      ensures requested ==> !loading && prompt == old(prompt)
      ensures requested && outcome.NotOk? ==> error == NotOkMessage && image.None?
      ensures requested && (outcome.OkNoImage? || outcome == OkImage("")) ==>
        error == NoImageMessage && image.None?
      ensures requested && HasImage(outcome) ==>
        image == Some(PngBase64Prefix + outcome.imageBase64) && error == ""
      ensures requested && outcome.Thrown? ==> error == NetworkMessage && image.None?
      ensures State() == Generated(old(State()), outcome)
      ensures requested ==> Valid()
      ensures old(Valid()) ==> Valid()
    {
      if IsBlank(prompt) || loading {
        return false;
      }
      requested := true;
      Request(outcome);
    }

    /** Everything `generateImage` does once past its guard. */
    method Request(outcome: Outcome)
      modifies this
      ensures State() == Resolved(old(prompt), outcome)
    {
      // start step
      loading := true;
      error := "";
      image := None;
      var thrown := AwaitResponse(outcome);
      if thrown {
        error := NetworkMessage;
      }
      // the `finally` step, after the early returns too
      loading := false;
    }

    /** `downloadImage`: the `href` of the link it clicks, or `None` when it does nothing. */
    method DownloadImage() returns (href: Option<string>)
      ensures href.None? <==> image.None? || image.value == ""
      ensures href.Some? ==> href == image
      ensures Valid() && href.Some? ==> IsPngImage(href.value)
    {
      // `!image` holds for null and for the empty string
      if image.None? || image.value == "" {
        return None;
      }
      href := image;
    }

    /** The "New Image" button: forget the image, keep the rest. */
    method NewImage()
      modifies this
      ensures State() == old(State()).(image := None)
      ensures old(Valid()) ==> Valid()
    {
      image := None;
    }
  }

  /** A session as a caller sees it through the contracts alone. */
  method Walkthrough(text: string, b64: string)
    requires !IsBlank(text) && b64 != ""
  {
    var app := new App();
    var sent := app.GenerateImage(OkImage(b64));
    assert !sent;
    app.SetPrompt(text);
    sent := app.GenerateImage(NotOk);
    assert sent && app.error == NotOkMessage && app.image == None;
    sent := app.GenerateImage(OkImage(b64));
    assert sent && app.error == "" && app.image == Some(PngBase64Prefix + b64);
    var href := app.DownloadImage();
    assert href.Some?;
    app.NewImage();
    href := app.DownloadImage();
    assert href == None && app.prompt == text;
  }
}
