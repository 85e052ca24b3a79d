/**
 * The Home page's state (the selected types and the three fields the fetch updates), the fetch
 * lifecycle as one step before the awaited request and one after it, and the choice of what the
 * media area shows.
 */
module MediaPicker {
  import opened MediaTypes
  import opened Selection
  import opened RandomChoice
  import opened ArchiveApi

  /** `mediaContent` (`null` as `None`), `loading` and `mediaError`. */
  datatype FetchState = FetchState(content: Option<Doc>, loading: bool, error: bool)

  /** The values the three `useState` calls start from. */
  const Initial := FetchState(None, false, false)

  /** The state set just before the request goes out: loading, content cleared, no error. */
  const Pending := FetchState(None, true, false)

  /** The request produced documents to pick from. */
  predicate HasDocs(outcome: Outcome)
  {
    outcome.Ok? && |outcome.docs| > 0
  }

  /**
   * The flag combinations the page is meant to be in: content and error are never both set,
   * and while loading neither is.
   */
  predicate Consistent(st: FetchState)
  {
    !(st.content.Some? && st.error) && (st.loading ==> st.content.None? && !st.error)
  }

  /**
   * What the code after the awaited request does to the state: a non-empty `docs` sets the content to
   * the document picked by `docDraw`, an empty one or a caught exception sets the error flag, and
   * `finally` clears `loading`. Each branch touches one field only.
   */
  function Finish(st: FetchState, outcome: Outcome, docDraw: real): (r: FetchState)
    requires IsDraw(docDraw)
    ensures !r.loading
    ensures HasDocs(outcome) ==> r.content.Some? && r.content.value in outcome.docs && r.error == st.error
    ensures !HasDocs(outcome) ==> r.content == st.content && r.error
    ensures st == Pending ==> (r.content.Some? <==> HasDocs(outcome)) && (r.error <==> !HasDocs(outcome))
    ensures st == Pending ==> Consistent(r)
  {
    if HasDocs(outcome) then
      FetchState(Some(outcome.docs[RandomIndex(docDraw, |outcome.docs|)]), false, st.error)
    else
      FetchState(st.content, false, true)
  }

  /** With two requests in flight, a late failure leaves an earlier result and the error flag both set. */
  lemma OverlappingFetchesBreakConsistency(d: Doc)
    ensures Finish(Finish(Pending, Ok([d]), 0.0), Failure, 0.0) == FetchState(Some(d), false, true)
    ensures !Consistent(Finish(Finish(Pending, Ok([d]), 0.0), Failure, 0.0))
  {
  }

  /** The single-status view of the flags. */
  datatype Status = Idle | Loading | ShowingResult(doc: Doc) | ShowingError

  function FlagsOf(s: Status): (st: FetchState)
    ensures Consistent(st)
  {
    match s
    case Idle => Initial
    case Loading => Pending
    case ShowingResult(d) => FetchState(Some(d), false, false)
    case ShowingError => FetchState(None, false, true)
  }

  /** Every consistent flag combination is exactly one status. */
  function StatusOf(st: FetchState): (s: Status)
    requires Consistent(st)
    ensures FlagsOf(s) == st
  {
    if st.loading then Loading
    else if st.error then ShowingError
    else if st.content.Some? then ShowingResult(st.content.value)
    else Idle
  }

  lemma StatusRoundTrip(s: Status)
    ensures StatusOf(FlagsOf(s)) == s
  {
  }

  const DetailsPrefix := "https://archive.org/details/"
  const PlaceholderText := "This tool pulls random media selections using the Internet Archive API. Narrow down your search using the buttons above to specify media type. I hope you discover something neat today!"
  const NoMediaText := "No media found for the selected type. Please try again."

  /** The three things the media area can show. */
  datatype View = Placeholder | NoMediaFound | MediaFrame(src: string) {
    /** The text of a message view. */
    function Text(): (t: string)
      requires !MediaFrame?
      ensures Placeholder? ==> t == PlaceholderText
      ensures NoMediaFound? ==> t == NoMediaText
    {
      if Placeholder? then PlaceholderText else NoMediaText
    }
  }

  /** The detail page of an item, used as the frame's address. */
  function DetailsUrl(identifier: string): (url: string)
    ensures |url| == |DetailsPrefix| + |identifier| && url[..|DetailsPrefix|] == DetailsPrefix
    ensures url[|DetailsPrefix|..] == identifier
  {
    DetailsPrefix + identifier
  }

  /** The item identifier a detail-page address points at. */
  function DetailsIdentifier(url: string): (identifier: Option<string>)
    ensures identifier.Some? ==> DetailsUrl(identifier.value) == url
  {
    if |DetailsPrefix| <= |url| && url[..|DetailsPrefix|] == DetailsPrefix then Some(url[|DetailsPrefix|..]) else None
  }

  lemma DetailsUrlRoundTrip(identifier: string)
    ensures DetailsIdentifier(DetailsUrl(identifier)) == Some(identifier)
  {
    assert DetailsUrl(identifier)[|DetailsPrefix|..] == identifier;
  }

  /**
   * `renderMediaContent`: the placeholder when neither content nor error is set, the error message
   * whenever the error flag is set (it wins over content), and otherwise a frame on the item's detail page.
   */
  function RenderMediaContent(content: Option<Doc>, error: bool): (v: View)
    ensures v == Placeholder <==> content.None? && !error
    ensures v == NoMediaFound <==> error
    ensures v.MediaFrame? <==> content.Some? && !error
    ensures v.MediaFrame? ==> DetailsIdentifier(v.src) == Some(content.value.identifier)
  {
    if content.None? && !error then Placeholder
    else if error then NoMediaFound
    else
      DetailsUrlRoundTrip(content.value.identifier);
      MediaFrame(DetailsUrl(content.value.identifier))
  }

  /** What is shown for each status: while loading the cleared content shows the placeholder. */
  lemma RenderByStatus(st: FetchState)
    requires Consistent(st)
    ensures StatusOf(st).Idle? || StatusOf(st).Loading? ==>
      RenderMediaContent(st.content, st.error) == Placeholder &&
      RenderMediaContent(st.content, st.error).Text() == PlaceholderText
    ensures StatusOf(st).ShowingError? ==>
      RenderMediaContent(st.content, st.error) == NoMediaFound &&
      RenderMediaContent(st.content, st.error).Text() == NoMediaText
    ensures StatusOf(st).ShowingResult? ==>
      RenderMediaContent(st.content, st.error) == MediaFrame(DetailsUrl(StatusOf(st).doc.identifier))
  {
  }

  /** What `fetchAndDisplayMedia` did before awaiting: alerted and returned, or sent a request. */
  datatype FetchStart = NoSelectionAlert | Sent(request: Request)

  /** The Home component's state. */
  class Home {
    var selectedTypes: seq<string>
    var mediaContent: Option<Doc>
    var loading: bool
    var mediaError: bool

    function State(): FetchState
      reads this
    {
      FetchState(mediaContent, loading, mediaError)
    }

    /** The selection is duplicate-free and drawn from the option table; the flags are consistent. */
    predicate Valid()
      reads this
    {
      NoDuplicates(selectedTypes) && WithinOptions(selectedTypes) && Consistent(State())
    }

    constructor ()
      ensures selectedTypes == [] && State() == Initial && Valid()
    {
      selectedTypes := [];
      mediaContent := None;
      loading := false;
      mediaError := false;
    }

    /** A click on the checkbox of `t`. */
    method ToggleMediaType(t: string)
      modifies this`selectedTypes
      ensures selectedTypes == Toggle(old(selectedTypes), t)
      ensures old(Valid()) && IsMediaTypeId(t) ==> Valid()
    {
      if old(Valid()) && IsMediaTypeId(t) {
        ToggleKeepsSelectionValid(selectedTypes, t);
      }
      selectedTypes := Toggle(selectedTypes, t);
    }

    /** The part of `fetchAndDisplayMedia` before the request is awaited (lines 20-41). */
    method BeginFetch(typeDraw: real, pageDraw: real) returns (start: FetchStart)
      requires IsDraw(typeDraw) && IsDraw(pageDraw)
      modifies this`mediaContent, this`loading, this`mediaError
      ensures old(selectedTypes) == [] ==> start == NoSelectionAlert && State() == old(State())
      ensures old(selectedTypes) != [] ==>
        start == Sent(BuildRequest(selectedTypes, typeDraw, pageDraw)) && State() == Pending
    {
      if |selectedTypes| == 0 {
        return NoSelectionAlert;
      }
      loading := true;
      mediaContent := None;
      mediaError := false;
      var typeIndex := RandomIndex(typeDraw, |selectedTypes|);
      var query := MediaTypeQuery(selectedTypes[typeIndex]);
      var page := RandomIndex(pageDraw, PageCount) + 1;
      start := Sent(Request(query, FieldList, Rows, page, OutputFormat));
    }

    /** The part after the request resolved or failed (lines 43-59). */
    method CompleteFetch(outcome: Outcome, docDraw: real)
      requires IsDraw(docDraw)
      modifies this`mediaContent, this`loading, this`mediaError
      ensures State() == Finish(old(State()), outcome, docDraw)
    {
      if outcome.Ok? && |outcome.docs| > 0 {
        var randomIndex := RandomIndex(docDraw, |outcome.docs|);
        mediaContent := Some(outcome.docs[randomIndex]);
      } else {
        mediaError := true;
      }
      loading := false;
    }

    /** One click on the button, with the request's outcome given, as one step. */
    method FetchAndDisplayMedia(typeDraw: real, pageDraw: real, outcome: Outcome, docDraw: real)
      returns (start: FetchStart)
      requires IsDraw(typeDraw) && IsDraw(pageDraw) && IsDraw(docDraw)
      modifies this`mediaContent, this`loading, this`mediaError
      ensures old(selectedTypes) == [] ==> start == NoSelectionAlert && State() == old(State())
      ensures old(selectedTypes) != [] ==>
        start == Sent(BuildRequest(selectedTypes, typeDraw, pageDraw)) && State() == Finish(Pending, outcome, docDraw)
      ensures old(Valid()) ==> Valid()
    {
      start := BeginFetch(typeDraw, pageDraw);
      if start.Sent? {
        CompleteFetch(outcome, docDraw);
      }
    }
  }

  /** Images selected, the archive answers with the single item `cat123`: its detail page is shown. */
  method ImagesScenario() returns (v: View)
    ensures v == MediaFrame("https://archive.org/details/cat123")
  {
    var home := new Home();
    home.ToggleMediaType("images");
    var cat := Doc("cat123", "", "image", "", "");
    var start := home.FetchAndDisplayMedia(0.0, 0.0, Ok([cat]), 0.0);
    v := RenderMediaContent(home.mediaContent, home.mediaError);
  }
}
