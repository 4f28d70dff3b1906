/**
 * The application component: its state, the reducer that updates it, the
 * upload and generate handlers that dispatch actions against it, and the
 * name of the downloaded file.
 */
module App {
  import opened Types
  import opened JsText
  import opened Retry
  import opened Responses
  import opened Generation
  import ComparisonView

  // ------------------------------------------------------------------ state

  datatype AppState = AppState(
    originalImage: Option<string>,
    originalMimeType: string,
    generatedImages: Option<seq<string>>,
    selectedGeneratedImage: Option<string>,
    isLoading: bool,
    error: Option<string>,
    selectedStyle: Option<VectorStyle>,
    shadingLevel: ShadingLevel,
    backgroundStyle: BackgroundStyle,
    backgroundColor: string,
    isDirty: bool)

  const InitialState := AppState(None, "", None, None, false, None, None, MEDIUM, ORIGINAL, "#FFFFFF", true)

  /**
   * The actions of the reducer. `SetImage` carries the base64 payload the
   * file reader produced, which is missing when the data URL had no comma.
   * `Unrecognised` stands for any other action type.
   */
  datatype Action =
    | SetImage(base64: Option<string>, mimeType: string)
    | SetStyle(style: VectorStyle)
    | SetShadingLevel(level: ShadingLevel)
    | SetBackgroundStyle(background: BackgroundStyle)
    | SetBackgroundColor(color: string)
    | SetSelectedGeneratedImage(image: string)
    | GenerationStart
    | GenerationSuccess(images: seq<string>)
    | GenerationFailure(message: string)
    | SetError(payload: Option<string>)
    | Unrecognised

  const GenerationFailurePrefix := "생성에 실패했습니다: "

  /** The fields of the state, to say which of them an action may change. */
  datatype Field = Image | MimeType | Images | Selected | Loading | ErrorMessage | Style | Shading | Background | Color | Dirty

  /** The fields whose values differ between two states. */
  function ChangedFields(s: AppState, t: AppState): set<Field>
  {
    (if s.originalImage != t.originalImage then {Image} else {})
    + (if s.originalMimeType != t.originalMimeType then {MimeType} else {})
    + (if s.generatedImages != t.generatedImages then {Images} else {})
    + (if s.selectedGeneratedImage != t.selectedGeneratedImage then {Selected} else {})
    + (if s.isLoading != t.isLoading then {Loading} else {})
    + (if s.error != t.error then {ErrorMessage} else {})
    + (if s.selectedStyle != t.selectedStyle then {Style} else {})
    + (if s.shadingLevel != t.shadingLevel then {Shading} else {})
    + (if s.backgroundStyle != t.backgroundStyle then {Background} else {})
    + (if s.backgroundColor != t.backgroundColor then {Color} else {})
    + (if s.isDirty != t.isDirty then {Dirty} else {})
  }

  /** The fields each action is meant to write; every other field is left as it was. */
  function Writes(a: Action): set<Field>
  {
    match a
    case SetImage(_, _) => {Image, MimeType, Images, Selected, Style, Background, Dirty, ErrorMessage}
    case SetStyle(_) => {Style, Dirty}
    case SetShadingLevel(_) => {Shading, Style, Dirty}
    case SetBackgroundStyle(_) => {Background, Dirty}
    case SetBackgroundColor(_) => {Color, Dirty}
    case SetSelectedGeneratedImage(_) => {Selected}
    case GenerationStart => {Loading, ErrorMessage, Images, Selected, Dirty}
    case GenerationSuccess(_) => {Loading, Images, Selected}
    case GenerationFailure(_) => {Loading, ErrorMessage}
    case SetError(_) => {ErrorMessage, Loading}
    case Unrecognised => {}
  }

  /** `payload[0] || null`: the first image when there is one and it is not empty. */
  function FirstImage(images: seq<string>): (r: Option<string>)
    ensures r.Some? <==> |images| > 0 && images[0] != ""
    ensures r.Some? ==> r.value == images[0]
  {
    if |images| > 0 && images[0] != "" then Some(images[0]) else None
  }

  /** `appReducer`. */
  function AppReducer(s: AppState, a: Action): AppState
  {
    match a
    case SetImage(base64, mimeType) =>
      s.(originalImage := base64, originalMimeType := mimeType, generatedImages := None,
         selectedGeneratedImage := None, selectedStyle := Some(GHIBLI), backgroundStyle := ORIGINAL,
         isDirty := true, error := None)
    case SetStyle(style) => s.(selectedStyle := Some(style), isDirty := true)
    case SetShadingLevel(level) => s.(shadingLevel := level, selectedStyle := Some(SKETCH), isDirty := true)
    case SetBackgroundStyle(background) => s.(backgroundStyle := background, isDirty := true)
    case SetBackgroundColor(color) => s.(backgroundColor := color, isDirty := true)
    case SetSelectedGeneratedImage(image) => s.(selectedGeneratedImage := Some(image))
    case GenerationStart =>
      s.(isLoading := true, error := None, generatedImages := None, selectedGeneratedImage := None, isDirty := false)
    case GenerationSuccess(images) =>
      s.(isLoading := false, generatedImages := Some(images), selectedGeneratedImage := FirstImage(images))
    case GenerationFailure(message) => s.(isLoading := false, error := Some(GenerationFailurePrefix + message))
    case SetError(payload) => s.(error := payload, isLoading := false)
    case Unrecognised => s
  }

  /** The state after dispatching the actions in order. */
  function ReduceAll(s: AppState, actions: seq<Action>): AppState
    decreases |actions|
  {
    if |actions| == 0 then s else ReduceAll(AppReducer(s, actions[0]), actions[1..])
  }

  // ---------------------------------------------------- properties of the reducer

  /** Each action changes only the fields it is meant to write. */
  lemma ReducerWritesOnly(s: AppState, a: Action)
    ensures ChangedFields(s, AppReducer(s, a)) <= Writes(a)
  {
  }

  /**
   * A new upload replaces the image and its type, clears the results, the
   * selection and the error, resets the style to GHIBLI and the background
   * to ORIGINAL, and marks the settings changed; the shading level, the
   * colour and the loading flag are kept.
   */
  lemma SetImageEffect(s: AppState, base64: Option<string>, mimeType: string)
    ensures var t := AppReducer(s, SetImage(base64, mimeType));
      && t.originalImage == base64 && t.originalMimeType == mimeType
      && t.generatedImages.None? && t.selectedGeneratedImage.None? && t.error.None?
      && t.selectedStyle == Some(GHIBLI) && t.backgroundStyle == ORIGINAL && t.isDirty
      && t.shadingLevel == s.shadingLevel && t.backgroundColor == s.backgroundColor && t.isLoading == s.isLoading
  {
  }

  /** A settings action records its value and marks the settings changed; choosing a shading level also selects SKETCH. */
  lemma SettingsActionsEffect(s: AppState, a: Action)
    requires a.SetStyle? || a.SetShadingLevel? || a.SetBackgroundStyle? || a.SetBackgroundColor?
    ensures var t := AppReducer(s, a);
      && t.isDirty
      && (a.SetStyle? ==> t.selectedStyle == Some(a.style) && ChangedFields(s, t) <= {Style, Dirty})
      && (a.SetShadingLevel? ==>
            t.shadingLevel == a.level && t.selectedStyle == Some(SKETCH) && ChangedFields(s, t) <= {Shading, Style, Dirty})
      && (a.SetBackgroundStyle? ==> t.backgroundStyle == a.background && ChangedFields(s, t) <= {Background, Dirty})
      && (a.SetBackgroundColor? ==> t.backgroundColor == a.color && ChangedFields(s, t) <= {Color, Dirty})
  {
  }

  /** Selecting a generated image changes the selection only; an unrecognised action changes nothing. */
  lemma SelectionAndUnknownActions(s: AppState, image: string)
    ensures AppReducer(s, SetSelectedGeneratedImage(image)) == s.(selectedGeneratedImage := Some(image))
    ensures AppReducer(s, Unrecognised) == s
  {
  }

  /** Dispatching the same action twice in a row has the effect of dispatching it once. */
  lemma ReducerIdempotent(s: AppState, a: Action)
    ensures AppReducer(AppReducer(s, a), a) == AppReducer(s, a)
  {
  }

  /**
   * The two ends of a generation exclude each other: after the start and a
   * success there are results and no error; after the start and a failure
   * there is an error and no results. Either way loading has stopped and
   * the settings count as unchanged.
   */
  lemma GenerationOutcomesExclusive(s: AppState, images: seq<string>, message: string)
    ensures var t := AppReducer(AppReducer(s, GenerationStart), GenerationSuccess(images));
      && t.error.None? && t.generatedImages == Some(images) && t.selectedGeneratedImage == FirstImage(images)
      && !t.isLoading && !t.isDirty
    ensures var t := AppReducer(AppReducer(s, GenerationStart), GenerationFailure(message));
      && t.generatedImages.None? && t.selectedGeneratedImage.None?
      && t.error == Some(GenerationFailurePrefix + message) && !t.isLoading && !t.isDirty
  {
    var started := AppReducer(s, GenerationStart);
    assert started.error.None? && started.generatedImages.None? && !started.isDirty;
    var succeeded := AppReducer(started, GenerationSuccess(images));
    assert succeeded == started.(isLoading := false, generatedImages := Some(images), selectedGeneratedImage := FirstImage(images));
    var failed := AppReducer(started, GenerationFailure(message));
    assert failed == started.(isLoading := false, error := Some(GenerationFailurePrefix + message));
  }

  /**
   * Starting a generation turns loading on, clears the error, the results
   * and the selection, and marks the settings as used; the upload and the
   * settings are kept. The view then shows the loader and the "generating"
   * label, with the button disabled and no tooltip.
   */
  lemma GenerationStartEffect(s: AppState)
    ensures var t := AppReducer(s, GenerationStart);
      && t.isLoading && !t.isDirty
      && t.error.None? && t.generatedImages.None? && t.selectedGeneratedImage.None?
      && t.originalImage == s.originalImage && t.originalMimeType == s.originalMimeType
      && t.selectedStyle == s.selectedStyle && t.shadingLevel == s.shadingLevel
      && t.backgroundStyle == s.backgroundStyle && t.backgroundColor == s.backgroundColor
      && ComparisonView.ShowsLoader(View(t)) && !ComparisonView.ShowsErrorOverlay(View(t))
      && ComparisonView.GenerateButtonText(View(t)) == ComparisonView.GeneratingLabel
      && ComparisonView.IsGenerateButtonDisabled(View(t)) && ComparisonView.TooltipText(View(t)).None?
      && !ComparisonView.ShowsGallery(View(t)) && !ComparisonView.ShowsDownload(View(t))
  {
  }

  /**
   * The reducer does not discard a late result: a success dispatched after
   * a new upload still installs its images next to the new image.
   */
  lemma SuccessAfterNewUploadIsKept(s: AppState, base64: Option<string>, mimeType: string, images: seq<string>)
    ensures var t := AppReducer(AppReducer(s, SetImage(base64, mimeType)), GenerationSuccess(images));
      t.originalImage == base64 && t.generatedImages == Some(images) && t.isDirty
  {
  }

  // ------------------------------------------------------- the view's props

  /** The props the application passes to the comparison view. */
  function View(s: AppState): ComparisonView.ViewProps
  {
    ComparisonView.ViewProps(s.originalImage, s.generatedImages, s.selectedGeneratedImage,
                             s.isLoading, s.error, s.isDirty, s.selectedStyle)
  }

  /** Before anything is uploaded the button is disabled and its tooltip asks for an image. */
  lemma InitialViewAsksForImage()
    ensures ComparisonView.IsGenerateButtonDisabled(View(InitialState))
    ensures ComparisonView.TooltipText(View(InitialState)) == Some(ComparisonView.UploadFirstTooltip)
    ensures !ComparisonView.ShowsControls(View(InitialState))
  {
  }

  /**
   * Choosing a shading level selects SKETCH, which brings up the shading
   * row; a new upload selects GHIBLI, which hides it.
   */
  lemma ShadingRowFollowsStyle(s: AppState, level: ShadingLevel, base64: Option<string>, mimeType: string)
    ensures ComparisonView.ShowsShadingRow(AppReducer(s, SetShadingLevel(level)).selectedStyle)
    ensures !ComparisonView.ShowsShadingRow(AppReducer(s, SetImage(base64, mimeType)).selectedStyle)
  {
  }

  /** The actions that neither change a setting nor start a generation, and that install no empty result. */
  predicate KeepsResult(a: Action)
  {
    a.SetSelectedGeneratedImage? || a.GenerationFailure? || a.SetError? || a.Unrecognised?
    || (a.GenerationSuccess? && |a.images| > 0)
  }

  /** A settings action or an upload marks the settings changed. */
  predicate MarksDirty(a: Action)
  {
    a.SetImage? || a.SetStyle? || a.SetShadingLevel? || a.SetBackgroundStyle? || a.SetBackgroundColor?
  }

  lemma {:induction false} ResultKeptUnderKeepsResult(s: AppState, actions: seq<Action>)
    requires !s.isDirty && s.generatedImages.Some? && |s.generatedImages.value| > 0
    requires forall k :: 0 <= k < |actions| ==> KeepsResult(actions[k])
    ensures var t := ReduceAll(s, actions);
      && !t.isDirty && t.generatedImages.Some? && |t.generatedImages.value| > 0 && (!s.isLoading ==> !t.isLoading)
      && t.selectedStyle == s.selectedStyle && t.shadingLevel == s.shadingLevel
      && t.backgroundStyle == s.backgroundStyle && t.backgroundColor == s.backgroundColor
    decreases |actions|
  {
    if |actions| > 0 {
      ResultKeptUnderKeepsResult(AppReducer(s, actions[0]), actions[1..]);
    }
  }

  /**
   * After a generation succeeds with images, the generate button stays
   * disabled (its tooltip asking for a change of settings) through any
   * dispatches that neither change a setting nor start a generation; the
   * next settings action enables it again when an image and a style are there.
   */
  lemma {:induction false} ButtonDisabledUntilSettingsChange(s: AppState, images: seq<string>, actions: seq<Action>, next: Action)
    requires |images| > 0
    requires forall k :: 0 <= k < |actions| ==> KeepsResult(actions[k])
    requires MarksDirty(next)
    ensures var t := ReduceAll(AppReducer(AppReducer(s, GenerationStart), GenerationSuccess(images)), actions);
      && ComparisonView.IsGenerateButtonDisabled(View(t))
      && !t.isLoading
      && ComparisonView.TooltipText(View(t)).Some?
      && AppReducer(t, next).isDirty
      && (ComparisonView.CanGenerate(View(AppReducer(t, next))) ==>
            !ComparisonView.IsGenerateButtonDisabled(View(AppReducer(t, next))))
  {
    var done := AppReducer(AppReducer(s, GenerationStart), GenerationSuccess(images));
    ResultKeptUnderKeepsResult(done, actions);
    var t := ReduceAll(done, actions);
    ComparisonView.TooltipExplainsDisabledButton(View(t));
  }

  // ------------------------------------------------------------ download

  const FilenamePrefix := "generated-image-"
  const FilenameSuffix := ".png"
  const DataUrlPrefix := "data:image/png;base64,"

  function Min(a: int, b: int): int
  {
    if a <= b then a else b
  }

  /**
   * The download file name for the ISO timestamp `iso`: its first 19
   * characters (date and time to the second) with every ':' and 'T'
   * replaced by '-', between the fixed prefix and ".png".
   */
  function DownloadFilename(iso: string): (name: string)
    ensures StartsWith(name, FilenamePrefix) && EndsWith(name, FilenameSuffix)
    ensures |name| == |FilenamePrefix| + Min(19, |iso|) + |FilenameSuffix|
    ensures forall k :: 0 <= k < Min(19, |iso|) ==>
      name[|FilenamePrefix| + k] == (if iso[k] == ':' || iso[k] == 'T' then '-' else iso[k])
  {
    var stamp := ReplaceAll(iso[..Min(19, |iso|)], {':', 'T'}, '-');
    var name := FilenamePrefix + stamp + FilenameSuffix;
    assert name[..|FilenamePrefix|] == FilenamePrefix;
    assert name[|name| - |FilenameSuffix|..] == FilenameSuffix;
    assert forall k :: 0 <= k < |stamp| ==> name[|FilenamePrefix| + k] == stamp[k];
    name
  }

  /** The stamp part of a file name never contains ':' or 'T', so the name is safe on every file system. */
  lemma FilenameStampHasNoColonOrT(iso: string)
    ensures var name := DownloadFilename(iso);
      forall k :: |FilenamePrefix| <= k < |name| - |FilenameSuffix| ==> name[k] != ':' && name[k] != 'T'
  {
    var name := DownloadFilename(iso);
    forall k | |FilenamePrefix| <= k < |name| - |FilenameSuffix|
      ensures name[k] != ':' && name[k] != 'T'
    {
      assert name[|FilenamePrefix| + (k - |FilenamePrefix|)] == name[k];
    }
  }

  /** The file name for a typical timestamp. */
  lemma FilenameExample(iso: string)
    requires iso == "2024-05-01T12:34:56.789Z"
    ensures DownloadFilename(iso) == "generated-image-2024-05-01-12-34-56.png"
  {
    var name := DownloadFilename(iso);
    var expected := "generated-image-2024-05-01-12-34-56.png";
    assert |name| == |expected|;
    forall k | 0 <= k < |name|
      ensures name[k] == expected[k]
    {
      if k >= |FilenamePrefix| && k < |FilenamePrefix| + 19 {
        assert name[|FilenamePrefix| + (k - |FilenamePrefix|)] == name[k];
      }
    }
  }

  /** The link `handleDownload` clicks: the image as a PNG data URL and the file name. */
  datatype DownloadLink = DownloadLink(href: string, filename: string)

  /** `handleDownload`: nothing without a selected image; otherwise the link to click. */
  function HandleDownload(selected: Option<string>, iso: string): (link: Option<DownloadLink>)
    ensures link.Some? <==> Truthy(selected)
    ensures link.Some? ==> link.value.href == DataUrlPrefix + selected.value
    ensures link.Some? ==> link.value.filename == DownloadFilename(iso)
  {
    if !Truthy(selected) then None
    else Some(DownloadLink(DataUrlPrefix + selected.value, DownloadFilename(iso)))
  }

  // ------------------------------------------------------------ handlers

  const UploadFirstMessage := "먼저 이미지를 업로드해주세요."
  const SelectStyleFirstMessage := "먼저 스타일을 선택해주세요."
  const ImageLoadFailedMessage := "이미지를 불러오는 데 실패했습니다. 다른 파일을 시도해 주세요."
  const UnknownErrorMessage := "알 수 없는 오류가 발생했습니다."

  /** What the file reader produced for an upload: the base64 payload and the file's type. */
  datatype Upload = Upload(base64: Option<string>, mimeType: string)

  /** The actions `handleImageUpload` dispatches for a read that succeeded or failed. */
  function UploadActions(read: Result<Upload, Thrown>): (actions: seq<Action>)
    ensures |actions| == 2 && actions[0] == SetError(None)
    ensures read.Ok? ==> actions[1] == SetImage(read.value.base64, read.value.mimeType)
    ensures read.Err? ==> actions[1] == SetError(Some(ImageLoadFailedMessage))
  {
    match read
    case Ok(upload) => [SetError(None), SetImage(upload.base64, upload.mimeType)]
    case Err(_) => [SetError(None), SetError(Some(ImageLoadFailedMessage))]
  }

  /**
   * What `handleImageUpload` leaves behind: loading is off; a failed read
   * only reports the read failure; a successful one installs the new image
   * and its type, clears the results, the selection and the error, and
   * resets the style and the background, keeping the shading and the colour.
   */
  lemma ImageUploadEffect(s: AppState, read: Result<Upload, Thrown>)
    ensures var t := ReduceAll(s, UploadActions(read));
      && !t.isLoading
      && (read.Err? ==> t == s.(error := Some(ImageLoadFailedMessage), isLoading := false))
      && (read.Ok? ==>
            && t.originalImage == read.value.base64 && t.originalMimeType == read.value.mimeType
            && t.generatedImages.None? && t.selectedGeneratedImage.None? && t.error.None?
            && t.selectedStyle == Some(GHIBLI) && t.backgroundStyle == ORIGINAL && t.isDirty
            && t.shadingLevel == s.shadingLevel && t.backgroundColor == s.backgroundColor)
  {
    ReduceAllShort(s, UploadActions(read)[0], UploadActions(read)[1]);
  }

  /** The guard of `handleGenerateClick`: the message it reports, or None when a generation may start. */
  function GuardMessage(s: AppState): (message: Option<string>)
    ensures message.None? <==> Truthy(s.originalImage) && s.originalMimeType != "" && s.selectedStyle.Some?
    ensures !Truthy(s.originalImage) || s.originalMimeType == "" ==> message == Some(UploadFirstMessage)
    ensures Truthy(s.originalImage) && s.originalMimeType != "" && s.selectedStyle.None? ==> message == Some(SelectStyleFirstMessage)
  {
    if !Truthy(s.originalImage) || s.originalMimeType == "" then Some(UploadFirstMessage)
    else if s.selectedStyle.None? then Some(SelectStyleFirstMessage)
    else None
  }

  /** The message reported for what the generation threw. */
  function ErrorText(e: Thrown): string
  {
    if e.Error? then e.message else UnknownErrorMessage
  }

  /** The action that ends a generation with the given outcome. */
  function OutcomeAction(outcome: Result<seq<string>, Thrown>): Action
  {
    match outcome
    case Ok(images) => GenerationSuccess(images)
    case Err(e) => GenerationFailure(ErrorText(e))
  }

  /** What the generation of state `s` returns or throws. */
  function GenerationFor(s: AppState, remote: (Request, nat, nat) -> Outcome<Response>): Result<seq<string>, Thrown>
    requires GuardMessage(s).None?
  {
    Generate(s.originalImage.value, s.originalMimeType, s.selectedStyle.value, s.shadingLevel,
             s.backgroundStyle, s.backgroundColor, remote)
  }

  /** The actions `handleGenerateClick` dispatches from state `s`. */
  function ClickActions(s: AppState, remote: (Request, nat, nat) -> Outcome<Response>): seq<Action>
  {
    match GuardMessage(s)
    case Some(message) => [SetError(Some(message))]
    case None => [GenerationStart, OutcomeAction(GenerationFor(s, remote))]
  }

  /** Dispatching one action. */
  lemma ReduceAllOne(s: AppState, a: Action)
    ensures ReduceAll(s, [a]) == AppReducer(s, a)
  {
    assert [a][1..] == [];
  }

  /** Dispatching two actions. */
  lemma ReduceAllShort(s: AppState, a: Action, b: Action)
    ensures ReduceAll(s, [a, b]) == AppReducer(AppReducer(s, a), b)
  {
    assert [a, b][1..] == [b];
    ReduceAllOne(AppReducer(s, a), b);
  }

  /**
   * A generation that was started and ended with `outcome`: loading is off
   * and exactly one of results and error is set, the results being the
   * images returned and the error the prefixed message of what was thrown.
   */
  lemma GenerationRunEffect(s: AppState, outcome: Result<seq<string>, Thrown>)
    ensures var t := ReduceAll(s, [GenerationStart, OutcomeAction(outcome)]);
      && !t.isLoading && !t.isDirty
      && (t.generatedImages.Some? <==> t.error.None?)
      && (outcome.Ok? <==> t.generatedImages.Some?)
      && (outcome.Ok? ==> t.generatedImages == Some(outcome.value) && t.selectedGeneratedImage == FirstImage(outcome.value))
      && (outcome.Err? ==> t.error == Some(GenerationFailurePrefix + ErrorText(outcome.error))
                           && StartsWith(t.error.value, GenerationFailurePrefix))
  {
    ReduceAllShort(s, GenerationStart, OutcomeAction(outcome));
    if outcome.Err? {
      var m := GenerationFailurePrefix + ErrorText(outcome.error);
      assert m[..|GenerationFailurePrefix|] == GenerationFailurePrefix;
    }
  }

  /** A click the guard stops dispatches one error and nothing else: no start, no call, loading off. */
  lemma ClickBlocked(s: AppState, remote: (Request, nat, nat) -> Outcome<Response>)
    requires GuardMessage(s).Some?
    ensures ClickActions(s, remote) == [SetError(GuardMessage(s))]
    ensures var t := ReduceAll(s, ClickActions(s, remote));
      && !t.isLoading && t.error == GuardMessage(s)
      && t.generatedImages == s.generatedImages && t.isDirty == s.isDirty
  {
    ReduceAllOne(s, SetError(GuardMessage(s)));
  }

  /**
   * A click that passes the guard runs one generation: afterwards loading
   * is off and exactly one of results and error is set, the results being
   * the one to four images the generation returned and the error carrying
   * the fixed prefix.
   */
  lemma ClickRuns(s: AppState, remote: (Request, nat, nat) -> Outcome<Response>)
    requires GuardMessage(s).None?
    ensures var t := ReduceAll(s, ClickActions(s, remote));
      && !t.isLoading
      && (t.generatedImages.Some? <==> t.error.None?)
      && (GenerationFor(s, remote).Ok? <==> t.generatedImages.Some?)
      && (t.generatedImages.Some? ==> t.generatedImages == Some(GenerationFor(s, remote).value)
                                       && 0 < |t.generatedImages.value| <= ImageCount)
      && (t.error.Some? ==> StartsWith(t.error.value, GenerationFailurePrefix))
  {
    var g := GenerationFor(s, remote);
    assert g.Ok? ==> 0 < |g.value| <= ImageCount by {
      GenerateOutcomes(s.originalImage.value, s.originalMimeType, s.selectedStyle.value, s.shadingLevel,
                       s.backgroundStyle, s.backgroundColor, remote);
    }
    assert ClickActions(s, remote) == [GenerationStart, OutcomeAction(g)];
    GenerationRunEffect(s, g);
  }

  /**
   * An enabled generate button passes the click guard whenever the image
   * has a type: the button's conditions imply the guard's, except that the
   * guard also requires a non-empty MIME type.
   */
  lemma EnabledButtonPassesGuard(s: AppState)
    requires !ComparisonView.IsGenerateButtonDisabled(View(s)) && s.originalMimeType != ""
    ensures GuardMessage(s).None?
  {
  }

  /** An image whose type the browser left empty enables the button, yet the click only reports the upload error. */
  lemma EmptyMimeTypeBlocksEnabledButton(s: AppState, image: string)
    requires s == InitialState.(originalImage := Some(image), selectedStyle := Some(GHIBLI))
    requires image != ""
    ensures !ComparisonView.IsGenerateButtonDisabled(View(s))
    ensures GuardMessage(s) == Some(UploadFirstMessage)
  {
  }

  /**
   * The application component: the reducer's current state, and a ghost record of the
   * actions dispatched so far.
   */
  class AppComponent {
    var state: AppState
    ghost var dispatched: seq<Action>

    constructor()
      ensures state == InitialState && dispatched == []
    {
      state := InitialState;
      dispatched := [];
    }

    /** `dispatch`: record the action and apply the reducer. */
    method Dispatch(a: Action)
      modifies this
      ensures state == AppReducer(old(state), a)
      ensures dispatched == old(dispatched) + [a]
    {
      state := AppReducer(state, a);
      dispatched := dispatched + [a];
    }

    /** `handleImageUpload`, given what reading the file produced. */
    method ImageUpload(read: Result<Upload, Thrown>)
      modifies this
      ensures dispatched == old(dispatched) + UploadActions(read)
      ensures state == ReduceAll(old(state), UploadActions(read))
    {
      ReduceAllShort(state, UploadActions(read)[0], UploadActions(read)[1]);
      Dispatch(SetError(None));
      match read {
        case Ok(upload) =>
          Dispatch(SetImage(upload.base64, upload.mimeType));
        case Err(_) =>
          Dispatch(SetError(Some(ImageLoadFailedMessage)));
      }
    }

    /**
     * `handleGenerateClick`, with the remote model as a parameter. Returns
     * how many calls of the remote model were made: none when the guard
     * stops the click.
     */
    method GenerateClick(remote: (Request, nat, nat) -> Outcome<Response>) returns (calls: nat)
      modifies this
      ensures dispatched == old(dispatched) + ClickActions(old(state), remote)
      ensures state == ReduceAll(old(state), ClickActions(old(state), remote))
      ensures GuardMessage(old(state)).Some? <==> calls == 0
      ensures calls <= ImageCount * DefaultMaxRetries
    {
      var s := state;
      if !Truthy(s.originalImage) || s.originalMimeType == "" {
        ReduceAllOne(s, SetError(GuardMessage(s)));
        Dispatch(SetError(Some(UploadFirstMessage)));
        return 0;
      }
      if s.selectedStyle.None? {
        ReduceAllOne(s, SetError(GuardMessage(s)));
        Dispatch(SetError(Some(SelectStyleFirstMessage)));
        return 0;
      }
      Dispatch(GenerationStart);
      var outcome, request;
      outcome, request, calls := GenerateVectorImage(s.originalImage.value, s.originalMimeType, s.selectedStyle.value,
                                                     s.shadingLevel, s.backgroundStyle, s.backgroundColor, remote);
      assert outcome == GenerationFor(s, remote);
      assert ClickActions(s, remote) == [GenerationStart, OutcomeAction(outcome)];
      ReduceAllShort(s, GenerationStart, OutcomeAction(outcome));
      Settled(outcome);
    }

    /** The end of `handleGenerateClick`: the success action with the images, or the failure action with the message thrown. */
    method Settled(outcome: Result<seq<string>, Thrown>)
      modifies this
      ensures state == AppReducer(old(state), OutcomeAction(outcome))
      ensures dispatched == old(dispatched) + [OutcomeAction(outcome)]
    {
      match outcome {
        case Ok(images) =>
          Dispatch(GenerationSuccess(images));
        case Err(e) =>
          var errorMessage := if e.Error? then e.message else UnknownErrorMessage;
          Dispatch(GenerationFailure(errorMessage));
      }
    }
  }
}
