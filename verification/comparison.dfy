/**
 * The logic of the comparison view: whether the generate button is enabled,
 * its label and tooltip, which parts of the view are shown, and the
 * drag-and-drop counter of the upload panel.
 *
 * A selected style is truthy whenever present: every style is a non-empty
 * string in the source's enumeration.
 */
module ComparisonView {
  import opened Types
  import opened JsText

  /** The props the view's logic reads. */
  datatype ViewProps = ViewProps(
    originalImage: Option<string>,
    generatedImages: Option<seq<string>>,
    selectedGeneratedImage: Option<string>,
    isLoading: bool,
    error: Option<string>,
    isDirty: bool,
    selectedStyle: Option<VectorStyle>)

  const GeneratingLabel := "생성 중..."
  const RegenerateLabel := "다시 생성"
  const GenerateLabel := "생성하기"

  const UploadFirstTooltip := "먼저 이미지를 업로드해주세요."
  const SelectStyleTooltip := "스타일을 선택해주세요."
  const ChangeSettingsTooltip := "새로운 아트를 생성하려면 설정을 변경해주세요."

  /** `canGenerate`: an image is uploaded and a style is selected. */
  predicate CanGenerate(p: ViewProps)
  {
    Truthy(p.originalImage) && p.selectedStyle.Some?
  }

  /** `generatedImages && generatedImages.length > 0`. */
  predicate HasImages(p: ViewProps)
  {
    p.generatedImages.Some? && |p.generatedImages.value| > 0
  }

  /** `isGenerateButtonDisabled`. */
  predicate IsGenerateButtonDisabled(p: ViewProps)
  {
    p.isLoading || !CanGenerate(p) || (!p.isDirty && HasImages(p))
  }

  /** `generateButtonText`: the loading label first, then "regenerate" once images exist. */
  function GenerateButtonText(p: ViewProps): (text: string)
    ensures text == GeneratingLabel <==> p.isLoading
    ensures text == RegenerateLabel <==> !p.isLoading && HasImages(p)
    ensures text == GenerateLabel <==> !p.isLoading && !HasImages(p)
  {
    if p.isLoading then GeneratingLabel
    else if HasImages(p) then RegenerateLabel
    else GenerateLabel
  }

  /**
   * `getTooltipText`: no tooltip while the button is enabled or a
   * generation runs; otherwise the first reason that applies.
   */
  function TooltipText(p: ViewProps): (tooltip: Option<string>)
    ensures tooltip.None? <==> !IsGenerateButtonDisabled(p) || p.isLoading
    ensures tooltip == Some(UploadFirstTooltip) <==> !p.isLoading && !Truthy(p.originalImage)
    ensures tooltip == Some(SelectStyleTooltip) <==> !p.isLoading && Truthy(p.originalImage) && p.selectedStyle.None?
    ensures tooltip == Some(ChangeSettingsTooltip) <==> IsGenerateButtonDisabled(p) && !p.isLoading && CanGenerate(p)
  {
    if !IsGenerateButtonDisabled(p) || p.isLoading then None
    else if !Truthy(p.originalImage) then Some(UploadFirstTooltip)
    else if p.selectedStyle.None? then Some(SelectStyleTooltip)
    else if !p.isDirty && HasImages(p) then Some(ChangeSettingsTooltip)
    else None
  }

  /**
   * Whenever the button is disabled and no generation runs, there is a
   * tooltip saying why: the final `return null` is never reached.
   */
  lemma TooltipExplainsDisabledButton(p: ViewProps)
    requires IsGenerateButtonDisabled(p) && !p.isLoading
    ensures TooltipText(p).Some? && TooltipText(p).value != ""
  {
  }

  /** An enabled button means an image and a style are there and there is something new to generate. */
  lemma EnabledButtonMeansReady(p: ViewProps)
    requires !IsGenerateButtonDisabled(p)
    ensures CanGenerate(p) && !p.isLoading && (p.isDirty || !HasImages(p))
    ensures GenerateButtonText(p) != GeneratingLabel && TooltipText(p).None?
  {
  }

  // ------------------------------------------------------------- visibility

  /** The loader covers the generated-image panel while a generation runs. */
  predicate ShowsLoader(p: ViewProps)
  {
    p.isLoading
  }

  /** The error overlay: an error and no generation running. */
  predicate ShowsErrorOverlay(p: ViewProps)
  {
    !p.isLoading && Truthy(p.error)
  }

  /** The settings controls and the generate button appear once an image is uploaded. */
  predicate ShowsControls(p: ViewProps)
  {
    Truthy(p.originalImage)
  }

  /** The thumbnail gallery. */
  predicate ShowsGallery(p: ViewProps)
  {
    HasImages(p) && !p.isLoading && !Truthy(p.error)
  }

  /** The download button. */
  predicate ShowsDownload(p: ViewProps)
  {
    Truthy(p.selectedGeneratedImage) && !p.isLoading && !Truthy(p.error)
  }

  /** The shading row of the generation controls appears for the sketch style only. */
  predicate ShowsShadingRow(selectedStyle: Option<VectorStyle>)
  {
    selectedStyle == Some(SKETCH)
  }

  /**
   * The view never shows two contradicting things: the loader and the
   * error overlay exclude each other, and the gallery and the download
   * button appear only when neither is shown.
   */
  lemma VisibilityExclusive(p: ViewProps)
    ensures !(ShowsLoader(p) && ShowsErrorOverlay(p))
    ensures ShowsGallery(p) ==> !ShowsLoader(p) && !ShowsErrorOverlay(p) && HasImages(p)
    ensures ShowsDownload(p) ==> !ShowsLoader(p) && !ShowsErrorOverlay(p) && p.selectedGeneratedImage.Some?
    ensures !ShowsControls(p) ==> IsGenerateButtonDisabled(p)
  {
  }

  // ---------------------------------------------------------- drag and drop

  /** A file as the view sees it: its name and its MIME type. */
  datatype File = File(name: string, mimeType: string)

  /** The upload a drop triggers: the first dropped file, if there is one and its type starts with "image/". */
  function DroppedUpload(files: Option<seq<File>>): (upload: Option<File>)
    ensures upload.Some? <==> files.Some? && |files.value| > 0 && StartsWith(files.value[0].mimeType, "image/")
    ensures upload.Some? ==> upload.value == files.value[0]
  {
    if files.Some? && |files.value| > 0 && StartsWith(files.value[0].mimeType, "image/") then Some(files.value[0])
    else None
  }

  /** The upload the file input triggers: the first picked file, whatever its type. */
  function PickedUpload(files: Option<seq<File>>): (upload: Option<File>)
    ensures upload.Some? <==> files.Some? && |files.value| > 0
    ensures upload.Some? ==> upload.value == files.value[0]
  {
    if files.Some? && |files.value| > 0 then Some(files.value[0]) else None
  }

  /**
   * Only the first dropped file is considered: a drop whose first file is
   * not an image uploads nothing, even when a later file is one; the file
   * input, which does not check the type, uploads that first file.
   */
  lemma OnlyFirstDroppedFileCounts(first: File, second: File)
    requires !StartsWith(first.mimeType, "image/") && StartsWith(second.mimeType, "image/")
    ensures DroppedUpload(Some([first, second])).None?
    ensures PickedUpload(Some([first, second])) == Some(first)
  {
  }

  /**
   * The drag state of the upload panel: `dragCounter` counts the drag-enter
   * events not yet matched by a drag-leave (a drag over a child element
   * enters it before leaving the panel), and `isDraggingOver` shows the
   * drop overlay.
   */
  class DropZone {
    var dragCounter: int
    var isDraggingOver: bool

    /** The counter never goes below zero and the overlay shows only while some enter is unmatched. */
    ghost predicate Valid()
      reads this
    {
      dragCounter >= 0 && (isDraggingOver ==> dragCounter > 0)
    }

    constructor()
      ensures dragCounter == 0 && !isDraggingOver
      ensures Valid()
    {
      dragCounter := 0;
      isDraggingOver := false;
    }

    /** `handleDragEnter`: count the enter; show the overlay when the drag carries items. */
    method DragEnter(items: Option<nat>)
      modifies this
      ensures dragCounter == old(dragCounter) + 1
      ensures isDraggingOver == (old(isDraggingOver) || (items.Some? && items.value > 0))
      ensures old(Valid()) ==> Valid()
    {
      dragCounter := dragCounter + 1;
      if items.Some? && items.value > 0 {
        isDraggingOver := true;
      }
    }

    /** `handleDragLeave`: uncount the leave; hide the overlay when the count reaches zero. */
    method DragLeave()
      modifies this
      ensures dragCounter == old(dragCounter) - 1
      ensures isDraggingOver == (old(isDraggingOver) && dragCounter != 0)
      ensures old(Valid()) && old(dragCounter) > 0 ==> Valid()
    {
      dragCounter := dragCounter - 1;
      if dragCounter == 0 {
        isDraggingOver := false;
      }
    }

    /** `handleDrop`: reset the counter, hide the overlay, and upload the first file if it is an image. */
    method Drop(files: Option<seq<File>>) returns (upload: Option<File>)
      modifies this
      ensures dragCounter == 0 && !isDraggingOver
      ensures Valid()
      ensures upload == DroppedUpload(files)
    {
      isDraggingOver := false;
      dragCounter := 0;
      upload := None;
      if files.Some? && |files.value| > 0 {
        if StartsWith(files.value[0].mimeType, "image/") {
          upload := Some(files.value[0]);
        }
      }
    }
  }

  /**
   * A drag that enters the panel, then one of its children, then leaves
   * the child and finally the panel: the overlay stays up while the
   * pointer is over the child and goes once the last leave is counted.
   */
  method NestedDrag() returns (shownOverChild: bool, shownAfterLeavingChild: bool, shownAfterLeavingPanel: bool)
    ensures shownOverChild && shownAfterLeavingChild && !shownAfterLeavingPanel
  {
    var zone := new DropZone();
    zone.DragEnter(Some(1));
    zone.DragEnter(Some(1));
    shownOverChild := zone.isDraggingOver;
    zone.DragLeave();
    shownAfterLeavingChild := zone.isDraggingOver;
    zone.DragLeave();
    shownAfterLeavingPanel := zone.isDraggingOver;
  }

  /** A drag without items counts its enter but shows no overlay; its leave brings the count back to zero. */
  method DragWithoutItems() returns (shown: bool, counter: int)
    ensures !shown && counter == 0
  {
    var zone := new DropZone();
    zone.DragEnter(None);
    shown := zone.isDraggingOver;
    zone.DragLeave();
    counter := zone.dragCounter;
  }
}
