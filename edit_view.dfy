// The tracing screen: a drawing canvas over the reference sketch, the pen and
// eraser tools, leaving with or without a drawing, and saving the drawing as a
// new artwork.

module EditScreen {
  import opened Wrappers
  import opened Models
  import opened Storage
  import opened App

  /** A SwiftUI colour. */
  type Color(==, !new)

  /** The canvas tool: an inking pen of a colour and width, or the vector eraser. */
  datatype Tool = Pen(color: Color, width: real) | Eraser

  const DrawingSaveFailedMessage: string := "无法保存图像文件"
  const ReferenceSaveFailedMessage: string := "无法保存参考图像文件"
  const TracedWorkTitle: string := "我的临摹作品"

  /** The tool toggling the drawing mode selects: the pen in the current colour
      and width when drawing becomes active, the eraser when it does not. */
  function ModeTool(drawingIsActive: bool, color: Color, width: real): (t: Tool)
    ensures t.Pen? <==> drawingIsActive
    ensures t.Pen? ==> t.color == color && t.width == width
  {
    if drawingIsActive then Pen(color, width) else Eraser
  }

  class EditView {
    const sketchImage: UIImage
    const originalImage: UIImage
    const appState: AppState
    const storage: StorageService
    /** Whether the canvas's drawing has empty bounds. */
    var drawingIsEmpty: bool
    var tool: Tool
    var drawingIsActive: bool
    var toolPickerIsActive: bool
    var selectedColor: Color
    var lineWidth: real
    var showingReferenceImage: bool
    var showingSaveSuccessAlert: bool
    var showingSaveFailureAlert: bool
    var showingDiscardAlert: bool
    var saveErrorMessage: string
    /** Whether the screen has asked its presentation to dismiss it. */
    var dismissed: bool

    /** A fresh screen; the canvas starts with a black pen of width 5. */
    constructor (sketchImage: UIImage, originalImage: UIImage, appState: AppState, storage: StorageService, black: Color)
      ensures this.sketchImage == sketchImage && this.originalImage == originalImage
      ensures this.appState == appState && this.storage == storage
      ensures drawingIsEmpty && tool == Pen(black, 5.0)
      ensures drawingIsActive && toolPickerIsActive && selectedColor == black && lineWidth == 5.0
      ensures showingReferenceImage && !showingSaveSuccessAlert && !showingSaveFailureAlert && !showingDiscardAlert
      ensures saveErrorMessage == "" && !dismissed
    {
      this.sketchImage := sketchImage;
      this.originalImage := originalImage;
      this.appState := appState;
      this.storage := storage;
      drawingIsEmpty := true;
      tool := Pen(black, 5.0);
      drawingIsActive := true;
      toolPickerIsActive := true;
      selectedColor := black;
      lineWidth := 5.0;
      showingReferenceImage := true;
      showingSaveSuccessAlert := false;
      showingSaveFailureAlert := false;
      showingDiscardAlert := false;
      saveErrorMessage := "";
      dismissed := false;
    }

    /** A stroke on the canvas with the current tool. A pen stroke always
        leaves ink; whether an eraser stroke leaves the drawing empty is up to
        PencilKit (`emptyAfterErasing`). */
    method Stroke(emptyAfterErasing: bool)
      modifies this`drawingIsEmpty
      ensures tool.Pen? ==> !drawingIsEmpty
      ensures tool.Eraser? ==> drawingIsEmpty == emptyAfterErasing
    {
      drawingIsEmpty := if tool.Pen? then false else emptyAfterErasing;
    }

    /** The trash button: the canvas gets a new, empty drawing. */
    method ClearCanvas()
      modifies this`drawingIsEmpty
      ensures drawingIsEmpty
    {
      drawingIsEmpty := true;
    }

    /** The back button: with something drawn it asks before discarding,
        otherwise it leaves. */
    method Back()
      modifies this`showingDiscardAlert, this`dismissed
      ensures !drawingIsEmpty ==> showingDiscardAlert && dismissed == old(dismissed)
      ensures drawingIsEmpty ==> dismissed && showingDiscardAlert == old(showingDiscardAlert)
    {
      if !drawingIsEmpty {
        showingDiscardAlert := true;
      } else {
        dismissed := true;
      }
    }

    /** The discard alert's destructive button. */
    method ConfirmDiscard()
      modifies this`dismissed
      ensures dismissed
    {
      dismissed := true;
    }

    /** The eye button and the compare button both flip whether the reference
        sketch is shown. */
    method ToggleReferenceImage()
      modifies this`showingReferenceImage
      ensures showingReferenceImage == !old(showingReferenceImage)
    {
      showingReferenceImage := !showingReferenceImage;
    }

    /** Flips between drawing and erasing; the canvas tool follows only while
        the tool picker is active. */
    method ToggleDrawingMode()
      modifies this`drawingIsActive, this`tool
      ensures drawingIsActive == !old(drawingIsActive)
      ensures toolPickerIsActive ==> tool == ModeTool(drawingIsActive, selectedColor, lineWidth)
      ensures !toolPickerIsActive ==> tool == old(tool)
    {
      drawingIsActive := !drawingIsActive;
      if toolPickerIsActive {
        tool := if drawingIsActive then Pen(selectedColor, lineWidth) else Eraser;
      }
    }

    /** Applies the current colour and width to the pen, in drawing mode only. */
    method UpdatePencilToolSettings()
      modifies this`tool
      ensures drawingIsActive ==> tool == Pen(selectedColor, lineWidth)
      ensures !drawingIsActive ==> tool == old(tool)
    {
      if drawingIsActive {
        tool := Pen(selectedColor, lineWidth);
      }
    }

    /** The width slider (1...20); a change updates the pen. */
    method SlideLineWidth(w: real)
      modifies this`lineWidth, this`tool
      ensures lineWidth == (if w < 1.0 then 1.0 else if w > 20.0 then 20.0 else w)
      ensures 1.0 <= lineWidth <= 20.0
      ensures drawingIsActive ==> tool == Pen(selectedColor, lineWidth)
      ensures !drawingIsActive ==> tool == old(tool)
    {
      lineWidth := if w < 1.0 then 1.0 else if w > 20.0 then 20.0 else w;
      UpdatePencilToolSettings();
    }

    /** Saves the rendered drawing and the reference sketch, each under a fresh
        name, and prepends a new artwork naming them; the first failing save
        shows its message and stops. The drawing is written with
        saveSketchImage, so it lands in the sketch directory while the artwork
        names it as its image URL. */
    method SaveDrawing(drawing: UIImage, drawingUuid: Uuid, referenceUuid: Uuid, artworkId: Uuid, now: Date,
                       drawingWriteOk: bool, referenceWriteOk: bool)
      modifies appState`userWorks, storage`files, storage`defaults
      modifies this`saveErrorMessage, this`showingSaveFailureAlert, this`showingSaveSuccessAlert
      ensures var drawingSaved := storage.jpegData(drawing).Some? && drawingWriteOk;
        !drawingSaved ==>
          && saveErrorMessage == DrawingSaveFailedMessage && showingSaveFailureAlert
          && showingSaveSuccessAlert == old(showingSaveSuccessAlert)
          && appState.userWorks == old(appState.userWorks)
          && storage.files == old(storage.files) && storage.defaults == old(storage.defaults)
      ensures var drawingSaved := storage.jpegData(drawing).Some? && drawingWriteOk;
        var referenceSaved := storage.jpegData(sketchImage).Some? && referenceWriteOk;
        drawingSaved && !referenceSaved ==>
          && saveErrorMessage == ReferenceSaveFailedMessage && showingSaveFailureAlert
          && showingSaveSuccessAlert == old(showingSaveSuccessAlert)
          && appState.userWorks == old(appState.userWorks) && storage.defaults == old(storage.defaults)
          && storage.files == old(storage.files)[(DirectoryName(ImageDirectory.Sketch), ImageFileName("drawing", drawingUuid))
                                                 := storage.jpegData(drawing).value]
      ensures var drawingSaved := storage.jpegData(drawing).Some? && drawingWriteOk;
        var referenceSaved := storage.jpegData(sketchImage).Some? && referenceWriteOk;
        drawingSaved && referenceSaved ==>
          var artwork := NewArtWork(artworkId, TracedWorkTitle, Other, now, ImageFileName("drawing", drawingUuid),
                                    Some(ImageFileName("sketch_reference", referenceUuid)), None);
          && appState.userWorks == [artwork] + old(appState.userWorks)
          && storage.defaults == old(storage.defaults)[ArtworkDefaultsKey := ArtWorksData(EncodeAll(appState.userWorks))]
          && showingSaveSuccessAlert
          && saveErrorMessage == old(saveErrorMessage) && showingSaveFailureAlert == old(showingSaveFailureAlert)
          && storage.files == old(storage.files)
               [(DirectoryName(ImageDirectory.Sketch), ImageFileName("drawing", drawingUuid)) := storage.jpegData(drawing).value]
               [(DirectoryName(ImageDirectory.Sketch), ImageFileName("sketch_reference", referenceUuid)) := storage.jpegData(sketchImage).value]
          && storage.LoadImage(appState.userWorks[0].sketchImageUrl.value, ImageDirectory.Sketch)
               == storage.imageFromData(storage.jpegData(sketchImage).value)
      // The saved drawing is not where the detail page looks for an image URL.
      ensures var drawingSaved := storage.jpegData(drawing).Some? && drawingWriteOk;
        var referenceSaved := storage.jpegData(sketchImage).Some? && referenceWriteOk;
        var drawingFile := ImageFileName("drawing", drawingUuid);
        drawingSaved && referenceSaved && (DirectoryName(Original), drawingFile) !in old(storage.files) ==>
          appState.userWorks[0].imageUrl == drawingFile
          && storage.LoadImage(appState.userWorks[0].imageUrl, Original) == None
    {
      var drawingFileName := storage.SaveSketchImage(drawing, "drawing", drawingUuid, drawingWriteOk);
      if drawingFileName.None? {
        saveErrorMessage := DrawingSaveFailedMessage;
        showingSaveFailureAlert := true;
        return;
      }
      var sketchFileName := storage.SaveSketchImage(sketchImage, "sketch_reference", referenceUuid, referenceWriteOk);
      if sketchFileName.None? {
        saveErrorMessage := ReferenceSaveFailedMessage;
        showingSaveFailureAlert := true;
        return;
      }
      var artwork := NewArtWork(artworkId, TracedWorkTitle, Other, now, drawingFileName.value, sketchFileName, None);
      appState.userWorks := [artwork] + appState.userWorks;
      storage.SaveArtWorks(appState.userWorks);
      showingSaveSuccessAlert := true;
    }

    /** SaveDrawing with the drawing written to the original directory, where
        the detail page and the grid look for an artwork's image URL; the
        saved artwork's image then loads back as the drawing's bytes decode. */
    method SaveDrawingToOriginals(drawing: UIImage, drawingUuid: Uuid, referenceUuid: Uuid, artworkId: Uuid, now: Date,
                                  drawingWriteOk: bool, referenceWriteOk: bool)
      modifies appState`userWorks, storage`files, storage`defaults
      modifies this`saveErrorMessage, this`showingSaveFailureAlert, this`showingSaveSuccessAlert
      ensures var drawingSaved := storage.jpegData(drawing).Some? && drawingWriteOk;
        !drawingSaved ==>
          && saveErrorMessage == DrawingSaveFailedMessage && showingSaveFailureAlert
          && showingSaveSuccessAlert == old(showingSaveSuccessAlert)
          && appState.userWorks == old(appState.userWorks)
          && storage.files == old(storage.files) && storage.defaults == old(storage.defaults)
      ensures var drawingSaved := storage.jpegData(drawing).Some? && drawingWriteOk;
        var referenceSaved := storage.jpegData(sketchImage).Some? && referenceWriteOk;
        drawingSaved && !referenceSaved ==>
          && saveErrorMessage == ReferenceSaveFailedMessage && showingSaveFailureAlert
          && showingSaveSuccessAlert == old(showingSaveSuccessAlert)
          && appState.userWorks == old(appState.userWorks) && storage.defaults == old(storage.defaults)
          && storage.files == old(storage.files)[(DirectoryName(Original), ImageFileName("drawing", drawingUuid))
                                                 := storage.jpegData(drawing).value]
      ensures var drawingSaved := storage.jpegData(drawing).Some? && drawingWriteOk;
        var referenceSaved := storage.jpegData(sketchImage).Some? && referenceWriteOk;
        drawingSaved && referenceSaved ==>
          var artwork := NewArtWork(artworkId, TracedWorkTitle, Other, now, ImageFileName("drawing", drawingUuid),
                                    Some(ImageFileName("sketch_reference", referenceUuid)), None);
          && appState.userWorks == [artwork] + old(appState.userWorks)
          && storage.defaults == old(storage.defaults)[ArtworkDefaultsKey := ArtWorksData(EncodeAll(appState.userWorks))]
          && showingSaveSuccessAlert
          && saveErrorMessage == old(saveErrorMessage) && showingSaveFailureAlert == old(showingSaveFailureAlert)
          && storage.files == old(storage.files)
               [(DirectoryName(Original), ImageFileName("drawing", drawingUuid)) := storage.jpegData(drawing).value]
               [(DirectoryName(ImageDirectory.Sketch), ImageFileName("sketch_reference", referenceUuid)) := storage.jpegData(sketchImage).value]
          && storage.LoadImage(appState.userWorks[0].imageUrl, Original) == storage.imageFromData(storage.jpegData(drawing).value)
          && storage.LoadImage(appState.userWorks[0].sketchImageUrl.value, ImageDirectory.Sketch)
               == storage.imageFromData(storage.jpegData(sketchImage).value)
    {
      var drawingFileName := storage.SaveOriginalImage(drawing, "drawing", drawingUuid, drawingWriteOk);
      if drawingFileName.None? {
        saveErrorMessage := DrawingSaveFailedMessage;
        showingSaveFailureAlert := true;
        return;
      }
      var sketchFileName := storage.SaveSketchImage(sketchImage, "sketch_reference", referenceUuid, referenceWriteOk);
      if sketchFileName.None? {
        saveErrorMessage := ReferenceSaveFailedMessage;
        showingSaveFailureAlert := true;
        return;
      }
      var artwork := NewArtWork(artworkId, TracedWorkTitle, Other, now, drawingFileName.value, sketchFileName, None);
      appState.userWorks := [artwork] + appState.userWorks;
      storage.SaveArtWorks(appState.userWorks);
      showingSaveSuccessAlert := true;
    }
  }
}
