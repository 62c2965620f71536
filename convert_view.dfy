// The conversion screen: parameters, the busy flag around one conversion, and
// saving the pair of images as a new artwork.

module ConvertScreen {
  import opened Wrappers
  import opened Models
  import opened ImageProcessing
  import opened Storage
  import opened App

  const UntitledTitle: string := "未命名作品"

  /** A stepped slider's value: the requested value held inside the slider's
      range. */
  function Clamp(v: int, lo: int, hi: int): (r: int)
    requires lo <= hi
    ensures lo <= r <= hi
    ensures lo <= v <= hi ==> r == v
    ensures v < lo ==> r == lo
    ensures v > hi ==> r == hi
  {
    if v < lo then lo else if v > hi then hi else v
  }

  class ConvertView {
    const originalImage: UIImage
    const appState: AppState
    const storage: StorageService
    const service: ImageProcessingService
    var convertedImage: Option<UIImage>
    var isProcessing: bool
    var showingSaveSuccess: bool
    var selectedStyle: SketchStyle
    var lineThickness: int
    var contrast: int
    var saturation: int
    /** The completion handed to the service whose main-queue run is still due. */
    var pendingResult: Option<Result<UIImage, ImageProcessingError>>

    /** Slider ranges, and the busy flag set exactly while a completion is due. */
    ghost predicate Valid()
      reads this
    {
      && 1 <= lineThickness <= 5
      && 0 <= contrast <= 100
      && 0 <= saturation <= 100
      && (isProcessing <==> pendingResult.Some?)
    }

    constructor (originalImage: UIImage, appState: AppState, storage: StorageService, service: ImageProcessingService)
      ensures Valid()
      ensures this.originalImage == originalImage && this.appState == appState
      ensures this.storage == storage && this.service == service
      ensures convertedImage == None && !isProcessing && !showingSaveSuccess && pendingResult == None
      ensures selectedStyle == Outline && lineThickness == 3 && contrast == 50 && saturation == 50
    {
      this.originalImage := originalImage;
      this.appState := appState;
      this.storage := storage;
      this.service := service;
      convertedImage := None;
      isProcessing := false;
      showingSaveSuccess := false;
      selectedStyle := Outline;
      lineThickness := 3;
      contrast := 50;
      saturation := 50;
      pendingResult := None;
    }

    /** Whether the toolbar's save button is enabled. */
    predicate SaveEnabled()
      reads this
    {
      convertedImage.Some? && !isProcessing
    }

    /** Starts a conversion of the original image with the current style and
        parameters, unless one is already running. */
    method ConvertImage()
      requires Valid()
      modifies this`isProcessing, this`pendingResult, service
      ensures Valid()
      ensures old(isProcessing) ==>
        isProcessing && pendingResult == old(pendingResult)
        && service.progressLog == old(service.progressLog) && service.delivered == old(service.delivered)
      ensures !old(isProcessing) ==>
        var t := Convert(service.coreImage, originalImage, selectedStyle, lineThickness, contrast, saturation);
        && isProcessing && pendingResult == Some(t.result)
        && service.progressLog == old(service.progressLog) + t.progress
        && service.delivered == old(service.delivered) + [t.result]
      ensures !SaveEnabled()
    {
      if isProcessing {
        return;
      }
      isProcessing := true;
      var result := service.ConvertToSketch(originalImage, selectedStyle, lineThickness, contrast, saturation);
      pendingResult := Some(result);
    }

    /** The conversion's completion: clears the busy flag and shows the image
        on success; on failure the previous image stays. */
    method FinishConversion()
      requires Valid()
      modifies this`isProcessing, this`pendingResult, this`convertedImage
      ensures Valid()
      ensures old(pendingResult).None? ==>
        isProcessing == old(isProcessing) && pendingResult == old(pendingResult) && convertedImage == old(convertedImage)
      ensures old(pendingResult).Some? ==> !isProcessing && pendingResult == None
      ensures old(pendingResult).Some? && old(pendingResult).value.Success? ==>
        convertedImage == Some(old(pendingResult).value.value)
      ensures old(pendingResult).Some? && old(pendingResult).value.Failure? ==> convertedImage == old(convertedImage)
      ensures old(pendingResult).Some? ==> (SaveEnabled() <==> convertedImage.Some?)
    {
      if pendingResult.None? {
        return;
      }
      var result := pendingResult.value;
      pendingResult := None;
      isProcessing := false;
      match result {
        case Success(image) =>
          convertedImage := Some(image);
        case Failure(_) =>
      }
    }

    /** The reset button: parameters back to their initial values, style kept,
        and a new conversion requested. */
    method ResetParameters()
      requires Valid()
      modifies this`lineThickness, this`contrast, this`saturation, this`isProcessing, this`pendingResult, service
      ensures Valid()
      ensures lineThickness == 3 && contrast == 50 && saturation == 50
      ensures selectedStyle == old(selectedStyle)
      ensures !old(isProcessing) ==>
        pendingResult == Some(Convert(service.coreImage, originalImage, selectedStyle, 3, 50, 50).result)
      ensures old(isProcessing) ==> pendingResult == old(pendingResult)
    {
      lineThickness := 3;
      contrast := 50;
      saturation := 50;
      ConvertImage();
    }

    /** A style button: selects the style and requests a conversion. */
    method SelectStyle(style: SketchStyle)
      requires Valid()
      modifies this`selectedStyle, this`isProcessing, this`pendingResult, service
      ensures Valid()
      ensures selectedStyle == style
      ensures !old(isProcessing) ==>
        pendingResult == Some(Convert(service.coreImage, originalImage, style, lineThickness, contrast, saturation).result)
      ensures old(isProcessing) ==> pendingResult == old(pendingResult)
    {
      selectedStyle := style;
      ConvertImage();
    }

    /** The screen appearing: one conversion with the initial parameters. */
    method Appear()
      requires Valid()
      modifies this`isProcessing, this`pendingResult, service
      ensures Valid()
      ensures !old(isProcessing) ==>
        pendingResult == Some(Convert(service.coreImage, originalImage, selectedStyle, lineThickness, contrast, saturation).result)
      ensures old(isProcessing) ==> pendingResult == old(pendingResult)
    {
      ConvertImage();
    }

    /** The line-thickness slider's value binding (1...5, step 1): moving the
        thumb only changes the value. */
    method SlideLineThickness(v: int)
      requires Valid()
      modifies this`lineThickness
      ensures Valid()
      ensures lineThickness == Clamp(v, 1, 5)
    {
      lineThickness := Clamp(v, 1, 5);
    }

    /** The contrast slider's value binding (0...100, step 1). */
    method SlideContrast(v: int)
      requires Valid()
      modifies this`contrast
      ensures Valid()
      ensures contrast == Clamp(v, 0, 100)
    {
      contrast := Clamp(v, 0, 100);
    }

    /** The saturation slider's value binding (0...100, step 1), shown for the
        Cartoon style. */
    method SlideSaturation(v: int)
      requires Valid()
      modifies this`saturation
      ensures Valid()
      ensures saturation == Clamp(v, 0, 100)
    {
      saturation := Clamp(v, 0, 100);
    }

    /** The sliders' `onEditingChanged` handler as written: it requests a
        conversion both when a drag begins and when it ends. */
    method SliderEditingChanged(editing: bool)
      requires Valid()
      modifies this`isProcessing, this`pendingResult, service
      ensures Valid()
      ensures !old(isProcessing) ==>
        pendingResult == Some(Convert(service.coreImage, originalImage, selectedStyle, lineThickness, contrast, saturation).result)
      ensures old(isProcessing) ==> pendingResult == old(pendingResult) && service.progressLog == old(service.progressLog)
    {
      ConvertImage();
    }

    /** A short drag of the line-thickness slider that ends
        before the conversion it started has completed: the conversion that is
        due is the one with the old thickness, and the end of the drag is
        dropped by the busy guard. */
    method DragLineThickness(v: int)
      requires Valid() && !isProcessing
      modifies this`lineThickness, this`isProcessing, this`pendingResult, service
      ensures Valid()
      ensures lineThickness == Clamp(v, 1, 5)
      ensures pendingResult
        == Some(Convert(service.coreImage, originalImage, selectedStyle, old(lineThickness), contrast, saturation).result)
    {
      SliderEditingChanged(true);
      SlideLineThickness(v);
      SliderEditingChanged(false);
    }

    /** The handler converting only when the drag ends, with the final value. */
    method SliderEditingChangedAtEnd(editing: bool)
      requires Valid()
      modifies this`isProcessing, this`pendingResult, service
      ensures Valid()
      ensures editing ==> isProcessing == old(isProcessing) && pendingResult == old(pendingResult)
      ensures !editing && !old(isProcessing) ==>
        pendingResult == Some(Convert(service.coreImage, originalImage, selectedStyle, lineThickness, contrast, saturation).result)
      ensures old(isProcessing) ==> pendingResult == old(pendingResult)
    {
      if !editing {
        ConvertImage();
      }
    }

    /** The same drag with the corrected handler: the conversion that is due is
        the one with the thickness the slider was left at. */
    method DragLineThicknessAtEnd(v: int)
      requires Valid() && !isProcessing
      modifies this`lineThickness, this`isProcessing, this`pendingResult, service
      ensures Valid()
      ensures lineThickness == Clamp(v, 1, 5)
      ensures pendingResult
        == Some(Convert(service.coreImage, originalImage, selectedStyle, lineThickness, contrast, saturation).result)
    {
      SliderEditingChangedAtEnd(true);
      SlideLineThickness(v);
      SliderEditingChangedAtEnd(false);
    }

    /** Saves the original and the converted image and prepends a new artwork.
        The UUIDs, the clock and whether each file write succeeds come from the
        platform. */
    method SaveArtwork(originalUuid: Uuid, sketchUuid: Uuid, artworkId: Uuid, now: Date,
                       originalWriteOk: bool, sketchWriteOk: bool)
      requires Valid()
      modifies appState`userWorks, storage`files, storage`defaults, this`showingSaveSuccess
      ensures Valid()
      ensures var originalSaved := storage.jpegData(originalImage).Some? && originalWriteOk;
        convertedImage.None? || !originalSaved ==>
          && appState.userWorks == old(appState.userWorks) && storage.files == old(storage.files)
          && storage.defaults == old(storage.defaults) && showingSaveSuccess == old(showingSaveSuccess)
      ensures var originalSaved := storage.jpegData(originalImage).Some? && originalWriteOk;
        convertedImage.Some? && originalSaved && !(storage.jpegData(convertedImage.value).Some? && sketchWriteOk) ==>
          && appState.userWorks == old(appState.userWorks)
          && storage.defaults == old(storage.defaults) && showingSaveSuccess == old(showingSaveSuccess)
          && storage.files == old(storage.files)[(DirectoryName(Original), ImageFileName("original", originalUuid))
                                                 := storage.jpegData(originalImage).value]
      ensures var originalSaved := storage.jpegData(originalImage).Some? && originalWriteOk;
        convertedImage.Some? && originalSaved && storage.jpegData(convertedImage.value).Some? && sketchWriteOk ==>
          var artwork := NewArtWork(artworkId, UntitledTitle, Other, now, ImageFileName("original", originalUuid),
                                    Some(ImageFileName("sketch", sketchUuid)),
                                    Some(SettingsWithDefaultColor(selectedStyle, lineThickness, contrast, saturation)));
          && appState.userWorks == [artwork] + old(appState.userWorks)
          && storage.defaults == old(storage.defaults)[ArtworkDefaultsKey := ArtWorksData(EncodeAll(appState.userWorks))]
          && showingSaveSuccess
          && storage.files == old(storage.files)
               [(DirectoryName(Original), ImageFileName("original", originalUuid)) := storage.jpegData(originalImage).value]
               [(DirectoryName(ImageDirectory.Sketch), ImageFileName("sketch", sketchUuid)) := storage.jpegData(convertedImage.value).value]
      // The saved artwork's two pictures load back from where the gallery looks for them.
      ensures var originalSaved := storage.jpegData(originalImage).Some? && originalWriteOk;
        convertedImage.Some? && originalSaved && storage.jpegData(convertedImage.value).Some? && sketchWriteOk ==>
          && storage.LoadImage(appState.userWorks[0].imageUrl, Original)
               == storage.imageFromData(storage.jpegData(originalImage).value)
          && storage.LoadImage(appState.userWorks[0].sketchImageUrl.value, ImageDirectory.Sketch)
               == storage.imageFromData(storage.jpegData(convertedImage.value).value)
    {
      if convertedImage.None? {
        return;
      }
      var image := convertedImage.value;
      var originalFileName := storage.SaveOriginalImage(originalImage, "original", originalUuid, originalWriteOk);
      if originalFileName.None? {
        return;
      }
      var sketchFileName := storage.SaveSketchImage(image, "sketch", sketchUuid, sketchWriteOk);
      if sketchFileName.None? {
        return;
      }
      var artwork := NewArtWork(artworkId, UntitledTitle, Other, now, originalFileName.value, sketchFileName,
                                Some(SettingsWithDefaultColor(selectedStyle, lineThickness, contrast, saturation)));
      appState.userWorks := [artwork] + appState.userWorks;
      storage.SaveArtWorks(appState.userWorks);
      showingSaveSuccess := true;
    }
  }
}
