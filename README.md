# KidsDraw (copyingtools) in Dafny

KidsDraw is an iPad app for children. A child picks or takes a picture. The
app turns the picture into a line drawing in one of three styles (outline,
pencil sketch, cartoon). The child traces that drawing on a PencilKit
canvas, and the results are kept in a gallery. This project models the
app's logic and proves what it promises:

- **`ImageProcessing`** models the style-conversion engine.
  - Each style method runs a fixed chain of CoreImage filters. In the model
    that chain is a recipe (`CIImage`), and what the library does with a
    recipe is an oracle (`CoreImage`): does the input decode, does each
    filter yield output, does the final render succeed.
  - The service is a class. `progressLog` records every value pushed to the
    progress subject, and `delivered` records every result handed to a
    completion handler.
  - A phase interpreter over a per-style `Plan` specifies the methods.
    Lemmas pin down each style's dataflow, its progress log for every
    failure point, and its parameter mapping.
- **`Storage`** models the storage service.
  - The file system is a map from (directory name, file name) to bytes.
  - UserDefaults is a map from key to stored value.
  - Also modelled: directory routing, file naming, save/load/delete, the
    temp-file cleanup loop, and the geometry of the share image.
- **`ConvertScreen`, `GalleryScreen`, `EditScreen`, `SettingsScreen`,
  `CategoryGallery`** model the view logic. Each SwiftUI view is a class
  whose fields are the view's `@State`, and each action is a method. The
  pure parts are functions: the gallery's filter chain, the settings form's
  copy to and from the user, and the category lookup table.
- **`Models`** holds the records (artworks, settings, users), their
  defaults and their JSON coding. `App` holds the shared `AppState`.

Conventions:

- A `[weak self]` closure on a background queue is run as a plain
  sequential call. In `ConvertView`, the completion that the main queue
  still owes is the `pendingResult` field. `FinishConversion` runs it.
- UUIDs, the clock and the outcome of each file write or removal are
  method parameters. So is the temp directory's listing, in the listing's
  order, with `None` when listing the directory throws.
- JPEG encoding and decoding, image sizes and drawing are oracle fields of
  `StorageService`.

## Model

| member | source | states |
|---|---|---|
| Models.AllArtWorkTypes | copyingtools/Models/ArtWork.swift:39-46 | There are exactly six artwork types. Each appears once, at its declaration index. |
| Models.IconNameInjective | copyingtools/Models/ArtWork.swift:47-56 | `iconName` is total, and no two types share an icon. |
| Models.RawValuesDistinct | copyingtools/Models/ArtWork.swift:39-45 | No two artwork types share a raw value (the Chinese label). |
| Models.AllSketchStyles | copyingtools/Models/ArtWork.swift:78-82 | There are exactly three sketch styles, each once. They match the service's three-way dispatch. |
| Models.DefaultArtWorkSettings | copyingtools/Models/ArtWork.swift:60-75 | The default settings are outline, thickness 3, contrast 50, saturation 50, colour "#000000". |
| Models.NewArtWork | copyingtools/Models/ArtWork.swift:11-27 | A new artwork keeps the given fields. It is not a favourite, 100% complete, has an empty export history, has no transient images, and both dates are the creation time. |
| Models.ArtWorkRoundTrip | copyingtools/Models/ArtWork.swift:28-35 | Decoding an encoded artwork gives it back with nil `image`/`sketchImage` and every coded field kept. Re-encoding gives the same record. |
| Models.RecordRoundTrip | copyingtools/Models/ArtWork.swift:32-35 | Every coded record survives a decode and re-encode unchanged. |
| Models.EncodeAll | copyingtools/Models/ArtWork.swift:32-35 | Coding an array codes each element, in order. |
| Models.DecodeAll | copyingtools/Models/ArtWork.swift:32-35 | Decoding an array decodes each element, in order. |
| Models.ArtWorksRoundTrip | copyingtools/Models/ArtWork.swift:28-35 | A coded array of artworks decodes to the same artworks, in order, without their transient images. |
| Models.DefaultUserSettings | copyingtools/Models/User.swift:26-38 | The default user settings are sound on, auto-save on, music off, font medium. |
| ImageProcessing.EdgeIntensity | copyingtools/Services/ImageProcessingService.swift:96 | Edge intensity is `lineThickness * 0.5`. Thickness 1-5 gives 0.5-2.5. It is zero exactly at thickness 0 and negative exactly for negative thickness. |
| ImageProcessing.ContrastFactor | copyingtools/Services/ImageProcessingService.swift:107 | The contrast factor is `contrast / 50`. It is neutral (1.0) exactly at 50, and slider values 0-100 map into 0.0-2.0. |
| ImageProcessing.SaturationFactor | copyingtools/Services/ImageProcessingService.swift:230-231 | The saturation factor is `saturation / 50`. It is neutral exactly at 50, and 0 fully desaturates. |
| ImageProcessing.StylePlan | copyingtools/Services/ImageProcessingService.swift:44-51 | Each style's pipeline has four phases and one checkpoint per phase. |
| ImageProcessing.PlanFor | copyingtools/Services/ImageProcessingService.swift:44-51 | The plan for an image has its style's checkpoints. |
| ImageProcessing.RunPhasesOutcome | copyingtools/Services/ImageProcessingService.swift:75-250 | From any phase on, the style emits a prefix of the remaining checkpoints, and all of them exactly when it succeeds. It succeeds exactly when every remaining phase completes, and returns the rendering of the last recipe. It can fail only with `processingFailed`. |
| ImageProcessing.RunPhasesStopsAt | copyingtools/Services/ImageProcessingService.swift:87-122 | When phase k is the first phase that fails, the style emits exactly the checkpoints up to k and fails. |
| ImageProcessing.AllFourPhasesComplete | copyingtools/Services/ImageProcessingService.swift:75-125 | For a four-phase style, "every phase completes" is the conjunction of the four phases. |
| ImageProcessing.FourPhaseCases | copyingtools/Services/ImageProcessingService.swift:75-125 | A style method's log and result for each possible first failure: decode, each of the four phases, or none. |
| ImageProcessing.ConvertShape | copyingtools/Services/ImageProcessingService.swift:26-72 | One conversion emits a non-empty prefix of its style's schedule (0.0, the checkpoints, 1.0). The whole schedule is emitted exactly when it succeeds. |
| ImageProcessing.ProgressOnSuccess | copyingtools/Services/ImageProcessingService.swift:39-59 | A successful Outline or Cartoon conversion emits exactly 0.0, 0.2, 0.4, 0.6, 0.8, 1.0. A successful Sketch conversion emits exactly 0.0, 0.3, 0.5, 0.7, 0.9, 1.0. |
| ImageProcessing.ProgressMonotone | copyingtools/Services/ImageProcessingService.swift:37-70 | Within one conversion, progress starts at 0.0 and strictly increases. 1.0 is emitted exactly on success, and then it is last. |
| ImageProcessing.InvalidInputBeforeFirstCheckpoint | copyingtools/Services/ImageProcessingService.swift:76-80 | An undecodable input fails with `invalidInput` after emitting only 0.0. No other path yields `invalidInput`. |
| ImageProcessing.FailureStopsAtLastCheckpoint | copyingtools/Services/ImageProcessingService.swift:87-122 | A stage with no output, or a failed final render, yields `processingFailed` and no image. The log stops at the last checkpoint reached. |
| ImageProcessing.OutlineSteps | copyingtools/Services/ImageProcessingService.swift:75-125 | Outline runs grayscale, then edges at `lineThickness*0.5`, then contrast at `contrast/50`, then invert last. Its log is given for every failure point, and the image is the render of the inverted recipe. |
| ImageProcessing.SketchSteps | copyingtools/Services/ImageProcessingService.swift:128-187 | Sketch runs grayscale, then blur (radius 1.0), then invert. The dodge takes the inverted blur as input and the unblurred grayscale as background, and contrast comes last. Its log is given for every failure point. |
| ImageProcessing.CartoonSteps | copyingtools/Services/ImageProcessingService.swift:190-250 | Cartoon median-smooths the original and detects edges on the original, not the smoothed image. It inverts the edges, colour-adjusts the smoothed image at `saturation/50` and `contrast/50`, and composites the inverted edges over it. Its log is given for every failure point. |
| ImageProcessing.IgnoredParameters | copyingtools/Services/ImageProcessingService.swift:44-50 | Outline and Sketch ignore saturation, and Sketch also ignores line thickness. |
| ImageProcessing.ImageProcessingService.constructor | copyingtools/Services/ImageProcessingService.swift:20 | The progress subject starts at 0.0, and no result has been delivered yet. |
| ImageProcessing.ImageProcessingService.Send | copyingtools/Services/ImageProcessingService.swift:20 | Sending appends one value to the progress log. |
| ImageProcessing.ImageProcessingService.ConvertToSketch | copyingtools/Services/ImageProcessingService.swift:26-72 | The progress log grows by exactly the conversion's trace. Exactly one result is delivered, and it is the trace's result. |
| ImageProcessing.ImageProcessingService.CreateOutlineImage | copyingtools/Services/ImageProcessingService.swift:75-125 | The straight-line Outline method emits and returns exactly what its plan's trace specifies. |
| ImageProcessing.ImageProcessingService.CreateSketchImage | copyingtools/Services/ImageProcessingService.swift:128-187 | The straight-line Sketch method emits and returns exactly what its plan's trace specifies. |
| ImageProcessing.ImageProcessingService.CreateCartoonImage | copyingtools/Services/ImageProcessingService.swift:190-250 | The straight-line Cartoon method emits and returns exactly what its plan's trace specifies. |
| Storage.DirectoryNameInjective | copyingtools/Services/StorageService.swift:23-39 | `.original`, `.sketch` and `.temp` route to three distinct directories (images, sketches, temp). |
| Storage.ImageFileName | copyingtools/Services/StorageService.swift:95 | A saved file's name is the name, then "_", then the UUID, then ".jpg". |
| Storage.FileNamesDistinct | copyingtools/Services/StorageService.swift:95 | For UUIDs of equal length, two file names with the same prefix are equal exactly when the UUIDs are. |
| Storage.UserIn | copyingtools/Services/StorageService.swift:52-64 | Loading the user gives nil when the key is missing or does not hold a user. Otherwise it gives the stored user. |
| Storage.ArtWorksIn | copyingtools/Services/StorageService.swift:77-89 | Loading the artworks gives [] when the key is missing or does not hold artworks. Otherwise it gives the stored records, decoded. |
| Storage.SaveThenLoadUser | copyingtools/Services/StorageService.swift:43-64 | A saved user loads back unchanged, and the stored artworks are untouched. |
| Storage.SaveThenLoadArtWorks | copyingtools/Services/StorageService.swift:68-89 | Saved artworks load back in order without their transient images, and the stored user is untouched. |
| Storage.ShareLayoutGeometry | copyingtools/Services/StorageService.swift:195-220 | The canvas is (2w+20) × (h+60), and the original sits at (10,40). The sketch starts 10 points after the original ends, at the same height, so the two never overlap. The title is centred, and the original always fits. |
| Storage.SketchFitsCanvas | copyingtools/Services/StorageService.swift:195-220 | The sketch fits on the canvas exactly when it is no wider than the original and at most 20 taller. |
| Storage.StorageService.SaveUser | copyingtools/Services/StorageService.swift:43-50 | Saving the user writes the user key only. The user then loads back and the artworks are unchanged. |
| Storage.StorageService.SaveArtWorks | copyingtools/Services/StorageService.swift:68-75 | Saving writes the artworks key only. The artworks load back in order without images, and the user is unchanged. |
| Storage.StorageService.SaveImage | copyingtools/Services/StorageService.swift:94-127 | A name is returned exactly when encoding and the write succeed, and it is "name_uuid.jpg" in the chosen directory. On failure nothing is written. A returned name loads back from that directory as the stored bytes decode. |
| Storage.StorageService.SaveOriginalImage | copyingtools/Services/StorageService.swift:94-109 | As SaveImage, in the images directory. The name loads back with `.original`. |
| Storage.StorageService.SaveSketchImage | copyingtools/Services/StorageService.swift:112-127 | As SaveImage, in the sketches directory. The name loads back with `.sketch`. |
| Storage.StorageService.LoadImage | copyingtools/Services/StorageService.swift:130-149 | A file absent from the routed directory gives nil. A present one gives its bytes decoded. |
| Storage.StorageService.DeleteImage | copyingtools/Services/StorageService.swift:152-173 | It reports success exactly when the file exists in the routed directory and removal succeeds. Then only that file is gone and it no longer loads. Otherwise nothing changes. |
| Storage.FirstFailure | copyingtools/Services/StorageService.swift:179-180 | The position in the listing of the first name whose removal fails, or the listing's length. Every earlier name's removal succeeds. |
| Storage.StorageService.CleanupTempFiles | copyingtools/Services/StorageService.swift:176-185 | If listing the directory fails, nothing is removed. Otherwise exactly the listed names before the first failing removal are removed from the temp directory, and nothing else changes. Files elsewhere are kept. If no removal fails, the temp directory ends empty. |
| ConvertScreen.Clamp | copyingtools/Views/ConvertView.swift:173-213 | A slider value is kept within its range: unchanged inside it, the nearer bound outside it. |
| ConvertScreen.ConvertView.constructor | copyingtools/Views/ConvertView.swift:16-25 | The screen starts with outline style, thickness 3, contrast 50, saturation 50, no converted image, and not busy. |
| ConvertScreen.ConvertView.ConvertImage | copyingtools/Views/ConvertView.swift:287-299 | While busy, nothing changes. Otherwise it sets the busy flag and runs exactly one conversion with the current style and parameters, whose result is now due. The save button is disabled afterwards. |
| ConvertScreen.ConvertView.FinishConversion | copyingtools/Views/ConvertView.swift:298-308 | The completion clears the busy flag. On success the converted image becomes the result, and on failure it keeps its previous value. Saving is then enabled exactly when an image exists. |
| ConvertScreen.ConvertView.ResetParameters | copyingtools/Views/ConvertView.swift:312-317 | It restores thickness 3, contrast 50 and saturation 50 (the initial values), keeps the style, and requests a conversion. |
| ConvertScreen.ConvertView.SelectStyle | copyingtools/Views/ConvertView.swift:144-153 | Choosing a style sets it and requests a conversion. |
| ConvertScreen.ConvertView.Appear | copyingtools/Views/ConvertView.swift:76-78 | Appearing requests one conversion with the current parameters. |
| ConvertScreen.ConvertView.SlideLineThickness | copyingtools/Views/ConvertView.swift:173-176 | Moving the thumb keeps the thickness within 1..5 and changes nothing else. |
| ConvertScreen.ConvertView.SlideContrast | copyingtools/Views/ConvertView.swift:190-193 | Moving the thumb keeps the contrast within 0..100 and changes nothing else. |
| ConvertScreen.ConvertView.SlideSaturation | copyingtools/Views/ConvertView.swift:208-211 | Moving the thumb keeps the saturation within 0..100 and changes nothing else. |
| ConvertScreen.ConvertView.SliderEditingChanged | copyingtools/Views/ConvertView.swift:177 | Both the start and the end of a drag request a conversion with the values at that moment. A request while busy changes nothing. |
| ConvertScreen.ConvertView.DragLineThickness | copyingtools/Views/ConvertView.swift:173-178 | A drag that starts idle and ends before its first conversion completes leaves the new thickness set, but the conversion that is due uses the old thickness. |
| ConvertScreen.ConvertView.SliderEditingChangedAtEnd | copyingtools/Views/ConvertView.swift:177 | Corrected handler: the start of a drag changes nothing, and its end requests a conversion with the final values. |
| ConvertScreen.ConvertView.DragLineThicknessAtEnd | copyingtools/Views/ConvertView.swift:173-178 | Corrected: the same drag leaves due a conversion with the thickness the slider was left at. |
| ConvertScreen.ConvertView.SaveArtwork | copyingtools/Views/ConvertView.swift:320-356 | With no converted image, or when the original fails to save, nothing changes. When the sketch fails to save, only the original's file is added. On success, one untitled `.other` artwork with the current settings is inserted at index 0, the list is persisted, and success is shown. Exactly two files are written: the original's JPEG in images and the converted image's in sketches. Both load back from the directories the gallery reads them from. |
| GalleryScreen.Filter | copyingtools/Views/GalleryView.swift:22-27 | A filter keeps exactly the works that satisfy its predicate, each as many times as it occurs, and drops the others. It keeps every work when all satisfy the predicate. |
| GalleryScreen.FilterExtensional | copyingtools/Views/GalleryView.swift:22-27 | Two predicates that agree on every work filter alike. |
| GalleryScreen.FilterIsSubsequence | copyingtools/Views/GalleryView.swift:22-27 | A filter result is an order-preserving subsequence of its input. |
| GalleryScreen.FilterFilter | copyingtools/Views/GalleryView.swift:17-31 | Filtering by the search and then by the type is one filter by their conjunction. |
| GalleryScreen.FilteredWorks | copyingtools/Views/GalleryView.swift:17-31 | The shown works are an order-preserving subsequence of the user's works, and all of them with no search or type filter. With a type filter set, every shown work has that type. A work is shown exactly when it matches both active filters, and as many times as it occurs in the user's works. |
| GalleryScreen.Unselected | copyingtools/Views/GalleryView.swift:238 | Deletion keeps, in order, exactly the works whose id is not selected, each as many times as it occurs. |
| GalleryScreen.Toggled | copyingtools/Views/GalleryView.swift:227-233 | The id is in the new set exactly when it was absent. Other ids are unaffected. |
| GalleryScreen.ToggleTwice | copyingtools/Views/GalleryView.swift:227-233 | Toggling the same id twice restores the selection. |
| GalleryScreen.GalleryView.constructor | copyingtools/Views/GalleryView.swift:12-15 | The gallery starts with no search, no filter, no edit mode and no selection. |
| GalleryScreen.GalleryView.ToggleSelection | copyingtools/Views/GalleryView.swift:227-233 | The selection becomes the toggled set. |
| GalleryScreen.GalleryView.ToggleEditMode | copyingtools/Views/GalleryView.swift:58-64 | Edit mode flips. Leaving it clears the selection, and entering it keeps the selection. |
| GalleryScreen.GalleryView.DeleteSelectedWorks | copyingtools/Views/GalleryView.swift:236-246 | It removes exactly the selected works, keeps the rest in order, persists the list, clears the selection and leaves edit mode. |
| GalleryScreen.ArtworkGridItem.LoadImage | copyingtools/Views/GalleryView.swift:358-364 | The grid shows the sketch from the sketch directory when there is one, otherwise the original from the original directory. |
| GalleryScreen.ArtworkDetailView.LoadImages | copyingtools/Views/GalleryView.swift:546-552 | The detail page loads `imageUrl` from the original directory, and `sketchImageUrl` (when set) from the sketch directory. |
| GalleryScreen.ArtworkDetailView.PrepareShareImage | copyingtools/Views/GalleryView.swift:555-562 | Nothing happens unless both images are loaded. Then the share image is composed and the share sheet shown. |
| EditScreen.ModeTool | copyingtools/Views/EditView.swift:314 | The tool is a pen of the current colour and width exactly in drawing mode, and an eraser otherwise. |
| EditScreen.EditView.constructor | copyingtools/Views/EditView.swift:17-28 | The canvas starts empty with a black pen of width 5, in drawing mode, with the tool picker and the reference image shown, and with no alerts. |
| EditScreen.EditView.Stroke | copyingtools/Views/EditView.swift:51 | A pen stroke makes the drawing non-empty. After an eraser stroke the drawing is empty as PencilKit reports it. |
| EditScreen.EditView.ClearCanvas | copyingtools/Views/EditView.swift:185-187 | The trash button leaves an empty drawing. |
| EditScreen.EditView.Back | copyingtools/Views/EditView.swift:76-81 | With a non-empty drawing, Back raises the discard alert instead of dismissing. With an empty drawing it dismisses. |
| EditScreen.EditView.ConfirmDiscard | copyingtools/Views/EditView.swift:116-118 | Confirming the discard dismisses the screen. |
| EditScreen.EditView.ToggleReferenceImage | copyingtools/Views/EditView.swift:128-131 | The eye and compare buttons both flip the same flag, so two presses restore it. |
| EditScreen.EditView.ToggleDrawingMode | copyingtools/Views/EditView.swift:311-316 | Drawing mode flips. With the tool picker active, the tool becomes a pen when drawing and an eraser otherwise. With the picker inactive, the tool is unchanged. |
| EditScreen.EditView.UpdatePencilToolSettings | copyingtools/Views/EditView.swift:319-323 | The tool becomes a pen of the current colour and width only in drawing mode. |
| EditScreen.EditView.SlideLineWidth | copyingtools/Views/EditView.swift:241-245 | The width stays within 1..20, and the pen follows it in drawing mode. |
| EditScreen.EditView.SaveDrawing | copyingtools/Views/EditView.swift:275-308 | If the drawing save fails, the message is "无法保存图像文件", the failure alert shows, and nothing is stored. If the reference save fails, the message is "无法保存参考图像文件", the alert shows, and the works are untouched. On success, one `.other` artwork naming both files is inserted at index 0 and persisted. Exactly two files are written, both in sketches, and the reference loads back from there. That artwork's image does not load from the original directory. |
| EditScreen.EditView.SaveDrawingToOriginals | copyingtools/Views/EditView.swift:275-308 | The same three outcomes, with the drawing stored in images, where the gallery looks for `imageUrl`. Each outcome states the files written: none, the drawing only, or the drawing plus the reference in sketches. The saved artwork's image loads back as the drawing, and its reference as the reference. A failure shows its message and leaves the success alert alone; a success leaves the message and the failure alert alone. |
| SettingsScreen.FormOf | copyingtools/Views/SettingsView.swift:308-316 | Loading copies the user's name and four settings into the form. |
| SettingsScreen.ApplyForm | copyingtools/Views/SettingsView.swift:320-327 | Saving the form changes only the name and the four settings fields of the user. |
| SettingsScreen.SaveThenLoadForm | copyingtools/Views/SettingsView.swift:308-330 | Saving the form and loading it again reproduces the form. |
| SettingsScreen.LoadThenSaveUser | copyingtools/Views/SettingsView.swift:308-330 | Loading a user and saving the unedited form leaves the user unchanged. |
| SettingsScreen.ResetUser | copyingtools/Views/SettingsView.swift:346-350 | A reset user has the default settings (on/on/off/medium), and keeps the name and every other field. |
| SettingsScreen.SettingsView.constructor | copyingtools/Views/SettingsView.swift:14-25 | The form starts as "", on, on, off, medium, with no sheet or alert. |
| SettingsScreen.SettingsView.LoadCurrentSettings | copyingtools/Views/SettingsView.swift:308-316 | The form shows the current user. With no user it is unchanged. |
| SettingsScreen.SettingsView.SaveSettings | copyingtools/Views/SettingsView.swift:319-337 | With no current user, nothing changes and no alert shows. Otherwise the edited user is stored and persisted, the confirmation shows, and reloading gives the same form. |
| SettingsScreen.SettingsView.ResetApp | copyingtools/Views/SettingsView.swift:340-357 | Works become []. UserDefaults changes exactly at the artworks key, which holds the coded empty list, and, with a current user, at the user key, which holds the reset user. The user gets default settings and keeps the name, and the form reloads from the stored user, so an unsaved name edit is lost. The files change exactly as the temp cleanup removes them. |
| SettingsScreen.SettingsView.RequestReset | copyingtools/Views/SettingsView.swift:210-211 | The reset button only raises the confirmation alert. |
| SettingsScreen.SettingsView.BeginEditName | copyingtools/Views/SettingsView.swift:113-115 | The sheet opens with the current name. |
| SettingsScreen.SettingsView.EditNewUserName | copyingtools/Views/SettingsView.swift:289 | Typing sets the sheet's text. |
| SettingsScreen.SettingsView.CancelEditName | copyingtools/Views/SettingsView.swift:296-298 | Cancel closes the sheet and leaves the name unchanged. |
| SettingsScreen.SettingsView.ConfirmEditName | copyingtools/Views/SettingsView.swift:299-302 | Save copies the sheet's text into the name and closes the sheet. |
| CategoryGallery.Images | copyingtools/Views/CategoryGalleryView.swift:16-89 | An unknown category gives the empty list. |
| CategoryGallery.IdsConsecutive | copyingtools/Views/CategoryGalleryView.swift:16-89 | Within every category, ids run 1..n, so they are unique. |
| CategoryGallery.ImageNamesUnique | copyingtools/Views/CategoryGalleryView.swift:16-89 | Within every category, image names are unique. |
| CategoryGallery.CategorySizes | copyingtools/Views/CategoryGalleryView.swift:18-85 | The lists hold 12, 8, 10, 15 and 8 images. The first four equal the counts on the home screen's cards (HomeView.swift:168-171). |
| CategoryGallery.CategoryGalleryView.SelectCard | copyingtools/Views/CategoryGalleryView.swift:100-104 | Tapping any card selects the placeholder picture and starts navigation. |

## Left out

- Pixel semantics of the CoreImage filters and of `CIContext.createCGImage` are not modelled. They are a foreign library, and the model only records which filter feeds which and whether each yields output.
- Swift `Float`/`CGFloat` arithmetic is modelled as exact `real`, without rounding.
- `DispatchQueue` hops, `[weak self]` and the Combine subscription are not modelled. A conversion runs sequentially, and the service is assumed alive (it is a singleton).
- `processingProgress` is not modelled. It is the view's copy of the progress subject, used only to draw a bar; the subject's history is modelled as `progressLog`.
- JSON encoding is modelled as a total structural coding. Decoding of foreign bytes is modelled as "the key holds something that is not this type", which gives nil or []. The `catch` branches of `saveUser`/`saveArtWorks` cannot be reached for these plain records and are not modelled.
- `StorageService.exportImageToPhotoLibrary` is not modelled. It hands the image to the photo library and always reports success, so it has no logic.
- Storage.StorageService.CreateShareImage: the drawing itself is an oracle, so the model covers only the layout it is given (`ShareLayoutGeometry`, `SketchFitsCanvas`).
- UUIDs, the clock and whether each write or removal succeeds are parameters. `FileNamesDistinct` needs UUIDs of equal length, as `uuidString` always has.
- `localizedCaseInsensitiveContains` is an abstract predicate `contains`.
- The PencilKit canvas is reduced to "the drawing is empty or not" plus the current tool. Undo/redo, rasterising the drawing and the colour picker are not modelled.
- HomeView, UploadView, OnboardingView, ContentView, the image and camera pickers, AppState's first-launch flag and its sample data, and `User.swift` beyond its defaults are not modelled. They are presentation and platform glue.
- CategoryGallery.CategoryGalleryView.SelectCard: `UIImage(systemName: "photo")` is a parameter `photoSymbol`, so the selected image is non-nil only when the system symbol exists (it always does on iOS).
- CategoryGallery.CategorySizes: the fifth list is keyed "简单形状", which no home card and no `ArtWorkType` raw value ("形状") uses. It is stated as written.
- ConvertScreen.ConvertView.SaveArtwork: when the sketch file fails to save, the original's file has already been written and stays on disk unreferenced. The contract states that outcome and does not clean it up, because the source does not.
- ConvertScreen.ConvertView.SlideLineThickness, ConvertScreen.ConvertView.SlideContrast and ConvertScreen.ConvertView.SlideSaturation take integers. The sliders step by 1, so `Int(value)` at the call site never truncates.
- ConvertScreen.ConvertView.DragLineThickness shows the stale conversion for the thickness slider only. The contrast and saturation sliders have the same handler (ConvertView.swift:194, 212) and the same outcome.
- Undo and redo (EditView.swift:159-174) are not modelled, because the canvas's stroke history is not modelled.

## Findings

| source | as written | input that shows it | evidently intended | confidence | as-written member | corrected member |
|---|---|---|---|---|---|---|
| copyingtools/Views/EditView.swift:280 | `saveDrawing` writes the drawing with `saveSketchImage` (the sketches directory) but records the file name as the artwork's `imageUrl`. `ArtworkDetailView.loadImages` (GalleryView.swift:547) loads `imageUrl` from `.original` (the images directory), so the saved drawing never appears on the detail page and cannot be shared. | Any successful save, when images/ holds no file of that name (always, since the name carries a fresh UUID): the new artwork's `loadImage(imageUrl, .original)` is nil. | Store the drawing where `imageUrl` is looked up, with `saveOriginalImage`, so it loads back on the detail page. | medium, not executed | EditScreen.EditView.SaveDrawing | EditScreen.EditView.SaveDrawingToOriginals |
| copyingtools/Views/ConvertView.swift:177 | Each slider's `onEditingChanged` ignores its argument and calls `convertImage()` when a drag begins and again when it ends. The begin call converts with the old value. The end call is dropped by `guard !isProcessing` (ConvertView.swift:288) whenever the first conversion is still running. | A short drag of the thickness slider from 3 to 5 while idle, released before the first conversion completes: the conversion with thickness 3 starts, the end call is dropped, and the preview shows thickness 3. `saveArtwork` then records thickness 5 for that picture. | Convert once, when the drag ends, with the value the slider was left at. | medium, not executed | ConvertScreen.ConvertView.DragLineThickness | ConvertScreen.ConvertView.DragLineThicknessAtEnd |
