// The storage service: user and artwork records in the defaults store, JPEG
// files in three directories under the documents directory, temp cleanup and
// the geometry of the side-by-side share image.

module Storage {
  import opened Wrappers
  import opened Models

  /** Encoded bytes of a JPEG file. */
  type Data(==)

  /** What the defaults store holds under a key: the JSON of a user, the JSON of
      an artwork array, or bytes that decode as neither. */
  datatype StoredData =
    | UserData(user: User)
    | ArtWorksData(records: seq<ArtWorkRecord>)
    | OtherData

  const UserDefaultsKey: string := "com.kidsdraw.userdata"
  const ArtworkDefaultsKey: string := "com.kidsdraw.artworks"

  datatype ImageDirectory = Original | Sketch | Temp

  /** The sub-directory of the documents directory each kind of image lives in. */
  function DirectoryName(d: ImageDirectory): string
  {
    match d
    case Original => "images"
    case Sketch => "sketches"
    case Temp => "temp"
  }

  /** Different kinds of image never share a directory. */
  lemma DirectoryNameInjective(a: ImageDirectory, b: ImageDirectory)
    ensures DirectoryName(a) == DirectoryName(b) <==> a == b
  {
  }

  /** The name of a saved image: the caller's name, an underscore, a fresh UUID
      and the .jpg extension. */
  function ImageFileName(name: string, uuid: Uuid): (f: string)
    ensures |f| == |name| + |uuid| + 5
    ensures f[..|name|] == name && f[|name|] == '_'
    ensures f[|name| + 1..|name| + 1 + |uuid|] == uuid
    ensures f[|f| - 4..] == ".jpg"
  {
    name + "_" + uuid + ".jpg"
  }

  /** With the same name, different UUIDs give different file names, so a save
      never overwrites an earlier one. */
  lemma {:induction false} FileNamesDistinct(name: string, u1: Uuid, u2: Uuid)
    requires |u1| == |u2|
    ensures ImageFileName(name, u1) == ImageFileName(name, u2) <==> u1 == u2
  {
    if ImageFileName(name, u1) == ImageFileName(name, u2) {
      assert u1 == ImageFileName(name, u1)[|name| + 1..|name| + 1 + |u1|];
    }
  }

  /** The user stored in the defaults, or nil when the key is missing or the
      data does not decode as a user. */
  function UserIn(defaults: map<string, StoredData>): (u: Option<User>)
    ensures u.Some? <==> UserDefaultsKey in defaults && defaults[UserDefaultsKey].UserData?
    ensures u.Some? ==> defaults[UserDefaultsKey] == UserData(u.value)
  {
    if UserDefaultsKey in defaults && defaults[UserDefaultsKey].UserData? then
      Some(defaults[UserDefaultsKey].user)
    else
      None
  }

  /** The artworks stored in the defaults, or the empty list when the key is
      missing or the data does not decode as an artwork array. */
  function ArtWorksIn(defaults: map<string, StoredData>): (works: seq<ArtWork>)
    ensures !(ArtworkDefaultsKey in defaults && defaults[ArtworkDefaultsKey].ArtWorksData?) ==> works == []
    ensures ArtworkDefaultsKey in defaults && defaults[ArtworkDefaultsKey].ArtWorksData? ==>
      |works| == |defaults[ArtworkDefaultsKey].records|
      && forall i :: 0 <= i < |works| ==> Encode(works[i]) == defaults[ArtworkDefaultsKey].records[i]
  {
    if ArtworkDefaultsKey in defaults && defaults[ArtworkDefaultsKey].ArtWorksData? then
      DecodeAll(defaults[ArtworkDefaultsKey].records)
    else
      []
  }

  /** Saving a user and loading it back gives the same user, and leaves the
      stored artworks as they were. */
  lemma SaveThenLoadUser(defaults: map<string, StoredData>, user: User)
    ensures UserIn(defaults[UserDefaultsKey := UserData(user)]) == Some(user)
    ensures ArtWorksIn(defaults[UserDefaultsKey := UserData(user)]) == ArtWorksIn(defaults)
  {
  }

  /** Saving artworks and loading them back gives the same list with the
      transient images dropped, and leaves the stored user as it was. */
  lemma SaveThenLoadArtWorks(defaults: map<string, StoredData>, works: seq<ArtWork>)
    ensures var loaded := ArtWorksIn(defaults[ArtworkDefaultsKey := ArtWorksData(EncodeAll(works))]);
      |loaded| == |works| && forall i :: 0 <= i < |works| ==> loaded[i] == WithoutImages(works[i])
    ensures UserIn(defaults[ArtworkDefaultsKey := ArtWorksData(EncodeAll(works))]) == UserIn(defaults)
  {
    ArtWorksRoundTrip(works);
  }

  /** The names of the files in the temp directory. */
  function TempNames(files: map<(string, string), Data>): set<string>
  {
    set k | k in files && k.0 == DirectoryName(Temp) :: k.1
  }

  /** Where an image goes on screen when the original and the sketch are drawn
      side by side under a title. */
  datatype Rect = Rect(x: real, y: real, width: real, height: real)
  datatype ShareLayout = ShareLayout(canvasWidth: real, canvasHeight: real, title: Rect, original: Rect, sketch: Rect)

  function ShareLayoutFor(originalWidth: real, originalHeight: real, sketchWidth: real, sketchHeight: real,
                          titleWidth: real, titleHeight: real): ShareLayout
  {
    var canvasWidth := originalWidth * 2.0 + 20.0;
    var canvasHeight := originalHeight + 60.0;
    ShareLayout(canvasWidth, canvasHeight,
                Rect((canvasWidth - titleWidth) / 2.0, 10.0, titleWidth, titleHeight),
                Rect(10.0, 40.0, originalWidth, originalHeight),
                Rect(originalWidth + 20.0, 40.0, sketchWidth, sketchHeight))
  }

  /** The canvas is twice the original's width plus 20 wide and 60 taller than
      the original; the original sits 10 in from the left and the sketch starts
      10 after the original ends, both 40 from the top, so they never overlap;
      the title is centred; and the original always fits. */
  lemma ShareLayoutGeometry(ow: real, oh: real, sw: real, sh: real, tw: real, th: real)
    requires ow >= 0.0 && oh >= 0.0
    ensures var l := ShareLayoutFor(ow, oh, sw, sh, tw, th);
      && l.canvasWidth == 2.0 * ow + 20.0 && l.canvasHeight == oh + 60.0
      && l.original.x == 10.0 && l.original.y == 40.0
      && l.sketch.x == l.original.x + l.original.width + 10.0 && l.sketch.y == l.original.y
      && l.title.x + l.title.width / 2.0 == l.canvasWidth / 2.0
      && l.original.x + l.original.width <= l.canvasWidth && l.original.y + l.original.height <= l.canvasHeight
  {
  }

  /** The sketch fits on the canvas exactly when it is no wider than the
      original and at most 20 taller. */
  lemma SketchFitsCanvas(ow: real, oh: real, sw: real, sh: real, tw: real, th: real)
    ensures var l := ShareLayoutFor(ow, oh, sw, sh, tw, th);
      (l.sketch.x + l.sketch.width <= l.canvasWidth && l.sketch.y + l.sketch.height <= l.canvasHeight)
      <==> (sw <= ow && sh <= oh + 20.0)
  {
  }

  /** `listing` names each of `names` exactly once, as a directory listing does. */
  ghost predicate IsListingOf(listing: seq<string>, names: set<string>)
  {
    && (forall i, j :: 0 <= i < j < |listing| ==> listing[i] != listing[j])
    && (forall n :: n in listing <==> n in names)
  }

  /** The temp-directory keys of the given file names. */
  function TempKeys(names: seq<string>): set<(string, string)>
  {
    set n | n in names :: (DirectoryName(Temp), n)
  }

  /** The position of the first name whose removal fails, or the length of
      the listing when none does. */
  function FirstFailure(names: seq<string>, removeFails: string -> bool): (i: nat)
    ensures i <= |names|
    ensures forall j :: 0 <= j < i ==> !removeFails(names[j])
    ensures i < |names| ==> removeFails(names[i])
  {
    if names == [] || removeFails(names[0]) then 0
    else 1 + FirstFailure(names[1..], removeFails)
  }

  /** The shared storage service. `files` maps (directory, file name) to the
      bytes written there; `defaults` is the user-defaults store. */
  class StorageService {
    /** image.jpegData(compressionQuality: 0.8), which may fail. */
    const jpegData: UIImage -> Option<Data>
    /** UIImage(contentsOfFile:), which may fail on bytes that do not decode. */
    const imageFromData: Data -> Option<UIImage>
    /** UIImage.size, as (width, height). */
    const imageSize: UIImage -> (real, real)
    /** The drawn size of the bold 20-point title, as (width, height). */
    const titleSize: (real, real)
    /** Draws the white canvas, the title and both images at the layout's
        places and reads the context back, which may fail. */
    const drawShare: (ShareLayout, UIImage, UIImage) -> Option<UIImage>
    var files: map<(string, string), Data>
    var defaults: map<string, StoredData>

    constructor (jpegData: UIImage -> Option<Data>, imageFromData: Data -> Option<UIImage>,
                 imageSize: UIImage -> (real, real), titleSize: (real, real),
                 drawShare: (ShareLayout, UIImage, UIImage) -> Option<UIImage>,
                 files: map<(string, string), Data>, defaults: map<string, StoredData>)
      ensures this.jpegData == jpegData && this.imageFromData == imageFromData
      ensures this.imageSize == imageSize && this.titleSize == titleSize && this.drawShare == drawShare
      ensures this.files == files && this.defaults == defaults
    {
      this.jpegData := jpegData;
      this.imageFromData := imageFromData;
      this.imageSize := imageSize;
      this.titleSize := titleSize;
      this.drawShare := drawShare;
      this.files := files;
      this.defaults := defaults;
    }

    method SaveUser(user: User)
      modifies this`defaults
      ensures defaults == old(defaults)[UserDefaultsKey := UserData(user)]
      ensures LoadUser() == Some(user) && LoadArtWorks() == old(LoadArtWorks())
    {
      defaults := defaults[UserDefaultsKey := UserData(user)];
      SaveThenLoadUser(old(defaults), user);
    }

    function LoadUser(): Option<User>
      reads this
    {
      UserIn(defaults)
    }

    method SaveArtWorks(works: seq<ArtWork>)
      modifies this`defaults
      ensures defaults == old(defaults)[ArtworkDefaultsKey := ArtWorksData(EncodeAll(works))]
      ensures |LoadArtWorks()| == |works|
      ensures forall i :: 0 <= i < |works| ==> LoadArtWorks()[i] == WithoutImages(works[i])
      ensures LoadUser() == old(LoadUser())
    {
      defaults := defaults[ArtworkDefaultsKey := ArtWorksData(EncodeAll(works))];
      SaveThenLoadArtWorks(old(defaults), works);
    }

    function LoadArtWorks(): seq<ArtWork>
      reads this
    {
      ArtWorksIn(defaults)
    }

    /** Encodes `image` and writes it to `dir` under a fresh name. `writeOk`
        is whether the file system accepts the write. */
    method SaveImage(image: UIImage, name: string, dir: ImageDirectory, uuid: Uuid, writeOk: bool)
      returns (fileName: Option<string>)
      modifies this`files
      ensures jpegData(image).Some? && writeOk ==>
        fileName == Some(ImageFileName(name, uuid))
        && files == old(files)[(DirectoryName(dir), ImageFileName(name, uuid)) := jpegData(image).value]
      ensures !(jpegData(image).Some? && writeOk) ==> fileName == None && files == old(files)
      ensures fileName.Some? ==> LoadImage(fileName.value, dir) == imageFromData(jpegData(image).value)
    {
      var f := ImageFileName(name, uuid);
      var data := jpegData(image);
      if data.None? {
        return None;
      }
      if !writeOk {
        return None;
      }
      files := files[(DirectoryName(dir), f) := data.value];
      return Some(f);
    }

    method SaveOriginalImage(image: UIImage, name: string, uuid: Uuid, writeOk: bool)
      returns (fileName: Option<string>)
      modifies this`files
      ensures jpegData(image).Some? && writeOk ==>
        fileName == Some(ImageFileName(name, uuid))
        && files == old(files)[(DirectoryName(Original), ImageFileName(name, uuid)) := jpegData(image).value]
      ensures !(jpegData(image).Some? && writeOk) ==> fileName == None && files == old(files)
      ensures fileName.Some? ==> LoadImage(fileName.value, Original) == imageFromData(jpegData(image).value)
    {
      fileName := SaveImage(image, name, Original, uuid, writeOk);
    }

    method SaveSketchImage(image: UIImage, name: string, uuid: Uuid, writeOk: bool)
      returns (fileName: Option<string>)
      modifies this`files
      ensures jpegData(image).Some? && writeOk ==>
        fileName == Some(ImageFileName(name, uuid))
        && files == old(files)[(DirectoryName(ImageDirectory.Sketch), ImageFileName(name, uuid)) := jpegData(image).value]
      ensures !(jpegData(image).Some? && writeOk) ==> fileName == None && files == old(files)
      ensures fileName.Some? ==> LoadImage(fileName.value, ImageDirectory.Sketch) == imageFromData(jpegData(image).value)
    {
      fileName := SaveImage(image, name, ImageDirectory.Sketch, uuid, writeOk);
    }

    /** The image stored as `fileName` in the directory of `dir`; nil when no
        such file exists or its bytes do not decode. */
    function LoadImage(fileName: string, dir: ImageDirectory): (r: Option<UIImage>)
      reads this
      ensures (DirectoryName(dir), fileName) !in files ==> r == None
      ensures (DirectoryName(dir), fileName) in files ==> r == imageFromData(files[(DirectoryName(dir), fileName)])
    {
      var key := (DirectoryName(dir), fileName);
      if key !in files then None else imageFromData(files[key])
    }

    /** Removes `fileName` from the directory of `dir`. Removing a file that
        does not exist fails; `removeOk` is whether the file system accepts the
        removal of one that does. */
    method DeleteImage(fileName: string, dir: ImageDirectory, removeOk: bool) returns (deleted: bool)
      modifies this`files
      ensures deleted <==> (DirectoryName(dir), fileName) in old(files) && removeOk
      ensures deleted ==> files == old(files) - {(DirectoryName(dir), fileName)}
      ensures !deleted ==> files == old(files)
      ensures deleted ==> LoadImage(fileName, dir) == None
    {
      var key := (DirectoryName(dir), fileName);
      if key !in files || !removeOk {
        return false;
      }
      files := files - {key};
      return true;
    }

    /** Removes the temp directory's files one at a time, in the order the
        directory listing gives them, and stops at the first removal that
        fails (`removeFails`). `listing` is that listing, or None when listing
        the directory throws, in which case nothing is removed. Files
        elsewhere are never touched. */
    method CleanupTempFiles(listing: Option<seq<string>>, removeFails: string -> bool)
      requires listing.Some? ==> IsListingOf(listing.value, TempNames(files))
      modifies this`files
      ensures listing.None? ==> files == old(files)
      ensures listing.Some? ==>
        files == old(files) - TempKeys(listing.value[..FirstFailure(listing.value, removeFails)])
      ensures forall k :: k in old(files) && k.0 != DirectoryName(Temp) ==> k in files && files[k] == old(files)[k]
      ensures listing.Some? && (forall n :: n in TempNames(old(files)) ==> !removeFails(n)) ==> TempNames(files) == {}
    {
      if listing.None? {
        return;
      }
      var names := listing.value;
      var stop := FirstFailure(names, removeFails);
      var i := 0;
      while i < |names|
        invariant 0 <= i <= stop
        invariant files == old(files) - TempKeys(names[..i])
      {
        if removeFails(names[i]) {
          return;
        }
        assert names[..i + 1] == names[..i] + [names[i]];
        files := files - {(DirectoryName(Temp), names[i])};
        i := i + 1;
      }
      assert names[..|names|] == names;
    }

    /** The original and the sketch side by side under the title, laid out by
        `ShareLayoutFor`. */
    function CreateShareImage(original: UIImage, sketch: UIImage): Option<UIImage>
    {
      var (ow, oh) := imageSize(original);
      var (sw, sh) := imageSize(sketch);
      drawShare(ShareLayoutFor(ow, oh, sw, sh, titleSize.0, titleSize.1), original, sketch)
    }
  }
}
