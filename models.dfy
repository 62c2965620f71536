/** The app's records: artworks, their conversion settings, the user and the
    user's preferences (copyingtools/Models/ArtWork.swift and User.swift). */
module Models {
  import opened Wrappers

  /** A decoded platform bitmap (UIImage); its pixels are never inspected. */
  type UIImage(==, !new)

  /** A UUID in its textual form (UUID().uuidString). */
  type Uuid = string

  /** A point in time, as whole seconds. */
  type Date = int

  /** The category of an artwork; the Swift raw values are the Chinese labels. */
  datatype ArtWorkType = Animal | Plant | Transport | Cartoon | Shape | Other
  {
    function RawValue(): string
    {
      match this
      case Animal => "动物"
      case Plant => "植物"
      case Transport => "交通工具"
      case Cartoon => "卡通人物"
      case Shape => "形状"
      case Other => "其他"
    }

    /** Position in declaration order. */
    function Index(): nat
    {
      match this
      case Animal => 0
      case Plant => 1
      case Transport => 2
      case Cartoon => 3
      case Shape => 4
      case Other => 5
    }

    /** SF Symbol of the category: the grid placeholder and the detail label. */
    function IconName(): string
    {
      match this
      case Animal => "hare"
      case Plant => "leaf"
      case Transport => "car"
      case Cartoon => "person.fill"
      case Shape => "square.on.circle"
      case Other => "star"
    }
  }

  /** ArtWorkType.allCases, in declaration order. */
  function AllArtWorkTypes(): (r: seq<ArtWorkType>)
    ensures |r| == 6
    ensures forall t: ArtWorkType :: t.Index() < |r| && r[t.Index()] == t
    ensures forall i, j :: 0 <= i < j < |r| ==> r[i] != r[j]
  {
    var r := [Animal, Plant, Transport, ArtWorkType.Cartoon, Shape, Other];
    r
  }

  lemma IconNameInjective(a: ArtWorkType, b: ArtWorkType)
    ensures a.IconName() == b.IconName() ==> a == b
  {
  }

  lemma RawValuesDistinct(a: ArtWorkType, b: ArtWorkType)
    ensures a.RawValue() == b.RawValue() ==> a == b
  {
  }

  /** The three conversion styles; each selects one pipeline of the image service. */
  datatype SketchStyle = Outline | Sketch | Cartoon
  {
    function RawValue(): string
    {
      match this
      case Outline => "轮廓线"
      case Sketch => "素描"
      case Cartoon => "卡通"
    }

    /** Position in declaration order. */
    function Index(): nat
    {
      match this
      case Outline => 0
      case Sketch => 1
      case Cartoon => 2
    }
  }

  /** SketchStyle.allCases, in declaration order (the order of the style buttons). */
  function AllSketchStyles(): (r: seq<SketchStyle>)
    ensures |r| == 3
    ensures forall s: SketchStyle :: s.Index() < |r| && r[s.Index()] == s
    ensures forall i, j :: 0 <= i < j < |r| ==> r[i] != r[j]
  {
    var r := [Outline, Sketch, SketchStyle.Cartoon];
    r
  }

  /** The parameters an artwork was converted with. */
  datatype ArtWorkSettings = ArtWorkSettings(
    sketchStyle: SketchStyle,
    lineThickness: int,   // 1-5
    contrast: int,        // 0-100
    saturation: int,      // 0-100
    color: string)

  /** ArtWorkSettings() with every field at its declared default. */
  function DefaultArtWorkSettings(): (s: ArtWorkSettings)
    ensures s.sketchStyle == Outline
    ensures s.lineThickness == 3 && s.contrast == 50 && s.saturation == 50
    ensures s.color == "#000000"
  {
    SettingsWithDefaultColor(Outline, 3, 50, 50)
  }

  /** The memberwise initialiser with `color` left at its default. */
  function SettingsWithDefaultColor(style: SketchStyle, lineThickness: int, contrast: int, saturation: int): ArtWorkSettings
  {
    ArtWorkSettings(style, lineThickness, contrast, saturation, "#000000")
  }

  datatype ExportRecord = ExportRecord(id: Uuid, exportDate: Date, format: string, fileName: string)

  /** An artwork. `image` and `sketchImage` are transient: they are not coded. */
  datatype ArtWork = ArtWork(
    id: Uuid,
    title: string,
    workType: ArtWorkType,
    createdAt: Date,
    lastModifiedAt: Date,
    imageUrl: string,
    sketchImageUrl: Option<string>,
    settings: Option<ArtWorkSettings>,
    isFavorite: bool,
    completionPercentage: int,
    exportHistory: seq<ExportRecord>,
    image: Option<UIImage>,
    sketchImage: Option<UIImage>)

  /** The memberwise initialiser as the views call it: the id is a fresh UUID,
      both dates are read from the clock at `now`, and every other field takes
      its declared default. */
  function NewArtWork(id: Uuid, title: string, workType: ArtWorkType, now: Date, imageUrl: string,
                      sketchImageUrl: Option<string>, settings: Option<ArtWorkSettings>): (a: ArtWork)
    ensures a.id == id && a.title == title && a.workType == workType && a.imageUrl == imageUrl
    ensures a.sketchImageUrl == sketchImageUrl && a.settings == settings
    ensures a.createdAt == now && a.lastModifiedAt == now
    ensures !a.isFavorite && a.completionPercentage == 100 && a.exportHistory == []
    ensures a.image == None && a.sketchImage == None
  {
    ArtWork(id, title, workType, now, now, imageUrl, sketchImageUrl, settings, false, 100, [], None, None)
  }

  /** What the Codable conformance writes: exactly the fields named in CodingKeys. */
  datatype ArtWorkRecord = ArtWorkRecord(
    id: Uuid,
    title: string,
    workType: ArtWorkType,
    createdAt: Date,
    lastModifiedAt: Date,
    imageUrl: string,
    sketchImageUrl: Option<string>,
    settings: Option<ArtWorkSettings>,
    isFavorite: bool,
    completionPercentage: int,
    exportHistory: seq<ExportRecord>)

  function Encode(a: ArtWork): ArtWorkRecord
  {
    ArtWorkRecord(a.id, a.title, a.workType, a.createdAt, a.lastModifiedAt, a.imageUrl,
                  a.sketchImageUrl, a.settings, a.isFavorite, a.completionPercentage, a.exportHistory)
  }

  /** Decoding fills the transient images with their default, nil. */
  function Decode(r: ArtWorkRecord): ArtWork
  {
    ArtWork(r.id, r.title, r.workType, r.createdAt, r.lastModifiedAt, r.imageUrl,
            r.sketchImageUrl, r.settings, r.isFavorite, r.completionPercentage, r.exportHistory, None, None)
  }

  /** An artwork with its transient images dropped: what survives coding. */
  function WithoutImages(a: ArtWork): ArtWork
  {
    a.(image := None, sketchImage := None)
  }

  lemma ArtWorkRoundTrip(a: ArtWork)
    ensures Decode(Encode(a)) == WithoutImages(a)
    ensures Decode(Encode(a)).image == None && Decode(Encode(a)).sketchImage == None
    ensures Encode(Decode(Encode(a))) == Encode(a)
  {
  }

  lemma RecordRoundTrip(r: ArtWorkRecord)
    ensures Encode(Decode(r)) == r
  {
  }

  /** Array coding: every element coded in order. */
  function EncodeAll(works: seq<ArtWork>): (rs: seq<ArtWorkRecord>)
    ensures |rs| == |works|
    ensures forall i :: 0 <= i < |works| ==> rs[i] == Encode(works[i])
  {
    if works == [] then [] else [Encode(works[0])] + EncodeAll(works[1..])
  }

  function DecodeAll(rs: seq<ArtWorkRecord>): (works: seq<ArtWork>)
    ensures |works| == |rs|
    ensures forall i :: 0 <= i < |rs| ==> works[i] == Decode(rs[i])
  {
    if rs == [] then [] else [Decode(rs[0])] + DecodeAll(rs[1..])
  }

  lemma ArtWorksRoundTrip(works: seq<ArtWork>)
    ensures |DecodeAll(EncodeAll(works))| == |works|
    ensures forall i :: 0 <= i < |works| ==> DecodeAll(EncodeAll(works))[i] == WithoutImages(works[i])
  {
  }

  // ---- User.swift ----

  datatype FontSize = Small | Medium | Large

  datatype UserSettings = UserSettings(
    soundEnabled: bool,
    autoSaveEnabled: bool,
    backgroundMusicEnabled: bool,
    fontSize: FontSize)

  /** UserSettings() with every field at its declared default. */
  function DefaultUserSettings(): (s: UserSettings)
    ensures s.soundEnabled && s.autoSaveEnabled && !s.backgroundMusicEnabled
    ensures s.fontSize == Medium
  {
    UserSettings(true, true, false, Medium)
  }

  datatype Achievement = Achievement(id: Uuid, name: string, description: string, iconName: string, achievedAt: Date)

  datatype User = User(
    id: Uuid,
    name: string,
    avatarName: string,
    createdAt: Date,
    lastActiveAt: Date,
    settings: UserSettings,
    completedWorks: int,
    achievements: seq<Achievement>)
}
