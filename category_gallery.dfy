// The built-in picture library: a fixed list of pictures per category, and
// picking one to convert.

module CategoryGallery {
  import opened Wrappers
  import opened Models

  /** One picture of the built-in library. */
  datatype GalleryImage = GalleryImage(id: int, name: string, imageName: string)

  /** The categories that have pictures. */
  const KnownCategories: seq<string> := ["动物", "植物", "交通工具", "卡通人物", "简单形状"]

  /** The category cards on the home screen, with the picture counts they show. */
  const HomeCategoryCards: seq<(string, int)> := [("动物", 12), ("植物", 8), ("交通工具", 10), ("卡通人物", 15)]

  /** The pictures of a category; an unknown category has none. */
  function Images(category: string): (r: seq<GalleryImage>)
    ensures category !in KnownCategories ==> r == []
  {
    match category
    case "动物" => [
      GalleryImage(1, "小猫", "cat"),
      GalleryImage(2, "小狗", "dog"),
      GalleryImage(3, "兔子", "rabbit"),
      GalleryImage(4, "大象", "elephant"),
      GalleryImage(5, "长颈鹿", "giraffe"),
      GalleryImage(6, "熊猫", "panda"),
      GalleryImage(7, "狮子", "lion"),
      GalleryImage(8, "猴子", "monkey"),
      GalleryImage(9, "鱼", "fish"),
      GalleryImage(10, "鸟", "bird"),
      GalleryImage(11, "蝴蝶", "butterfly"),
      GalleryImage(12, "乌龟", "turtle")]
    case "植物" => [
      GalleryImage(1, "树", "tree"),
      GalleryImage(2, "花", "flower"),
      GalleryImage(3, "草", "grass"),
      GalleryImage(4, "仙人掌", "cactus"),
      GalleryImage(5, "向日葵", "sunflower"),
      GalleryImage(6, "苹果", "apple"),
      GalleryImage(7, "香蕉", "banana"),
      GalleryImage(8, "草莓", "strawberry")]
    case "交通工具" => [
      GalleryImage(1, "汽车", "car"),
      GalleryImage(2, "自行车", "bicycle"),
      GalleryImage(3, "公交车", "bus"),
      GalleryImage(4, "火车", "train"),
      GalleryImage(5, "飞机", "airplane"),
      GalleryImage(6, "船", "boat"),
      GalleryImage(7, "直升机", "helicopter"),
      GalleryImage(8, "火箭", "rocket"),
      GalleryImage(9, "救护车", "ambulance"),
      GalleryImage(10, "警车", "police_car")]
    case "卡通人物" => [
      GalleryImage(1, "男孩", "boy"),
      GalleryImage(2, "女孩", "girl"),
      GalleryImage(3, "机器人", "robot"),
      GalleryImage(4, "超人", "superman"),
      GalleryImage(5, "公主", "princess"),
      GalleryImage(6, "王子", "prince"),
      GalleryImage(7, "小丑", "clown"),
      GalleryImage(8, "仙女", "fairy"),
      GalleryImage(9, "海盗", "pirate"),
      GalleryImage(10, "宇航员", "astronaut"),
      GalleryImage(11, "消防员", "firefighter"),
      GalleryImage(12, "医生", "doctor"),
      GalleryImage(13, "老师", "teacher"),
      GalleryImage(14, "厨师", "chef"),
      GalleryImage(15, "警察", "police")]
    case "简单形状" => [
      GalleryImage(1, "圆形", "circle"),
      GalleryImage(2, "正方形", "square"),
      GalleryImage(3, "三角形", "triangle"),
      GalleryImage(4, "星形", "star"),
      GalleryImage(5, "心形", "heart"),
      GalleryImage(6, "六边形", "hexagon"),
      GalleryImage(7, "五边形", "pentagon"),
      GalleryImage(8, "箭头", "arrow")]
    case _ => []
  }

  /** Within a category the ids run 1, 2, ..., n, so they are unique. */
  lemma IdsConsecutive(category: string)
    ensures forall i :: 0 <= i < |Images(category)| ==> Images(category)[i].id == i + 1
    ensures forall i, j :: 0 <= i < j < |Images(category)| ==> Images(category)[i].id != Images(category)[j].id
  {
  }

  /** No two pictures of `images` share an asset name. */
  predicate NamesUnique(images: seq<GalleryImage>)
  {
    forall i, j :: 0 <= i < j < |images| ==> images[i].imageName != images[j].imageName
  }

  /** Within a category no two pictures share an asset name. */
  lemma ImageNamesUnique(category: string)
    ensures NamesUnique(Images(category))
  {
    if category == "动物" {
      AnimalNamesUnique();
    } else if category == "植物" {
      PlantNamesUnique();
    } else if category == "交通工具" {
      TransportNamesUnique();
    } else if category == "卡通人物" {
      CharacterNamesUnique();
    } else if category == "简单形状" {
      ShapeNamesUnique();
    }
  }

  lemma AnimalNamesUnique()
    ensures NamesUnique(Images("动物"))
  {
  }

  lemma PlantNamesUnique()
    ensures NamesUnique(Images("植物"))
  {
  }

  lemma TransportNamesUnique()
    ensures NamesUnique(Images("交通工具"))
  {
  }

  lemma CharacterNamesUnique()
    ensures NamesUnique(Images("卡通人物"))
  {
  }

  lemma ShapeNamesUnique()
    ensures NamesUnique(Images("简单形状"))
  {
  }

  /** The list lengths are 12, 8, 10, 15 and 8, and each home card's count is
      the length of its category's list. */
  lemma CategorySizes()
    ensures |Images("动物")| == 12 && |Images("植物")| == 8 && |Images("交通工具")| == 10
    ensures |Images("卡通人物")| == 15 && |Images("简单形状")| == 8
    ensures forall card :: card in HomeCategoryCards ==> |Images(card.0)| == card.1
  {
  }

  class CategoryGalleryView {
    const category: string
    var selectedImage: Option<UIImage>
    var isNavigatingToConvert: bool

    constructor (category: string)
      ensures this.category == category && selectedImage == None && !isNavigatingToConvert
    {
      this.category := category;
      selectedImage := None;
      isNavigatingToConvert := false;
    }

    /** Tapping any card selects the system "photo" symbol (`photoSymbol`,
        nil when the symbol is unavailable), whichever picture was tapped, and
        navigates to the conversion screen. */
    method SelectCard(card: GalleryImage, photoSymbol: Option<UIImage>)
      modifies this`selectedImage, this`isNavigatingToConvert
      ensures selectedImage == photoSymbol && isNavigatingToConvert
      ensures photoSymbol.Some? ==> selectedImage.Some?
    {
      selectedImage := photoSymbol;
      isNavigatingToConvert := true;
    }
  }
}
