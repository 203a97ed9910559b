/** The COCO manifest records the converter reads and writes, the three
    dataset variants, and each variant's category vocabulary. */
module Coco {
  import opened Json
  import opened Numerals

  /** An image entry: its id, its file name in the variant's x-ray directory,
      and whatever other fields (width, height, ...) it carries unchanged. */
  datatype Image = Image(id: int, fileName: string, extra: map<string, Value>)

  /** A category entry of the label vocabulary. */
  datatype Category = Category(id: int, name: string, supercategory: string)

  /** A manifest: images, annotations and categories, each in file order. */
  datatype Manifest = Manifest(images: seq<Image>, annotations: seq<Annotation>, categories: seq<Category>)

  /** The three dataset variants, each converted by its own function of the source. */
  datatype Variant = Quadrant | Enumeration | Disease

  /** The two output splits. */
  datatype Split = Train | Val

  /** `[x["id"] for x in images]`. */
  function ImageIds(images: seq<Image>): (ids: seq<int>)
    ensures |ids| == |images|
    ensures forall i :: 0 <= i < |images| ==> ids[i] == images[i].id
  {
    seq(|images|, i requires 0 <= i < |images| => images[i].id)
  }

  /** The enumeration vocabulary: 32 teeth numbered "1" .. "32", ids 0 .. 31. */
  function EnumerationCategories(): (cats: seq<Category>)
    ensures |cats| == 32
    ensures forall i :: 0 <= i < 32 ==>
      && cats[i].id == i
      && IsCanonical(cats[i].name)
      && ParseDecimal(cats[i].name) == i + 1
      && cats[i].supercategory == cats[i].name
  {
    DecimalRoundTrip();
    seq(32, i requires 0 <= i < 32 => Category(i, Decimal(i + 1), Decimal(i + 1)))
  }

  /** The disease vocabulary: four fixed pathologies, ids 0 .. 3. */
  function DiseaseCategories(): (cats: seq<Category>)
    ensures |cats| == 4
    ensures forall i :: 0 <= i < 4 ==> cats[i].id == i && cats[i].supercategory == cats[i].name
    ensures cats[0].name == "Impacted" && cats[1].name == "Caries"
    ensures cats[2].name == "Periapical Lesion" && cats[3].name == "Deep Caries"
  {
    [ Category(0, "Impacted", "Impacted"),
      Category(1, "Caries", "Caries"),
      Category(2, "Periapical Lesion", "Periapical Lesion"),
      Category(3, "Deep Caries", "Deep Caries") ]
  }

  /** The vocabulary written into both output manifests of a variant; the
      quadrant variant keeps the source manifest's own list. */
  function CategoriesFor(v: Variant, source: seq<Category>): (cats: seq<Category>)
    ensures v.Quadrant? ==> cats == source
    ensures v.Enumeration? ==> |cats| == 32
    ensures v.Disease? ==> |cats| == 4
  {
    match v
    case Quadrant => source
    case Enumeration => EnumerationCategories()
    case Disease => DiseaseCategories()
  }

  /** No two categories of a list share an id or a name. */
  ghost predicate UniqueCategories(cats: seq<Category>)
  {
    forall i, j :: 0 <= i < j < |cats| ==> cats[i].id != cats[j].id && cats[i].name != cats[j].name
  }

  /** The enumeration names are the decimal numerals 1 .. 32, pairwise distinct,
      with "1" first and "32" last. */
  lemma EnumerationCategoriesUnique()
    ensures UniqueCategories(EnumerationCategories())
    ensures EnumerationCategories()[0].name == "1"
    ensures EnumerationCategories()[31].name == "32"
  {
  }

  /** The disease vocabulary is exactly the four named pathologies, without repeats. */
  lemma DiseaseCategoriesUnique()
    ensures UniqueCategories(DiseaseCategories())
    ensures (set c | c in DiseaseCategories() :: c.name)
            == {"Impacted", "Caries", "Periapical Lesion", "Deep Caries"}
  {
  }
}
