/** The copy plan: for every image, the `shutil.copy` from the variant's x-ray
    directory into the `train2017` or `val2017` directory of its split. The
    plan is returned as data; the filesystem effect is not modelled. */
module Copying {
  import opened Seqs
  import opened Coco

  datatype CopyOp = CopyOp(source: string, destination: string)

  /** The directory of the source x-rays of a variant. */
  function XrayDir(v: Variant): string
  {
    match v
    case Quadrant => "dentex_dataset/origin/quadrant/xrays"
    case Enumeration => "dentex_dataset/origin/quadrant_enumeration/xrays"
    case Disease => "dentex_dataset/origin/quadrant_enumeration_disease/xrays"
  }

  /** The COCO output root of a variant. */
  function OutputRoot(v: Variant): string
  {
    match v
    case Quadrant => "dentex_dataset/coco/quadrant"
    case Enumeration => "dentex_dataset/coco/enumeration"
    case Disease => "dentex_dataset/coco/disease"
  }

  function SplitDirName(s: Split): string
  {
    match s
    case Train => "train2017"
    case Val => "val2017"
  }

  /** The prefix every destination in split `s` of variant `v` starts with. */
  function SplitPrefix(v: Variant, s: Split): string
  {
    OutputRoot(v) + "/" + SplitDirName(s) + "/"
  }

  /** Where a file of the given name is copied to in split `s`. */
  function Destination(v: Variant, s: Split, fileName: string): string
  {
    SplitPrefix(v, s) + fileName
  }

  /** The split an image goes to: train exactly when its id is a train id. */
  function SplitOf(image: Image, trainIds: seq<int>): Split
  {
    if image.id in trainIds then Train else Val
  }

  /** `image["id"] in train_ids`, the test that picks both an image's manifest
      and its copy destination. */
  function ImageToTrain(trainIds: seq<int>): Image -> bool
  {
    (image: Image) => image.id in trainIds
  }

  /** The copy the converter performs for one image. */
  function CopyFor(v: Variant, trainIds: seq<int>): Image -> CopyOp
  {
    (image: Image) => CopyOp(XrayDir(v) + "/" + image.fileName,
                             Destination(v, SplitOf(image, trainIds), image.fileName))
  }

  /** The copies of the image loop, one per image in manifest order. */
  function CopyPlan(v: Variant, images: seq<Image>, trainIds: seq<int>): seq<CopyOp>
  {
    Map(images, CopyFor(v, trainIds))
  }

  /** True when `path` lies under the directory of split `s`. */
  predicate IsUnder(path: string, v: Variant, s: Split)
  {
    var p := SplitPrefix(v, s);
    |p| <= |path| && path[..|p|] == p
  }

  function CopiesInto(v: Variant, s: Split): CopyOp -> bool
  {
    (c: CopyOp) => IsUnder(c.destination, v, s)
  }

  /** A destination lies under the directory of its own split and not under the other one. */
  lemma DestinationUnderOwnSplitOnly(v: Variant, s: Split, fileName: string)
    ensures IsUnder(Destination(v, s, fileName), v, s)
    ensures IsUnder(Destination(v, s, fileName), v, Train) <==> s == Train
    ensures IsUnder(Destination(v, s, fileName), v, Val) <==> s == Val
  {
    var d := Destination(v, s, fileName);
    var root := OutputRoot(v) + "/";
    assert SplitPrefix(v, s) == root + SplitDirName(s) + "/";
    assert d[..|SplitPrefix(v, s)|] == SplitPrefix(v, s);
    // The two split prefixes first differ right after the output root.
    var n := |root|;
    assert d[n] == SplitDirName(s)[0];
    assert SplitPrefix(v, Train)[n] == 't';
    assert SplitPrefix(v, Val)[n] == 'v';
  }

  /** Each copy reads the image's own file from the x-ray directory and writes
      a file of the same name into the train directory exactly when the image
      id is a train id, into the val directory otherwise. */
  lemma CopyPlanTargets(v: Variant, images: seq<Image>, trainIds: seq<int>)
    ensures |CopyPlan(v, images, trainIds)| == |images|
    ensures forall i :: 0 <= i < |images| ==>
      var c := CopyPlan(v, images, trainIds)[i];
      && c.source == XrayDir(v) + "/" + images[i].fileName
      && (c.destination == Destination(v, Train, images[i].fileName) <==> images[i].id in trainIds)
      && (c.destination == Destination(v, Val, images[i].fileName) <==> images[i].id !in trainIds)
      && (IsUnder(c.destination, v, Train) <==> images[i].id in trainIds)
      && (IsUnder(c.destination, v, Val) <==> images[i].id !in trainIds)
  {
    forall i | 0 <= i < |images|
      ensures var c := CopyPlan(v, images, trainIds)[i];
        && (c.destination == Destination(v, Train, images[i].fileName) <==> images[i].id in trainIds)
        && (c.destination == Destination(v, Val, images[i].fileName) <==> images[i].id !in trainIds)
        && (IsUnder(c.destination, v, Train) <==> images[i].id in trainIds)
        && (IsUnder(c.destination, v, Val) <==> images[i].id !in trainIds)
    {
      var f := images[i].fileName;
      DestinationUnderOwnSplitOnly(v, SplitOf(images[i], trainIds), f);
      assert |Destination(v, Train, f)| == |Destination(v, Val, f)| + 2;
    }
  }

  /** The images whose copies go to split `s`: the train-id test or its negation. */
  function SideOf(s: Split, trainIds: seq<int>): Image -> bool
  {
    if s == Train then ImageToTrain(trainIds) else Not(ImageToTrain(trainIds))
  }

  /** The copies into a split's directory are, one for one and in order, the
      copies of the images selected for that split, each reading and writing
      the image's own file name. */
  lemma CopiesPerSplit(v: Variant, images: seq<Image>, trainIds: seq<int>, s: Split)
    ensures var into := Filter(CopyPlan(v, images, trainIds), CopiesInto(v, s));
            var chosen := Filter(images, SideOf(s, trainIds));
            |into| == |chosen| && forall k :: 0 <= k < |chosen| ==>
              into[k] == CopyOp(XrayDir(v) + "/" + chosen[k].fileName, Destination(v, s, chosen[k].fileName))
  {
    var p := SideOf(s, trainIds);
    var f := CopyFor(v, trainIds);
    forall image: Image
      ensures CopiesInto(v, s)(f(image)) == p(image)
    {
      DestinationUnderOwnSplitOnly(v, SplitOf(image, trainIds), image.fileName);
    }
    FilterMap(images, f, p, CopiesInto(v, s));
    FilterSatisfies(images, p);
  }
}
