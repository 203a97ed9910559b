/** One conversion run of a dataset variant: relabel annotations, split the
    image ids, distribute images (with their copies) and annotations into a
    train and a val manifest, and attach the variant's vocabulary to both.
    The three source procedures differ only in the variant, so they are one
    function of it here. */
module Converter {
  import opened Json
  import opened Seqs
  import opened Coco
  import opened Labels
  import opened Partition
  import opened Copying

  datatype Halves<T> = Halves(train: seq<T>, val: seq<T>)

  /** A run either completes with both manifests written, or aborts on a
      KeyError; `copies` lists the image copies performed either way. */
  datatype Run =
    | Completed(copies: seq<CopyOp>, train: Manifest, val: Manifest)
    | Aborted(copies: seq<CopyOp>, error: Error)

  /** `annotation["image_id"] in train_ids`, for an annotation that has the key. */
  function AnnotationToTrain(trainIds: seq<int>): Annotation -> bool
  {
    (a: Annotation) => ImageIdKey in a && IdIn(a[ImageIdKey], trainIds)
  }

  /** The relabelling pass the enumeration and disease variants run over all
      annotations before the split; the quadrant variant has none. */
  function Prepass(v: Variant, annotations: seq<Annotation>): Result<seq<Annotation>>
  {
    if v.Quadrant? then Ok(annotations) else MapAll(annotations, RelabelStep(v))
  }

  /** The body of the annotation loop for one annotation: read `image_id`,
      then (quadrant only) rewrite the labels. */
  function Place(v: Variant, a: Annotation): Result<Annotation>
  {
    if ImageIdKey !in a then Err(MissingKey(ImageIdKey))
    else if v.Quadrant? then QuadrantLabels(a)
    else Ok(a)
  }

  function PlaceStep(v: Variant): Annotation -> Result<Annotation>
  {
    a => Place(v, a)
  }

  /** The annotation loop: every annotation is placed in order, the first
      KeyError aborts, and the placed annotations are split by their image id. */
  function RouteAnnotations(v: Variant, annotations: seq<Annotation>, trainIds: seq<int>): Result<Halves<Annotation>>
  {
    match MapAll(annotations, PlaceStep(v))
    case Err(e) => Err(e)
    case Ok(placed) =>
      Ok(Halves(Filter(placed, AnnotationToTrain(trainIds)), Filter(placed, Not(AnnotationToTrain(trainIds)))))
  }

  /** One run of variant `v` on manifest `ds`, with `shuffled` the image ids
      in the order the shuffle left them. */
  function Convert(v: Variant, ds: Manifest, shuffled: seq<int>): (run: Run)
    requires multiset(shuffled) == multiset(ImageIds(ds.images))
    ensures run.Completed? ==> run.train.categories == run.val.categories == CategoriesFor(v, ds.categories)
    ensures run.Completed? ==> multiset(run.train.images) + multiset(run.val.images) == multiset(ds.images)
    ensures run.Completed? ==> |run.train.annotations| + |run.val.annotations| == |ds.annotations|
    ensures run.Completed? ==> |run.copies| == |ds.images|
  {
    var trainIds := TrainIds(shuffled);
    match Prepass(v, ds.annotations)
    case Err(e) => Aborted([], e)
    case Ok(annotations) =>
      var copies := CopyPlan(v, ds.images, trainIds);
      match RouteAnnotations(v, annotations, trainIds)
      case Err(e) => Aborted(copies, e)
      case Ok(halves) =>
        var categories := CategoriesFor(v, ds.categories);
        var p := ImageToTrain(trainIds);
        FilterBipartition(ds.images, p);
        FilterBipartition(MapAll(annotations, PlaceStep(v)).value, AnnotationToTrain(trainIds));
        Completed(copies,
                  Manifest(Filter(ds.images, p), halves.train, categories),
                  Manifest(Filter(ds.images, Not(p)), halves.val, categories))
  }

  /** The image loop as written: each image is appended to the train or val
      list and copied to the matching directory, by one membership test. */
  method DistributeImages(v: Variant, images: seq<Image>, trainIds: seq<int>)
    returns (train: seq<Image>, val: seq<Image>, copies: seq<CopyOp>)
    ensures train == Filter(images, ImageToTrain(trainIds))
    ensures val == Filter(images, Not(ImageToTrain(trainIds)))
    ensures copies == CopyPlan(v, images, trainIds)
  {
    train, val, copies := [], [], [];
    var i := 0;
    while i < |images|
      invariant 0 <= i <= |images|
      invariant train == Filter(images[..i], ImageToTrain(trainIds))
      invariant val == Filter(images[..i], Not(ImageToTrain(trainIds)))
      invariant copies == CopyPlan(v, images[..i], trainIds)
    {
      var image := images[i];
      var fileName := image.fileName;
      ImageStep(v, images, trainIds, i);
      if image.id in trainIds {
        train := train + [image];
        copies := copies + [CopyOp(XrayDir(v) + "/" + fileName, Destination(v, Train, fileName))];
      } else {
        val := val + [image];
        copies := copies + [CopyOp(XrayDir(v) + "/" + fileName, Destination(v, Val, fileName))];
      }
      i := i + 1;
    }
    assert images[..i] == images;
  }

  /** Taking image `i` extends the train or the val selection by it, as its
      id is a train id or not, and the copy plan by its copy into that split. */
  lemma ImageStep(v: Variant, images: seq<Image>, trainIds: seq<int>, i: nat)
    requires i < |images|
    ensures var image, p := images[i], ImageToTrain(trainIds);
            && Filter(images[..i + 1], p)
               == (if image.id in trainIds then Filter(images[..i], p) + [image] else Filter(images[..i], p))
            && Filter(images[..i + 1], Not(p))
               == (if image.id in trainIds then Filter(images[..i], Not(p)) else Filter(images[..i], Not(p)) + [image])
            && CopyPlan(v, images[..i + 1], trainIds)
               == CopyPlan(v, images[..i], trainIds)
                  + [CopyOp(XrayDir(v) + "/" + image.fileName,
                            Destination(v, if image.id in trainIds then Train else Val, image.fileName))]
  {
    var image, p := images[i], ImageToTrain(trainIds);
    assert images[..i + 1] == images[..i] + [image];
    FilterAppend(images[..i], image, p);
    FilterAppend(images[..i], image, Not(p));
    assert CopyPlan(v, images[..i + 1], trainIds) == CopyPlan(v, images[..i], trainIds) + [CopyFor(v, trainIds)(image)];
  }

  /** The annotation loop as written: read `image_id`, rewrite the labels
      (quadrant only), append to the split of the image id; a KeyError aborts. */
  method DistributeAnnotations(v: Variant, annotations: seq<Annotation>, trainIds: seq<int>)
    returns (r: Result<Halves<Annotation>>)
    ensures r == RouteAnnotations(v, annotations, trainIds)
  {
    var train, val := [], [];
    ghost var placed: seq<Annotation> := [];
    var i := 0;
    assert annotations[..i] == [];
    while i < |annotations|
      invariant 0 <= i <= |annotations|
      invariant MapAll(annotations[..i], PlaceStep(v)) == Ok(placed)
      invariant train == Filter(placed, AnnotationToTrain(trainIds))
      invariant val == Filter(placed, Not(AnnotationToTrain(trainIds)))
    {
      var a := annotations[i];
      if ImageIdKey !in a {
        MapAllStopsAt(annotations, i, PlaceStep(v), placed);
        return Err(MissingKey(ImageIdKey));
      }
      var toTrain := IdIn(a[ImageIdKey], trainIds);
      var b := a;
      if v.Quadrant? {
        var q := QuadrantLabels(a);
        if q.Err? {
          MapAllStopsAt(annotations, i, PlaceStep(v), placed);
          return Err(q.error);
        }
        b := q.value;
      }
      RouteStep(v, annotations, trainIds, i, placed, b);
      if toTrain {
        train := train + [b];
      } else {
        val := val + [b];
      }
      placed := placed + [b];
      i := i + 1;
      assert MapAll(annotations[..i], PlaceStep(v)) == Ok(placed);
    }
    assert annotations[..i] == annotations;
    r := Ok(Halves(train, val));
  }

  /** Placing annotation `i` extends the placed prefix, and the placed
      annotation goes to train exactly when the original's image id is a train id. */
  lemma RouteStep(v: Variant, annotations: seq<Annotation>, trainIds: seq<int>, i: nat, placed: seq<Annotation>, b: Annotation)
    requires i < |annotations|
    requires MapAll(annotations[..i], PlaceStep(v)) == Ok(placed)
    requires Place(v, annotations[i]) == Ok(b)
    ensures MapAll(annotations[..i + 1], PlaceStep(v)) == Ok(placed + [b])
    ensures ImageIdKey in annotations[i]
    ensures AnnotationToTrain(trainIds)(b) == IdIn(annotations[i][ImageIdKey], trainIds)
    ensures Filter(placed + [b], AnnotationToTrain(trainIds))
            == if AnnotationToTrain(trainIds)(b) then Filter(placed, AnnotationToTrain(trainIds)) + [b]
               else Filter(placed, AnnotationToTrain(trainIds))
    ensures Filter(placed + [b], Not(AnnotationToTrain(trainIds)))
            == if AnnotationToTrain(trainIds)(b) then Filter(placed, Not(AnnotationToTrain(trainIds)))
               else Filter(placed, Not(AnnotationToTrain(trainIds))) + [b]
  {
    MapAllExtend(annotations, i, PlaceStep(v), placed, b);
    FilterAppend(placed, b, AnnotationToTrain(trainIds));
    FilterAppend(placed, b, Not(AnnotationToTrain(trainIds)));
  }
}
