/** What a conversion run guarantees, stated against the input manifest:
    when it aborts, which images and annotations land in which split, that an
    annotation follows its image, what is copied where, and the split sizes.
    Each property is proved once about the parts of a run (the annotation
    passes, the image selection, the copy plan) and then carried over to
    `Convert` through `RunParts`. */
module Properties {
  import opened Json
  import opened Seqs
  import opened Coco
  import opened Labels
  import opened Partition
  import opened Copying
  import opened Converter

  /** The keys a run of variant `v` reads from every annotation. */
  function RequiredKeys(v: Variant): set<string>
  {
    {ImageIdKey} + set k | k in SourceKeys(v)
  }

  /** Every annotation that has an `image_id` references one of the images. */
  ghost predicate NoDangling(annotations: seq<Annotation>, images: seq<Image>)
  {
    forall a :: a in annotations && ImageIdKey in a ==>
      exists image :: image in images && IdEquals(a[ImageIdKey], image.id)
  }

  /** The label schema every output annotation of variant `v` shares. */
  predicate UnifiedSchema(v: Variant, b: Annotation)
  {
    && {Slot1, Slot2, Slot3, ImageIdKey} <= b.Keys
    && (v.Quadrant? ==> QuadrantKey in b && b[Slot1] == b[QuadrantKey] && b[Slot2] == Null)
    && (!v.Disease? ==> b[Slot3] == Null)
  }

  /** Both annotation passes, in order: the pre-pass, then the placing loop
      over its result; the first KeyError of either is the run's error. */
  function Passes(v: Variant, annotations: seq<Annotation>): Result<seq<Annotation>>
  {
    match Prepass(v, annotations)
    case Err(e) => Err(e)
    case Ok(relabeled) => MapAll(relabeled, PlaceStep(v))
  }

  /** The two annotation passes together succeed exactly when every
      annotation has an `image_id` and its variant's source keys, and then
      yield every annotation relabelled, in input order. */
  lemma {:induction false} AnnotationPasses(v: Variant, annotations: seq<Annotation>)
    ensures Passes(v, annotations).Ok?
            <==> forall i :: 0 <= i < |annotations| ==> ImageIdKey in annotations[i] && Relabel(v, annotations[i]).Ok?
    ensures Passes(v, annotations).Ok? ==> Passes(v, annotations) == MapAll(annotations, RelabelStep(v))
  {
    var relabeled := MapAll(annotations, RelabelStep(v));
    if v.Quadrant? {
      var placed := MapAll(annotations, PlaceStep(v));
      if placed.Ok? {
        assert placed.value == relabeled.value;
      }
    } else if relabeled.Ok? {
      var placed := MapAll(relabeled.value, PlaceStep(v));
      forall i | 0 <= i < |annotations|
        ensures ImageIdKey in annotations[i] <==> ImageIdKey in relabeled.value[i]
      {
        RelabelUnifiedSchema(v, annotations[i]);
      }
      if placed.Ok? {
        assert placed.value == relabeled.value;
      }
    }
  }

  /** The annotation passes succeed exactly when every annotation carries
      the keys its variant requires. */
  lemma PassesSucceedIff(v: Variant, annotations: seq<Annotation>)
    ensures Passes(v, annotations).Ok? <==> forall a :: a in annotations ==> RequiredKeys(v) <= a.Keys
  {
    AnnotationPasses(v, annotations);
    forall a | a in annotations
      ensures (ImageIdKey in a && Relabel(v, a).Ok?) <==> RequiredKeys(v) <= a.Keys
    {
      RelabelFailsOnFirstMissingKey(v, a);
    }
    if forall a :: a in annotations ==> RequiredKeys(v) <= a.Keys {
      forall i | 0 <= i < |annotations|
        ensures ImageIdKey in annotations[i] && Relabel(v, annotations[i]).Ok?
      {
        assert annotations[i] in annotations;
      }
    }
  }

  /** When the annotation passes fail, the KeyError names a key the variant
      requires and some annotation lacks. */
  lemma PassesErrorNamesMissingKey(v: Variant, annotations: seq<Annotation>)
    ensures Passes(v, annotations).Err? ==>
              && Passes(v, annotations).error.key in RequiredKeys(v)
              && exists a :: a in annotations && Passes(v, annotations).error.key !in a
  {
    var pre := Prepass(v, annotations);
    var r := Passes(v, annotations);
    if pre.Err? {
      var i :| 0 <= i < |annotations| && RelabelStep(v)(annotations[i]) == Err(pre.error);
      RelabelFailsOnFirstMissingKey(v, annotations[i]);
      assert annotations[i] in annotations;
    } else if r.Err? {
      var i :| 0 <= i < |pre.value| && PlaceStep(v)(pre.value[i]) == Err(r.error);
      if !v.Quadrant? {
        assert RelabelStep(v)(annotations[i]).Ok?;
        RelabelUnifiedSchema(v, annotations[i]);
      }
      assert annotations[i] in annotations;
    }
  }

  /** How a run is made of its parts: it completes exactly when the
      annotation passes succeed; a completed run holds the images selected by
      the train-id test, the passed annotations split by their image id and
      the copy plan of all images; an aborted run carries the passes' error. */
  lemma RunParts(v: Variant, ds: Manifest, shuffled: seq<int>)
    requires multiset(shuffled) == multiset(ImageIds(ds.images))
    ensures var run := Convert(v, ds, shuffled);
            var t := TrainIds(shuffled);
            && (run.Completed? <==> Passes(v, ds.annotations).Ok?)
            && (run.Aborted? ==> run.error == Passes(v, ds.annotations).error)
            && (run.Completed? ==>
                  && run.train.images == Filter(ds.images, ImageToTrain(t))
                  && run.val.images == Filter(ds.images, Not(ImageToTrain(t)))
                  && run.train.annotations == Filter(Passes(v, ds.annotations).value, AnnotationToTrain(t))
                  && run.val.annotations == Filter(Passes(v, ds.annotations).value, Not(AnnotationToTrain(t)))
                  && run.copies == CopyPlan(v, ds.images, t))
  {
  }

  /** A run completes exactly when every annotation carries `image_id` and its
      variant's source label keys. */
  lemma ConvertCompletesIff(v: Variant, ds: Manifest, shuffled: seq<int>)
    requires multiset(shuffled) == multiset(ImageIds(ds.images))
    ensures Convert(v, ds, shuffled).Completed?
            <==> forall a :: a in ds.annotations ==> RequiredKeys(v) <= a.Keys
  {
    RunParts(v, ds, shuffled);
    PassesSucceedIff(v, ds.annotations);
  }

  /** An aborted run reports a KeyError for a required key that some
      annotation lacks. */
  lemma AbortNamesMissingKey(v: Variant, ds: Manifest, shuffled: seq<int>)
    requires multiset(shuffled) == multiset(ImageIds(ds.images))
    ensures var run := Convert(v, ds, shuffled);
            run.Aborted? ==> run.error.key in RequiredKeys(v)
                             && exists a :: a in ds.annotations && run.error.key !in a
  {
    RunParts(v, ds, shuffled);
    PassesErrorNamesMissingKey(v, ds.annotations);
  }

  /** Enumeration and disease runs relabel before copying, so when some
      annotation lacks a source label key they abort having copied nothing.
      Every other run, quadrant runs aborted by the annotation loop included,
      has performed the whole copy plan. */
  lemma ConvertCopyTiming(v: Variant, ds: Manifest, shuffled: seq<int>)
    requires multiset(shuffled) == multiset(ImageIds(ds.images))
    ensures var run := Convert(v, ds, shuffled);
            if !v.Quadrant? && exists a :: a in ds.annotations && Relabel(v, a).Err?
            then run.Aborted? && run.copies == []
            else run.copies == CopyPlan(v, ds.images, TrainIds(shuffled))
  {
    var pre := Prepass(v, ds.annotations);
    if !v.Quadrant? && pre.Err? {
      var i :| 0 <= i < |ds.annotations| && RelabelStep(v)(ds.annotations[i]) == Err(pre.error);
      assert ds.annotations[i] in ds.annotations;
    }
  }

  /** Selecting images by the train-id test: every image is selected for
      exactly one side, train exactly when its id is a train id, and each side
      keeps the input order. */
  lemma ImageSelection(images: seq<Image>, trainIds: seq<int>)
    ensures var train, val := Filter(images, ImageToTrain(trainIds)), Filter(images, Not(ImageToTrain(trainIds)));
            && multiset(train) + multiset(val) == multiset(images)
            && (forall image :: image in train <==> image in images && image.id in trainIds)
            && (forall image :: image in val <==> image in images && image.id !in trainIds)
            && Embedding(train, images, Positions(images, ImageToTrain(trainIds)))
            && Embedding(val, images, Positions(images, Not(ImageToTrain(trainIds))))
  {
    var p := ImageToTrain(trainIds);
    FilterBipartition(images, p);
    FilterIsOrderedSelection(images, p);
    FilterIsOrderedSelection(images, Not(p));
    forall image
      ensures image in Filter(images, p) <==> image in images && p(image)
      ensures image in Filter(images, Not(p)) <==> image in images && !p(image)
    {
      FilterMember(images, p, image);
      FilterMember(images, Not(p), image);
    }
  }

  /** In a completed run every image is in exactly one manifest: in train
      exactly when its id is a train id, in val otherwise, each manifest
      keeping the input order. */
  lemma ConvertSplitsImages(v: Variant, ds: Manifest, shuffled: seq<int>)
    requires multiset(shuffled) == multiset(ImageIds(ds.images))
    ensures var run := Convert(v, ds, shuffled);
            run.Completed? ==>
              && multiset(run.train.images) + multiset(run.val.images) == multiset(ds.images)
              && (forall image :: image in run.train.images <==> image in ds.images && image.id in TrainIds(shuffled))
              && (forall image :: image in run.val.images <==> image in ds.images && image.id !in TrainIds(shuffled))
              && Embedding(run.train.images, ds.images, Positions(ds.images, ImageToTrain(TrainIds(shuffled))))
              && Embedding(run.val.images, ds.images, Positions(ds.images, Not(ImageToTrain(TrainIds(shuffled)))))
  {
    RunParts(v, ds, shuffled);
    ImageSelection(ds.images, TrainIds(shuffled));
  }

  /** In a completed run the annotations are the input annotations relabelled,
      split by their `image_id`: train holds, in input order, exactly those
      whose `image_id` equals a train id, and val holds the rest. */
  lemma ConvertSplitsAnnotations(v: Variant, ds: Manifest, shuffled: seq<int>)
    requires multiset(shuffled) == multiset(ImageIds(ds.images))
    ensures var run := Convert(v, ds, shuffled);
            run.Completed? ==>
              && MapAll(ds.annotations, RelabelStep(v)).Ok?
              && run.train.annotations == Filter(MapAll(ds.annotations, RelabelStep(v)).value, AnnotationToTrain(TrainIds(shuffled)))
              && run.val.annotations == Filter(MapAll(ds.annotations, RelabelStep(v)).value, Not(AnnotationToTrain(TrainIds(shuffled))))
  {
    RunParts(v, ds, shuffled);
    AnnotationPasses(v, ds.annotations);
  }

  /** Annotation `i`, relabelled, is routed to train when its `image_id`
      equals a train id and to val otherwise. */
  lemma RelabeledRouting(v: Variant, annotations: seq<Annotation>, trainIds: seq<int>, i: int)
    requires MapAll(annotations, RelabelStep(v)).Ok?
    requires 0 <= i < |annotations| && ImageIdKey in annotations[i]
    ensures var a, relabeled := annotations[i], MapAll(annotations, RelabelStep(v)).value;
            && Relabel(v, a).Ok?
            && (IdIn(a[ImageIdKey], trainIds) ==> Relabel(v, a).value in Filter(relabeled, AnnotationToTrain(trainIds)))
            && (!IdIn(a[ImageIdKey], trainIds) ==> Relabel(v, a).value in Filter(relabeled, Not(AnnotationToTrain(trainIds))))
  {
    var relabeled := MapAll(annotations, RelabelStep(v)).value;
    assert RelabelStep(v)(annotations[i]).Ok?;
    RelabelUnifiedSchema(v, annotations[i]);
    var q := AnnotationToTrain(trainIds);
    FilterMember(relabeled, q, relabeled[i]);
    FilterMember(relabeled, Not(q), relabeled[i]);
  }

  /** Annotation `i` of a completed run, relabelled, is in the train manifest
      when its `image_id` equals a train id and in the val manifest otherwise. */
  lemma AnnotationFollowsImageId(v: Variant, ds: Manifest, shuffled: seq<int>, i: int)
    requires multiset(shuffled) == multiset(ImageIds(ds.images))
    requires 0 <= i < |ds.annotations|
    ensures var run := Convert(v, ds, shuffled);
            var a := ds.annotations[i];
            run.Completed? ==>
              && ImageIdKey in a && Relabel(v, a).Ok?
              && (IdIn(a[ImageIdKey], TrainIds(shuffled)) ==> Relabel(v, a).value in run.train.annotations)
              && (!IdIn(a[ImageIdKey], TrainIds(shuffled)) ==> Relabel(v, a).value in run.val.annotations)
  {
    RunParts(v, ds, shuffled);
    AnnotationPasses(v, ds.annotations);
    if Passes(v, ds.annotations).Ok? {
      RelabeledRouting(v, ds.annotations, TrainIds(shuffled), i);
    }
  }

  /** No id in the train list equals an `image_id` that matches no image,
      since every train id is an image id. */
  lemma DanglingIdIsNotTrain(images: seq<Image>, shuffled: seq<int>, id: Value)
    requires multiset(shuffled) == multiset(ImageIds(images))
    requires forall image :: image in images ==> !IdEquals(id, image.id)
    ensures !IdIn(id, TrainIds(shuffled))
  {
    var t := TrainIds(shuffled);
    SplitIsBipartition(ImageIds(images), shuffled);
    forall x | x in t
      ensures !IdEquals(id, x)
    {
      assert x in multiset(ImageIds(images));
      var j :| 0 <= j < |images| && ImageIds(images)[j] == x;
      assert images[j] in images;
    }
  }

  /** An annotation whose `image_id` matches no image always lands in val. */
  lemma DanglingAnnotationGoesToVal(v: Variant, ds: Manifest, shuffled: seq<int>, i: int)
    requires multiset(shuffled) == multiset(ImageIds(ds.images))
    requires 0 <= i < |ds.annotations|
    requires ImageIdKey in ds.annotations[i]
    requires forall image :: image in ds.images ==> !IdEquals(ds.annotations[i][ImageIdKey], image.id)
    ensures var run := Convert(v, ds, shuffled);
            run.Completed? ==> Relabel(v, ds.annotations[i]).value in run.val.annotations
  {
    DanglingIdIsNotTrain(ds.images, shuffled, ds.annotations[i][ImageIdKey]);
    AnnotationFollowsImageId(v, ds, shuffled, i);
  }

  /** Splitting relabelled annotations and images by the same train ids puts
      every annotation beside an image it references, when none dangles. */
  lemma RoutedAnnotationsFollowImages(v: Variant, annotations: seq<Annotation>, images: seq<Image>, trainIds: seq<int>)
    requires MapAll(annotations, RelabelStep(v)).Ok?
    requires forall i :: 0 <= i < |annotations| ==> ImageIdKey in annotations[i]
    requires NoDangling(annotations, images)
    ensures var relabeled := MapAll(annotations, RelabelStep(v)).value;
            && (forall b :: b in Filter(relabeled, AnnotationToTrain(trainIds)) ==>
                  ImageIdKey in b && exists image :: image in Filter(images, ImageToTrain(trainIds)) && IdEquals(b[ImageIdKey], image.id))
            && (forall b :: b in Filter(relabeled, Not(AnnotationToTrain(trainIds))) ==>
                  ImageIdKey in b && exists image :: image in Filter(images, Not(ImageToTrain(trainIds))) && IdEquals(b[ImageIdKey], image.id))
  {
    var relabeled := MapAll(annotations, RelabelStep(v)).value;
    var q := AnnotationToTrain(trainIds);
    var p := ImageToTrain(trainIds);
    forall b | b in relabeled
      ensures ImageIdKey in b
      ensures q(b) ==> exists image :: image in Filter(images, p) && IdEquals(b[ImageIdKey], image.id)
      ensures !q(b) ==> exists image :: image in Filter(images, Not(p)) && IdEquals(b[ImageIdKey], image.id)
    {
      var k :| 0 <= k < |relabeled| && relabeled[k] == b;
      var a := annotations[k];
      assert RelabelStep(v)(a).Ok?;
      RelabelUnifiedSchema(v, a);
      assert a in annotations;
      var image :| image in images && IdEquals(a[ImageIdKey], image.id);
      if q(b) {
        var x :| x in trainIds && IdEquals(b[ImageIdKey], x);
        IdEqualsFunctional(b[ImageIdKey], x, image.id);
        FilterMember(images, p, image);
      } else {
        assert image.id !in trainIds;
        FilterMember(images, Not(p), image);
      }
    }
    forall b | b in Filter(relabeled, q)
      ensures b in relabeled && q(b)
    {
      FilterMember(relabeled, q, b);
    }
    forall b | b in Filter(relabeled, Not(q))
      ensures b in relabeled && !q(b)
    {
      FilterMember(relabeled, Not(q), b);
    }
  }

  /** When no annotation dangles, every annotation of a completed run is in
      the same manifest as an image it references. Unique image ids are not needed. */
  lemma AnnotationsFollowTheirImages(v: Variant, ds: Manifest, shuffled: seq<int>)
    requires multiset(shuffled) == multiset(ImageIds(ds.images))
    requires NoDangling(ds.annotations, ds.images)
    ensures var run := Convert(v, ds, shuffled);
            run.Completed? ==>
              && (forall b :: b in run.train.annotations ==>
                    ImageIdKey in b && exists image :: image in run.train.images && IdEquals(b[ImageIdKey], image.id))
              && (forall b :: b in run.val.annotations ==>
                    ImageIdKey in b && exists image :: image in run.val.images && IdEquals(b[ImageIdKey], image.id))
  {
    RunParts(v, ds, shuffled);
    AnnotationPasses(v, ds.annotations);
    if Passes(v, ds.annotations).Ok? {
      RoutedAnnotationsFollowImages(v, ds.annotations, ds.images, TrainIds(shuffled));
    }
  }

  /** Every relabelled annotation, on either side of a split, has the
      variant's unified label schema. */
  lemma RoutedSchema(v: Variant, annotations: seq<Annotation>, trainIds: seq<int>)
    requires MapAll(annotations, RelabelStep(v)).Ok?
    requires forall i :: 0 <= i < |annotations| ==> ImageIdKey in annotations[i]
    ensures var relabeled := MapAll(annotations, RelabelStep(v)).value;
            && (forall b :: b in Filter(relabeled, AnnotationToTrain(trainIds)) ==> UnifiedSchema(v, b))
            && (forall b :: b in Filter(relabeled, Not(AnnotationToTrain(trainIds))) ==> UnifiedSchema(v, b))
  {
    var relabeled := MapAll(annotations, RelabelStep(v)).value;
    var q := AnnotationToTrain(trainIds);
    forall b | b in relabeled
      ensures UnifiedSchema(v, b)
    {
      var k :| 0 <= k < |relabeled| && relabeled[k] == b;
      assert RelabelStep(v)(annotations[k]).Ok?;
      RelabelUnifiedSchema(v, annotations[k]);
    }
    forall b | b in Filter(relabeled, q)
      ensures b in relabeled
    {
      FilterMember(relabeled, q, b);
    }
    forall b | b in Filter(relabeled, Not(q))
      ensures b in relabeled
    {
      FilterMember(relabeled, Not(q), b);
    }
  }

  /** Every annotation of a completed run has the three label slots and its
      `image_id`; quadrant slot 1 repeats `category_id` and slot 2 is null;
      slot 3 is null except for the disease variant. */
  lemma ConvertUnifiedSchema(v: Variant, ds: Manifest, shuffled: seq<int>)
    requires multiset(shuffled) == multiset(ImageIds(ds.images))
    ensures var run := Convert(v, ds, shuffled);
            run.Completed? ==>
              && (forall b :: b in run.train.annotations ==> UnifiedSchema(v, b))
              && (forall b :: b in run.val.annotations ==> UnifiedSchema(v, b))
  {
    RunParts(v, ds, shuffled);
    AnnotationPasses(v, ds.annotations);
    if Passes(v, ds.annotations).Ok? {
      RoutedSchema(v, ds.annotations, TrainIds(shuffled));
    }
  }

  /** The files copied into `train2017` are, one for one and in order, the
      images of the train manifest under their own file names, read from the
      x-ray directory, and likewise for `val2017`. */
  lemma CopiesMatchManifests(v: Variant, ds: Manifest, shuffled: seq<int>)
    requires multiset(shuffled) == multiset(ImageIds(ds.images))
    ensures var run := Convert(v, ds, shuffled);
            run.Completed? ==>
              && |Filter(run.copies, CopiesInto(v, Train))| == |run.train.images|
              && (forall k :: 0 <= k < |run.train.images| ==>
                    Filter(run.copies, CopiesInto(v, Train))[k]
                    == CopyOp(XrayDir(v) + "/" + run.train.images[k].fileName, Destination(v, Train, run.train.images[k].fileName)))
              && |Filter(run.copies, CopiesInto(v, Val))| == |run.val.images|
              && (forall k :: 0 <= k < |run.val.images| ==>
                    Filter(run.copies, CopiesInto(v, Val))[k]
                    == CopyOp(XrayDir(v) + "/" + run.val.images[k].fileName, Destination(v, Val, run.val.images[k].fileName)))
  {
    RunParts(v, ds, shuffled);
    CopiesPerSplit(v, ds.images, TrainIds(shuffled), Train);
    CopiesPerSplit(v, ds.images, TrainIds(shuffled), Val);
  }

  /** With unique image ids the train-id test selects exactly `int(N * 0.8)`
      images and the rest go to val. */
  lemma TrainSelectionCount(images: seq<Image>, shuffled: seq<int>)
    requires multiset(shuffled) == multiset(ImageIds(images))
    requires Distinct(ImageIds(images))
    ensures |Filter(images, ImageToTrain(TrainIds(shuffled)))| == TrainCount(|images|)
    ensures |Filter(images, Not(ImageToTrain(TrainIds(shuffled))))| == |images| - TrainCount(|images|)
  {
    var ids := ImageIds(images);
    var t := TrainIds(shuffled);
    FilterLengthCorresponds(images, ImageToTrain(t), ids, InList(t));
    SplitIsBipartition(ids, shuffled);
    DistinctSelectionCount(ids, t);
    FilterBipartition(images, ImageToTrain(t));
  }

  /** With unique image ids the train manifest receives exactly `int(N * 0.8)`
      images and the val manifest the remaining ones. */
  lemma TrainImageCount(v: Variant, ds: Manifest, shuffled: seq<int>)
    requires multiset(shuffled) == multiset(ImageIds(ds.images))
    requires Distinct(ImageIds(ds.images))
    ensures var run := Convert(v, ds, shuffled);
            run.Completed? ==>
              |run.train.images| == TrainCount(|ds.images|)
              && |run.val.images| == |ds.images| - TrainCount(|ds.images|)
  {
    RunParts(v, ds, shuffled);
    TrainSelectionCount(ds.images, shuffled);
  }

  /** Annotations that refer to the images one for one (annotation `i` to
      image `i`) are split exactly as the images are. */
  lemma RoutedCountMatchesImages(v: Variant, annotations: seq<Annotation>, images: seq<Image>, trainIds: seq<int>)
    requires MapAll(annotations, RelabelStep(v)).Ok?
    requires |annotations| == |images|
    requires forall i :: 0 <= i < |images| ==>
               ImageIdKey in annotations[i] && annotations[i][ImageIdKey] == Int(images[i].id)
    ensures var relabeled := MapAll(annotations, RelabelStep(v)).value;
            && |Filter(relabeled, AnnotationToTrain(trainIds))| == |Filter(images, ImageToTrain(trainIds))|
            && |Filter(relabeled, Not(AnnotationToTrain(trainIds)))| == |Filter(images, Not(ImageToTrain(trainIds)))|
  {
    var relabeled := MapAll(annotations, RelabelStep(v)).value;
    var q := AnnotationToTrain(trainIds);
    var p := ImageToTrain(trainIds);
    forall i | 0 <= i < |relabeled|
      ensures q(relabeled[i]) == p(images[i])
      ensures Not(q)(relabeled[i]) == Not(p)(images[i])
    {
      assert RelabelStep(v)(annotations[i]).Ok?;
      RelabelUnifiedSchema(v, annotations[i]);
      var id := images[i].id;
      if id in trainIds {
        assert IdEquals(Int(id), id);
      }
    }
    FilterLengthCorresponds(relabeled, q, images, p);
    FilterLengthCorresponds(relabeled, Not(q), images, Not(p));
  }

  /** An annotation set that refers to the images one for one (annotation `i`
      to image `i`) is split exactly as the images are. */
  lemma AnnotationCountMatchesImages(v: Variant, ds: Manifest, shuffled: seq<int>)
    requires multiset(shuffled) == multiset(ImageIds(ds.images))
    requires |ds.annotations| == |ds.images|
    requires forall i :: 0 <= i < |ds.images| ==>
               ImageIdKey in ds.annotations[i] && ds.annotations[i][ImageIdKey] == Int(ds.images[i].id)
    ensures var run := Convert(v, ds, shuffled);
            run.Completed? ==>
              |run.train.annotations| == |run.train.images| && |run.val.annotations| == |run.val.images|
  {
    RunParts(v, ds, shuffled);
    AnnotationPasses(v, ds.annotations);
    if Passes(v, ds.annotations).Ok? {
      RoutedCountMatchesImages(v, ds.annotations, ds.images, TrainIds(shuffled));
    }
  }

  /** Annotations that all carry `image_id` and `category_id` hold every key
      a quadrant run reads. */
  lemma QuadrantKeysPresent(annotations: seq<Annotation>)
    requires forall i :: 0 <= i < |annotations| ==> ImageIdKey in annotations[i] && QuadrantKey in annotations[i]
    ensures forall a :: a in annotations ==> RequiredKeys(Quadrant) <= a.Keys
  {
    forall a | a in annotations
      ensures RequiredKeys(Quadrant) <= a.Keys
    {
      var i :| 0 <= i < |annotations| && annotations[i] == a;
    }
  }

  /** The quadrant scenario: ten images with distinct ids, one annotation per
      image carrying a `category_id`. The run completes, train gets eight
      images and eight annotations, val two of each, and every annotation has
      `category_id1` equal to its `category_id` and null slots 2 and 3. */
  lemma QuadrantTenImages(ds: Manifest, shuffled: seq<int>)
    requires multiset(shuffled) == multiset(ImageIds(ds.images))
    requires |ds.images| == 10 && Distinct(ImageIds(ds.images))
    requires |ds.annotations| == 10
    requires forall i :: 0 <= i < 10 ==>
               && ImageIdKey in ds.annotations[i] && QuadrantKey in ds.annotations[i]
               && ds.annotations[i][ImageIdKey] == Int(ds.images[i].id)
    ensures var run := Convert(Quadrant, ds, shuffled);
            && run.Completed?
            && |run.train.images| == 8 && |run.train.annotations| == 8
            && |run.val.images| == 2 && |run.val.annotations| == 2
            && forall b :: b in run.train.annotations + run.val.annotations ==>
                 && QuadrantKey in b && {Slot1, Slot2, Slot3} <= b.Keys
                 && b[Slot1] == b[QuadrantKey] && b[Slot2] == Null && b[Slot3] == Null
  {
    var run := Convert(Quadrant, ds, shuffled);
    QuadrantKeysPresent(ds.annotations);
    ConvertCompletesIff(Quadrant, ds, shuffled);
    TrainImageCount(Quadrant, ds, shuffled);
    AnnotationCountMatchesImages(Quadrant, ds, shuffled);
    ConvertUnifiedSchema(Quadrant, ds, shuffled);
    forall b | b in run.train.annotations + run.val.annotations
      ensures UnifiedSchema(Quadrant, b)
    {
    }
  }
}
