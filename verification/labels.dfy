/** The per-variant rewrite of an annotation's label fields into the unified
    three-slot schema `category_id1`, `category_id2`, `category_id3`. */
module Labels {
  import opened Json
  import opened Coco

  const Slot1: string := "category_id1"
  const Slot2: string := "category_id2"
  const Slot3: string := "category_id3"

  /** The source label keys of the variants. */
  const QuadrantKey: string := "category_id"
  const Source1: string := "category_id_1"
  const Source2: string := "category_id_2"
  const Source3: string := "category_id_3"

  const ImageIdKey: string := "image_id"

  /** The keys a variant's rewrite reads, in the order it reads them. */
  function SourceKeys(v: Variant): seq<string>
  {
    match v
    case Quadrant => [QuadrantKey]
    case Enumeration => [Source1, Source2]
    case Disease => [Source1, Source2, Source3]
  }

  /** The first of `keys` missing from `a`, if any. */
  function FirstMissing(a: Annotation, keys: seq<string>): (r: Result<()>)
    ensures r.Ok? <==> forall k :: k in keys ==> k in a
    ensures r.Err? ==> exists i :: 0 <= i < |keys| && r.error == MissingKey(keys[i])
                                && keys[i] !in a && forall j :: 0 <= j < i ==> keys[j] in a
    decreases |keys|
  {
    if |keys| == 0 then Ok(())
    else if keys[0] !in a then Err(MissingKey(keys[0]))
    else
      var r := FirstMissing(a, keys[1..]);
      assert forall k :: k in keys ==> k == keys[0] || k in keys[1..];
      r
  }

  /** Quadrant: slot 1 takes `category_id`, slots 2 and 3 become null;
      `category_id` itself stays. */
  function QuadrantLabels(a: Annotation): (r: Result<Annotation>)
    ensures r.Ok? <==> QuadrantKey in a
    ensures r.Err? ==> r.error == MissingKey(QuadrantKey)
    ensures r.Ok? ==> r.value.Keys == a.Keys + {Slot1, Slot2, Slot3}
    ensures r.Ok? ==> r.value[Slot1] == a[QuadrantKey] && r.value[Slot2] == Null && r.value[Slot3] == Null
    ensures r.Ok? ==> forall k :: k in a && k !in {Slot1, Slot2, Slot3} ==> r.value[k] == a[k]
  {
    if QuadrantKey !in a then Err(MissingKey(QuadrantKey))
    else Ok(a[Slot1 := a[QuadrantKey]][Slot2 := Null][Slot3 := Null])
  }

  /** Enumeration: slots 1 and 2 take `category_id_1` and `category_id_2`,
      slot 3 becomes null, and both source keys are removed. */
  function EnumerationLabels(a: Annotation): (r: Result<Annotation>)
    ensures r.Ok? <==> Source1 in a && Source2 in a
    ensures r.Err? ==> r.error == (if Source1 !in a then MissingKey(Source1) else MissingKey(Source2))
    ensures r.Ok? ==> r.value.Keys == a.Keys - {Source1, Source2} + {Slot1, Slot2, Slot3}
    ensures r.Ok? ==> r.value[Slot1] == a[Source1] && r.value[Slot2] == a[Source2] && r.value[Slot3] == Null
    ensures r.Ok? ==> forall k :: k in a && k !in {Slot1, Slot2, Slot3, Source1, Source2} ==> r.value[k] == a[k]
  {
    if Source1 !in a then Err(MissingKey(Source1))
    else if Source2 !in a then Err(MissingKey(Source2))
    else
      var c1, c2 := a[Source1], a[Source2];
      Ok(a[Slot1 := c1][Slot2 := c2][Slot3 := Null] - {Source1, Source2})
  }

  /** Disease: slots 1, 2 and 3 take `category_id_1/2/3`, and all three
      source keys are removed. */
  function DiseaseLabels(a: Annotation): (r: Result<Annotation>)
    ensures r.Ok? <==> Source1 in a && Source2 in a && Source3 in a
    ensures r.Err? ==> r.error == (if Source1 !in a then MissingKey(Source1)
                                  else if Source2 !in a then MissingKey(Source2)
                                  else MissingKey(Source3))
    ensures r.Ok? ==> r.value.Keys == a.Keys - {Source1, Source2, Source3} + {Slot1, Slot2, Slot3}
    ensures r.Ok? ==> r.value[Slot1] == a[Source1] && r.value[Slot2] == a[Source2] && r.value[Slot3] == a[Source3]
    ensures r.Ok? ==> forall k :: k in a && k !in {Slot1, Slot2, Slot3, Source1, Source2, Source3} ==> r.value[k] == a[k]
  {
    if Source1 !in a then Err(MissingKey(Source1))
    else if Source2 !in a then Err(MissingKey(Source2))
    else if Source3 !in a then Err(MissingKey(Source3))
    else
      var c1, c2, c3 := a[Source1], a[Source2], a[Source3];
      Ok(a[Slot1 := c1][Slot2 := c2][Slot3 := c3] - {Source1, Source2, Source3})
  }

  /** The rewrite of variant `v`. */
  function Relabel(v: Variant, a: Annotation): Result<Annotation>
  {
    match v
    case Quadrant => QuadrantLabels(a)
    case Enumeration => EnumerationLabels(a)
    case Disease => DiseaseLabels(a)
  }

  function RelabelStep(v: Variant): Annotation -> Result<Annotation>
  {
    a => Relabel(v, a)
  }

  /** Every variant's rewrite succeeds exactly when all of its source keys are
      present, and otherwise fails on the first absent one in reading order. */
  lemma RelabelFailsOnFirstMissingKey(v: Variant, a: Annotation)
    ensures Relabel(v, a).Ok? <==> FirstMissing(a, SourceKeys(v)).Ok?
    ensures Relabel(v, a).Err? ==> Relabel(v, a).error == FirstMissing(a, SourceKeys(v)).error
  {
  }

  /** Every rewritten annotation has all three slots, the unused ones holding
      null rather than being absent, and keeps its `image_id`. */
  lemma RelabelUnifiedSchema(v: Variant, a: Annotation)
    requires Relabel(v, a).Ok?
    ensures {Slot1, Slot2, Slot3} <= Relabel(v, a).value.Keys
    ensures v.Quadrant? ==> QuadrantKey in Relabel(v, a).value
    ensures v.Quadrant? ==> Relabel(v, a).value[Slot1] == Relabel(v, a).value[QuadrantKey]
    ensures v.Quadrant? ==> Relabel(v, a).value[Slot2] == Null
    ensures !v.Disease? ==> Relabel(v, a).value[Slot3] == Null
    ensures ImageIdKey in Relabel(v, a).value <==> ImageIdKey in a
    ensures ImageIdKey in a ==> Relabel(v, a).value[ImageIdKey] == a[ImageIdKey]
  {
  }
}
