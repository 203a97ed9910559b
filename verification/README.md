# DENTEX dataset converter, modelled in Dafny

`process_dataset.py` converts the three DENTEX x-ray datasets (quadrant,
quadrant-enumeration, quadrant-enumeration-disease) into COCO layout. Each of
`process_coco_quadrant`, `process_coco_enumeration` and `process_coco_disease`
loads a manifest, normalises the annotation labels into the unified slots
`category_id1/2/3`, shuffles the image ids and takes the first `int(N * 0.8)`
as train ids, sends every image (and a copy of its x-ray file) to `train2017`
or `val2017` by that test, sends every annotation to the split of its
`image_id`, and writes both manifests with the variant's category list.

The three functions differ only in the variant, so they are modelled as one
pipeline `Converter.Convert(variant, manifest, shuffled)`. It returns either
a completed run (the copy plan plus the train and val manifests) or an
aborted run (the copies done before the `KeyError`, and the missing key).
The shuffle is a parameter: any permutation of the image ids.

Modules, one file each:

- `json.dfy` (`Json`): JSON values, annotations as `map<string, Value>`, the
  `KeyError` result type, Python's numeric `==` between a JSON value and an
  int id, and `MapAll`, the "apply to every element, stop at the first raise"
  loop shape.
- `seqs.dfy` (`Seqs`): order-preserving `Filter`, `Map` and `Positions`, with
  lemmas for membership, counting, bipartition and ordered selection.
- `numerals.dfy` (`Numerals`): `str(n)` for naturals and its inverse.
- `coco.dfy` (`Coco`): image, category and manifest records, the variants,
  and the category vocabularies.
- `labels.dfy` (`Labels`): the three per-variant label rewrites.
- `partition.dfy` (`Partition`): the train-id prefix.
- `copying.dfy` (`Copying`): the copy plan and its directories.
- `converter.dfy` (`Converter`): the pipeline, and the two loops written as
  loops (`DistributeImages`, `DistributeAnnotations`) and proved equal to the
  functional definitions.
- `properties.dfy` (`Properties`): what a run guarantees, proved once about
  the parts of a run and carried over to `Convert` through `RunParts`.

Where the behaviour is timing-sensitive the model follows the code:

- The quadrant rewrite happens inside the annotation loop, after all images
  are copied. A missing `category_id` therefore aborts with the full copy plan
  done.
- The enumeration and disease rewrites run over all annotations before the
  split. A missing `category_id_1/2/3` therefore aborts with nothing copied.
- `annotation["image_id"]` is read in the annotation loop, after the copies,
  in every variant.

`int(len * 0.8)` is modelled as `len * 4 / 5`. The double nearest 0.8 lies
slightly above 0.8, so the float product never rounds below an integer it
exceeds. Below 2^50 the rounding error stays smaller than the gap between
the fraction and the next integer, so the truncation agrees with the integer
quotient for every length below 2^50, far beyond any dataset.

## Model

| member | source | states |
|---|---|---|
| Json.IdEqualsFunctional | process_dataset.py:59 | a JSON `image_id` value equals at most one integer id, so `image_id in train_ids` is decided by that one id |
| Json.MapAll | process_dataset.py:87-96 | a loop that raises on the first bad element: succeeds iff every element succeeds, and then yields the results in order; on failure, the error is that of the first failing element, with every earlier one succeeding |
| Partition.TrainCount | process_dataset.py:35 | `int(n * 0.8)` is the `k <= n` with `5k <= 4n < 5k + 5`, i.e. `floor(4n/5)` |
| Partition.TrainIds | process_dataset.py:35 | the train ids are a prefix of the shuffled ids, of length `floor(4N/5)` |
| Partition.ValIds | process_dataset.py:35 | the ids after the train prefix complete it to the whole shuffled list |
| Partition.SplitIsBipartition | process_dataset.py:33-35 | for any permutation of the image ids, train and val ids together hold every id as often as the images do; train is a sub-multiset of `floor(4N/5)` ids; every id is in one part; with unique ids the parts are disjoint |
| Numerals.Decimal | process_dataset.py:104 | `str(n)` is a canonical digit string (no leading zero) |
| Numerals.ParseDecimalOfDecimal | process_dataset.py:104 | reading `str(n)` back as a number gives `n` |
| Coco.ImageIds | process_dataset.py:33 | `[x["id"] for x in images]`: one id per image, in order |
| Coco.EnumerationCategories | process_dataset.py:104 | exactly 32 categories; entry `i` has id `i`, a name that is the canonical numeral of `i + 1`, and supercategory equal to its name |
| Coco.EnumerationCategoriesUnique | process_dataset.py:104 | the 32 enumeration categories have pairwise distinct ids and names, running from "1" to "32" |
| Coco.DiseaseCategories | process_dataset.py:173-178 | exactly four categories: id 0 Impacted, id 1 Caries, id 2 Periapical Lesion, id 3 Deep Caries, each with supercategory equal to its name |
| Coco.DiseaseCategoriesUnique | process_dataset.py:173-178 | the disease names are exactly Impacted, Caries, Periapical Lesion and Deep Caries, with no repeated id or name |
| Coco.CategoriesFor | process_dataset.py:37-38 | the quadrant vocabulary is the source list itself; the enumeration one has 32 entries and the disease one has 4 |
| Labels.FirstMissing | process_dataset.py:88-89 | reading keys in order fails iff some key is absent, and names the first absent key |
| Labels.QuadrantLabels | process_dataset.py:59-69 | fails with `KeyError('category_id')` iff the key is absent; otherwise adds the three slots, slot 1 = `category_id`, slots 2 and 3 null, keeps `category_id`, and leaves every other key unchanged |
| Labels.EnumerationLabels | process_dataset.py:87-96 | fails on the first of `category_id_1`, `category_id_2` that is absent; otherwise slots 1 and 2 take them, slot 3 is null, both source keys are removed, and every other key is unchanged |
| Labels.DiseaseLabels | process_dataset.py:155-167 | fails on the first of `category_id_1/2/3` that is absent; otherwise slots 1..3 take them, all three source keys are removed, and every other key is unchanged |
| Labels.RelabelFailsOnFirstMissingKey | process_dataset.py:61 | every variant's rewrite succeeds iff its source keys are present, and otherwise fails on the first absent one in reading order (also lines 88-89, 157-159) |
| Labels.RelabelUnifiedSchema | process_dataset.py:61-63 | a rewritten annotation has all three slots, unused ones null rather than absent; the quadrant slot 1 repeats `category_id`; `image_id` is kept unchanged (also lines 91-93, 161-163) |
| Copying.DestinationUnderOwnSplitOnly | process_dataset.py:47-56 | a destination lies under its own split directory and not under the other one |
| Copying.CopyPlanTargets | process_dataset.py:45-56 | copy `i` reads image `i`'s own file from the variant's x-ray directory, and writes that file name into `train2017` iff the image id is a train id, into `val2017` otherwise (also lines 117-128, 188-199) |
| Copying.CopiesPerSplit | process_dataset.py:43-56 | the copies into a split directory are, one for one and in order, the copies of the images chosen for that split |
| Converter.Convert | process_dataset.py:25-74 | a completed run writes the same category list to train and val, the variant's vocabulary; train and val images together hold every input image exactly as often as the input does; there are as many annotations in train and val together as in the input; it copies one file per image |
| Converter.DistributeImages | process_dataset.py:43-56 | the image loop as written appends to train exactly the images whose id is a train id, to val the rest, in input order, with the matching copy for each |
| Converter.DistributeAnnotations | process_dataset.py:58-70 | the annotation loop as written (read `image_id`, rewrite the quadrant labels, append to the split of the id; raise on a missing key) computes the two annotation lists, or the first `KeyError` |
| Converter.ImageStep | process_dataset.py:43-56 | taking one more image appends it to train when its id is a train id and to val otherwise, and appends its copy into that split's directory to the copies |
| Converter.RouteStep | process_dataset.py:59-70 | placing one more annotation appends it to exactly the split that its `image_id` selects |
| Properties.AnnotationPasses | process_dataset.py:58-70 | the label pass and the annotation loop together succeed iff every annotation has `image_id` and its variant's source keys, and then yield every annotation relabelled, in input order (also lines 87-96, 131-135) |
| Properties.PassesSucceedIff | process_dataset.py:58-70 | the annotation passes succeed exactly when every annotation holds every key its variant reads (also lines 87-96, 155-167) |
| Properties.PassesErrorNamesMissingKey | process_dataset.py:59-61 | a failed annotation pass names a key the variant reads that some annotation lacks (also lines 88-89, 157-159) |
| Properties.RunParts | process_dataset.py:25-74 | the bridge from `Convert` to its parts, which the other run-level lemmas go through: a run completes iff the annotation passes succeed; a completed run is the image selection, the annotation split and the copy plan; an aborted run carries the passes' error |
| Properties.ConvertCompletesIff | process_dataset.py:58-70 | a run completes exactly when every annotation has `image_id` and its variant's source keys (also lines 87-96, 155-167) |
| Properties.AbortNamesMissingKey | process_dataset.py:59-61 | an aborted run reports a key the variant reads that some annotation lacks (also lines 88-89, 157-159) |
| Properties.ConvertCopyTiming | process_dataset.py:43-70 | an enumeration or disease run in which some annotation lacks a source label key aborts having copied nothing; every other run, including a quadrant run aborted inside the annotation loop, has performed the whole copy plan (also lines 87-96, 155-167) |
| Properties.ImageSelection | process_dataset.py:43-56 | each image is selected for exactly one side, train iff its id is a train id, and each side keeps the input order |
| Properties.ConvertSplitsImages | process_dataset.py:43-56 | in a completed run, train and val images together are the input images; an image is in train iff its id is a train id, and in val iff not; both keep the input order (also lines 115-128, 186-199) |
| Properties.ConvertSplitsAnnotations | process_dataset.py:58-70 | in a completed run, the train annotations are, in input order, the relabelled annotations whose `image_id` equals a train id, and val holds the rest (also lines 131-135, 201-205) |
| Properties.RelabeledRouting | process_dataset.py:58-70 | annotation `i`, relabelled, goes to train if its `image_id` equals a train id and to val otherwise |
| Properties.AnnotationFollowsImageId | process_dataset.py:58-70 | annotation `i` of a completed run, relabelled, is in the train manifest if its `image_id` equals a train id and in val otherwise (also lines 131-135, 201-205) |
| Properties.DanglingIdIsNotTrain | process_dataset.py:33-35 | every train id is an image id, so an `image_id` matching no image equals no train id |
| Properties.DanglingAnnotationGoesToVal | process_dataset.py:58-70 | an annotation whose `image_id` matches no image lands in val (also lines 131-135, 201-205) |
| Properties.RoutedAnnotationsFollowImages | process_dataset.py:43-70 | with no dangling reference, every routed annotation sits beside an image it references |
| Properties.AnnotationsFollowTheirImages | process_dataset.py:43-70 | with no dangling reference, every annotation of a completed run is in the same manifest as an image it references; unique ids are not needed (also lines 115-135, 186-205) |
| Properties.RoutedSchema | process_dataset.py:58-70 | every routed annotation has the variant's unified schema (also lines 87-96, 155-167) |
| Properties.ConvertUnifiedSchema | process_dataset.py:58-70 | every output annotation has the three slots and `image_id`; quadrant slot 1 repeats `category_id` and slot 2 is null; slot 3 is null except for disease (also lines 87-96, 155-167) |
| Properties.CopiesMatchManifests | process_dataset.py:43-56 | the copies into `train2017` are, one for one and in order, the train manifest's images, each read from the x-ray directory under its own file name; likewise for `val2017` (also lines 115-128, 186-199) |
| Properties.TrainSelectionCount | process_dataset.py:33-45 | with unique image ids, exactly `int(N * 0.8)` images pass the train-id test and the rest fail it |
| Properties.TrainImageCount | process_dataset.py:33-56 | with unique image ids, a completed run has `int(N * 0.8)` train images and the rest in val |
| Properties.RoutedCountMatchesImages | process_dataset.py:43-70 | annotations that refer to the images one for one are split exactly as the images are |
| Properties.AnnotationCountMatchesImages | process_dataset.py:43-70 | in a completed run, annotations that refer to the images one for one are split exactly as the images are |
| Properties.QuadrantTenImages | process_dataset.py:25-74 | ten images with unique ids, one annotation each with `category_id`: the run completes with 8 train images and annotations and 2 val ones, and every annotation has slot 1 = `category_id` and null slots 2 and 3 |

## Left out

- File I/O is not modelled. This covers `load_json`, `save_json`, `mkdirs`
  and JSON (de)serialisation, including key order and indentation. The model
  takes the parsed manifest and returns the two output manifests.
- `shutil.copy` is modelled only as a returned copy plan of (source,
  destination) pairs. The filesystem effect is not modelled, nor a copy
  that fails half-way.
- `random.shuffle` is replaced by a parameter: any permutation of the image
  ids.
- The float product `len * 0.8` is modelled as integer division (see above).
- In-place mutation and aliasing of the Python dicts are not modelled. This
  includes the one `categories` object shared by both manifests. The model
  produces equal values instead.
- After a `KeyError`, the source has already mutated some annotations in
  memory. Neither output manifest is written in that case, so the model does
  not model those partial edits.
- Image records always have an integer `id` and a `file_name`. A missing image
  key, which raises `KeyError` in the source, is not modelled, and neither is
  a non-integer image id.
- Category records have exactly `id`, `name` and `supercategory`. A quadrant
  source category with further fields, which the quadrant run passes through
  unchanged, is not representable.
- A manifest always has its `images`, `annotations` and `categories` lists. A
  manifest without `categories` is not modelled. The quadrant run raises
  `KeyError('categories')` on it before any copy; the enumeration and disease
  runs never read that key.
- JSON numbers are modelled as unbounded integers and exact reals. IEEE
  double rounding of float ids is not modelled.
- The unused `numpy` and `PIL` imports are not modelled. Neither is the
  `__main__` sequencing, which runs the three variants one after another
  with no shared state besides the filesystem.
- File names are treated as plain names, not path components. A `file_name`
  holding `/` or `../` would resolve outside `train2017`/`val2017` on disk;
  `Copying.DestinationUnderOwnSplitOnly` states the prefix fact about the
  destination string only.
- The output manifest paths (`annotations/instances_*2017.json`) are not
  modelled. They are constants of the file I/O left out above.
- Properties.TrainImageCount: the exact `int(N * 0.8)` train size is stated
  only for unique image ids. With repeated ids, every image whose id falls in
  the train prefix goes to train, so the count can be larger.
