/**
 * The state of the calibration image list as a value, and what inserting
 * one image or a batch of images does to it. The class in ImageModel is
 * proved to follow these functions; the lemmas here state what the
 * functions guarantee.
 */
module ImageList {
  import opened CalibrationImages

  /** The list of images with the shared width/height baseline. */
  datatype ListState = ListState(images: seq<CalibrationImage>, width: int, height: int)

  /** Every image in `images` has the baseline size `width` x `height`. */
  predicate AllSized(images: seq<CalibrationImage>, width: int, height: int)
  {
    forall i :: 0 <= i < |images| ==> images[i].width == width && images[i].height == height
  }

  /**
   * When an image is accepted: into an empty list always (it sets the
   * baseline), otherwise only if its size equals the baseline.
   */
  predicate Accepts(s: ListState, image: CalibrationImage)
  {
    |s.images| == 0 || (image.width == s.width && image.height == s.height)
  }

  /**
   * The effect of inserting one image, following the steps of `addImpl`: an
   * empty list first takes the image's size as its baseline; an image whose
   * size differs from the baseline is dropped; otherwise it is inserted at
   * row `|images|`.
   */
  function Insert(s: ListState, image: CalibrationImage): (r: ListState)
    ensures |s.images| == 0 ==> r.width == image.width && r.height == image.height
    ensures Accepts(s, image) ==> r.images == s.images + [image] && r.images[|s.images|] == image
    ensures Accepts(s, image) && |s.images| > 0 ==> r.width == s.width && r.height == s.height
    ensures !Accepts(s, image) ==> r == s
    ensures AllSized(s.images, s.width, s.height) ==> AllSized(r.images, r.width, r.height)
  {
    var row := |s.images|;
    var w := if row < 1 then image.width else s.width;
    var h := if row < 1 then image.height else s.height;
    if image.width != w || image.height != h then
      ListState(s.images, w, h)
    else
      ListState(s.images[..row] + [image] + s.images[row..], w, h)
  }

  /** One element of a batch: only a valid image is passed on to Insert. */
  function Offer(s: ListState, image: CalibrationImage): (r: ListState)
    ensures !image.valid ==> r == s
    ensures image.valid ==> r == Insert(s, image)
  {
    if image.valid then Insert(s, image) else s
  }

  /**
   * A batch, processed image by image in the order given (the order in
   * which the per-image validity checks completed).
   */
  function AddBatch(s: ListState, batch: seq<CalibrationImage>): (r: ListState)
    decreases |batch|
  {
    if batch == [] then s
    else Offer(AddBatch(s, batch[..|batch| - 1]), batch[|batch| - 1])
  }

  /** The valid images of a batch, in batch order. */
  function ValidOnly(batch: seq<CalibrationImage>): (r: seq<CalibrationImage>)
    ensures |r| <= |batch|
    ensures forall i :: 0 <= i < |r| ==> r[i].valid && r[i] in batch
    ensures forall i :: 0 <= i < |batch| && batch[i].valid ==> batch[i] in r
    decreases |batch|
  {
    if batch == [] then []
    else
      var last := batch[|batch| - 1];
      ValidOnly(batch[..|batch| - 1]) + (if last.valid then [last] else [])
  }

  /**
   * The valid images of a batch that have size `w` x `h`, in batch order:
   * what a list with that baseline keeps of the batch.
   */
  function Fitting(batch: seq<CalibrationImage>, w: int, h: int): (r: seq<CalibrationImage>)
    ensures |r| <= |batch|
    ensures forall i :: 0 <= i < |r| ==> r[i].valid && r[i].width == w && r[i].height == h && r[i] in batch
    ensures forall i :: 0 <= i < |batch| && batch[i].valid && batch[i].width == w && batch[i].height == h ==> batch[i] in r
    decreases |batch|
  {
    if batch == [] then []
    else
      var last := batch[|batch| - 1];
      Fitting(batch[..|batch| - 1], w, h) + (if last.valid && last.width == w && last.height == h then [last] else [])
  }

  /** Every image has the same size: the uniform-size invariant holds after any batch. */
  lemma {:induction false} AddBatchKeepsSized(s: ListState, batch: seq<CalibrationImage>)
    requires AllSized(s.images, s.width, s.height)
    ensures var r := AddBatch(s, batch);
      AllSized(r.images, r.width, r.height) &&
      (|s.images| > 0 ==> r.width == s.width && r.height == s.height)
    decreases |batch|
  {
    if batch != [] {
      AddBatchKeepsSized(s, batch[..|batch| - 1]);
      AddBatchExtends(s, batch[..|batch| - 1]);
    }
  }

  /**
   * A batch only appends: the earlier entries are kept, the list grows by at
   * most the batch size, and every new entry is a valid image of the batch.
   */
  lemma {:induction false} AddBatchExtends(s: ListState, batch: seq<CalibrationImage>)
    ensures var r := AddBatch(s, batch);
      |s.images| <= |r.images| <= |s.images| + |batch| &&
      r.images[..|s.images|] == s.images &&
      forall i :: |s.images| <= i < |r.images| ==> r.images[i].valid && r.images[i] in batch
    decreases |batch|
  {
    if batch != [] {
      var init := batch[..|batch| - 1];
      var last := batch[|batch| - 1];
      AddBatchExtends(s, init);
      var m := AddBatch(s, init);
      var r := AddBatch(s, batch);
      assert r == Offer(m, last);
      assert forall x :: x in init ==> x in batch;
      if last.valid && Accepts(m, last) {
        assert r.images == m.images + [last];
        assert r.images[..|s.images|] == m.images[..|s.images|];
      }
    }
  }

  /**
   * When every valid image of the batch has one size `w` x `h` (an invalid
   * one may report any size), and the list is empty or already has that
   * baseline, nothing is rejected for its size: exactly the valid images
   * are appended, in batch order.
   */
  lemma {:induction false} AddBatchUniform(s: ListState, batch: seq<CalibrationImage>, w: int, h: int)
    requires forall i :: 0 <= i < |batch| && batch[i].valid ==> batch[i].width == w && batch[i].height == h
    requires |s.images| == 0 || (s.width == w && s.height == h)
    ensures var r := AddBatch(s, batch);
      r.images == s.images + ValidOnly(batch) &&
      |r.images| == |s.images| + |ValidOnly(batch)| &&
      (|r.images| == 0 || (r.width == w && r.height == h))
    decreases |batch|
  {
    if batch != [] {
      var init := batch[..|batch| - 1];
      var last := batch[|batch| - 1];
      assert forall i :: 0 <= i < |init| ==> init[i] == batch[i];
      AddBatchUniform(s, init, w, h);
      var m := AddBatch(s, init);
      assert AddBatch(s, batch) == Offer(m, last);
      assert ValidOnly(batch) == ValidOnly(init) + (if last.valid then [last] else []);
      if last.valid {
        assert Accepts(m, last);
        assert AddBatch(s, batch).images == m.images + [last];
      }
    }
  }

  /**
   * A list that already has a baseline keeps it through any batch, and
   * gains exactly the valid images of the batch that have the baseline
   * size, in batch order; every other image is dropped.
   */
  lemma {:induction false} AddBatchOnBaseline(s: ListState, batch: seq<CalibrationImage>)
    requires |s.images| > 0
    ensures AddBatch(s, batch) == ListState(s.images + Fitting(batch, s.width, s.height), s.width, s.height)
    decreases |batch|
  {
    if batch != [] {
      AddBatchOnBaseline(s, batch[..|batch| - 1]);
    }
  }

  /**
   * An image that failed to load (invalid, reporting 0 x 0) next to a valid
   * one does not enter the list and does not disturb the baseline.
   */
  lemma DecodeFailureSkipped(good: CalibrationImage, bad: CalibrationImage)
    requires good.valid && good.width == 640 && good.height == 480
    requires !bad.valid && bad.width == 0 && bad.height == 0
    ensures AddBatch(ListState([], 0, 0), [good, bad]) == ListState([good], 640, 480)
  {
    var empty := ListState([], 0, 0);
    assert [good, bad][..1] == [good];
    assert [good][..0] == [];
    assert AddBatch(empty, []) == empty;
    assert AddBatch(empty, [good]) == Insert(empty, good);
  }

  /** A batch that holds no valid image leaves the list as it was. */
  lemma {:induction false} AddBatchAllInvalid(s: ListState, batch: seq<CalibrationImage>)
    requires forall i :: 0 <= i < |batch| ==> !batch[i].valid
    ensures AddBatch(s, batch) == s
    decreases |batch|
  {
    if batch != [] {
      AddBatchAllInvalid(s, batch[..|batch| - 1]);
    }
  }

  /**
   * Nothing compares a new image against the entries already there, so the
   * same image (same identity) is accepted twice.
   */
  lemma SameImageTwice(image: CalibrationImage)
    requires image.valid
    ensures AddBatch(ListState([], 0, 0), [image, image]).images == [image, image]
  {
    var empty := ListState([], 0, 0);
    assert [image, image][..1] == [image];
    assert [image][..0] == [];
    assert AddBatch(empty, []) == empty;
    var once := AddBatch(empty, [image]);
    assert once == Offer(AddBatch(empty, [image][..0]), image);
    assert once == Insert(empty, image);
    assert once.images == [image];
    assert AddBatch(empty, [image, image]) == Insert(once, image);
  }
}
