/**
 * The calibration image list model: an ordered list of images that all
 * share one width/height baseline, with the list-model queries a view uses
 * and the row notification for an image whose state changed.
 */
module ImageModel {
  import opened CalibrationImages
  import opened ImageList

  class CalibrationImageModel {
    var images: seq<CalibrationImage>
    var width: int
    var height: int

    /** Object invariant: every stored image has the baseline size. */
    ghost predicate Valid()
      reads this
    {
      AllSized(images, width, height)
    }

    /** The abstract state, as the functions of ImageList see it. */
    function State(): (r: ListState)
      reads this
    {
      ListState(images, width, height)
    }

    /** A new model is empty, with a 0 x 0 baseline. */
    constructor ()
      ensures Valid()
      ensures images == [] && width == 0 && height == 0
    {
      images := [];
      width := 0;
      height := 0;
    }

    /** The number of rows: none under a valid parent (a flat list), else the list size. */
    function RowCount(parentValid: bool): (n: int)
      reads this
      ensures parentValid ==> n == 0
      ensures !parentValid ==> n == |images|
      ensures n >= 0
    {
      if parentValid then 0 else |images|
    }

    /** The image at `index`, or none (an error report) outside [0, size). */
    function ImageAt(index: int): (r: Option<CalibrationImage>)
      reads this
      ensures r.Some? <==> 0 <= index < |images|
      ensures r.Some? ==> r.value == images[index] && r.value in images
    {
      if 0 <= index < |images| then Some(images[index]) else None
    }

    /**
     * What a view reads for a row and role: nothing for an invalid index or
     * a row outside [0, size), otherwise the projection of `ImageAt(row)`
     * that the role names, and nothing for a role the model does not serve.
     */
    function Data(indexValid: bool, row: int, role: Role): (r: Option<RoleValue>)
      reads this
      ensures !indexValid || row < 0 || row >= |images| ==> r == None
      ensures r.Some? ==> ImageAt(row).Some?
      ensures indexValid && ImageAt(row).Some? ==>
        match role
        case DataRole => r == Some(ImageHandle(ImageAt(row).value))
        case ToolTipRole => r == Some(FileName(ImageAt(row).value.fileName))
        case FilenameRole => r == Some(FileName(ImageAt(row).value.fileName))
        case DecorationRole => r == Some(Thumbnail(ImageAt(row).value.id))
        case OtherRole(_) => r == None
    {
      if !indexValid || row < 0 || row >= |images| then None
      else
        match ImageAt(row)
        case None => None
        case Some(image) =>
          match role
          case DataRole => Some(ImageHandle(image))
          case ToolTipRole => Some(FileName(image.fileName))
          case FilenameRole => Some(FileName(image.fileName))
          case DecorationRole => Some(Thumbnail(image.id))
          case OtherRole(_) => None
    }

    /** Empties the list; the baseline is kept until the next image replaces it. */
    method Clear()
      requires Valid()
      modifies this
      ensures Valid()
      ensures images == [] && width == old(width) && height == old(height)
    {
      images := [];
    }

    /**
     * Inserts one image. `accepted` is false exactly when the image was
     * dropped with a size-mismatch warning.
     */
    method AddImpl(image: CalibrationImage) returns (accepted: bool)
      requires Valid()
      modifies this
      ensures Valid()
      ensures State() == Insert(old(State()), image)
      ensures accepted == Accepts(old(State()), image)
      ensures old(|images|) == 0 ==> accepted && width == image.width && height == image.height
      ensures accepted ==> images == old(images) + [image]
      ensures !accepted ==> images == old(images) && width == old(width) && height == old(height)
    {
      var row := |images|;
      if row < 1 {
        width := image.width;
        height := image.height;
      }
      if image.width != width || image.height != height {
        return false;
      }
      images := images[..row] + [image] + images[row..];
      accepted := true;
    }

    /**
     * Inserts a batch: each valid image is passed to AddImpl, in the order
     * the batch lists them; invalid images are skipped.
     */
    method AddImages(batch: seq<CalibrationImage>)
      requires Valid()
      modifies this
      ensures Valid()
      ensures State() == AddBatch(old(State()), batch)
      ensures old(|images|) <= |images| && images[..old(|images|)] == old(images)
      ensures forall i :: old(|images|) <= i < |images| ==> images[i].valid && images[i] in batch
    {
      ghost var start := State();
      for k := 0 to |batch|
        invariant Valid()
        invariant State() == AddBatch(start, batch[..k])
      {
        assert batch[..k + 1][..k] == batch[..k];
        if batch[k].valid {
          var _ := AddImpl(batch[k]);
        }
      }
      assert batch[..|batch|] == batch;
      AddBatchExtends(start, batch);
    }

    /** Inserts a single image through the batch path. */
    method AddImage(image: CalibrationImage)
      requires Valid()
      modifies this
      ensures Valid()
      ensures State() == Offer(old(State()), image)
    {
      AddImages([image]);
      assert [image][..0] == [];
    }

    /**
     * The row to report as changed when the image `senderId` changes state:
     * the first row holding that image, or none when it is not in the list.
     */
    method OnImageStateChanged(senderId: nat) returns (row: Option<nat>)
      ensures row.Some? ==>
        row.value < |images| && images[row.value].id == senderId &&
        forall j :: 0 <= j < row.value ==> images[j].id != senderId
      ensures row.None? <==> forall j :: 0 <= j < |images| ==> images[j].id != senderId
    {
      var i := 0;
      while i < |images|
        invariant 0 <= i <= |images|
        invariant forall j :: 0 <= j < i ==> images[j].id != senderId
      {
        if images[i].id == senderId {
          return Some(i);
        }
        i := i + 1;
      }
      return None;
    }
  }
}
