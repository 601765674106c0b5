/**
 * The calibration image as the list model sees it, and the values the
 * list model hands out. Loading, decoding and thumbnails of an image are
 * not modelled: the model only reads an image's size, its validity flag
 * and its file name, so those are plain fields here.
 */
module CalibrationImages {

  /** Stands for an image pointer that `imageAt` may return as null. */
  datatype Option<T> = None | Some(value: T)

  /**
   * One calibration image. `id` stands for the object's identity (the
   * address the list compares when an image reports a state change), so
   * two entries are "the same image" exactly when their ids agree.
   */
  datatype CalibrationImage = CalibrationImage(
    id: nat,
    fileName: string,
    width: int,
    height: int,
    valid: bool)

  /** The roles a view may ask the list model about. */
  datatype Role = DataRole | ToolTipRole | FilenameRole | DecorationRole | OtherRole(code: int)

  /**
   * What the list model answers for a row and a role. `Thumbnail` names
   * the thumbnail of the image with that id; its pixels are not modelled.
   */
  datatype RoleValue = ImageHandle(image: CalibrationImage) | FileName(name: string) | Thumbnail(imageId: nat)
}
