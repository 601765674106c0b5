# Calibration image list model

This project models the calibration image list of the camera calibrator
(`ZCalibrationImageModel`). The list is an ordered collection of calibration
images that all share one width/height baseline:

- the first image accepted into an empty list sets the baseline;
- a later image of another size is dropped and the list is left as it was;
- an accepted image is appended at row `size()`;
- a batch passes only its valid images on to insertion;
- `imageAt` is bounds-checked and gives no image outside `[0, size)`;
- `rowCount` and `data` are the list-model queries a view uses;
- `clear` empties the list but keeps the old baseline, and the next image
  replaces that baseline because the list is then empty;
- a state change of a stored image is reported as a change of the first row
  that holds that image.

Files:

- `calibration_image.dfy` (module `CalibrationImages`) holds the image as the
  list sees it: an identity, a file name, a width, a height and a validity
  flag. It also holds the roles and the values a view can read.
- `image_list.dfy` (module `ImageList`) holds the list state as a value
  (`ListState`). `Accepts` says independently when an image is accepted.
  `Insert` follows the steps of `addImpl`. `AddBatch` follows `addImages`.
  The lemmas about batches are proved by induction.
- `calibration_image_model.dfy` (module `ImageModel`) holds the class
  `CalibrationImageModel`. Its fields are `images`, `width` and `height`.
  Its methods change them in place. Three are proved to follow a function
  of `ImageList`: `AddImpl` follows `Insert`, `AddImages` follows
  `AddBatch`, and `AddImage` follows `Offer`. `Clear` and
  `OnImageStateChanged` state their new state or result directly.
  `Valid()` is the uniform-size invariant that every method keeps.

The shared pointer to an image is modelled by the image value. Its `id`
stands for the object's address, which is what the state-change handler
compares.

## Model

| member | source | states |
|---|---|---|
| `ImageModel.CalibrationImageModel.constructor` | lib/zcameracalibrator/src/zcalibrationimagemodel.cpp:32-36 | A new model is empty with a 0 x 0 baseline, so the uniform-size invariant holds. |
| `ImageModel.CalibrationImageModel.RowCount` | lib/zcameracalibrator/src/zcalibrationimagemodel.cpp:49-55 | There are no rows under a valid parent. Otherwise the row count is the number of stored images, and it is never negative. |
| `ImageModel.CalibrationImageModel.Data` | lib/zcameracalibrator/src/zcalibrationimagemodel.cpp:57-75 | An invalid index or a row outside `[0, size)` gives no value. A value is only given for a row that `ImageAt` resolves. For such a row, the data role gives the image, the tool-tip and file-name roles give its file name, and the decoration role gives its thumbnail. Any other role gives nothing. |
| `ImageModel.CalibrationImageModel.Clear` | lib/zcameracalibrator/src/zcalibrationimagemodel.cpp:82-90 | The list becomes empty. The baseline width and height are not reset. The invariant is kept. |
| `ImageModel.CalibrationImageModel.AddImage` | lib/zcameracalibrator/src/zcalibrationimagemodel.cpp:125-139 | A single image goes through the batch path. The new state is that of offering the image: unchanged if it is invalid, otherwise the result of `Insert`. |
| `ImageModel.CalibrationImageModel.AddImages` | lib/zcameracalibrator/src/zcalibrationimagemodel.cpp:150-158 | Each image of the batch that is valid is inserted, in batch order. The earlier entries are kept as a prefix. Every new entry is a valid image from the batch, so an invalid image never enters the list. The invariant is kept. |
| `ImageModel.CalibrationImageModel.AddImpl` | lib/zcameracalibrator/src/zcalibrationimagemodel.cpp:160-189 | An image offered to an empty list sets the baseline to its size and is accepted. An image is accepted exactly when `Accepts` holds. An accepted image is appended, so the size grows by one and the earlier entries are unchanged. A rejected image leaves the list and the baseline unchanged. Every stored image keeps the baseline size. |
| `ImageModel.CalibrationImageModel.ImageAt` | lib/zcameracalibrator/src/zcalibrationimagemodel.cpp:191-199 | An image is returned exactly when `0 <= index < size`, and it is the entry at that index. Outside that range nothing is returned. Being a function, it changes no state. |
| `ImageModel.CalibrationImageModel.OnImageStateChanged` | lib/zcameracalibrator/src/zcalibrationimagemodel.cpp:201-210 | The reported row is the first row holding the sender. No row is reported exactly when no entry is the sender. The list is not modified. |
| `ImageList.Insert` | lib/zcameracalibrator/src/zcalibrationimagemodel.cpp:165-184 | Inserting into an empty list sets the baseline to the image's size. When `Accepts` holds, the image is appended at index old-size and a non-empty list keeps its baseline. When `Accepts` fails, the state is unchanged. Insertion preserves the uniform-size invariant. |
| `ImageList.Offer` | lib/zcameracalibrator/src/zcalibrationimagemodel.cpp:153-156 | An invalid image leaves the state unchanged. A valid image is passed to `Insert`. |
| `ImageList.AddBatchKeepsSized` | lib/zcameracalibrator/src/zcalibrationimagemodel.cpp:150-184 | After any batch, every stored image has the baseline size. A list that was not empty keeps its baseline. |
| `ImageList.AddBatchExtends` | lib/zcameracalibrator/src/zcalibrationimagemodel.cpp:150-158 | A batch only appends, and at most one entry per batch element. The old entries stay a prefix. Every new entry is a valid image of the batch. |
| `ImageList.AddBatchUniform` | lib/zcameracalibrator/src/zcalibrationimagemodel.cpp:150-184 | Take a batch whose valid images all have one size (an invalid image may report any size), offered to a list that is empty or already has that baseline. Then the list grows by exactly the valid images of the batch, in batch order, and ends with that baseline. |
| `ImageList.AddBatchOnBaseline` | lib/zcameracalibrator/src/zcalibrationimagemodel.cpp:150-184 | A list that already has a baseline keeps it through any batch. It gains exactly the valid batch images of the baseline size, in batch order. Every image of another size is dropped, as a single insertion drops it at lines 174-177. |
| `ImageList.DecodeFailureSkipped` | lib/zcameracalibrator/src/zcalibrationimagemodel.cpp:153-172 | An image that failed to load (invalid, 0 x 0) next to a valid 640 x 480 image does not enter an empty list. The list holds only the valid image, with a 640 x 480 baseline. |
| `ImageList.AddBatchAllInvalid` | lib/zcameracalibrator/src/zcalibrationimagemodel.cpp:153-157 | A batch with no valid image leaves the state unchanged. |
| `ImageList.SameImageTwice` | lib/zcameracalibrator/src/zcalibrationimagemodel.cpp:165-184 | Insertion never compares against the existing entries. So the same valid image offered twice to an empty list is stored twice. |

`ImageList.ValidOnly` and `ImageList.Fitting` are helpers. They are the
reference filters used by `AddBatchUniform` and `AddBatchOnBaseline`. They
keep, in batch order, all the valid images of a batch, or all the valid
images of a given size.

The collection is not unique by path or by identity: `addImpl` never looks
at the existing entries. The model follows the code, and `SameImageTwice`
shows the consequence.

## Left out

- Concurrency. The validity checks in `addImages` run through a concurrent map. Each insertion is marshalled to the owning thread, which is `addImageThreadSafe`. `addImpl` holds a mutex. `addFolder` and `addImage` wait for the future watcher. None of this is modelled. A batch is processed one image at a time in the order of its sequence, and that sequence stands for the order in which the validity checks completed. `addImageThreadSafe` is folded into the call of `AddImpl` inside `AddImages`.
- `addFolder`. It lists the `*.jpg`, `*.bmp` and `*.png` files of a folder, which is file-system I/O. Its batch is then handled by `AddImages` like any other.
- The image itself. Decoding, `isValid()`, `width()`, `height()`, `fileName()` and thumbnails are fields of the image value. The thumbnail is represented only by the image's id.
- Qt model signalling. This covers `beginInsertRows`/`endInsertRows`, `beginResetModel`/`endResetModel`, the `imageSizeChanged` and `newImagesAdded` signals, and the connection to each image's `stateChanged` signal. `dataChanged` appears only as the row that `OnImageStateChanged` returns. A size rejection appears only as `AddImpl`'s `accepted == false`. The `qWarning` and `qCritical` messages are not modelled.
- `roleNames` and the `images()` accessor. They are a fixed role table and a plain read of the `images` field.
- `QVariant` wrapping. `Data` returns an option of a role value.
- Integer width. `rowCount` and the row indices are `int` in `ZCalibrationImageModel`. The model uses unbounded integers, so a list of more than 2^31 - 1 images is not modelled.
- The other components of the calibrator are not part of this model. These are the image viewer, the calibrator widget, the multi-camera image group, the pattern finders, the calibration worker and the camera plugins. Their sources are either UI, declarations without bodies, or not included.
