# YOLOToolbox core, modelled in Dafny

YOLOToolbox is a PyQt desktop tool for YOLO object detection. It has three
tabs: annotation, training and detection. This project models the parts of
those tabs that hold logic and proves properties of them:

- **Annotation tab** (`AnnotationModule`, annotation.py), with its fields as a Dafny class:
  - the YOLO label-line codec (`cid xc yc w h` to integer pixel boxes and back) and where label files are found and saved;
  - the viewport: image↔screen mapping, fit-to-window, and zoom about the cursor;
  - the pointer gestures that pan or draw a box;
  - the box list and its modified flag;
  - the unsaved-changes guard around switching images;
  - loading the dataset list and loading the class table.
- **StreamRedirector** (utils.py): the buffer that collects printed text and hands it on line by line.
- **Training tab** (training.py):
  - the nine metric series of `data_cache`;
  - the device list, its default and the name-to-identifier mapping;
  - the checks made before a run starts.
- **Detection tab** (detection.py):
  - the playback controls of the video player thread (speed, pause, seek, fast forward, rewind);
  - the monitor fallback of screen capture;
  - choosing a model in the model combo box: the de-duplication of custom models, the file stored with each entry, and the handler running again when a failed load selects the first entry.

Files:

| file | module | contents |
|---|---|---|
| wrappers.dfy | Wrappers | `Option` |
| numeric.dfy | Numeric | Python `int()` on floats (`Trunc`), Qt's `qRound`, `max(lo, min(x, hi))` |
| text.dfy | Text | `str.split`, `str.strip`, `int(token)`, `float(token)`, `str(n)` |
| label_codec.dfy | LabelCodec | decoding and encoding label lines, the read loop's specification |
| label_paths.dfy | LabelPaths | `with_suffix`, the `images`→`labels` mirror, the scan and save choices |
| viewport.dfy | Viewport | screen mapping, zoom and fit formulas |
| class_table.dfy | ClassTable | `load_classes` from YAML names (list or dict) or a text file |
| annotation.dfy | Annotation | class `AnnotationModule` and the functions that specify its methods |
| stream.dfy | Stream | class `StreamRedirector` and its state-step functions |
| training.dfy | Training | class `TrainingModule`, metric series, device list |
| detection.dfy | Detection | classes `VideoPlayerThread` and `DetectionModule`, the monitor choice |

Modelling conventions:

- Floats are exact reals. Python's `int()` is `Numeric.Trunc`, which truncates toward zero.
- A path is the sequence of its parts, as `Path.parts` gives them.
- The file system is a parameter:
  - readable text files map to their lines;
  - existing directories form a set;
  - readable images map to their pixel sizes.
- Dialog answers are parameters:
  - the unsaved-changes question (Yes, No or Cancel);
  - the clear-all confirmation;
  - the selected class index;
  - the file chosen for a custom model.
- Torch's device queries are parameters: CUDA availability, GPU count and MPS availability.
- Each imperative method is proved against a specification function of the old state. The properties are proved about those functions as lemmas and about the class invariants.

Where the code and its design description differ, the model follows the code:

- **Label reading.** The description says malformed lines are skipped. In the code, one `try` wraps the whole read loop, so the first line that raises ends the read. A line raises when its tokens do not parse or its class id is below `-len(classes)`. The boxes read before that line are kept. Lines with fewer than five tokens are skipped. `LabelCodec.DecodeAll` and `LabelCodec.DecodeStopsAtRaise` state this.
- **Failed image read.** `load_image_data` moves the selected row and the current path before it reads the image. When the read fails, the previous image's boxes and modified flag stay, now attached to the new path. `Annotation.AnnotationModule.LoadImageData` models this as written.
- **Gesture on load.** The description says loading an image returns the mouse gesture to idle. `load_image_data` (annotation.py:392-439) drops only the rectangle in progress; the drawing, panning, start-point and last-mouse state are kept. `Annotation.AnnotationModule.LoadImageData` states that they are unchanged.
- **Deleting the last box.** The description says the row's annotated flag becomes false when its last box goes. `delete_selected_box` (annotation.py:702-711) updates only `annot_count`, so the row still shows as annotated after its only box is deleted, until the next save. This looks like a defect in the program; `Annotation.AnnotationModule.DeleteSelectedBox` follows the code and changes only the count.
- **Image-to-screen rounding.** The description says `img_to_screen` rounds to the nearest pixel and that image→screen→image returns within one pixel. The code truncates with `int()` (annotation.py:464-465), so below scale 1 the round trip can miss by more: at scale 0.3 and offset 0, x = 3 gives `int(0.9) = 0`, which maps back to 0 (`Viewport.ScreenRoundTripZoomedOut`). `Viewport.ScreenRoundTrip` proves the bound that does hold, `1 + 1/scale`, and `Viewport.ScreenRoundTripZoomedIn` the neighbouring pixel at scale 1 or more.

## Model

| member | source | states |
|---|---|---|
| Numeric.Trunc | annotation.py:462-472 | `int()` on a float moves it toward zero by less than one |
| Numeric.QRound | annotation.py:597-605 | `QPointF.toPoint()` lies within one half of the exact position |
| Numeric.ClampInt | annotation.py:583-585 | `max(lo, min(x, hi))` lies in `[lo, hi]` and is `x` inside that range |
| Numeric.ClampReal | annotation.py:551-553 | the float clamp lies in `[lo, hi]`, is `x` inside it and the nearer bound outside |
| Text.Split | annotation.py:416 | `split()` yields non-empty tokens without whitespace, and none exactly when the line is all whitespace |
| Text.Strip | annotation.py:277 | `strip()` leaves a string that is empty exactly for an all-whitespace line, and otherwise starts and ends with a non-space |
| Text.SplitUnwords | annotation.py:416 | splitting words written with single spaces gives back exactly those words, so the reader's tokenizer inverts the writer's layout (line 753) |
| Text.IntToString | annotation.py:426 | `str(cid)` is a non-empty token without whitespace |
| Text.ParseInt | annotation.py:418 | `int(token)` succeeds exactly on a sign-optional run of ASCII digits, and its sign is the token's |
| Text.ParseIntOfNat | annotation.py:418 | `int()` of the decimal digits of a natural number gives it back |
| Text.ParseIntOfNegative | annotation.py:418 | `int()` of a minus sign and the digits of `-n` gives back the negative `n` |
| Text.ParseIntOfString | annotation.py:418 | `int(str(n)) == n`: a class id written at line 753 reads back |
| Text.ParseFloat | annotation.py:419 | `float(token)` of a decimal token is non-negative unless the token starts with `-`, and then is not positive |
| Text.ParseFloatOfNat | annotation.py:419 | `float()` of the digits of a natural number is that number |
| LabelCodec.ClassName | annotation.py:426 | the name is `classes[cid]` for an id in range, `str(cid)` at or past the end, the entry from the end for a negative id; an id below `-len(classes)` raises |
| LabelCodec.DecodeLineCases | annotation.py:416-432 | a line is skipped exactly when it has fewer than five tokens; it raises exactly when its fields do not parse or its id is below `-len(classes)`; a decoded box carries the table's name for its id |
| LabelCodec.EncodeBox | annotation.py:749-753 | the written id is the box's, and centre minus and plus half the size, times the image side, are the box's two edges on each axis |
| LabelCodec.EncodeAll | annotation.py:749-753 | one field record per box, in order, each the writer's centre and size over the image size |
| LabelCodec.DecodeStep | annotation.py:414-432 | one iteration of the read loop: a raising line ends the read, any other appends its box (if any) and moves on |
| LabelCodec.CentreAndHalf | annotation.py:421-424 | the centre and size written for a span decode back to its two ends |
| LabelCodec.EncodeDecode | annotation.py:421-426 | decoding the fields written for any box gives back its id and four corners exactly, named from the table; it raises only for an id below `-len(classes)` |
| LabelCodec.EncodeDecodeNamed | annotation.py:749-753 | a box whose name is the table's name for its id survives a save and reload unchanged |
| LabelCodec.EdgesAt | annotation.py:421-424 | when centre and size put the two edges exactly on whole pixels, `int()` returns those pixels |
| LabelCodec.DecodeInsideImage | annotation.py:421-424 | fields inside the unit square decode to a box inside the image with ordered corners |
| LabelCodec.DecodeAll | annotation.py:413-433 | the read yields at most one box per line |
| LabelCodec.DecodeStopsAtRaise | annotation.py:414-433 | the first raising line ends the read; the boxes of the lines before it are kept |
| LabelCodec.DecodeAllAppend | annotation.py:414-432 | when no line of the first part raises, reading two parts is reading each in turn |
| LabelCodec.ShortLineSkipped | annotation.py:416-417 | a line with fewer than five tokens decodes to nothing and does not raise |
| LabelCodec.ShortFirstLineSkipped | annotation.py:414-417 | a file that starts with a short line reads as the file without it |
| LabelCodec.DecodeSkipsShortLine | annotation.py:414-417 | a short line anywhere after lines that do not raise is passed over without effect |
| LabelPaths.LastDot | annotation.py:264 | the position of the last dot in a name, absent exactly when there is none |
| LabelPaths.Stem | annotation.py:296 | the stem is a prefix of the name |
| LabelPaths.Suffix | annotation.py:264 | the suffix starts with its only dot, and stem plus suffix is the name |
| LabelPaths.WithTxt | annotation.py:296 | `with_suffix('.txt')` changes only the name part of the path |
| LabelPaths.LastIndex | annotation.py:301-302 | `len(parts) - 1 - parts[::-1].index('images')` is the last position of the part, absent exactly when it is missing |
| LabelPaths.MirrorPath | annotation.py:299-304 | the mirrored label path exists exactly when some part is `images`, and keeps the path's length |
| LabelPaths.ScanLabelPath | annotation.py:295-308 | the scan takes the sibling `.txt` when it exists, else the mirrored path when that file exists, else none |
| LabelPaths.SaveLabelPath | annotation.py:728-744 | a save goes to the row's recorded path, else the mirrored path when its directory exists, else the sibling `.txt` |
| LabelPaths.WithTxtIdempotent | annotation.py:296 | a name given `.txt` ends in `.txt`, and giving it again changes nothing |
| LabelPaths.MirrorPathShape | annotation.py:299-304 | the mirror rewrites only the last `images` part to `labels` and the name's suffix to `.txt` |
| LabelPaths.ScanFindsSaved | annotation.py:295-308 | saving an image that had no label file and scanning again finds the file just saved (save path at lines 728-744) |
| Viewport.ImgToScreen | annotation.py:462-466 | the screen coordinate is within one pixel of `x * scale + offset` |
| Viewport.ScreenToImg | annotation.py:468-472 | the image coordinate is within one pixel of `(s - offset) / scale` |
| Viewport.ScreenRoundTrip | annotation.py:462-472 | image→screen→image returns within `1 + 1/scale` of the start |
| Viewport.ScreenRoundTripZoomedIn | annotation.py:462-472 | at a scale of one or more the round trip gives the pixel or a neighbour |
| Viewport.ScreenRoundTripZoomedOut | annotation.py:462-472 | at scale 0.3 image pixel 3 goes to screen pixel 0 and back to image pixel 0, three pixels off |
| Viewport.ZoomRate | annotation.py:546-549 | a positive wheel angle enlarges and any other shrinks |
| Viewport.ZoomScale | annotation.py:549-553 | the new scale lies in `[0.01, 50.0]` and moves in the wheel's direction |
| Viewport.ZoomOffset | annotation.py:559-565 | the new offset is within one pixel of the exact offset that keeps the cursor's image point in place |
| Viewport.ZoomKeepsAnchor | annotation.py:555-565 | the image point under the cursor stays within one screen pixel of the cursor |
| Viewport.FitScale | annotation.py:451-453 | the fitted scale is 95% of the smaller of the two view-to-image ratios |
| Viewport.FitOffset | annotation.py:455-458 | the centring offset is within one pixel of half the free space |
| Viewport.FitView | annotation.py:443-460 | fitting does nothing for a view of zero width or height, and gives a positive scale otherwise |
| Viewport.FitViewShowsWholeImage | annotation.py:443-460 | after fitting a view of non-zero size the whole image shows, centred to a pixel on each axis, with one axis at 95% of the view |
| Viewport.ZoomView | annotation.py:541-567 | a wheel step keeps the scale in `[0.01, 50.0]` and moves it in the wheel's direction |
| Viewport.ZoomViewKeepsAnchor | annotation.py:555-565 | after a wheel step the image point that was under the cursor is within one pixel of it on both axes |
| Viewport.FitScaleFits | annotation.py:451-453 | `min(view/img) * 0.95` is positive, fits both axes and fills one axis to 95% |
| Viewport.FitShowsWholeImage | annotation.py:443-458 | the fitted scale with the centring offsets `int((view - img*scale)/2)` puts the image inside the view, centred to a pixel, one axis at 95% |
| ClassTable.SortedKeys | annotation.py:273 | `sorted(names.keys())` is strictly increasing and holds exactly the keys |
| ClassTable.ValuesInKeyOrder | annotation.py:273 | the dict's names in ascending key order |
| ClassTable.NonBlankStripped | annotation.py:277 | the non-blank lines, stripped, in order |
| ClassTable.LoadClasses | annotation.py:262-283 | the new class list: none when the file cannot be read or its YAML is missing or empty, the list or key-ordered dict of `names`, the old list when YAML has no usable `names`, the stripped non-blank lines of a text file |
| ClassTable.DenseDictIsList | annotation.py:270-273 | a dict keyed `0..n-1` gives the same table as the list of its values |
| ClassTable.TextTableRoundTrip | annotation.py:275-277 | a text file of stripped names reads back as those names |
| Annotation.ImagePointAt | annotation.py:580-585 | the screen point converted to image pixels and clamped into `[0,W]×[0,H]` |
| Annotation.Span | annotation.py:611-616 | the normalised rectangle is the smallest one holding both corners |
| Annotation.DrawnBoxFits | annotation.py:638-652 | a kept drag inside the image gives an ordered box inside the image that survives save and reload (lines 749-753) |
| Annotation.PanStep | annotation.py:600-605 | one move shifts the offset by exactly the pointer's displacement |
| Annotation.PanFollowsPointer | annotation.py:597-605 | over a whole drag the offset moves by the displacement from the press to the last position |
| Annotation.WithCount | annotation.py:650-652 | only the selected row's `annot_count` changes |
| Annotation.RemoveAt | annotation.py:705 | `del boxes[row]` removes that box and keeps the others in order |
| Annotation.LabelTypesExact | annotation.py:316-326 | a name is listed exactly when some line up to the first one that raises has it as its class name |
| Annotation.LabelBoxes | annotation.py:408-433 | the boxes read: none without a readable label file, else the decoded file |
| Annotation.ReadLabelBoxes | annotation.py:413-433 | the read loop appends exactly the boxes `DecodeAll` gives: the lines' boxes in order up to the first raising line |
| Annotation.ScanAll | annotation.py:293-335 | one row per image file, in order, each the scan of that image, with file paths for the image and its label |
| Annotation.ScanImages | annotation.py:293-335 | the loop builds exactly the rows `ScanAll` gives |
| Annotation.ScanRecord | annotation.py:292-335 | a dataset row records the path, name and found label path; it is annotated exactly when a label file was found; then its count is the number of non-blank lines and its types are `LabelTypes` of them, otherwise no count and no types |
| Annotation.AnnotationModule.constructor | annotation.py:13-37 | the tab starts in browse mode with nothing loaded, scale one and no offset |
| Annotation.AnnotationModule.ResetViewFit | annotation.py:443-460 | without an image nothing changes; with one the view becomes the fitted view |
| Annotation.AnnotationModule.OnWheel | annotation.py:541-567 | without an image nothing changes; with one the view becomes the zoomed view |
| Annotation.AnnotationModule.OnMousePress | annotation.py:569-595 | right or middle press pans in any mode; left press draws from the clamped point in draw mode and pans otherwise; nothing without an image |
| Annotation.AnnotationModule.OnMouseMove | annotation.py:597-618 | a pan shifts the offset by the pointer's displacement; a drawing stretches the rectangle to the clamped point |
| Annotation.AnnotationModule.CancelDrawing | annotation.py:662-668 | draw mode, the start point and the rectangle are cleared, nothing else changes |
| Annotation.AnnotationModule.OnMouseRelease | annotation.py:620-660 | a pan ends with the boxes untouched; a drawing ends, and a box is appended only with a class selected and more than two pixels each way, setting the modified flag and the row's count |
| Annotation.AnnotationModule.EnableDrawBox | annotation.py:690-700 | draw mode follows the button when an image is loaded and is unchanged otherwise |
| Annotation.AnnotationModule.DeleteSelectedBox | annotation.py:702-711 | an out-of-range row changes nothing; an in-range row removes exactly that box and sets the modified flag and the row's count |
| Annotation.AnnotationModule.ClearAllBoxes | annotation.py:713-723 | an empty list or a refusal changes nothing; a confirmed clear empties the list, sets the modified flag and zeroes the row's count and annotation mark |
| Annotation.AnnotationModule.SaveTarget | annotation.py:728-744 | the save path is the row's recorded label path when it has one |
| Annotation.AnnotationModule.SavedFields | annotation.py:746-753 | one encoded record per box |
| Annotation.AnnotationModule.RecordsAfterSave | annotation.py:746-760 | after a save only the selected row changes: when the directory exists it records the target and whether any box is left |
| Annotation.AnnotationModule.SaveAnnotation | annotation.py:725-763 | a save whose directory exists writes every box and clears the modified flag; the rows become `RecordsAfterSave`; a failed save changes neither the flag nor the rows |
| Annotation.AnnotationModule.CheckUnsavedChanges | annotation.py:359-374 | the switch proceeds unless the image is modified and the answer is Cancel; Yes on a modified image saves: the file `SavedFields` is written to `SaveTarget` exactly when its directory exists, the rows become `RecordsAfterSave` and the flag clears exactly then; it proceeds even when the save fails; otherwise nothing is written and nothing changes |
| Annotation.AnnotationModule.LoadImageData | annotation.py:392-441 | row and path move first; an unreadable image changes nothing more; otherwise the boxes are the label file's, the flag is cleared and the view fitted |
| Annotation.AnnotationModule.ShowImage | annotation.py:403-441 | after a successful read: the decoded boxes, no rectangle in progress, a cleared flag and the fitted view |
| Annotation.AnnotationModule.OnImageListClicked | annotation.py:376-390 | clicking the current row does nothing; Cancel on a modified image keeps everything and reselects the previous row; otherwise a Yes saves first, writing `SavedFields` to `SaveTarget` exactly when its directory exists, then the clicked row is selected and its image loaded: a readable one shows its label file's boxes, the fitted view and a cleared flag, with the drag and pan state kept; an unreadable one leaves the previous image's state |
| Annotation.AnnotationModule.LoadDataset | annotation.py:285-344 | one scanned row per image in order, no selection, no boxes, no image, a cleared flag |
| Annotation.AnnotationModule.LoadClasses | annotation.py:262-283 | the class table becomes what the load gives, or stays when the load raises |
| Stream.AfterWrite | utils.py:31-37 | a write emits at most one chunk and keeps what was emitted; it extends or empties the buffer, and a piece with a newline empties it |
| Stream.AfterFlush | utils.py:41-47 | a flush empties the buffer and emits at most one chunk |
| Stream.WriteKeepsGood | utils.py:31-37 | after a write the buffer holds at most 1000 characters, is empty when the piece held a newline, and no empty chunk is emitted |
| Stream.FlushKeepsGood | utils.py:41-47 | a flush always empties the buffer and emits exactly when the buffer was non-empty |
| Stream.WriteConserves | utils.py:31-37 | a write adds exactly the written piece to the emitted text followed by the buffer |
| Stream.FlushConserves | utils.py:41-47 | a flush loses nothing and reorders nothing |
| Stream.WriteAllConserves | utils.py:15-39 | over any run of writes the emitted chunks and the buffer are exactly the written text, in order |
| Stream.StreamRedirector.constructor | utils.py:10-13 | the buffer starts empty |
| Stream.StreamRedirector.Write | utils.py:15-39 | `write` is one step of the buffer's specification and keeps the invariant that nothing is lost |
| Stream.StreamRedirector.Flush | utils.py:41-47 | `flush` is one step of the specification and leaves the buffer empty |
| Training.AllSeriesComplete | training.py:132-139 | the nine keys of `data_cache` are all the series there are |
| Training.Column | training.py:427-436 | the series for a key holds that key's value of each update, in order |
| Training.CacheOf | training.py:132-139 | the cache has exactly the nine keys, each holding its column |
| Training.CacheGrows | training.py:427-436 | one update extends every series by that update's value |
| Training.NineAppends | training.py:427-436 | the nine per-key appends together extend every series of the cache by that key's value and add no key |
| Training.CacheAppended | training.py:427-436 | appending one update's values to the cache of the earlier updates gives the cache of all of them |
| Training.SeriesAligned | training.py:427-436 | all nine series have the length of the update count |
| Training.DeviceList | training.py:141-176 | one name per GPU, one for MPS when available, and CPU last |
| Training.DefaultDevice | training.py:141-176 | the default device is the first one offered |
| Training.DeviceMap | training.py:141-176 | the mapping sends `CPU` to `"cpu"` and, when available, `MPS` to `"mps"` |
| Training.DeviceListShape | training.py:141-176 | GPUs by index, then MPS, then CPU last; the default is offered; no name twice |
| Training.GpuMapAt | training.py:149-155 | the GPU part of the mapping maps exactly `GPU i` to `"i"` |
| Training.DeviceMapKeys | training.py:141-176 | the mapping's keys are exactly the names in the device list |
| Training.DeviceMapShape | training.py:141-176 | the mapping is keyed by exactly the offered names, with `GPU i→"i"`, `MPS→"mps"`, `CPU→"cpu"` |
| Training.ResolveDevice | training.py:386 | `device_mapping.get(name, "cpu")` is the mapped identifier of a known name and `"cpu"` otherwise |
| Training.ResolveOffered | training.py:384-386 | an offered name resolves to its identifier and any other name to `"cpu"` |
| Training.TrainingModule.constructor | training.py:119-130 | the series start empty |
| Training.TrainingModule.ResetData | training.py:132-139 | all nine series become empty |
| Training.TrainingModule.UpdateData | training.py:427-436 | each series gains exactly the update's value, so the cache stays the columns of all updates so far |
| Training.TrainingModule.DetectAvailableDevices | training.py:141-176 | returns the device list and default, and stores the device mapping |
| Training.TrainingModule.StartTraining | training.py:382-414 | a run starts exactly when the data file exists or is `coco128.yaml`, with the device resolved through the mapping; a start clears the series |
| Detection.ClampSpeed | detection.py:146-147 | the speed lies in `[0.1, 3.0]`, is kept inside it and pinned to the nearer bound outside |
| Detection.ClampSpeedIdempotent | detection.py:146-147 | setting the same speed twice is setting it once |
| Detection.SeekTarget | detection.py:158-159 | the frame lies in `[0, max(0, total-1)]`, is 0 for at most one frame, and is the requested frame when that exists |
| Detection.SeekIdempotent | detection.py:158-159 | seeking to where a seek landed stays there |
| Detection.Jump | detection.py:161-173 | a jump of non-negative seconds, rate and speed is non-negative |
| Detection.ForwardThenRewind | detection.py:161-173 | a fast forward inside the video is undone by an equal rewind; past the end it lands on the last frame |
| Detection.MonitorChoice | detection.py:49-60 | an index past the end falls back to 1, one in range is used, a negative one counts from the end, any other falls back to 0 |
| Detection.VideoPlayerThread.constructor | detection.py:130-140 | speed 1.0, not paused, frame 0 of 0 |
| Detection.VideoPlayerThread.SetSpeed | detection.py:146-147 | the speed becomes the clamped value |
| Detection.VideoPlayerThread.Pause | detection.py:149-150 | the pause flag is set |
| Detection.VideoPlayerThread.Resume | detection.py:152-153 | the pause flag is cleared |
| Detection.VideoPlayerThread.TogglePause | detection.py:155-156 | the pause flag flips, so toggling twice restores it |
| Detection.VideoPlayerThread.Seek | detection.py:158-159 | the frame becomes the clamped target |
| Detection.VideoPlayerThread.FastForward | detection.py:161-166 | the frame moves forward by `int(seconds*fps*speed)`, clamped into the video, where `fps` is the rate the capture reports when it opens and 30 when it does not |
| Detection.VideoPlayerThread.Rewind | detection.py:168-173 | the frame moves back by `int(seconds*fps*speed)`, clamped into the video, where `fps` is the rate the capture reports when it opens and 30 when it does not |
| Detection.VideoPlayerThread.OpenVideo | detection.py:186 | the frame count is recorded |
| Detection.ExistingIndex | detection.py:437-443 | the first entry past the two built-in models showing the name, absent exactly when there is none |
| Detection.CustomChoice | detection.py:436-451 | the selected entry shows the name, and the list is unchanged or has the name appended |
| Detection.CustomChoiceKeepsDistinct | detection.py:436-451 | the chosen entry shows the name; one is appended exactly when none past index 1 does; no duplicate is created past index 1 |
| Detection.AfterLoad | detection.py:475-490 | loading an entry keeps it selected with its stored file (or its text) as the model path; a failed load selects the first entry, which sets the default model's path when that changes the text |
| Detection.CustomOutcome | detection.py:428-470 | the custom branch finds or appends the entry, storing the file with a new one; selecting it first runs the handler for that entry; the model path is then the chosen file, and a failed load selects the first entry |
| Detection.CustomLoadOfOwnEntry | detection.py:428-470 | when the selected entry stores the chosen file, a load keeps it selected and a failed load selects the first entry, and in both cases the model path is the chosen file |
| Detection.DetectionModule.constructor | detection.py:301-303 | the combo holds the two built-in models and the custom entry, with no stored files |
| Detection.DetectionModule.SelectListedModel | detection.py:475-490 | the handler for a non-custom entry ends as `AfterLoad` says, re-entering through the first entry on a failed load |
| Detection.DetectionModule.SelectFirst | detection.py:466 | `setCurrentIndex(0)` selects the first entry and re-runs the handler only when the text changes, which then sets the default model's path |
| Detection.DetectionModule.SelectCustomModel | detection.py:428-470 | a cancelled dialog changes nothing; otherwise the combo, the stored files, the selection and the model path end as `CustomOutcome` says, including the handler's re-entry through `currentTextChanged` |

## Left out

- Qt widgets, painting (`on_paint_event`), cursors, status text, table refreshes and the main window are user-interface wiring and are not modelled.
- `QMessageBox` and `QFileDialog` become parameters; `select_dataset_dir` and `select_classes_file` only open dialogs.
- File I/O becomes parameters: `open`, `Path.exists`, `rglob` and `cv2.imread`. The dataset scan takes the list of image paths as input, so the suffix filter and `sorted` of `rglob` results are not modelled.
- `Annotation.AnnotationModule.SaveAnnotation`: a write fails only when the target's directory is missing. Permission and disk errors are not modelled.
- The 6-decimal formatting of written fields is not modelled: encoding is stated on exact fields. IEEE float rounding in the codec and the viewport is abstracted to exact reals.
- YAML parsing is not modelled: a class file arrives already parsed (`ClassTable.ClassFile`), and only mapping or empty documents are modelled.
- The keys of `data_cache` and of the metrics payload are the nine values of `Training.Series`; `Training.Key` gives their text, so a missing or misspelt key cannot arise.
- `load_dataset` returns at once when the directory field is empty; the model takes the list of image files the scan found, so that early return is not modelled.
- Python dicts are modelled as `map<int, string>`, so only integer keys are covered. `str(n)` of list items is taken as already done.
- `ClassTable.IsYamlName` lower-cases ASCII letters only, not all of Unicode.
- `Text.ParseFloat` models ASCII decimal tokens with an optional exponent. Underscore separators and non-ASCII decimal digits (`float('５')` is 5.0) are not accepted, so on such a field the model stops the read where the source decodes the line. `inf`/`nan` are not accepted either; `int()` raises on them anyway, so the read still stops.
- Text.ParseFloat: a token beyond the double range (`1e400`) becomes `inf` in Python and the `int()` of the edges then raises `OverflowError`, ending the read; the model parses it to an exact real and decodes a box. Overflow of the edge products is likewise not modelled, as floats are exact reals.
- Text.ParseInt: Python's `int()` also accepts underscore separators (`1_0`) and non-ASCII decimal digits (`５`); the model accepts only ASCII digits, so on such a class id it stops the read where the source decodes the line.
- `StreamRedirector.write` receives text already decoded. The utf-8, gbk and latin-1 fallback chain and the `QMutex` are not modelled.
- The thread run loops, signals, sleeps and frame pacing are concurrency and are not modelled. This covers `VideoThread.run` (except the monitor choice), `VideoPlayerThread.run` (except recording the frame count) and `TrainingThread`.
- The frame position that `VideoPlayerThread.run` reads back after each frame is not modelled.
- Torch, YOLO, mss and matplotlib calls are foreign. The device queries, the video's frame rate and whether a model loads become parameters; the charts are not modelled.
- `Detection.VideoPlayerThread.FastForward` and `Detection.VideoPlayerThread.Rewind`: whether the capture opens and the rate it reports are parameters.
- Loading a YOLO model is foreign: whether a file loads is the parameter `loadable`; the `model` object, the busy cursor, the error dialog and handing the model to a running thread are not modelled.
- Detection.DetectionModule.SelectCustomModel: a chosen file whose name is the custom entry's own text would re-open the file dialog on re-entry; the model does not run the handler for it.
