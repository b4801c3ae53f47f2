# Prediction results of super-gradients, modelled in Dafny

This project models the result wrappers that super-gradients returns from `model.predict(...)`.
They live in `src/super_gradients/training/utils/predict/prediction_results.py`. A wrapper holds an
image, or a list of images, or the frames of a video, together with the model's output and its
class names. The model covers what these wrappers decide for themselves:

- which classes a detection `draw` shows, and the error raised for unknown class names;
- the order in which predicted and ground-truth boxes are drawn;
- when the side-by-side "Predictions" / "Ground Truth" canvas is built, and its size;
- how segmentation resolves its class list, including the `"background"` rule;
- how `_check_target_args` validates the ground-truth arguments of a batch;
- how the batch and video wrappers fan out to the per-image calls, including `pred_{i}.jpg` naming.

The modules are:

- `Wrappers` (`wrappers.dfy`): `Option` and `Result`.
- `Canvas` (`canvas.dfy`): the drawing and media collaborators, reduced to what the wrappers rely on.
  - An image is a value: its height, width and channels, the picture it started from (a photo, a white canvas, or two images side by side), and the marks drawn on it in drawing order.
  - `draw_bbox`, `draw_label`, `overlay_segmentation`, `cv2.putText` and the slice paste each append one mark. `cv2.hconcat` builds a side-by-side image.
- `Effects` (`effects.dfy`): the side effects and the errors of the wrappers.
  - `show_image`, `save_image`, `show_video_from_frames`, `save_video` and `os.makedirs` are recorded as `Effect` values.
  - `Error` lists the errors the wrappers raise.
  - `FanOut` describes a loop of per-element calls that stops at the first raised error. `RunCalls` and `RunAll` are that loop.
- `Ordering` (`ordering.dfy`): `np.argsort` over confidences, as a sort proved sorted and a permutation.
- `Detection` (`detection.dfy`): `ImageDetectionPrediction`. `Draw` is a method with the two drawing loops of the source, proved equal to the specification function `Rendering`. The properties are lemmas about `Rendering`.
- `Classification` (`classification.dfy`) and `Segmentation` (`segmentation.dfy`): the single-image wrappers.
- `Collections` (`collections.dfy`): the batch wrappers and `_check_target_args`.
- `Videos` (`videos.dfy`): the video wrappers.

The wrappers are dataclasses whose fields are never reassigned, so they are Dafny datatypes. `draw`
works on a copy of `self.image`. Because images are values, the wrapper's own image is unchanged by
construction. The lemmas state how the returned image relates to it.

Where the docstrings and the code disagree, the model follows the code:

- The docstrings of detection `draw`, `show` and `save` say that a box format given without boxes raises an error. The per-image code raises nothing in that case; only the batch validator `_check_target_args` rejects it.
- `ImageClassificationPrediction.draw` documents `show_confidence` but ignores it.
- `ImagesDetectionPrediction.save` documents ground-truth arguments. It validates them and then does not pass them on.

## Model

| member | source | states |
|---|---|---|
| Canvas.Trunc | src/super_gradients/training/utils/predict/prediction_results.py:176-183 | `int()` of a float truncates toward zero: the result is within one of the input, on the side of zero |
| Canvas.RequestedClassNames | src/super_gradients/training/utils/predict/prediction_results.py:145 | a non-empty request is used as given; a missing or empty one means the whole vocabulary |
| Canvas.GenerateColorMapping | src/super_gradients/training/utils/predict/prediction_results.py:168 | the default palette for n classes has exactly n colours, colour i being palette entry i |
| Canvas.ResolveColors | src/super_gradients/training/utils/predict/prediction_results.py:168 | a non-empty caller mapping is used as given; a missing or empty one is replaced by a palette of exactly n colours; a mapping that covers the classes yields at least n colours |
| Canvas.CanvasHeight | src/super_gradients/training/utils/predict/prediction_results.py:203 | the enlarged height is `int(h + h / 8)` with true division: the largest integer not above 9h/8 |
| Canvas.CanvasWidth | src/super_gradients/training/utils/predict/prediction_results.py:203 | the enlarged width is `int(w + w / 20)` with true division: the largest integer not above 21w/20 |
| Canvas.PasteFitsExactly | src/super_gradients/training/utils/predict/prediction_results.py:203-213 | the paste at offset (60, 10) fits into the canvas enlarged by h/8 and w/20 exactly when the image is at least 480 high and 200 wide |
| Effects.OkPrefix | src/super_gradients/training/utils/predict/prediction_results.py:432-434 | the number of per-element calls that succeed before the first one that raises: all before it succeed, the one at it raises |
| Effects.OkPrefixIsFirstError | src/super_gradients/training/utils/predict/prediction_results.py:432-434 | any position preceded only by successes and holding an error (or the end) is the first failure |
| Effects.Values | src/super_gradients/training/utils/predict/prediction_results.py:432-434 | the values of successful calls, one per call, in order |
| Effects.ValuesStep | src/super_gradients/training/utils/predict/prediction_results.py:432-434 | one more successful call adds its value at the end |
| Effects.FanOutEffect | src/super_gradients/training/utils/predict/prediction_results.py:432-434 | each effect a fan-out made after `before` is the value of the element call at the same position, and that call succeeded |
| Effects.FanOut | src/super_gradients/training/utils/predict/prediction_results.py:420-434 | a fan-out makes the calls before it, then one call per element in order up to the first that raises; it ends without failure exactly when every element call succeeds, else with that first error |
| Effects.RunCalls | src/super_gradients/training/utils/predict/prediction_results.py:432-434 | the loop over the element calls makes exactly the calls and raises exactly the error `FanOut` describes |
| Effects.RunAll | src/super_gradients/training/utils/predict/prediction_results.py:665-667 | the loop over element calls that cannot raise makes all of them, in order, after `before` |
| Effects.MakeDirsIf | src/super_gradients/training/utils/predict/prediction_results.py:429-430 | exactly one `makedirs` of the folder when its name is non-empty, nothing when it is empty |
| Ordering.Insert | src/super_gradients/training/utils/predict/prediction_results.py:170 | inserting a position into a list of positions gives one more valid position, the new one or the old first one in front |
| Ordering.InsertAdds | src/super_gradients/training/utils/predict/prediction_results.py:170 | inserting a position adds exactly that position to the multiset of positions |
| Ordering.InsertSorted | src/super_gradients/training/utils/predict/prediction_results.py:170 | insertion keeps an order sorted by confidence |
| Ordering.SortPrefix | src/super_gradients/training/utils/predict/prediction_results.py:170 | sorting the first n positions yields n valid positions |
| Ordering.SortPrefixSorted | src/super_gradients/training/utils/predict/prediction_results.py:170 | the first n positions come out sorted by non-decreasing confidence |
| Ordering.SortPrefixPermutes | src/super_gradients/training/utils/predict/prediction_results.py:170 | the first n positions come out each exactly once |
| Ordering.InsertPermutes | src/super_gradients/training/utils/predict/prediction_results.py:170 | inserting position n into a list of the positions 0 .. n-1 lists the positions 0 .. n, each once |
| Ordering.ArgSort | src/super_gradients/training/utils/predict/prediction_results.py:170 | `np.argsort` returns one valid position per confidence |
| Ordering.ArgSortSorts | src/super_gradients/training/utils/predict/prediction_results.py:170 | `np.argsort` lists every position exactly once, in non-decreasing confidence |
| Detection.ClassIdsToShow | src/super_gradients/training/utils/predict/prediction_results.py:145-153 | raises exactly when a requested name is not in the vocabulary, listing exactly those names; otherwise the shown ids are exactly the vocabulary indices whose name is requested (an empty or missing request means the whole vocabulary) |
| Detection.ShownIdsNameTheRequest | src/super_gradients/training/utils/predict/prediction_results.py:145-146 | after validation the names of the shown ids are exactly the requested names |
| Detection.DefaultShowsWholeVocabulary | src/super_gradients/training/utils/predict/prediction_results.py:145-146 | with no request, every vocabulary index is shown |
| Detection.ShownOnly | src/super_gradients/training/utils/predict/prediction_results.py:170-172 | the filtered drawing order holds only entries whose label is shown |
| Detection.ShownOnlyFrom | src/super_gradients/training/utils/predict/prediction_results.py:170-172 | the filtered order draws only entries of the original order |
| Detection.ShownOnlyCounts | src/super_gradients/training/utils/predict/prediction_results.py:170-172 | an entry of a shown class is kept as often as it occurs; every other entry is dropped |
| Detection.CountsStep | src/super_gradients/training/utils/predict/prediction_results.py:170-172 | one more entry of the order keeps the counts of the filtered order |
| Detection.ShownOnlyKeepsOrder | src/super_gradients/training/utils/predict/prediction_results.py:170-172 | filtering keeps the confidence order |
| Detection.ShownOnlyStep | src/super_gradients/training/utils/predict/prediction_results.py:170-172 | one more entry of the order extends the filtered order by that entry exactly when its class is shown |
| Detection.ShownRows | src/super_gradients/training/utils/predict/prediction_results.py:188-190 | `range(t)` filtered by class: every kept row is below t and has a shown class id |
| Detection.ShownRowsIncrease | src/super_gradients/training/utils/predict/prediction_results.py:188-190 | kept rows are below the row count and strictly increasing, so each row is drawn at most once, in row order |
| Detection.ShownRowsMembership | src/super_gradients/training/utils/predict/prediction_results.py:188-190 | a row is kept exactly when its class id is shown |
| Detection.Panel | src/super_gradients/training/utils/predict/prediction_results.py:205-216 | one half of the composite: a white canvas of the enlarged size, the picture pasted at (60, 10), the caption at (w/4, 30) |
| Detection.SideBySide | src/super_gradients/training/utils/predict/prediction_results.py:202-218 | the composite is h + h/8 high and 2 (w + w/20) wide with the image's channels; each half is a white canvas of equal size with the picture pasted at (60, 10) and captioned "Predictions" or "Ground Truth" at (w/4, 30) |
| Detection.ImageDetectionPrediction.ConvertTargets | src/super_gradients/training/utils/predict/prediction_results.py:156-165 | converted boxes are non-empty only if boxes were given; a rejected format name is the only error |
| Detection.ImageDetectionPrediction.PredictionMarks | src/super_gradients/training/utils/predict/prediction_results.py:170-184 | one box per drawn prediction, in drawing order, titled with the class name and, when asked for, the confidence |
| Detection.ImageDetectionPrediction.PredictionMarksAppend | src/super_gradients/training/utils/predict/prediction_results.py:173-184 | drawing one more prediction appends its box |
| Detection.ImageDetectionPrediction.TargetMarks | src/super_gradients/training/utils/predict/prediction_results.py:188-200 | one box per drawn ground-truth row, in row order, titled with the class name only |
| Detection.ImageDetectionPrediction.TargetMarksAppend | src/super_gradients/training/utils/predict/prediction_results.py:189-200 | drawing one more ground-truth row appends its box |
| Detection.ImageDetectionPrediction.Rendering | src/super_gradients/training/utils/predict/prediction_results.py:140-219 | `draw` raises only the unknown-class-name, unknown-format or missing-class-id error; any image it returns has the image's channels (its shape and contents are stated by the `Rendering*` lemmas below) |
| Detection.ImageDetectionPrediction.DrawnPredictionsByConfidence | src/super_gradients/training/utils/predict/prediction_results.py:170-184 | predictions are drawn in non-decreasing confidence; each prediction of a shown class is drawn exactly once and no other |
| Detection.ImageDetectionPrediction.DrawnTargetsInRowOrder | src/super_gradients/training/utils/predict/prediction_results.py:188-200 | ground-truth rows are drawn in increasing row order, exactly the rows of shown classes |
| Detection.ImageDetectionPrediction.RenderingRejectsUnknownClassNames | src/super_gradients/training/utils/predict/prediction_results.py:145-153 | `draw` raises the unknown-class-name error exactly when a requested name is unknown, before the targets are looked at |
| Detection.ImageDetectionPrediction.RenderingWithoutTargets | src/super_gradients/training/utils/predict/prediction_results.py:140-186 | without ground-truth boxes `draw` succeeds on a copy of the image of the same shape and picture: its marks are the image's own followed by `PredictionMarks` of the drawn predictions: the box of each shown prediction, in non-decreasing confidence order |
| Detection.ImageDetectionPrediction.RenderingWithTargets | src/super_gradients/training/utils/predict/prediction_results.py:186-219 | with ground-truth boxes, `draw` raises at the first row without a class id; otherwise it returns the composite h + h/8 by 2 (w + w/20), the drawn predictions pasted at (60, 10) on the left and the image with the boxes of the shown ground-truth rows, in row order and titled by name only, pasted at (60, 10) on the right, each with its caption |
| Detection.ImageDetectionPrediction.RenderingRejectsUnknownFormat | src/super_gradients/training/utils/predict/prediction_results.py:156-163 | a box format the converter rejects is reported once the class names are valid |
| Detection.ImageDetectionPrediction.RenderingWithoutTargetsIgnoresConverter | src/super_gradients/training/utils/predict/prediction_results.py:156-165 | without ground truth the box converter plays no part in the result |
| Detection.ImageDetectionPrediction.Draw | src/super_gradients/training/utils/predict/prediction_results.py:140-219 | the method with the two drawing loops returns exactly `Rendering`, the image or error described by the lemmas above |
| Detection.ImageDetectionPrediction.DrawPredictions | src/super_gradients/training/utils/predict/prediction_results.py:170-184 | the loop over `np.argsort(confidence)` yields the image with exactly the shown predictions drawn in argsort order |
| Detection.ImageDetectionPrediction.DrawInOrder | src/super_gradients/training/utils/predict/prediction_results.py:170-184 | the drawing loop adds one box per entry of the given order whose class is shown, in that order, and touches nothing else of the image |
| Detection.ImageDetectionPrediction.DrawTargets | src/super_gradients/training/utils/predict/prediction_results.py:186-200 | the loop over the ground-truth rows raises at the first row without a class id, else yields the copy with exactly the shown rows drawn in row order |
| Detection.ImageDetectionPrediction.Show | src/super_gradients/training/utils/predict/prediction_results.py:221-258 | displays the drawn image, or raises what `draw` raises |
| Detection.ImageDetectionPrediction.Save | src/super_gradients/training/utils/predict/prediction_results.py:260-298 | writes the drawn image to the given path, or raises what `draw` raises |
| Classification.PyIndex | src/super_gradients/training/utils/predict/prediction_results.py:73 | Python list indexing succeeds exactly for indices from -len to len-1 |
| Classification.ImageClassificationPrediction.Draw | src/super_gradients/training/utils/predict/prediction_results.py:65-73 | succeeds exactly when the label indexes the class names; it then draws one label on a copy of the image with the image's shape and picture; otherwise it raises the index error |
| Classification.ImageClassificationPrediction.DrawWritesClassName | src/super_gradients/training/utils/predict/prediction_results.py:73 | the drawn label is the class name at the predicted index, counted from the end when negative, with the confidence |
| Classification.ImageClassificationPrediction.DrawIgnoresShowConfidence | src/super_gradients/training/utils/predict/prediction_results.py:65-73 | the image drawn is the same whether or not the confidence is asked for |
| Classification.ImageClassificationPrediction.Show | src/super_gradients/training/utils/predict/prediction_results.py:75-82 | displays exactly the drawn image, and raises exactly when `draw` does |
| Classification.ImageClassificationPrediction.Save | src/super_gradients/training/utils/predict/prediction_results.py:84-95 | writes exactly the drawn image to the path, and raises exactly when `draw` does |
| Segmentation.ResolveClassNames | src/super_gradients/training/utils/predict/prediction_results.py:324-326 | the resolved list never has exactly one name; it ends with the request (or the vocabulary when the request is empty or missing), and a single name gets `"background"` in front |
| Segmentation.SingleClassGetsBackground | src/super_gradients/training/utils/predict/prediction_results.py:324-326 | a one-class model is drawn with the classes `["background", name]` |
| Segmentation.ImageSegmentationPrediction.Draw | src/super_gradients/training/utils/predict/prediction_results.py:314-331 | one overlay on a copy of the image; its class count equals the length of the resolved class list; a generated palette has exactly that many colours |
| Segmentation.ImageSegmentationPrediction.OwnClassNamesAreTheDefault | src/super_gradients/training/utils/predict/prediction_results.py:323-341 | passing the model's own class names draws the same as passing none |
| Segmentation.ImageSegmentationPrediction.Show | src/super_gradients/training/utils/predict/prediction_results.py:333-341 | displays the image drawn with the model's own class names |
| Segmentation.ImageSegmentationPrediction.Save | src/super_gradients/training/utils/predict/prediction_results.py:343-352 | writes the image drawn with the model's own class names to the path |
| Collections.NatToString | src/super_gradients/training/utils/predict/prediction_results.py:433 | the decimal form of a number has at least one digit, and at least two from 10 up |
| Collections.NatToStringInjective | src/super_gradients/training/utils/predict/prediction_results.py:433 | different numbers have different decimal forms |
| Collections.PredFileNamesDistinct | src/super_gradients/training/utils/predict/prediction_results.py:433 | `pred_{i}.jpg` names differ for different positions, so no saved image overwrites another |
| Collections.PredFileName | src/super_gradients/training/utils/predict/prediction_results.py:433 | the file name is `pred_`, then the decimal index, then `.jpg` |
| Collections.ImagesClassificationPrediction.ShowCalls | src/super_gradients/training/utils/predict/prediction_results.py:420-421 | one `show` per image |
| Collections.ImagesClassificationPrediction.SaveCalls | src/super_gradients/training/utils/predict/prediction_results.py:432-434 | one `save` per image |
| Collections.ImagesClassificationPrediction.Show | src/super_gradients/training/utils/predict/prediction_results.py:416-421 | calls each image's `show` in list order until one raises |
| Collections.ImagesClassificationPrediction.Save | src/super_gradients/training/utils/predict/prediction_results.py:423-434 | creates the folder when it is named, then calls each image's `save` to `pred_{i}.jpg` in list order until one raises |
| Collections.ImagesClassificationPrediction.SaveWritesPositionalFiles | src/super_gradients/training/utils/predict/prediction_results.py:432-434 | the i-th write after the folder creation goes to `pred_{i}.jpg` and holds image i as drawn by its own `draw` |
| Collections.TargetArg.AsList | src/super_gradients/training/utils/predict/prediction_results.py:498-501 | a bare array is wrapped into a list of one; a list is kept |
| Collections.ImagesDetectionPrediction.CheckTargetArgs | src/super_gradients/training/utils/predict/prediction_results.py:486-514 | raises unless all three arguments are given or none; checks the box and class-id list lengths first, then that count against the number of images; on success one entry per image: `None` placeholders when nothing was given, else the given arrays in order |
| Collections.ImagesDetectionPrediction.BareArraysFitOneImage | src/super_gradients/training/utils/predict/prediction_results.py:498-509 | bare arrays for boxes and class ids are accepted exactly for a batch of one image |
| Collections.ImagesDetectionPrediction.ShowCalls | src/super_gradients/training/utils/predict/prediction_results.py:473-484 | one `show` call per image |
| Collections.ImagesDetectionPrediction.ShowOutcome | src/super_gradients/training/utils/predict/prediction_results.py:473-484 | rejected ground truth raises before any image is shown; at most one display per image; no error means validation passed and every image was shown |
| Collections.ImagesDetectionPrediction.Show | src/super_gradients/training/utils/predict/prediction_results.py:446-484 | validates the ground truth first: nothing is shown when it is invalid; otherwise each image is shown with its own share of it, in list order, until one raises |
| Collections.ImagesDetectionPrediction.SaveCalls | src/super_gradients/training/utils/predict/prediction_results.py:550-558 | one `save` call per image |
| Collections.ImagesDetectionPrediction.SaveOutcome | src/super_gradients/training/utils/predict/prediction_results.py:545-558 | the folder is created first, even when the ground truth is then rejected, and rejection leaves only that; at most one write per image; no error means every image was written |
| Collections.ImagesDetectionPrediction.Save | src/super_gradients/training/utils/predict/prediction_results.py:516-558 | creates the folder, then validates the ground truth, then saves each image in list order until one raises |
| Collections.ImagesDetectionPrediction.SaveDropsTargets | src/super_gradients/training/utils/predict/prediction_results.py:548-558 | any two valid sets of ground-truth arguments, including none at all, give the same saves |
| Collections.ImagesDetectionPrediction.SaveRejectsInvalidTargets | src/super_gradients/training/utils/predict/prediction_results.py:545-548 | invalid ground truth stops `save` after the folder is created and before any image is written |
| Collections.ImagesDetectionPrediction.SaveWritesPositionalFiles | src/super_gradients/training/utils/predict/prediction_results.py:550-558 | the i-th write after the folder creation goes to `pred_{i}.jpg` and holds image i as drawn without ground truth |
| Collections.ImagesSegmentationPrediction.ShowCalls | src/super_gradients/training/utils/predict/prediction_results.py:652-653 | one `show` per image |
| Collections.ImagesSegmentationPrediction.SaveCalls | src/super_gradients/training/utils/predict/prediction_results.py:665-667 | one `save` per image |
| Collections.ImagesSegmentationPrediction.Show | src/super_gradients/training/utils/predict/prediction_results.py:646-653 | calls each image's `show` with the default transparency, in list order |
| Collections.ImagesSegmentationPrediction.Save | src/super_gradients/training/utils/predict/prediction_results.py:655-667 | creates the folder when it is named, then calls each image's `save` to `pred_{i}.jpg`, in list order |
| Collections.ImagesSegmentationPrediction.SaveWritesPositionalFiles | src/super_gradients/training/utils/predict/prediction_results.py:665-667 | no two images are written to the same path |
| Videos.VideoDetectionPrediction.DrawnFrames | src/super_gradients/training/utils/predict/prediction_results.py:590-596 | one drawn frame per source frame |
| Videos.VideoDetectionPrediction.Draw | src/super_gradients/training/utils/predict/prediction_results.py:573-596 | yields exactly one result per source frame, in order: frame i's own `draw` without ground truth |
| Videos.VideoDetectionPrediction.PlayedFrames | src/super_gradients/training/utils/predict/prediction_results.py:598-614 | the frames handed to the player are the drawn frames before the first that raises, in order |
| Videos.VideoDetectionPrediction.FirstFailure | src/super_gradients/training/utils/predict/prediction_results.py:598-614 | there is no failure exactly when every frame draws |
| Videos.VideoDetectionPrediction.Show | src/super_gradients/training/utils/predict/prediction_results.py:598-614 | plays the drawn frames in the "Detection" window at the video's frame rate, and raises the first frame's error |
| Videos.VideoDetectionPrediction.Save | src/super_gradients/training/utils/predict/prediction_results.py:616-634 | writes the drawn frames to the path at the video's frame rate, and raises the first frame's error |
| Videos.VideoDetectionPrediction.AllFramesPlayed | src/super_gradients/training/utils/predict/prediction_results.py:590-614 | when every frame draws, every frame is played, each in its source position |
| Videos.VideoSegmentationPrediction.Draw | src/super_gradients/training/utils/predict/prediction_results.py:681-691 | exactly one drawn frame per source frame, in order |
| Videos.VideoSegmentationPrediction.Show | src/super_gradients/training/utils/predict/prediction_results.py:693-702 | plays one drawn frame per source frame in the "Segmentation" window at the video's frame rate |
| Videos.VideoSegmentationPrediction.Save | src/super_gradients/training/utils/predict/prediction_results.py:704-716 | writes one drawn frame per source frame to the path at the video's frame rate |
| Videos.VideoSegmentationPrediction.DrawKeepsFrames | src/super_gradients/training/utils/predict/prediction_results.py:690 | each drawn frame keeps the shape and picture of its source frame |

## Left out

- Pixels are not modelled. `draw_bbox`, `draw_label`, `overlay_segmentation`, `cv2.putText`, `cv2.hconcat` and the slice copy are symbolic marks. Fonts, blending with `alpha`, line thickness and pixel contents are foreign library code.
- Titles are not formatted. A prediction title is the class name and, when asked for, the confidence. The `round(..., 2)` and the string formatting of the score are floating-point presentation.
- Colours are symbolic. `generate_color_mapping` is not part of this model beyond returning one palette entry per class.
- Box-format conversion is a parameter. `convert_bboxes` and `BBoxFormatFactory` are not part of this model. The converter returns `None` when it rejects the format name. That it keeps the number of rows is a hypothesis of `Detection.ImageDetectionPrediction.RenderingWithTargets`.
- I/O is recorded, not performed. `show_image`, `save_image`, `show_video_from_frames`, `save_video` and `os.makedirs` become `Effect` values. `os.path.join` is kept as a pair of folder and file name.
- `SegmentationPrediction` and the other prediction classes come from `predictions.py`, which is not part of this model. Only the fields the wrappers read are kept.
- The `tqdm` progress bar is left out. `n_frames` is kept as a field but only feeds the progress bar.
- The video generator is single-pass and lazy. `VideoDetectionPrediction.draw` is modelled as the finite sequence of per-frame results. The player or writer receives the frames drawn before the first one that raises.
- The ABC and dataclass mechanics are left out: `__len__`, `__getitem__`, `__iter__`, and the repeated field declarations of `VideoSegmentationPrediction`.
- Ordering.ArgSort: ties are broken by position, and nothing is proved about ties. `np.argsort` uses an unstable sort by default, so the order among equal confidences is unspecified.
- Detection.ImageDetectionPrediction.Draw: requires a caller-supplied colour mapping to cover every class of the vocabulary. A shorter mapping makes the source raise `IndexError` only for a class that is actually drawn.
- Detection.ImageDetectionPrediction.Draw: when ground-truth boxes are given, requires the image to be at least 480 high and 200 wide (`Canvas.PasteFitsExactly`). For smaller images the slice assignment at (60, 10) is governed by numpy's clipping and broadcasting rules, which are not modelled.
- Detection.ImageDetectionPrediction.Draw: requires the three prediction arrays to be parallel. Labels and ground-truth class ids are integers already; `int()` of a float label is not modelled.
- Detection.ImageDetectionPrediction.Rendering: has the same requirements as `Detection.ImageDetectionPrediction.Draw` (colour mapping, image size, parallel arrays).
- Detection.ImageDetectionPrediction.Show: has the same requirements as `Detection.ImageDetectionPrediction.Draw`.
- Detection.ImageDetectionPrediction.Save: has the same requirements as `Detection.ImageDetectionPrediction.Draw`.
- Collections.ImagesDetectionPrediction.Show: requires every image to satisfy the same colour-mapping and image-size conditions as `Detection.ImageDetectionPrediction.Draw`.
- Collections.ImagesDetectionPrediction.Save: has the same colour-mapping requirement as `Detection.ImageDetectionPrediction.Draw`.
- Videos.VideoDetectionPrediction.Draw: has the same colour-mapping requirement as `Detection.ImageDetectionPrediction.Draw`.
- Collections.ImagesDetectionPrediction.ShowCalls: has the same colour-mapping and image-size requirements as `Detection.ImageDetectionPrediction.Draw`, for every image with its own ground truth.
- Collections.ImagesDetectionPrediction.ShowOutcome: has the same colour-mapping and image-size requirements as `Detection.ImageDetectionPrediction.Draw`, for every image with its own ground truth.
- Collections.ImagesDetectionPrediction.SaveCalls: has the same colour-mapping requirement as `Detection.ImageDetectionPrediction.Draw`.
- Collections.ImagesDetectionPrediction.SaveOutcome: has the same colour-mapping requirement as `Detection.ImageDetectionPrediction.Draw`.
- Videos.VideoDetectionPrediction.DrawnFrames: has the same colour-mapping requirement as `Detection.ImageDetectionPrediction.Draw`.
- Videos.VideoDetectionPrediction.PlayedFrames: has the same colour-mapping requirement as `Detection.ImageDetectionPrediction.Draw`.
- Videos.VideoDetectionPrediction.FirstFailure: has the same colour-mapping requirement as `Detection.ImageDetectionPrediction.Draw`.
- Videos.VideoDetectionPrediction.Show: has the same colour-mapping requirement as `Detection.ImageDetectionPrediction.Draw`.
- Videos.VideoDetectionPrediction.Save: has the same colour-mapping requirement as `Detection.ImageDetectionPrediction.Draw`.
- `ImageDetectionPrediction.draw` converts box coordinates with `int()` on floats, modelled as `Canvas.Trunc`. Python's negative indexing of `self.class_names` cannot occur there, because only shown ids, which are valid indices, are looked up.
