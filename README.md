# QDTracker per-frame core in Dafny

QDTracker tracks a person under a Kinect depth camera and reports a position
over OSC. The repository holds three openFrameworks apps that share one
per-frame pipeline in `ofApp::update()`:

- **OverHeadOSC** searches the person rectangle for the brightest depth byte
  below a cutoff (`findNearestPoint`) and sends it as `/overhead`;
- **HeadOSC** takes the highest contour point inside a band around the blob
  centroid, interpolates the head between the centroid and that point, and
  sends it as `/head`;
- the **prototype** under `src/` does what HeadOSC does, but adjusts `head` in
  place and sends nothing.

On every frame each app checks the gate: a new frame and at least one blob.
It then selects the feature, looks up the depth at the chosen pixel,
normalizes and then scales each axis, and emits the message. Between frames
the keyboard edits the settings.

The model has one module per concern:

- `Geometry` holds ofPoint, ofRectangle's edges, `getInterpolated`, `ofMap`
  (unclamped, with its degenerate-range guard) and C++ float-to-int
  truncation.
- `Io` holds the inputs of a tick: the depth frame, bytes row-major, with
  `getDistanceAt` as a function-valued field; the blobs found by
  segmentation; and the OSC message record.
- `Adjust` holds normalize-then-scale per axis. `Adjusted` is the reference
  function, and `AdjustPoint` and `AdjustInPlace` are the two step-by-step
  forms in which the apps write it.
- `NearestPoint` holds `findNearestPoint`. Its nested loops are a method
  proved equal to a reference fold over the row-major positions of the
  clipped rectangle, and lemmas give that fold's meaning: maximum, first
  found, and the default point when nothing qualifies.
- `HighestPoint` holds the highest-point loop, proved equal to a reference
  fold, and lemmas: minimal y, first found, and the previous value kept.
- `OverHeadOsc`, `HeadOsc` and `Prototype` each hold one `App` class. Its
  fields are the members of that app's `ofApp.h`, and its methods are
  constructor/`setup`, `resetSettings`, `keyPressed` and `update`.
  `CurrentSettings()` reads the settings fields as a record, and the pure
  `OnKey` function is the specification `KeyPressed` is proved against.
  Every method's `modifies` clause lists the exact fields it writes. Messages
  handed to the OSC sender go into a ghost log, `sent`.

The nine normalize and scale members (`bNormalizeX` … `scaleZAmt`) are held in
one field `transform` of type `Adjust.Transform`. The other header members are
separate fields.

Coordinates are reals, bytes are integers 0..255, and contour points have
whole-pixel coordinates.

Points where the code's behaviour is easy to misread:

- `findNearestPoint` keeps the *largest* byte strictly below `maxValue`
  (OverHeadOSC/src/ofApp.cpp:361-370), the "nearest (aka brightest)" point.
  Replacement needs a strictly larger value, and the running value starts
  at 0. When nothing qualifies it returns the default point (0, 0, 0).
  `update()` then replaces its z with `getDistanceAt(0, 0)`, normalizes and
  scales it, and still sends the result (OverHeadOSC/src/ofApp.cpp:71-91).
- The search rectangle `person` has its origin at the blob centroid, with
  the bounding box's width and height (OverHeadOSC/src/ofApp.cpp:66-68).
- The band test for the highest point is strict on both sides
  (HeadOSC/src/ofApp.cpp:50-51). When no point qualifies, the member
  `highestPoint` keeps its value from the previous frame, because it is not
  assigned (HeadOSC/src/ofApp.cpp:47-55).
- `getInterpolated` gives the centroid weight 1 − f
  (HeadOSC/src/ofApp.cpp:58). With centroid y 100, highest point y 40 and
  f = 0.6 the head is at y 64 (`Geometry.InterpolatedExample`).
- The order "normalize, then scale" only matters for depth, because x and y
  normalize from 0 (OverHeadOSC/src/ofApp.cpp:76-83;
  `Adjust.ScaleCommutesFromZero`, `Adjust.ScaleDoesNotCommuteForDepth`).

## Model

| member | source | states |
|---|---|---|
| Geometry.Truncate | OverHeadOSC/src/ofApp.cpp:355-358 | float-to-int conversion: the result is the whole part toward zero, within one unit of the argument and on its side of zero |
| Geometry.TruncateWhole | OverHeadOSC/src/ofApp.cpp:72 | a whole-pixel coordinate truncates to itself, so the depth is looked up at the found pixel |
| Geometry.Interpolated | HeadOSC/src/ofApp.cpp:58 | interpolation fraction 0 gives the centroid, fraction 1 gives the highest point |
| Geometry.InterpolatedBetween | HeadOSC/src/ofApp.cpp:58 | for a fraction in [0, 1] each of x, y moves from the centroid toward the highest point by that fraction and stays between the two |
| Geometry.InterpolatedExample | src/ofApp.cpp:73 | centroid (100, 100), highest point (100, 40) and fraction 0.6 give the head (100, 64) |
| Geometry.OfMapEnds | OverHeadOSC/src/ofApp.cpp:76-78 | ofMap sends the ends of a proper input range to 0 and 1 |
| Geometry.OfMapUnclamped | OverHeadOSC/src/ofApp.cpp:78 | ofMap does not clamp: an input past either end maps past the matching output end |
| Adjust.AdjustPoint | OverHeadOSC/src/ofApp.cpp:73-83 | the step-by-step normalize (reading the raw point) then scale of OverHeadOSC and HeadOSC computes exactly `Adjusted` |
| Adjust.AdjustInPlace | src/ofApp.cpp:76-82 | overwriting the point axis by axis, each step reading the coordinate it replaces, also computes exactly `Adjusted` |
| Adjust.NoFlagsIsIdentity | HeadOSC/src/ofApp.cpp:60-70 | with all six flags false the adjusted point equals the raw point whatever the amounts, and adjusting again changes nothing |
| Adjust.DefaultIsIdentity | HeadOSC/src/ofApp.cpp:183-193 | the reset flags and amounts make the adjustment the identity |
| Adjust.AxesIndependent | OverHeadOSC/src/ofApp.cpp:73-83 | each adjusted axis depends only on the same raw axis, its own normalize and scale flags, its amount and its range |
| Adjust.NormalizeThenScale | OverHeadOSC/src/ofApp.cpp:76-83 | with both flags an axis is (v − lo)/(hi − lo)·amount; with one flag only the map or only the product |
| Adjust.NormalizeThenScaleExample | OverHeadOSC/src/ofApp.cpp:76-81 | x = 160 in a 640-wide frame with amount 2 gives 0.5 when normalized first and 320 when only scaled |
| Adjust.ScaleCommutesFromZero | HeadOSC/src/ofApp.cpp:63-69 | for x and y, normalizing then scaling equals normalizing the scaled value |
| Adjust.ScaleDoesNotCommuteForDepth | HeadOSC/src/ofApp.cpp:65-70 | for z with near 500, far 4000, z 1200 and amount 2 the code's order gives 0.4 and the other order does not |
| Adjust.DepthUnclamped | OverHeadOSC/src/ofApp.cpp:78 | a depth beyond the far plane normalizes above 1, one nearer than the near plane below 0 |
| HighestPoint.HighestIndex | HeadOSC/src/ofApp.cpp:47-55 | the index the loop keeps is −1 (never assigned) or an index of the contour |
| HighestPoint.HighestIndexIsFirstMinimum | HeadOSC/src/ofApp.cpp:47-55 | no index is kept exactly when no point in the strict band has y below INT_MAX; otherwise the kept point is in the band, has the least y there, and every earlier point in the band has a strictly greater y |
| HighestPoint.FindHighestPoint | HeadOSC/src/ofApp.cpp:47-55 | the loop with running height from INT_MAX returns exactly `Highest` (the previous value or the kept point) |
| HighestPoint.HighestIsFirstMinimum | src/ofApp.cpp:62-70 | when nothing in the band qualifies, highestPoint keeps its previous value; otherwise it is a point of the contour in the band with minimal y, first in contour order among ties |
| HighestPoint.HighestExample | HeadOSC/src/ofApp.cpp:50-51 | a band of 20 around x = 50 keeps (50, 5); a band of 5 around x = 45 excludes the points on its edges and keeps the previous value |
| HighestPoint.HighestTieExample | HeadOSC/src/ofApp.cpp:50-53 | of two points at the same height the first one is kept |
| NearestPoint.Clip | OverHeadOSC/src/ofApp.cpp:355-358 | the clipped bounds lie inside the image: 0 ≤ minX, 0 ≤ minY, maxX ≤ width, maxY ≤ height |
| NearestPoint.RowAt | OverHeadOSC/src/ofApp.cpp:363 | the inner loop visits minX … maxX − 1 of row y, left to right |
| NearestPoint.RowsMembers | OverHeadOSC/src/ofApp.cpp:362-363 | the loops visit exactly the positions of the clipped rectangle |
| NearestPoint.RowsSorted | OverHeadOSC/src/ofApp.cpp:362-363 | the positions are visited in strictly increasing row-major order (y outer, x inner) |
| NearestPoint.RowsStep | OverHeadOSC/src/ofApp.cpp:362 | each pass of the outer loop appends one whole row |
| NearestPoint.BestIndex | OverHeadOSC/src/ofApp.cpp:361-370 | the position whose byte the loops keep is −1 (none) or a visited index |
| NearestPoint.BestIndexIsFirstBrightest | OverHeadOSC/src/ofApp.cpp:361-370 | none is kept exactly when no visited byte lies strictly between 0 and maxValue; otherwise the kept byte is such a byte, no byte below maxValue is larger, and every earlier byte below maxValue is strictly smaller |
| NearestPoint.IndexInImage | OverHeadOSC/src/ofApp.cpp:364 | for 0 ≤ x < width and 0 ≤ y < height the index y·width + x lies inside the pixel buffer |
| NearestPoint.BestStep | OverHeadOSC/src/ofApp.cpp:364-370 | one more visited pixel replaces the held point exactly when its byte is below maxValue and above the held brightness |
| NearestPoint.FindNearestPoint | OverHeadOSC/src/ofApp.cpp:353-375 | clipping the box and running the nested loops returns exactly `Nearest` for the box |
| NearestPoint.ScanBounds | OverHeadOSC/src/ofApp.cpp:361-372 | the outer loop over clipped bounds returns the point the reference fold keeps over the row-major scan |
| NearestPoint.ScanRow | OverHeadOSC/src/ofApp.cpp:363-371 | the inner loop over one row continues the fold from the positions visited before it |
| NearestPoint.ScanInImage | OverHeadOSC/src/ofApp.cpp:355-364 | every byte index the loops read lies inside the pixel buffer |
| NearestPoint.DefaultCutoffAdmitsNonzero | OverHeadOSC/src/ofApp.h:50 | with the default cutoff 256 a byte is a candidate exactly when it is non-zero |
| NearestPoint.NearestIsFirstBrightest | OverHeadOSC/src/ofApp.cpp:353-375 | the result is (0, 0, 0) exactly when no pixel of the clipped rectangle lies strictly between 0 and maxValue; otherwise it is a pixel of the rectangle with its byte as z, no byte below maxValue there is larger, and every one before it in row-major order is strictly smaller |
| NearestPoint.BestOverRectangle | OverHeadOSC/src/ofApp.cpp:360-374 | the same result for any visiting order that lists exactly the rectangle's positions in row-major order |
| NearestPoint.BestFound | OverHeadOSC/src/ofApp.cpp:365-370 | the maximum and first-found facts over visited indices carry over to the positions of the rectangle |
| OverHeadOsc.Ordinal | OverHeadOSC/src/ofApp.h:82-87 | a display image's ordinal is the enum value 0..3 |
| OverHeadOsc.FromOrdinal | OverHeadOSC/src/ofApp.cpp:178 | the cast back from an ordinal 0..3 is the inverse of `Ordinal` |
| OverHeadOsc.NextDisplayImage | OverHeadOSC/src/ofApp.cpp:171-180 | the 'd' key's increment-and-wrap moves the ordinal to (ordinal + 1) mod 4 |
| OverHeadOsc.DisplayImageCycle | OverHeadOSC/src/ofApp.cpp:171-180 | NONE → THRESHOLD → RGB → DEPTH → NONE, and four presses return to the start |
| OverHeadOsc.OnKey | OverHeadOSC/src/ofApp.cpp:146-194 | a threshold in [0, 255] stays there under every key; keys other than '-', '=', 'x', 'y', 'z', 'd', 'R' change no setting |
| OverHeadOsc.ThresholdKeys | OverHeadOSC/src/ofApp.cpp:149-157 | '-' lowers the threshold by one down to 0, '=' raises it by one up to 255, and nothing else changes |
| OverHeadOsc.NormalizeKeysFlipOneFlag | OverHeadOSC/src/ofApp.cpp:159-169 | 'x', 'y', 'z' each flip their own normalize flag and change no other setting |
| OverHeadOsc.DisplayAndResetKeys | OverHeadOSC/src/ofApp.cpp:171-192 | 'd' changes only the display image, 'R' restores the defaults |
| OverHeadOsc.DefaultsAreSane | OverHeadOSC/src/ofApp.cpp:197-221 | the defaults put the threshold in [0, 255], near below far, min area below max area, and make the adjustment the identity |
| OverHeadOsc.App.constructor | OverHeadOSC/src/ofApp.cpp:30-36 | setup leaves the default settings (resetSettings, then a load that finds no file), default positions and nothing sent |
| OverHeadOsc.App.ResetSettings | OverHeadOSC/src/ofApp.cpp:197-225 | every settings field takes its default; positions and the sent log are outside its frame |
| OverHeadOsc.App.KeyPressed | OverHeadOSC/src/ofApp.cpp:146-194 | the new settings are `OnKey` of the old ones; positions and the sent log are outside its frame |
| OverHeadOsc.App.Update | OverHeadOSC/src/ofApp.cpp:50-94 | without a new frame and a blob nothing changes; otherwise person is the centroid-origin rectangle of the first blob, overhead is `Nearest` over it with z from getDistanceAt, overheadAdj is `Adjusted` overhead, and exactly one /overhead message [x, y, z] is appended; settings are untouched |
| HeadOsc.OnKey | HeadOSC/src/ofApp.cpp:131-172 | a threshold in [0, 255] stays there under every key; keys other than '-', '=', 'x', 'y', 'z', 'r', 'R' change no setting |
| HeadOsc.ThresholdKeys | HeadOSC/src/ofApp.cpp:134-142 | '-' lowers the threshold by one down to 0, '=' raises it by one up to 255, and nothing else changes |
| HeadOsc.ToggleKeys | HeadOSC/src/ofApp.cpp:144-170 | 'x', 'y', 'z', 'r' each flip exactly their own flag and change nothing else; 'R' restores the defaults |
| HeadOsc.ToggleTwice | HeadOSC/src/ofApp.cpp:144-158 | pressing a toggle key twice restores the settings |
| HeadOsc.DefaultsAreSane | HeadOSC/src/ofApp.cpp:175-195 | the defaults put the threshold in [0, 255], near below far, the fraction in [0, 1] (head 60% of the way to the highest point) and make the adjustment the identity |
| HeadOsc.HeadBetween | HeadOSC/src/ofApp.cpp:58-59 | for a fraction in [0, 1] the head lies between the centroid and the highest point, with z from getDistanceAt at the truncated head pixel; fraction 0 puts x and y at the centroid, fraction 1 at the highest point |
| HeadOsc.App.constructor | HeadOSC/src/ofApp.cpp:6-12 | setup leaves the default settings, default positions and nothing sent |
| HeadOsc.App.ResetSettings | HeadOSC/src/ofApp.cpp:175-202 | every settings field takes its default; positions and the sent log are outside its frame |
| HeadOsc.App.KeyPressed | HeadOSC/src/ofApp.cpp:131-172 | the new settings are `OnKey` of the old ones |
| HeadOsc.App.Update | HeadOSC/src/ofApp.cpp:26-81 | without a new frame and a blob nothing changes; otherwise person is the first blob's rectangle, highestPoint is `Highest` of its contour (previous value when none qualifies), head is `Head`, headAdj is `Adjusted` head, and exactly one /head message [x, y, z] is appended |
| Prototype.OnKey | src/ofApp.cpp:135-164 | a threshold in [0, 255] stays there under every key; keys other than '-', '=', 'x', 'y', 'z', 'r' change no setting |
| Prototype.ThresholdKeys | src/ofApp.cpp:138-146 | '-' lowers the threshold by one down to 0, '=' raises it by one up to 255, and nothing else changes |
| Prototype.ToggleKeys | src/ofApp.cpp:148-162 | 'x', 'y', 'z', 'r' each flip exactly their own flag and change no other setting |
| Prototype.ToggleTwice | src/ofApp.cpp:148-162 | pressing any of 'x', 'y', 'z', 'r' twice restores the settings |
| Prototype.KeysNeverScale | src/ofApp.cpp:135-164 | no key changes the scale flags, the amounts, the band or the fraction |
| Prototype.App.constructor | src/ofApp.cpp:4-27 | setup assigns threshold 160, near 500, far 4000, band 50, fraction 0.6, all flags false and amounts 1.0 |
| Prototype.App.KeyPressed | src/ofApp.cpp:135-164 | the new settings are `OnKey` of the old ones |
| Prototype.App.Update | src/ofApp.cpp:41-85 | without a new frame and a blob person, highestPoint and head are unchanged; otherwise highestPoint is `Highest` (previous value when none qualifies) and head is `Adjusted` of the interpolated point with its looked-up depth |

## Left out

- Sensor handling is not modelled: Kinect init, open, close and `update`, and the pushing of the clipping planes to the device in `setup`. A tick's frame is an input that carries `isFrameNew`, the depth bytes, the sensor's near and far clipping planes and `getDistanceAt`; the last is a function of the pixel coordinates.
- Segmentation is not modelled: `ofxCvGrayscaleImage::threshold` and `ofxCvContourFinder::findContours` are foreign OpenCV code. The blob sequence is an input, so `threshold`, `personMinArea` and `personMaxArea` are kept as settings but influence nothing in the model.
- Drawing is not modelled: `draw()` and the `displayImage`/`bShowRGB` choice of what to show are UI. The settings themselves are modelled.
- OSC networking is not modelled: sender setup and transmission are I/O. Each sent message is appended to the ghost log `sent`.
- Settings persistence is not modelled: `loadSettings` and `saveSettings` are XML file I/O. The 's' key changes no modelled state, and 'l', like the load inside `setup`, is modelled as a load that finds no file and changes nothing. No save/load round-trip holds: `saveSettings` writes `scaleYAmt` with `scaleXAmt`'s value (OverHeadOSC/src/ofApp.cpp:330, HeadOSC/src/ofApp.cpp:301).
- Floating-point rounding is not modelled; coordinates and amounts are reals. The float-to-int conversions of the search bounds and of the getDistanceAt arguments are modelled as truncation. The running height of the highest-point loop is an `int` assigned from a contour point's float y (HeadOSC/src/ofApp.cpp:47,53; src/ofApp.cpp:62,68). The model takes contour points with whole-pixel coordinates, so that assignment is exact here and its truncation is not modelled.
- NearestPoint.Clip: states only that the clipped bounds lie inside the image. Their exact values (the truncated edges) are given by its definition and not restated as a contract.
- OverHeadOsc.OnKey, HeadOsc.OnKey, Prototype.OnKey: `threshold` is an unbounded integer, so a C++ `int` stepped past INT_MIN or INT_MAX is not modelled. The clamping keeps it in [0, 255] from any start in that range.
- `exit()` and `main.cpp` are not modelled: closing the device and starting the app are I/O.
