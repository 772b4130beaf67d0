# Litter-box monitor: frame decision procedure and loop

This project models the core of a webcam litter-box monitor. The monitor
reads frames from a camera and feeds each one to a KNN background subtractor.
Its foreground mask is cleaned and split into contours. The monitor then
decides whether a cat is in the litter-box zone. The model covers the part
of `main.py` that is the program's own logic rather than a library call:

- **Zone classification** (module `Zone`, `zone.dfy`). A contour is given as
  its area and its bounding box `(x, y, w, h)`. It is kept only when its area
  is strictly above `min_contour_area`. Its centre is `(x + w // 2, y + h // 2)`,
  computed with floor division. It is in the zone when `x1 <= cx <= x2` and
  `y1 <= cy <= y2`, so both bounds are inclusive. The per-frame flag
  `motion_in_box` is set when any kept contour is in the zone.
- **Annotation** (module `Annotate`, `annotate.dfy`). The model does not hold
  the raster image. A frame's annotation is the sequence of drawing calls made
  on it. The three texts are a `Text` value, and `Words` gives the exact
  characters of each. A region in the zone gets a yellow box and a yellow
  "In Litter Box" caption 10 pixels above the box. Any other region gets a green box. The green
  zone outline and its "Litter Box Zone" label are drawn on every processed
  frame. The red "CAT IN LITTER BOX" banner at (10, 30) is drawn only when the
  flag is set. `ScanContours` is the source's `for` loop over the contours,
  and it is proved equal to the pure `Classify`/`RegionMarks` definitions.
- **The monitoring loop** (module `Loop`, `loop.dfy`). The loop's state is
  held by the class `Monitor`: the background model, whether the loop has
  stopped, and a count of processed frames. `Step` is one pass of the
  `while True` body. A failed read stops the loop before anything else
  happens. Otherwise the frame is fed to the background model, classified
  and drawn. Then one key is polled and masked to its low byte. `'q'` stops
  the loop once the frame is done. `'r'` replaces the background model with
  one built from the same `history`, `dist_threshold` and `detect_shadows`.
  Any other key changes nothing. `Run` is the loop over a stream of
  iteration inputs. Both are proved against the pure `Next` and `RunSpec`.
  The lemmas about `RunSpec` describe whole runs: where a run stops, which
  frames it processes, that later inputs are ignored, and how many times the
  model is rebuilt.

The background subtractor is a value that records three things: the
parameters it was built with, which rebuild it is (`generation`), and how
many frames it has absorbed since it was built. The camera, the subtractor's
numerics, the morphology and the contour extraction are all inputs: each
iteration receives "read succeeded", the contours and the raw key value.

## Model

| member | source | states |
|---|---|---|
| `Zone.Half` | main.py:93-94 | `w // 2` is floor division: `2q <= w < 2q + 2`, for negative widths too |
| `Zone.Centre` | main.py:92-94 | the centre lies `w // 2` right of and `h // 2` below the box corner (floor of half the width and of half the height) |
| `Zone.Classify` | main.py:90-98 | each region comes from a listed contour whose area is strictly above the threshold; it carries that contour's centre and the inclusive zone verdict; every such contour yields a region; there are never more regions than contours |
| `Zone.ClassifyAppend` | main.py:90-98 | regions come in contour order: the regions of contours followed by more contours are the first list's regions followed by the rest's |
| `Zone.ClassifyCount` | main.py:90-92 | a region occurs exactly as often as its contour, when the contour passes the strict area filter, and otherwise never; a contour whose area equals the threshold yields nothing |
| `Zone.ClassifyOrderFree` | main.py:88-99 | reordering the contours only reorders the regions (equal multisets), so `motion_in_box` does not depend on contour order |
| `Zone.MotionIffSurvivorInZone` | main.py:88-99 | the flag holds exactly when some contour above the area threshold has its centre inside the zone, edges included |
| `Annotate.ScanContours` | main.py:88-107 | the loop over contours starts with the flag false and ends with it true exactly when some surviving contour's centre is in the zone; it draws exactly the region marks of `Classify`, in contour order |
| `Annotate.FrameMarks` | main.py:100-126 | the region marks come first; the zone outline and its "Litter Box Zone" label, present on every processed frame, come right after them; the only other mark is the "CAT IN LITTER BOX" banner, last, when the flag is set |
| `Annotate.BannerIffMotion` | main.py:124-126 | the "CAT IN LITTER BOX" banner is on the frame exactly when `motion_in_box` is set |
| `Annotate.OneBoxPerRegion` | main.py:100-107 | each surviving contour gets exactly one box, in order: yellow when its centre is in the zone, green otherwise |
| `Annotate.CaptionsOnlyInZone` | main.py:100-107 | the texts drawn for regions are, in order, exactly one "In Litter Box" caption per in-zone region and none for any other; every in-zone region has one, each one belongs to an in-zone region, and the region marks number one box per region plus one caption per in-zone region |
| `Loop.KeyCode` | main.py:137 | the polled key is reduced to its low byte: a value in 0..255 congruent to the raw value modulo 256 |
| `Loop.ReportOf` | main.py:88-126 | a processed frame's flag is true exactly when a surviving contour is in the zone; its banner appears exactly with the flag; its zone marks are always present |
| `Loop.AnnotateFrame` | main.py:88-126 | the detection and drawing code for a read frame yields exactly `ReportOf` for its contours |
| `Loop.Next` | main.py:72-147 | one iteration: it stops exactly on a failed read or `'q'`; a failed read leaves the model, the frame count and the output untouched; a read frame is counted and reported; `'r'` rebuilds a cold-start model from the same parameters; any other key only feeds the frame to the model; the model stays built from the configuration |
| `Loop.FirstStop` | main.py:72-139 | the index of the first failed read or `'q'`: no input before it stops the loop, and the input at it does |
| `Loop.RunStopsAtFirstStop` | main.py:72-139 | a run ends stopped exactly when the inputs hold a failed read or `'q'`; it processes every frame before that, the `'q'` frame itself and nothing later, and reports exactly that many frames |
| `Loop.RunReportsInOrder` | main.py:72-126 | a run's reports are, in order, the classification and drawing of the first inputs of the stream, one per processed frame |
| `Loop.RunIgnoresLaterInputs` | main.py:137-139 | once the loop has stopped, no further input changes its state or its output |
| `Loop.RunCountsResets` | main.py:140-146 | the final background model is still built from the configured parameters, and it has been rebuilt once per `'r'` before the first stopping input |
| `Loop.Monitor.constructor` | main.py:59-64 | the monitor starts running, with a fresh model built from the configuration and no frames processed |
| `Loop.Monitor.Step` | main.py:72-147 | the loop body changes the monitor's state exactly as `Next` says and returns the frame's report |
| `Loop.Monitor.Run` | main.py:72-147 | the loop leaves the monitor in the state `RunSpec` gives and returns the reports of the frames it processed |

## Left out

- The KNN background subtractor's statistics, morphological opening and dilation, `findContours`, `contourArea` and `boundingRect` are calls into the vision library. Their results (the contours, as area and bounding box) are inputs. The model keeps only each subtractor's build parameters, its rebuild number and the count of frames it has absorbed.
- Converting the zone from fractions of the frame size to pixels uses floating point and `int()` truncation on the camera's reported size. The pixel rectangle is an input.
- Camera capture and release, `cam.get`, the preview and mask windows, `waitKey` as an I/O call, window destruction and the console messages are I/O. The raw key value and whether the read succeeded are inputs. The `show_preview` and `show_mask_window` display gates decide only what is shown, so they are not modelled.
- The raster image is not modelled. A frame's annotation is the sequence of drawing calls made on it, with their corners, texts, scales, colours and thicknesses. The font is always the simplex font and is not recorded.
- Loading configuration from YAML (`load_config` and the dictionary lookups) is file I/O. The settings arrive as a `Config` value. `min_usage_time` is read but never used, so it has no counterpart.
- `config_loader.py` (YAML read/write with a default dictionary), `Log.py` (appends a fixed line to a text file) and `Office.py` (an earlier capture-and-record script) are not part of this model.
- The event-logging TODO at main.py:121-123 has no code behind it, so nothing is logged.
- `framesProcessed` has no counterpart variable in the source. It counts the loop iterations that got past the read, so that "no frame is processed after a stop" can be stated.
