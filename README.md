# FollowerPathSlider in Dafny

A model of the FreeCAD macro `FollowerPathSlider.py`. The macro moves a follower object along a path. The user drags a slider, and the follower stops at a configurable percentage of the path's length. The last configuration is kept in a small text file between sessions.

The project models the four pieces of logic inside the macro's Qt and FreeCAD plumbing:

- `clamp.dfy` (module `Clamp`): the clamp rule `min(value, clamped_percentage / 100 * Length)`, Python's `round` (round half to even) and the percentage shown on the value label.
- `numerals.dfy` (module `Numerals`): the numbers of the session file. They are written with `str` and read back with `float`. A persisted number is modelled exactly as a finite decimal `mantissa / 10^scale`.
- `session_store.dfy` (module `SessionStore`): the session record, `save_initial_slider_value` and `load_initial_slider_value`. These are Python's `','.join` and `str.split(',')`, the four-field check and the `ValueError` fallback to `None`.
- `document.dfy` (module `Document`): `get_object_name_by_label`, a first-match linear search over the document's objects.
- `controller.dfy` (module `Controller`): the session state that the script keeps in global variables. It is the class `FollowerSlider`. Its constructor is the start-up sequence: save the dialog's choice (or, on cancel, fall back to the defaults and save nothing), read the file back, show the restored value. Its method `OnSliderChanged` is the slider callback `update_position`.
- `geometry.dfy` (module `Geometry`): vectors, placements and the path. The path is the length of its shape plus two arbitrary functions standing for its first edge's `getParameterByLength` and `valueAt`.
- `wrappers.dfy` (module `Wrappers`): `Option`, standing for Python's `None`.

Behaviour of the macro worth noting:

- `update_position` applies only `min` with the clamp boundary. It does not first clamp the slider value into `[0, Length]`. A negative value is excluded by the slider's range, so `OnSliderChanged` requires `0 <= value`.
- The start-up label divides by the path's length (line 179). A path of length zero would raise `ZeroDivisionError`, so the constructor requires a positive length.
- A cancelled dialog saves nothing (lines 140-142). The session runs on the defaults `Cube`, `Sphere` and 97 %, and the file keeps the previous record until the first slider event overwrites it.
- The start-up label (line 179) is computed from the restored raw value, not from the clamped one. `Clamp.StartupDisplayIgnoresClamp` shows that the two agree only while the raw value is within the boundary. With length 200, a 50 % clamp and a restored value of 150, the start-up label shows 75, but the follower can only reach 50 %.

## Model

| member | source | states |
|---|---|---|
| `Clamp.ClampBoundary` | FollowerPathSlider.py:188 | for a percentage in `[0, 100]` the boundary is a point on the path, between 0 and `Length`; 0 % is the start and 100 % the end |
| `Clamp.EffectiveLength` | FollowerPathSlider.py:188-191 | the placed arc length is at most the slider value and at most `clamped_percentage / 100 * Length`, and it equals one of the two, so it is their minimum |
| `Clamp.EffectiveLengthWithinPath` | FollowerPathSlider.py:188-191 | for a slider value `>= 0` and a percentage in the spin box's range `[0, 100]` (line 83), the placed arc length lies in `[0, Length]` and never passes the clamp boundary |
| `Clamp.EffectiveLengthSaturates` | FollowerPathSlider.py:191 | a slider value at or beyond the boundary places the follower exactly on the boundary |
| `Clamp.EffectiveLengthTracksSlider` | FollowerPathSlider.py:191 | a slider value within the boundary is used one to one |
| `Clamp.EffectiveLengthMonotone` | FollowerPathSlider.py:191 | for a fixed percentage, a larger slider value never gives a smaller arc length |
| `Clamp.ZeroPercentPinsStart` | FollowerPathSlider.py:188-191 | a 0 % clamp keeps the follower at arc length 0 for every slider value |
| `Clamp.FullPercentIsNoClamp` | FollowerPathSlider.py:188-191 | a 100 % clamp places the follower at the slider value itself |
| `Clamp.RoundHalfEven` | FollowerPathSlider.py:198 | Python's `round`: the result is within 1/2 of its argument, and on a tie it is the even integer |
| `Clamp.RoundHalfEvenUnique` | FollowerPathSlider.py:198 | no other integer meets those two conditions, so they define the rounding completely |
| `Clamp.RoundHalfEvenOfInteger` | FollowerPathSlider.py:198 | rounding an integer gives that integer |
| `Clamp.RoundHalfEvenMonotone` | FollowerPathSlider.py:198 | rounding preserves the order of its arguments |
| `Clamp.DisplayPercent` | FollowerPathSlider.py:198 | the label's integer is within 1/2 of the exact percentage `effective / Length * 100`; the same rule gives the start-up label at line 179 |
| `Clamp.DisplayPercentInRange` | FollowerPathSlider.py:198 | `round(clamped / Length * 100)` of a position on the path is an integer in `[0, 100]` |
| `Clamp.DisplayPercentMonotone` | FollowerPathSlider.py:198 | the shown percentage never decreases as the follower moves forward |
| `Clamp.HalfClampExamples` | FollowerPathSlider.py:188-198 | length 200 and a 50 % clamp: slider 150 places at 100 and shows 50; slider 80 places at 80 and shows 40 |
| `Clamp.StartupDisplayIgnoresClamp` | FollowerPathSlider.py:179 | the start-up label equals the first event's label whenever the raw value is within the boundary; with length 200, 50 % and raw 150 it shows 75 where the event shows 50 |
| `Numerals.ParseShow` | FollowerPathSlider.py:37 | `float(str(d))` gives back exactly `d`, for every finite decimal, including negative values and leading zeros after the point |
| `Numerals.Show` | FollowerPathSlider.py:52 | `str` of a number is non-empty and ends in a digit, starts with `-` exactly when the number is negative, and never contains the record's separator |
| `Numerals.ParseFloat` | FollowerPathSlider.py:37 | `float` accepts no text that is blank once its white space is stripped |
| `Numerals.ParseFloatAlphabet` | FollowerPathSlider.py:37-38 | `float` accepts only digits, points, signs and white space, and the white space only around the number: once it is stripped, no white space is left (`"5 0"` is rejected); any other character, such as a letter or a comma, is a `ValueError` |
| `Numerals.TrimStartDropsSpaces` | FollowerPathSlider.py:37 | stripping the front of the text removes white space only and adds nothing |
| `Numerals.TrimEndDropsSpaces` | FollowerPathSlider.py:37 | stripping the end of the text removes white space only and adds nothing |
| `Numerals.ShowExamples` | FollowerPathSlider.py:52 | the printer writes 97.0 as `97.0`, 150 as `150` and -0.05 as `-0.05` |
| `Numerals.DigitsRoundTrip` | FollowerPathSlider.py:37 | reading back the decimal digits of a natural number gives that number |
| `Numerals.DigitsAppend` | FollowerPathSlider.py:37 | the digits `a + b` denote `value(a) * 10^|b| + value(b)`, so the zeros that pad a small fraction (`0.05`) do not change the number read back |
| `SessionStore.Split` | FollowerPathSlider.py:33 | `split(',')` gives one more field than the text has commas, and no field contains a comma |
| `SessionStore.SplitJoin` | FollowerPathSlider.py:33 | splitting the comma-join of comma-free fields gives those fields back |
| `SessionStore.JoinSplit` | FollowerPathSlider.py:33 | joining the fields of any text with commas gives the text back |
| `SessionStore.JoinCommaFree` | FollowerPathSlider.py:52 | `','.join` of `n >= 1` comma-free fields holds exactly the `n - 1` separating commas |
| `SessionStore.JoinCommaCount` | FollowerPathSlider.py:52 | the join of a record's four fields holds three commas of its own plus those of the two labels |
| `SessionStore.Save` | FollowerPathSlider.py:45-52 | the saved text holds three commas plus those of the labels, and it splits back into exactly the four written fields when the labels hold no comma |
| `SessionStore.LoadAccepts` | FollowerPathSlider.py:33-37 | four comma-free fields whose third and fourth parse as numbers always load, as the record of those labels and numbers |
| `SessionStore.Load` | FollowerPathSlider.py:29-40 | a missing file gives `None`; a returned record comes from text with exactly three commas, and its two labels hold no comma |
| `SessionStore.LoadSave` | FollowerPathSlider.py:33-40 | reading back a saved record `(follower, curve, percentage, value)` returns exactly that record, when neither label contains a comma |
| `SessionStore.LoadSaveCommaInLabel` | FollowerPathSlider.py:34 | when a label contains a comma, the saved record has more than four fields and reads back as `None` |
| `SessionStore.ReloadIsStable` | FollowerPathSlider.py:33-52 | a record that was read from the file reads back unchanged after it is saved again |
| `SessionStore.ParseFloatRejectsWord` | FollowerPathSlider.py:37-38 | `float("fifty")` fails, the `ValueError` case |
| `SessionStore.LoadRejectsFieldCount` | FollowerPathSlider.py:34 | text that does not split into exactly four fields reads as `None` |
| `SessionStore.LoadRejectsNonNumeric` | FollowerPathSlider.py:37-39 | four fields whose third or fourth is not a number read as `None`, the `ValueError` branch, and not as a crash |
| `SessionStore.LoadRejectsWordPercentage` | FollowerPathSlider.py:37-39 | the file `Cube,Sphere,fifty,10`, the comma-join of those four fields, reads as `None` |
| `SessionStore.LoadRejectsThreeFields` | FollowerPathSlider.py:34 | the file `Cube,Sphere,50` reads as `None` |
| `Document.FindByLabel` | FollowerPathSlider.py:149-158 | returns `None` exactly when no object has the label; otherwise it returns an object with the label such that no earlier object in document order has it |
| `Controller.FollowerSlider.constructor` | FollowerPathSlider.py:134-142 | an accepted choice is saved with the previous file's raw value and the file then reads back as that record; a cancelled dialog gives the defaults `Cube`, `Sphere`, 97 and leaves the file as it was; either way the raw value is the previous file's and the label is `round(raw / Length * 100)` (lines 176-179) |
| `Controller.FollowerSlider.OnSliderChanged` | FollowerPathSlider.py:185-201 | the follower is placed at the point of the clamped arc length, with a zero rotation about (0, 0, 1); the label shows the clamped percentage, which lies in `[0, 100]`; the file reads back as this session's labels and percentage with the RAW slider value; labels, path and percentage are unchanged |
| `Controller.PlacementSaturates` | FollowerPathSlider.py:188-195 | every slider value at or beyond the clamp boundary gives the same placement, the boundary's point with the fixed rotation |
| `Controller.HalfClampSession` | FollowerPathSlider.py:176-201 | a session on a 200-long path clamped at 50 % and restored at 150 shows 75 at start-up; moving the slider to 150 places the follower at arc length 100, shows 50 and persists 150 |
| `Controller.CancelledSession` | FollowerPathSlider.py:140-142 | after a cancelled dialog the session uses `Cube`, `Sphere` and 97 %, while the file still reads back as the previous session's record |

## Left out

- Qt dialogs and widgets: the selection dialog (lines 57-121), the combo boxes, and the slider and label construction (lines 173-183, 203-210). `OnSliderChanged` receives the slider's integer value directly.
- The slider's integer range `0 .. int(Length)` (line 175) and Qt's clamping of `setValue`. `OnSliderChanged` only requires `value >= 0`. The clamp rule needs nothing more.
- FreeCAD internals: `edge.getParameterByLength` and `edge.valueAt` are arbitrary functions in `Geometry.Curve`. `App.Placement` is the `Placement` datatype. `doc.recompute()` and `Gui.updateGui()` are host side effects with no modelled state. `Gui.updateGui()` (line 197) can deliver a new slider event before the label and the file are updated (lines 198-201); the model assumes each event runs to completion.
- `curve_shp.Length` and `edge = curve_shp.Edges[0]`: the model has one length for the path, so it assumes a single-edge path, where the shape's length equals the first edge's. On a path of several edges the macro sizes the slider, the boundary and the label by the whole shape (lines 175, 179, 188, 198) but places the follower on the first edge only (lines 193-194); that mismatch is not modelled.
- The lookups of the follower and the path by label (lines 162-163) and the guard `if follower and curve:` (line 168): the session's path is taken to be the object `Document.FindByLabel` returns for `curveName`, given to the constructor as its `curve`. A failed lookup, which starts no session and only prints (lines 212-213), is not modelled.
- `doc.getObject(obj.Name)` in `Document.FindByLabel` is the found object itself, because FreeCAD object names are unique within a document.
- The label's text `"Parameter Value (t): {n}"`: the model keeps the integer `n` only.
- File-system plumbing: the home-directory path, `os.path.exists` (modelled as the file being `None` or `Some(text)`), and `open`, `read` and `write`. Saving always succeeds. The `OSError` branch of `save_initial_slider_value` (lines 53-54) and an `OSError` while reading are not modelled.
- Console `print` calls, which are diagnostics only.
- IEEE floating point: all numbers are exact. The rounding error of `pct / 100 * Length` is not modelled.
- Numerals.Show: does not reproduce Python's shortest-repr float printing or its exponent form (`1e+16`). A persisted number is a finite decimal printed with exactly its own number of fraction digits. `Decimal` does not distinguish an int from a float, so a number read with `float` and saved again keeps its text's digits (`150`, `12.50`) where Python writes the float's repr (`150.0`, `12.5`). This affects the raw value re-saved at start-up (line 139): the text differs, but it reads back as the same value.
- Numerals.ParseFloat: accepts a subset of what Python's `float` accepts. Exponents, `inf`, `nan`, digit-group underscores, non-ASCII digits and non-ASCII white space are rejected where Python would accept them.
- The crashes of the top-level script: `prev_values[3]` when no file could be read (line 139), and `initial_value[3]` when the file read at line 176 is missing or unreadable (line 177). The constructor requires the previous file to load, and an accepted choice to have comma-free labels, so that neither happens.
