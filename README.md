# Weather-driven animated blob: a Dafny model of its temperature, lookup and sound logic

The page looks up a place by name, fetches its current temperature and drives
a noise-based layered blob with it. Colder readings make the animation slower
and darker and the ambient sound quieter. It also plays a cold or warm click
when the canvas is pressed. This project models the logic around the renderer
in `animated-concept/src/App.jsx` and proves what that logic guarantees:

- `Temperature` (`temperature.dfy`) covers `clamp` and `temp01`, the frame
  parameters derived from the normalised temperature (speed, base amplitude,
  spin, ambient volume), and the exponential smoothing step with its fallback
  to 20 °C. It also covers the null/NaN case split of the temperature display.
  Numbers are modelled as reals. `TempValue` makes "not a number at all"
  (`Missing`) and `NaN` explicit.
- `JsString` (`jsstring.dfy`) covers `String.prototype.trim`, over the
  ECMAScript white-space and line-terminator characters, and
  `Array.prototype.join`.
- `WeatherLookup` (`weather.dfy`) covers `getLocationAndTemp` with its two
  HTTP responses taken as inputs. The result records the requests it would
  issue, so that "fails before any lookup" can be stated. It also covers the
  location label (`filter(Boolean).join(", ")`) and what `fetchWeather` stores
  and shows.
- `Audio` (`audio.dfy`) covers the click selection against the 12 °C
  threshold and the one-shot ambient start. `AudioBank` is a class holding the
  mutable fields of `audioRef.current`. The clips handed to `safePlay` are
  recorded as a sequence.
- `Animation` (`animation.dfy`) covers the `Sketch` class, which holds the
  closure variable `tempSmoothed` and the temperature part of `p.draw`.

## Model

| member | source | states |
|---|---|---|
| `Temperature.Clamp` | animated-concept/src/App.jsx:8 | The result is at least `lo`. When `lo <= hi` it is at most `hi`. It is `v` itself when `v` lies in `[lo, hi]`, `lo` below the range and `hi` above it. An inverted range always gives `lo`, as `Math.max(lo, Math.min(hi, v))` does. |
| `Temperature.Temp01` | animated-concept/src/App.jsx:10-11 | The result lies in [0, 1]. It is 0 at or below -20 °C and 1 at or above 40 °C. In between it is the linear position `(c + 20) / 60`. |
| `Temperature.Temp01Monotone` | animated-concept/src/App.jsx:11 | A warmer reading never maps to a lower value. |
| `Temperature.Temp01Points` | animated-concept/src/App.jsx:10-11 | -20 °C maps to 0, 40 °C to 1 and 10 °C to 0.5. |
| `Temperature.Temp01RoundTrip` | animated-concept/src/App.jsx:11 | For every `u` in [0, 1], the reading `-20 + 60u` maps back to `u`, so the map is onto [0, 1]. |
| `Temperature.Frame` | animated-concept/src/App.jsx:238-247 | For any smoothed temperature: speed is in [0.12, 2.37], base amplitude in [18, 70], spin in [0.0008, 0.0033] and ambient volume in [0.22, 0.47]. The coldest and warmest readings give the exact lower and upper ends. |
| `Temperature.FrameMonotone` | animated-concept/src/App.jsx:238-247 | A warmer smoothed temperature never gives a lower speed, amplitude, spin or ambient volume. |
| `Temperature.SmoothTarget` | animated-concept/src/App.jsx:235-236 | The target is the stored reading when it is a number, and 20 °C otherwise. |
| `Temperature.SmoothStep` | animated-concept/src/App.jsx:237 | The new value lies between the old value and the target, inclusive. It equals the old value exactly when the old value is the target. Otherwise it is strictly closer to the target. |
| `Temperature.SmoothedGap` | animated-concept/src/App.jsx:237 | After `n` frames toward a fixed target, the remaining gap is `0.96^n` times the initial gap. |
| `Temperature.SmoothedBetween` | animated-concept/src/App.jsx:237 | However many frames pass, the smoothed value never overshoots the target or falls behind its start. |
| `Temperature.TempDisplay` | animated-concept/src/App.jsx:81-84 | A null or NaN temperature shows the dash. Any other temperature shows the reading itself. |
| `JsString.LeadingCount` | animated-concept/src/App.jsx:24 | Counts the leading characters `trim` drops. All of them are white space, and the character after them, if there is one, is not. |
| `JsString.TrailingStart` | animated-concept/src/App.jsx:24 | Gives the index where the trailing white space begins. Everything from there on is white space, and the character before it, if there is one, is not. |
| `JsString.Trim` | animated-concept/src/App.jsx:24 | The result is the slice of the input between the leading and the trailing white space. Everything dropped is white space. The result neither begins nor ends with white space. |
| `JsString.TrimEmptyIff` | animated-concept/src/App.jsx:24-25 | The trimmed query is empty exactly when every character of the input is white space. |
| `JsString.TrimIdempotent` | animated-concept/src/App.jsx:24 | Trimming twice gives the same as trimming once. |
| `JsString.Join` | animated-concept/src/App.jsx:41-43 | No parts give the empty string. One part is returned unchanged. Otherwise the result starts with the first part and ends with the last. |
| `JsString.JoinLength` | animated-concept/src/App.jsx:43 | The join's length is the parts' total length plus one separator per gap. |
| `JsString.JoinTwo` | animated-concept/src/App.jsx:43 | Two parts are joined with exactly one separator between them. |
| `JsString.JoinThree` | animated-concept/src/App.jsx:43 | Three parts are joined with one separator between each neighbouring pair. |
| `JsString.JoinEmptyIff` | animated-concept/src/App.jsx:43 | When every part is non-empty, the join is empty exactly when there are no parts. |
| `WeatherLookup.Message` | animated-concept/src/App.jsx:24-53 | Every error the lookup throws has a non-empty message, the text the page shows. |
| `WeatherLookup.MessagesDistinct` | animated-concept/src/App.jsx:24-53 | Different errors show different messages. |
| `WeatherLookup.Truthy` | animated-concept/src/App.jsx:41-42 | No kept part is empty, and no more parts are kept than were given. |
| `WeatherLookup.TruthyExtremes` | animated-concept/src/App.jsx:41-42 | Nothing is kept exactly when no part is truthy. Everything is kept exactly when every part is truthy. |
| `WeatherLookup.TruthyFromParts` | animated-concept/src/App.jsx:41-42 | Every kept part is one of the inputs. |
| `WeatherLookup.TruthyThree` | animated-concept/src/App.jsx:41-42 | Filtering the three label parts keeps each truthy one, in their original order. |
| `WeatherLookup.Label` | animated-concept/src/App.jsx:41-43 | The label is the join with ", " of name, admin1 and country, in that order, each kept only when present and non-empty. |
| `WeatherLookup.LabelAllPresent` | animated-concept/src/App.jsx:41-43 | With name, admin1 and country all present, the label is `name, admin1, country`. |
| `WeatherLookup.LabelWithoutAdmin1` | animated-concept/src/App.jsx:41-43 | With name and country present and admin1 missing, the label is `name, country`. |
| `WeatherLookup.LabelSinglePart` | animated-concept/src/App.jsx:41-43 | When exactly one of the three parts is present, the label is that part unchanged. |
| `WeatherLookup.LabelEmptyIff` | animated-concept/src/App.jsx:41-43 | The label is empty exactly when none of the three parts is present. |
| `WeatherLookup.LabelEnds` | animated-concept/src/App.jsx:41-43 | The label begins with the first present part and ends with the last present part. It therefore begins or ends with ", " only if that part does. |
| `WeatherLookup.BestResult` | animated-concept/src/App.jsx:37 | A best result exists exactly when the body has a non-empty `results` list, and it is the first entry. |
| `WeatherLookup.GetLocationAndTemp` | animated-concept/src/App.jsx:23-56 | A blank query fails with the empty-query error and issues no request. Otherwise the trimmed query is geocoded first, and at most two requests are made. A non-ok geocoding response fails, and so does a missing first result ("Location not found"); either way the geocoding request is the only one. The forecast is requested exactly when a place was found, at its coordinates. A non-ok forecast response fails, and so does a missing numeric temperature. Success happens exactly when every check passes, and then yields the first result's label and the reported temperature. |
| `WeatherLookup.LookupIgnoresPadding` | animated-concept/src/App.jsx:24 | White space around the query changes neither the outcome nor the requests. |
| `WeatherLookup.FetchWeather` | animated-concept/src/App.jsx:141-154 | On success the new label and temperature are shown, the temperature is stored for the sketch and the error line is cleared. On failure only the error line changes, to the error's message: the previous label, shown temperature and stored reading stay. The error line is empty exactly on success. |
| `WeatherLookup.StoredAfterNoNaN` | animated-concept/src/App.jsx:145-148 | Starting from a non-NaN reading, no series of lookups stores NaN for the sketch. A forecast temperature enters as a real because it is decoded from JSON, which has no NaN literal, so the `typeof t === "number"` check of line 52 never admits NaN. |
| `Audio.ClickSound` | animated-concept/src/App.jsx:130-133 | The cold click is chosen exactly for a numeric reading at or below 12 °C. The warm click is chosen for anything else, including null, non-numbers and NaN. |
| `Audio.StartAmbient` | animated-concept/src/App.jsx:122-127 | The state is unchanged exactly when the loop is absent or already started. Otherwise the flag is set and the loop is played once. The loaded clips never change. |
| `Audio.StartAmbientIdempotent` | animated-concept/src/App.jsx:122-127 | A second start changes nothing. |
| `Audio.PlayClick` | animated-concept/src/App.jsx:130-138 | Only the play log changes. It grows by exactly the selected click when that click is loaded, and otherwise stays the same. |
| `Audio.Press` | animated-concept/src/App.jsx:226-227 | A press leaves the loaded clips alone and sets the ambient flag when the loop is loaded. It appends to the play log exactly the ambient loop, when the loop is loaded and not yet started, followed by the selected click, when that click is loaded. |
| `Audio.PressKeepsAmbientOnce` | animated-concept/src/App.jsx:220-228 | A press keeps the invariant "the flag is set exactly when the loop was played, and then it was played once". After the press the flag is set if it was set before or the loop is loaded. |
| `Audio.PressesPlayAmbientOnce` | animated-concept/src/App.jsx:122-127 | Over any series of presses the ambient loop plays at most once. It ends up started exactly when it was already started, or when it is loaded and there was at least one press. |
| `Audio.Clicks` | animated-concept/src/App.jsx:130-133 | Reading i selects click i: the list has one click per reading, each chosen by `ClickSound`. |
| `Audio.PressesPlayOneClickEach` | animated-concept/src/App.jsx:220-228 | With both clicks loaded, a series of presses appends exactly the ambient loop, when it is loaded and not yet started and there is a press, followed by the click each press's reading selects, in order (`Clicks`). So the log grows by one entry per press, plus one for the ambient start. |
| `Audio.AudioBank.constructor` | animated-concept/src/App.jsx:96-105 | After loading, the given clips are present, the ambient loop is not started, nothing has played, and the ambient volume is 0.3. |
| `Audio.AudioBank.StartAmbientIfNeeded` | animated-concept/src/App.jsx:122-127 | The new state is `StartAmbient` of the old one. The ambient-once invariant and the volume are kept. |
| `Audio.AudioBank.PlayClickSound` | animated-concept/src/App.jsx:130-138 | The new state is `PlayClick` of the old one. The invariant and the volume are kept. |
| `Audio.AudioBank.PointerDown` | animated-concept/src/App.jsx:226-227 | A press starts the ambient loop if needed and then plays the click for the stored reading. |
| `Animation.Sketch.constructor` | animated-concept/src/App.jsx:193 | The smoothed temperature starts at 20 °C. |
| `Animation.Sketch.Draw` | animated-concept/src/App.jsx:233-247 | The smoothed temperature takes one `SmoothStep` toward the stored reading, or toward 20 °C if that is not a number. It stays within the coldest and warmest values it has been drawn toward. The frame parameters are `Frame` of the new value. The ambient volume is set from it only when the ambient clip is loaded. |

## Left out

- Network I/O (`fetch`, URL construction, `encodeURIComponent`, JSON decoding; lines 28-35 and 46-49). The two responses are inputs. A rejected `fetch` and a body that fails to decode as JSON throw foreign errors and are not modelled.
- The geocoding body's shape is simplified. `results` is a list of records whose label parts are optional strings, and the coordinates are reals. Null entries and non-string parts are not modelled.
- The p5 drawing (lines 250-340): background blend, rotation, blend modes, the layered shape built from `sin`, `cos`, `exp`, `hypot` and `p.noise`. This is floating-point rendering in a library that is not part of this model.
- Pulse timing from `p.millis()` (lines 194, 265-267): it depends on the wall clock.
- Hover and pointer tracking (lines 212-219, 261-262, 269) and `windowResized` (line 231): they feed only the drawing.
- Audio objects and playback (lines 14-20, 87-119): clip creation, preload, the 0.6 click volume, `play`/`pause`, the swallowed playback errors and the unmount cleanup. Only the loaded flags, `ambientStarted`, the ambient volume and the play log are kept.
- React state, effects, the form and the JSX (lines 58-401), apart from what `FetchWeather` records. The loading flag and the "Something went wrong." fallback are not modelled, because every modelled error carries a message.
- `toFixed(1)` formatting (line 83): `TempDisplay` yields `Degrees(c)` for a number instead of its decimal text.
- Floating-point rounding in general: all arithmetic is over exact reals.
- animated-concept/src/useP5.js is not part of this model. It only constructs and removes a p5 instance.
- Animation.Sketch.Draw: requires the stored reading not to be NaN. A NaN target would make the smoothed value NaN for good, and real arithmetic cannot express that. The reading is 20 at first and afterwards only a temperature decoded from JSON, which has no NaN literal; `StoredAfterNoNaN` shows that under this input type the lookups never store NaN. The model also does not capture an overflowing literal such as `1e999`, which `JSON.parse` decodes to Infinity and which passes the number check of App.jsx line 52; the smoothed value would then become Infinity on the next frame and NaN (Infinity minus Infinity) on the frame after, and the real-valued model cannot express either.
