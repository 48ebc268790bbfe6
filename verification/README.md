# NetworkVisualizer live feed and layer slots, in Dafny

NetworkVisualizer is a WorldWind desktop application that draws GeoJSON data on
a globe. Its state sits behind three menu actions:

- "Open File..." loads a `.json` file into the file layer.
- "Open Link..." loads a live feed into the live layer.
- "Adjust Query Timer..." sets how often the live feed is reloaded.

This project models that state machine and proves what it does.

The state is a handful of fields:

- the query interval in seconds, 300 at start-up;
- the feed address;
- the Swing refresh timer;
- two layer slots, one for the file layer and one for the live layer;
- the WorldWind layer list that both `parseAddJson` overloads change with `remove` and `add`.

Modules:

- `Wrappers`: `Option`, standing for a Java reference that may be null.
- `JavaText`: the parts of `String` and `Integer` the input handling relies on.
  These are `trim`, `endsWith`, `Integer.parseInt`, `Integer.toString` and
  32-bit `int` wrap-around.
- `InputDecisions`: the decision each dialog takes on one answer, as pure
  functions. These are the interval check, the link choice and the file gate.
- `Layers`: the layer list as a sequence of `Layer` objects.
  - It defines `LayerList.remove` and the count of layers carrying a name.
  - It proves that each slot owns its name. At most one registered layer
    carries the slot's name, and that layer is the slot's own.
- `Visualizer`: the `NetworkVisualizer` class, whose methods update its fields
  in place, and the `SwingTimer` class.
  - Every event runs on the Swing event thread, so each method is one atomic
    step. A timer tick is the method `Tick`.
  - The invariant `Valid` has two parts. First, only the newest of all timers
    ever created runs, and the label shows its period. Second, each slot owns
    its name in the layer list.

The GeoJSON loader is a boolean parameter saying whether it succeeded. Every
source it is handed is recorded in the ghost field `loads`. A dialog answer is
a parameter, with `None` for a cancelled dialog. Each call is one attempt of
the dialog's re-prompt loop.

Where the application's intended behaviour and its code differ, the model
follows the code. The one exception is the minutes overflow under Findings:
the class uses the corrected conversion.

- The default feed address ends in ".geojson". A blank link answer loads it,
  but typing that same address is refused, because typed addresses must end
  in ".json" (`InputDecisions.DefaultFeedRefusedWhenTyped`).
- A failed load has already removed the slot's previous layer. The slot is
  left empty in the layer list (`ParseAddFile` and `ParseAddLive`).
- A number refused as out of range has already been stored in `queryInterval`.
  The next successful live load or tick arms the timer with it.
  `Visualizer.RefusedIntervalReachesTimer` shows a running timer with a period
  of 0 ms reached this way.
- The interval action arms the timer even when no feed was ever opened, so a
  timer can run with no feed. Each of its ticks hands the loader a null
  address, which fails with the loading error and leaves the timer running
  (`Visualizer.TimerWithoutFeed`).
- The timer period is the Java `int` product `queryInterval * 1000`, written
  with `Int32Wrap`. It can only overflow through such a stored refused value.

## Model

| member | source | states |
|---|---|---|
| `JavaText.Int32Wrap` | src/main/java/com/chesapeaketechnology/networkviz/NetworkVisualizer.java:230 | the result is an int, and equals the input whenever the input already fits in an int, as Java `int` multiplication does |
| `JavaText.Int32WrapCongruent` | src/main/java/com/chesapeaketechnology/networkviz/NetworkVisualizer.java:268 | the wrapped value differs from the mathematical one by a multiple of 2^32, as the `queryInterval * 1000` period does |
| `JavaText.Trim` | src/main/java/com/chesapeaketechnology/networkviz/NetworkVisualizer.java:221 | the result is a slice of the input whose removed prefix and suffix are blank, and it is empty or begins and ends with a non-blank character; so exactly the leading and trailing characters up to U+0020 are removed |
| `JavaText.TrimEmptyIffBlank` | src/main/java/com/chesapeaketechnology/networkviz/NetworkVisualizer.java:180 | `trim().isEmpty()` holds exactly when every character is at most U+0020 |
| `JavaText.TrimIdempotent` | src/main/java/com/chesapeaketechnology/networkviz/NetworkVisualizer.java:221 | trimming an already trimmed text changes nothing |
| `JavaText.EndsWithAppended` | src/main/java/com/chesapeaketechnology/networkviz/NetworkVisualizer.java:186 | `endsWith` holds exactly when the string is some string followed by the suffix |
| `JavaText.ParseInt` | src/main/java/com/chesapeaketechnology/networkviz/NetworkVisualizer.java:226 | a value is returned exactly for an optional sign followed by one or more digits whose signed value fits in an int, and it is that signed value; every other text is the NumberFormatException |
| `JavaText.ParseDecimal` | src/main/java/com/chesapeaketechnology/networkviz/NetworkVisualizer.java:226 | parsing reads back the decimal text of every int |
| `InputDecisions.Classify` | src/main/java/com/chesapeaketechnology/networkviz/NetworkVisualizer.java:235-243 | accepts exactly the values from 1 to 300 seconds and reports every other value out of range, carrying it along |
| `InputDecisions.ToSeconds` | src/main/java/com/chesapeaketechnology/networkviz/NetworkVisualizer.java:229-232 | in seconds the value is kept; in minutes the result is a whole number of minutes, namely the value |
| `InputDecisions.ValidateInterval` | src/main/java/com/chesapeaketechnology/networkviz/NetworkVisualizer.java:221-243 | the empty-input error occurs exactly for a blank text; the not-a-number outcome exactly when the trimmed text does not parse as an int; otherwise the decision carries the parsed number in seconds (times 60 in minutes), and it is accepted exactly when it lies within 1..300 and is otherwise out of range |
| `InputDecisions.IntervalIgnoresPadding` | src/main/java/com/chesapeaketechnology/networkviz/NetworkVisualizer.java:221 | the decision on a padded text equals the decision on its trimmed form |
| `InputDecisions.ValidateDecimal` | src/main/java/com/chesapeaketechnology/networkviz/NetworkVisualizer.java:226-235 | for the text of any int n, the decision is the range check of n (times 60 in minutes), so it accepts exactly when that lies in 1..300 |
| `InputDecisions.FiveMinutesAccepted` | src/main/java/com/chesapeaketechnology/networkviz/NetworkVisualizer.java:229-237 | "5" minutes is accepted as 300 seconds |
| `InputDecisions.OneSecondAccepted` | src/main/java/com/chesapeaketechnology/networkviz/NetworkVisualizer.java:231-237 | "1" second is accepted |
| `InputDecisions.PaddedFiveMinutesAccepted` | src/main/java/com/chesapeaketechnology/networkviz/NetworkVisualizer.java:221 | " 5 " minutes is accepted as 300 seconds |
| `InputDecisions.OutOfRangeSeconds` | src/main/java/com/chesapeaketechnology/networkviz/NetworkVisualizer.java:235-243 | "301" and "0" seconds are refused as out of range |
| `InputDecisions.SixMinutesOutOfRange` | src/main/java/com/chesapeaketechnology/networkviz/NetworkVisualizer.java:229-243 | "6" minutes (360 seconds) is refused as out of range |
| `InputDecisions.NegativeMinuteOutOfRange` | src/main/java/com/chesapeaketechnology/networkviz/NetworkVisualizer.java:226-243 | "-1" minutes parses and is refused as out of range |
| `InputDecisions.BlankAnswersEmpty` | src/main/java/com/chesapeaketechnology/networkviz/NetworkVisualizer.java:221-248 | blank answers get the empty-input error |
| `InputDecisions.WordNotANumber` | src/main/java/com/chesapeaketechnology/networkviz/NetworkVisualizer.java:226 | "five" is not a number |
| `InputDecisions.SignAloneNotANumber` | src/main/java/com/chesapeaketechnology/networkviz/NetworkVisualizer.java:226 | a sign alone is not a number |
| `InputDecisions.ValidateIntervalAsWritten` | src/main/java/com/chesapeaketechnology/networkviz/NetworkVisualizer.java:221-243 | the same outcomes as the corrected dialog, but the decision carries the wrapped `timeValue * 60`, which is accepted exactly when it lies within 1..300 and is otherwise out of range |
| `InputDecisions.ToSecondsAsWritten` | src/main/java/com/chesapeaketechnology/networkviz/NetworkVisualizer.java:230 | the written conversion agrees with the mathematical one whenever that fits in an int, and in minutes always yields an int |
| `InputDecisions.ValidateDecimalAsWritten` | src/main/java/com/chesapeaketechnology/networkviz/NetworkVisualizer.java:226-235 | for the text of any int, the written dialog range-checks the wrapped product |
| `InputDecisions.AsWrittenAgreesWithoutOverflow` | src/main/java/com/chesapeaketechnology/networkviz/NetworkVisualizer.java:229-232 | the written and the corrected dialogs decide alike whenever the number of seconds fits in an int |
| `InputDecisions.MinutesWrapAround` | src/main/java/com/chesapeaketechnology/networkviz/NetworkVisualizer.java:230 | 71582789 minutes wraps to 44 seconds |
| `InputDecisions.AsWrittenAcceptsOverflowingMinutes` | src/main/java/com/chesapeaketechnology/networkviz/NetworkVisualizer.java:229-238 | the written dialog accepts "71582789" minutes as 44 seconds, while the corrected one refuses 4294967340 seconds |
| `InputDecisions.ChooseLink` | src/main/java/com/chesapeaketechnology/networkviz/NetworkVisualizer.java:173-198 | cancel exactly when there is no answer; a blank answer loads the default USGS feed; a non-blank answer ending in ".json" is loaded exactly as typed (untrimmed); any other loaded address is such an answer; refused exactly when the answer is neither blank nor ends in ".json" |
| `InputDecisions.DefaultFeedRefusedWhenTyped` | src/main/java/com/chesapeaketechnology/networkviz/NetworkVisualizer.java:180-190 | a blank answer loads the default feed, but typing that same address is refused because it ends in ".geojson" |
| `InputDecisions.ChooseFile` | src/main/java/com/chesapeaketechnology/networkviz/NetworkVisualizer.java:130-148 | cancel exactly when nothing was selected; loaded exactly when the name ends in ".json", and then the selected name itself is loaded |
| `Layers.RemoveFirst` | src/main/java/com/chesapeaketechnology/networkviz/NetworkVisualizer.java:286 | `LayerList.remove` leaves a list without the layer unchanged and otherwise removes exactly one element |
| `Layers.RemoveFirstKeepsOrder` | src/main/java/com/chesapeaketechnology/networkviz/NetworkVisualizer.java:286 | removal keeps the layers before and after the removed one, in order |
| `Layers.Deregister` | src/main/java/com/chesapeaketechnology/networkviz/NetworkVisualizer.java:285-286 | with no current layer, or one not registered, the list is unchanged; otherwise it is one layer shorter (which one and the order of the rest: `Layers.RemoveFirstKeepsOrder`) |
| `Layers.NamedCountRemoveFirst` | src/main/java/com/chesapeaketechnology/networkviz/NetworkVisualizer.java:284-286 | removing a registered layer lowers the count of its own name by one and leaves every other name's count unchanged |
| `Layers.RemoveFirstKeepsOthers` | src/main/java/com/chesapeaketechnology/networkviz/NetworkVisualizer.java:313-314 | removing the live layer keeps the file layer registered, and the other way round |
| `Layers.RemovedSlotLayerGone` | src/main/java/com/chesapeaketechnology/networkviz/NetworkVisualizer.java:285-286 | once the slot's layer is removed it is no longer registered at all |
| `Layers.OwnedNameAtMostOnce` | src/main/java/com/chesapeaketechnology/networkviz/NetworkVisualizer.java:284-296 | a slot that owns its name leaves at most one registered layer with that name |
| `Layers.SlotCleared` | src/main/java/com/chesapeaketechnology/networkviz/NetworkVisualizer.java:284-290 | after the slot's layer is removed no layer carries the slot's name, and the other slot still owns its name |
| `Layers.SlotFilled` | src/main/java/com/chesapeaketechnology/networkviz/NetworkVisualizer.java:289-296 | a new layer with the slot's name owns that name whether or not it is appended, and appending it leaves the other slot intact |
| `Layers.FileSlotReplaced` | src/main/java/com/chesapeaketechnology/networkviz/NetworkVisualizer.java:284-296 | replacing the file slot's layer keeps both slots owning their names, with or without the append |
| `Layers.LiveSlotReplaced` | src/main/java/com/chesapeaketechnology/networkviz/NetworkVisualizer.java:312-325 | replacing the live slot's layer keeps both slots owning their names, with or without the append |
| `Visualizer.SwingTimer.Start` | src/main/java/com/chesapeaketechnology/networkviz/NetworkVisualizer.java:275 | a started timer runs |
| `Visualizer.SwingTimer.Stop` | src/main/java/com/chesapeaketechnology/networkviz/NetworkVisualizer.java:265 | a stopped timer does not run |
| `Visualizer.NetworkVisualizer.constructor` | src/main/java/com/chesapeaketechnology/networkviz/NetworkVisualizer.java:56-65 | the interval starts at 300 seconds and the label shows it; no feed, no timer, no feed layers; the invariant holds |
| `Visualizer.NetworkVisualizer.FeedLayersAtMostOnce` | src/main/java/com/chesapeaketechnology/networkviz/NetworkVisualizer.java:282-334 | at most one file layer and at most one live layer are ever registered |
| `Visualizer.NetworkVisualizer.OnlyCurrentTimerRuns` | src/main/java/com/chesapeaketechnology/networkviz/NetworkVisualizer.java:261-277 | of all the timers ever created, exactly the current one runs |
| `Visualizer.NetworkVisualizer.StartTimer` | src/main/java/com/chesapeaketechnology/networkviz/NetworkVisualizer.java:261-277 | the previous timer is stopped; a fresh running timer with period `queryInterval * 1000` ms becomes the current one; the label shows `queryInterval`; nothing else changes |
| `Visualizer.NetworkVisualizer.AddSlotLayer` | src/main/java/com/chesapeaketechnology/networkviz/NetworkVisualizer.java:295-296 | the slot's layer is appended and one redraw is requested; both slots still own their names |
| `Visualizer.NetworkVisualizer.RenewFileSlot` | src/main/java/com/chesapeaketechnology/networkviz/NetworkVisualizer.java:284-294 | the old file layer is removed and no longer registered; a fresh layer named "GeoJSON File Layer" is in the slot; the loader is handed the file; nothing else changes |
| `Visualizer.NetworkVisualizer.RenewLiveSlot` | src/main/java/com/chesapeaketechnology/networkviz/NetworkVisualizer.java:312-323 | the old live layer is removed and no longer registered; a fresh layer named "Live GeoJSON Layer" is in the slot; the loader is handed the address; nothing else changes |
| `Visualizer.NetworkVisualizer.ParseAddFile` | src/main/java/com/chesapeaketechnology/networkviz/NetworkVisualizer.java:282-305 | the old file layer is removed in every case; the new one is appended with one redraw only on success; a failure reports the processing error; the live slot, the address and the timer are untouched |
| `Visualizer.NetworkVisualizer.ParseAddLive` | src/main/java/com/chesapeaketechnology/networkviz/NetworkVisualizer.java:310-334 | the old live layer is removed in every case; when the loader succeeds on a non-null address the new one is appended, one redraw is requested and the timer is restarted; otherwise the loading error is reported and the old timer keeps running with its period; the file slot is untouched |
| `Visualizer.NetworkVisualizer.Tick` | src/main/java/com/chesapeaketechnology/networkviz/NetworkVisualizer.java:268-273 | a tick reloads the live feed from the address held at that moment, which may be null; a successful tick appends the new live layer, requests one redraw, stops the firing timer and arms a fresh one with the label updated; a failed one (always, for a null address) leaves the layer unregistered and the timer running with its period |
| `Visualizer.NetworkVisualizer.OpenFile` | src/main/java/com/chesapeaketechnology/networkviz/NetworkVisualizer.java:130-148 | cancel changes nothing; a name not ending in ".json" reports the invalid-file error and changes nothing; a ".json" name is loaded into a fresh "GeoJSON File Layer", appended with one redraw only on success; the live slot, the address, the timers and the label are untouched |
| `Visualizer.NetworkVisualizer.LoadLiveFeed` | src/main/java/com/chesapeaketechnology/networkviz/NetworkVisualizer.java:180-190 | the address is stored and the live feed is loaded from it: on success the new live layer is appended, one redraw requested and a fresh timer armed with the label updated; on failure the timer, the timers and the label stay as they were |
| `Visualizer.NetworkVisualizer.OpenLink` | src/main/java/com/chesapeaketechnology/networkviz/NetworkVisualizer.java:173-198 | cancel and a refused answer change nothing (the latter reports the invalid-URL error); otherwise the chosen address is stored and loaded into a fresh "Live GeoJSON Layer", with the same layer, redraw, timer and label outcome as a live load; the file slot is untouched |
| `Visualizer.NetworkVisualizer.ApplyInterval` | src/main/java/com/chesapeaketechnology/networkviz/NetworkVisualizer.java:229-248 | an empty or non-numeric answer changes nothing; a number is stored in `queryInterval`; an out-of-range number reports the error and leaves the timer alone; an accepted one restarts the timer with period seconds * 1000 ms |
| `Visualizer.NetworkVisualizer.AdjustQueryTimer` | src/main/java/com/chesapeaketechnology/networkviz/NetworkVisualizer.java:216-252 | for each decision of the interval dialog, the report and the new state; the timer is restarted exactly for an accepted value, and a refused number stays stored |
| `Visualizer.RefusedIntervalReachesTimer` | src/main/java/com/chesapeaketechnology/networkviz/NetworkVisualizer.java:229-243 | after "0" seconds is refused, a blank link answer with a successful load arms a running timer with period 0 ms |
| `Visualizer.TimerWithoutFeed` | src/main/java/com/chesapeaketechnology/networkviz/NetworkVisualizer.java:237 | accepting "5" minutes before any address was entered arms a running 300 000 ms timer; its tick on the null address ends in the loading error with the timer still running and no live layer registered |

## Left out

- Swing and WorldWind set-up are not modelled: frame, panels, menus, file
  chooser set-up, label text layout and `main`. They have no state the feed
  logic reads.
- The `while(true)` re-prompt loops of the three actions are not modelled.
  Each method is one attempt, with the dialog's answer as input. A refused
  answer ends the call where the application would prompt again.
- `GeoJSONLoader.addSourceGeometryToLayer` is not modelled. It performs file
  and network I/O and parses GeoJSON in an external library. Only its success
  or failure is a parameter, and the geometry put into a layer is not
  represented.
- A load from a null address is taken to fail. The loader is outside the
  model, and a null source names no feed, so `ParseAddLive` reports the
  loading error for it whatever the loader parameter says.
- `redraw()` is a counter of requested redraws. Rendering is not modelled.
- Wall-clock time and the Swing timer thread are not modelled. A tick is an
  explicit call of `Tick`, and a timer is its period and its running flag.
- `Visualizer.NetworkVisualizer.Tick` requires an existing timer, because only
  a created timer can fire.
- The label is modelled as the number of seconds it shows, not as its text.
- `JavaText.ParseInt` accepts only ASCII digits. `Integer.parseInt` also
  accepts other Unicode decimal digits.
- The uncaught `NumberFormatException` of `Integer.parseInt` is an outcome of
  its own, with no state change (`UncaughtNumberFormat`). The exception's
  propagation through Swing is not modelled.
- `Visualizer.NetworkVisualizer.AdjustQueryTimer` decides with the corrected,
  non-wrapping `InputDecisions.ValidateInterval`. It therefore refuses
  "71582789" minutes, which the code accepts as 44 seconds and then restarts
  the timer with. An overflowing number that is refused is also stored
  differently: for "35791395" minutes the model stores 2147483700 in
  `queryInterval` where the code stores -2147483596, and the label shows that
  value after the next restart. The timer period is the same in both, since it
  is wrapped. The wrapping conversion is modelled separately, under Findings.
- `Visualizer.NetworkVisualizer.OpenFile` receives the selected file's name
  (`getName()`). The loader is handed that name in place of the `File` object.

## Findings

| source | as written | input that shows it | evidently intended | confidence | as-written member | corrected member |
|---|---|---|---|---|---|---|
| src/main/java/com/chesapeaketechnology/networkviz/NetworkVisualizer.java:230 | `queryInterval = timeValue * 60` is 32-bit `int` arithmetic and wraps before the range check | "71582789" with unit minutes: 71582789 * 60 = 4294967340 wraps to 44, and the interval is accepted as 44 seconds | a number of minutes whose seconds lie outside 1..300 is refused | not executed | `InputDecisions.ValidateIntervalAsWritten`, `InputDecisions.AsWrittenAcceptsOverflowingMinutes` | `InputDecisions.ValidateInterval` |
