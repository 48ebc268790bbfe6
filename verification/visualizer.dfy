/**
 * The live-feed and layer-slot state of NetworkVisualizer: the query
 * interval, the feed address, the refresh timer, the file and live layer
 * slots and the WorldWind layer list. Every action runs on the Swing event
 * thread, so each method is one atomic step of the state machine; a timer
 * tick is the method Tick.
 */
module Visualizer {
  import opened Wrappers
  import opened JavaText
  import opened InputDecisions
  import opened Layers

  /** A javax.swing.Timer with a fixed delay; its action reloads the live feed. */
  class SwingTimer {
    const delayMs: int
    var running: bool

    constructor (delayMs: int)
      ensures this.delayMs == delayMs && !running
    {
      this.delayMs := delayMs;
      running := false;
    }

    method Start()
      modifies this
      ensures running
    {
      running := true;
    }

    method Stop()
      modifies this
      ensures !running
    {
      running := false;
    }
  }

  /** What the GeoJSON loader was asked to read. */
  datatype Source = FileSource(fileName: string) | LiveSource(url: Option<string>)

  /** The message dialog an action ends with, if any. */
  datatype Report =
    | NoMessage
    | InvalidFile           // "The selected file is not a JSON file."
    | InvalidLink           // "Invalid JSON Feed URL. The URL must end with '.json'."
    | EmptyInterval         // "Input field cannot be empty. ..."
    | IntervalOutOfRange    // "Time value must be between 1 second and 5 minutes."
    | ProcessingError       // "Error processing the JSON file: ..."
    | LoadingError          // "Error loading GeoJSON data: ..."
    | UncaughtNumberFormat  // Integer.parseInt threw; the action ends without a dialog

  /** One confirmed answer of the interval dialog. */
  datatype IntervalEntry = IntervalEntry(text: string, unit: TimeUnit)

  /** The fields of a NetworkVisualizer, as one value. */
  datatype Snapshot = Snapshot(
    queryInterval: int, labelSeconds: int, url: Option<string>, timer: SwingTimer?,
    fileLayer: Layer?, liveLayer: Layer?, layers: seq<Layer>, redraws: nat,
    timers: seq<SwingTimer>, loads: seq<Source>)

  class NetworkVisualizer {
    var queryInterval: int
    /** The number of seconds the status bar label "Query Interval: N seconds" shows. */
    var labelSeconds: int
    var url: Option<string>
    var timer: SwingTimer?
    var fileLayer: Layer?
    var liveLayer: Layer?
    /** The layers registered with the WorldWind model, in order. */
    var layers: seq<Layer>
    /** How many times a redraw of the window was requested. */
    var redraws: nat
    /** Every timer ever created, oldest first; the last one is `timer`. */
    ghost var timers: seq<SwingTimer>
    /** Every source handed to the loader, oldest first. */
    ghost var loads: seq<Source>

    /**
     * Only the newest timer can fire, and it runs; the label shows its period
     * (or the default before any timer exists).
     */
    ghost predicate TimersValid()
      reads this, timers
    {
      (timer == null <==> timers == []) &&
      (timer != null ==> timer == timers[|timers| - 1] && timer.running) &&
      (forall i :: 0 <= i < |timers| - 1 ==> !timers[i].running) &&
      (timer == null ==> labelSeconds == DefaultQueryInterval) &&
      (timer != null ==> timer.delayMs == Int32Wrap(labelSeconds * 1000))
    }

    ghost function State(): Snapshot
      reads this
    {
      Snapshot(queryInterval, labelSeconds, url, timer, fileLayer, liveLayer, layers, redraws, timers, loads)
    }

    ghost predicate Valid()
      reads this, timers
    {
      TimersValid() && SlotsOwned(layers, fileLayer, liveLayer)
    }

    /** launchApplication: the default interval, no feed, no timer, WorldWind's own layers. */
    constructor (baseLayers: seq<Layer>)
      requires forall l :: l in baseLayers ==> l.name != FileLayerName && l.name != LiveLayerName
      ensures Valid()
      ensures queryInterval == DefaultQueryInterval && labelSeconds == DefaultQueryInterval
      ensures url == None && timer == null && timers == []
      ensures fileLayer == null && liveLayer == null
      ensures layers == baseLayers && redraws == 0 && loads == []
    {
      NamedNone(baseLayers, FileLayerName);
      NamedNone(baseLayers, LiveLayerName);
      queryInterval := DefaultQueryInterval;
      labelSeconds := DefaultQueryInterval;
      url := None;
      timer := null;
      fileLayer := null;
      liveLayer := null;
      layers := baseLayers;
      redraws := 0;
      timers := [];
      loads := [];
    }

    /** At most one file layer and at most one live layer are registered. */
    lemma FeedLayersAtMostOnce()
      requires Valid()
      ensures AtMostOneNamed(layers, FileLayerName) && AtMostOneNamed(layers, LiveLayerName)
    {
      OwnedNameAtMostOnce(layers, fileLayer, FileLayerName);
      OwnedNameAtMostOnce(layers, liveLayer, LiveLayerName);
    }

    /** Of all the timers ever created, the current one is the only one running. */
    lemma OnlyCurrentTimerRuns()
      requires Valid()
      ensures forall i :: 0 <= i < |timers| ==> (timers[i].running <==> timers[i] == timer)
    {
    }

    /**
     * startTimer: stops the current timer, then creates and starts a new one
     * whose period is the query interval in milliseconds, and updates the label.
     */
    method StartTimer()
      requires TimersValid()
      modifies this, timer
      ensures TimersValid()
      ensures fresh(timer) && timer.running && timer.delayMs == Int32Wrap(queryInterval * 1000)
      ensures timers == old(timers) + [timer]
      ensures old(timer) != null ==> !old(timer).running
      ensures labelSeconds == queryInterval
      ensures queryInterval == old(queryInterval) && url == old(url)
      ensures fileLayer == old(fileLayer) && liveLayer == old(liveLayer)
      ensures layers == old(layers) && redraws == old(redraws) && loads == old(loads)
    {
      if timer != null {
        timer.Stop();
      }
      timer := new SwingTimer(Int32Wrap(queryInterval * 1000));
      timer.Start();
      timers := timers + [timer];
      labelSeconds := queryInterval;
    }

    /**
     * The success path shared by both parseAddJson overloads: the slot's
     * freshly filled layer is added to the WorldWind layer list and a redraw
     * is requested.
     */
    method AddSlotLayer(layer: Layer)
      requires Valid()
      requires layer == fileLayer || layer == liveLayer
      requires NamedCount(layers, layer.name) == 0
      modifies this
      ensures Valid()
      ensures State() == old(State()).(layers := old(layers) + [layer], redraws := old(redraws) + 1)
    {
      FeedNamesDiffer();
      if layer == fileLayer {
        SlotFilled(layers, layer, FileLayerName, liveLayer, LiveLayerName);
      } else {
        SlotFilled(layers, layer, LiveLayerName, fileLayer, FileLayerName);
      }
      layers := layers + [layer];
      redraws := redraws + 1;
    }

    /**
     * The first steps of parseAddJson(File): the file slot's layer is removed
     * from the layer list, a new empty layer named "GeoJSON File Layer" takes
     * its place in the slot, and the loader is handed the file.
     */
    method RenewFileSlot(fileName: string)
      requires Valid()
      modifies this
      ensures Valid()
      ensures fresh(fileLayer) && fileLayer.name == FileLayerName
      ensures NamedCount(layers, FileLayerName) == 0
      ensures old(fileLayer) != null ==> old(fileLayer) !in layers
      ensures State() == old(State()).(layers := Deregister(old(layers), old(fileLayer)),
        fileLayer := fileLayer, loads := old(loads) + [FileSource(fileName)])
    {
      var layer := new Layer(FileLayerName);
      FileSlotReplaced(layers, fileLayer, liveLayer, layer);
      if fileLayer != null {
        RemovedSlotLayerGone(layers, fileLayer, FileLayerName);
      }
      layers := Deregister(layers, fileLayer);
      fileLayer := layer;
      loads := loads + [FileSource(fileName)];
    }

    /**
     * The first steps of parseAddJson(String), the same for the live slot and
     * the name "Live GeoJSON Layer".
     */
    method RenewLiveSlot(source: Option<string>)
      requires Valid()
      modifies this
      ensures Valid()
      ensures fresh(liveLayer) && liveLayer.name == LiveLayerName
      ensures NamedCount(layers, LiveLayerName) == 0
      ensures old(liveLayer) != null ==> old(liveLayer) !in layers
      ensures State() == old(State()).(layers := Deregister(old(layers), old(liveLayer)),
        liveLayer := liveLayer, loads := old(loads) + [LiveSource(source)])
    {
      var layer := new Layer(LiveLayerName);
      LiveSlotReplaced(layers, fileLayer, liveLayer, layer);
      if liveLayer != null {
        RemovedSlotLayerGone(layers, liveLayer, LiveLayerName);
      }
      layers := Deregister(layers, liveLayer);
      liveLayer := layer;
      loads := loads + [LiveSource(source)];
    }

    /**
     * parseAddJson(File): removes the current file layer, installs a new one
     * in the slot and asks the loader to fill it; only when the loader
     * succeeds is the new layer added and a redraw requested.
     */
    method ParseAddFile(fileName: string, loadOk: bool) returns (report: Report)
      requires Valid()
      modifies this
      ensures Valid()
      ensures fresh(fileLayer) && fileLayer.name == FileLayerName
      ensures layers == Deregister(old(layers), old(fileLayer)) + (if loadOk then [fileLayer] else [])
      ensures old(fileLayer) != null ==> old(fileLayer) !in layers
      ensures redraws == old(redraws) + (if loadOk then 1 else 0)
      ensures loads == old(loads) + [FileSource(fileName)]
      ensures report == if loadOk then NoMessage else ProcessingError
      ensures liveLayer == old(liveLayer) && url == old(url) && queryInterval == old(queryInterval)
      ensures timer == old(timer) && timers == old(timers) && labelSeconds == old(labelSeconds)
    {
      RenewFileSlot(fileName);
      if loadOk {
        AddSlotLayer(fileLayer);
        report := NoMessage;
      } else {
        report := ProcessingError;
      }
    }

    /**
     * parseAddJson(String): removes the current live layer, installs a new
     * one in the slot and asks the loader to fill it from the source; only
     * when the loader succeeds is the new layer added, a redraw requested and
     * the timer restarted. The loader cannot read a null address (a timer can
     * be armed by the interval action before any address was entered), so
     * that load always fails.
     */
    method ParseAddLive(source: Option<string>, loadOk: bool) returns (report: Report)
      requires Valid()
      modifies this, timer
      ensures Valid()
      ensures fresh(liveLayer) && liveLayer.name == LiveLayerName
      ensures layers == Deregister(old(layers), old(liveLayer)) + (if loadOk && source.Some? then [liveLayer] else [])
      ensures old(liveLayer) != null ==> old(liveLayer) !in layers
      ensures redraws == old(redraws) + (if loadOk && source.Some? then 1 else 0)
      ensures loads == old(loads) + [LiveSource(source)]
      ensures report == if loadOk && source.Some? then NoMessage else LoadingError
      ensures loadOk && source.Some? ==>
        fresh(timer) && timer.running && timer.delayMs == Int32Wrap(queryInterval * 1000)
      ensures loadOk && source.Some? ==> timers == old(timers) + [timer] && labelSeconds == queryInterval
      ensures loadOk && source.Some? && old(timer) != null ==> !old(timer).running
      ensures !(loadOk && source.Some?) ==>
        timer == old(timer) && timers == old(timers) && labelSeconds == old(labelSeconds)
      ensures !(loadOk && source.Some?) && timer != null ==> timer.running
      ensures fileLayer == old(fileLayer) && url == old(url) && queryInterval == old(queryInterval)
    {
      RenewLiveSlot(source);
      if loadOk && source.Some? {
        AddSlotLayer(liveLayer);
        StartTimer();
        report := NoMessage;
      } else {
        report := LoadingError;
      }
    }

    /** The timer fires: the live feed is reloaded from the address held at that moment. */
    method Tick(loadOk: bool) returns (report: Report)
      requires Valid() && timer != null
      modifies this, timer
      ensures Valid()
      ensures loads == old(loads) + [LiveSource(url)] && url == old(url)
      ensures fresh(liveLayer) && liveLayer.name == LiveLayerName
      ensures layers == Deregister(old(layers), old(liveLayer)) + (if loadOk && url.Some? then [liveLayer] else [])
      ensures redraws == old(redraws) + (if loadOk && url.Some? then 1 else 0)
      ensures report == if loadOk && url.Some? then NoMessage else LoadingError
      ensures loadOk && url.Some? ==>
        fresh(timer) && timer.running && timer.delayMs == Int32Wrap(queryInterval * 1000) &&
        timers == old(timers) + [timer] && labelSeconds == queryInterval && !old(timer).running
      ensures !(loadOk && url.Some?) ==>
        timer == old(timer) && timer.running && timer.delayMs == old(timer.delayMs) &&
        timers == old(timers) && labelSeconds == old(labelSeconds)
      ensures fileLayer == old(fileLayer) && queryInterval == old(queryInterval)
    {
      report := ParseAddLive(url, loadOk);
    }

    /** "Open File...": one answer of the file chooser (None when cancelled). */
    method OpenFile(selection: Option<string>, loadOk: bool) returns (report: Report)
      requires Valid()
      modifies this
      ensures Valid()
      ensures ChooseFile(selection) == FileCancelled ==> report == NoMessage && State() == old(State())
      ensures ChooseFile(selection) == FileRejected ==> report == InvalidFile && State() == old(State())
      ensures ChooseFile(selection).LoadFile? ==>
        loads == old(loads) + [FileSource(selection.value)] &&
        fresh(fileLayer) && fileLayer.name == FileLayerName &&
        layers == Deregister(old(layers), old(fileLayer)) + (if loadOk then [fileLayer] else []) &&
        redraws == old(redraws) + (if loadOk then 1 else 0) &&
        report == (if loadOk then NoMessage else ProcessingError)
      ensures liveLayer == old(liveLayer) && url == old(url) && timer == old(timer)
      ensures timers == old(timers) && labelSeconds == old(labelSeconds)
      ensures queryInterval == old(queryInterval)
    {
      match ChooseFile(selection)
      case FileCancelled =>
        report := NoMessage;
      case FileRejected =>
        report := InvalidFile;
      case LoadFile(name) =>
        report := ParseAddFile(name, loadOk);
    }

    /**
     * The two accepting branches of "Open Link...": the address is stored and
     * the live feed is loaded from it.
     */
    method LoadLiveFeed(u: string, loadOk: bool) returns (report: Report)
      requires Valid()
      modifies this, timer
      ensures Valid()
      ensures url == Some(u) && loads == old(loads) + [LiveSource(Some(u))]
      ensures fresh(liveLayer) && liveLayer.name == LiveLayerName
      ensures layers == Deregister(old(layers), old(liveLayer)) + (if loadOk then [liveLayer] else [])
      ensures redraws == old(redraws) + (if loadOk then 1 else 0)
      ensures report == if loadOk then NoMessage else LoadingError
      ensures loadOk ==> fresh(timer) && timer.running && timer.delayMs == Int32Wrap(queryInterval * 1000)
      ensures loadOk ==> timers == old(timers) + [timer] && labelSeconds == queryInterval
      ensures loadOk && old(timer) != null ==> !old(timer).running
      ensures !loadOk ==> timer == old(timer) && timers == old(timers) && labelSeconds == old(labelSeconds)
      ensures fileLayer == old(fileLayer) && queryInterval == old(queryInterval)
    {
      url := Some(u);
      report := ParseAddLive(url, loadOk);
    }

    /** "Open Link...": one answer of the link dialog (None when cancelled). */
    method OpenLink(input: Option<string>, loadOk: bool) returns (report: Report)
      requires Valid()
      modifies this, timer
      ensures Valid()
      ensures ChooseLink(input) == LinkCancelled ==> report == NoMessage && State() == old(State())
      ensures ChooseLink(input) == LinkRejected ==> report == InvalidLink && State() == old(State())
      ensures ChooseLink(input).LoadLink? ==>
        url == Some(ChooseLink(input).url) &&
        loads == old(loads) + [LiveSource(url)] &&
        fresh(liveLayer) && liveLayer.name == LiveLayerName &&
        layers == Deregister(old(layers), old(liveLayer)) + (if loadOk then [liveLayer] else []) &&
        redraws == old(redraws) + (if loadOk then 1 else 0) &&
        report == (if loadOk then NoMessage else LoadingError)
      ensures ChooseLink(input).LoadLink? && loadOk ==>
        fresh(timer) && timer.running && timer.delayMs == Int32Wrap(queryInterval * 1000) &&
        timers == old(timers) + [timer] && labelSeconds == queryInterval &&
        (old(timer) != null ==> !old(timer).running)
      ensures ChooseLink(input).LoadLink? && !loadOk ==>
        timer == old(timer) && timers == old(timers) && labelSeconds == old(labelSeconds)
      ensures fileLayer == old(fileLayer) && queryInterval == old(queryInterval)
    {
      match ChooseLink(input)
      case LinkCancelled =>
        report := NoMessage;
      case LinkRejected =>
        report := InvalidLink;
      case LoadLink(u) =>
        report := LoadLiveFeed(u, loadOk);
    }

    /**
     * What the interval action does once the dialog's answer is decided: a
     * number, in range or not, is stored in queryInterval first; an accepted
     * one then restarts the timer, a refused one is reported and stays stored.
     */
    method ApplyInterval(d: IntervalDecision) returns (report: Report)
      requires Valid()
      requires d.Accepted? ==> MinQueryInterval <= d.seconds <= MaxQueryInterval
      modifies this, timer
      ensures Valid()
      ensures d == EmptyInput ==> report == EmptyInterval && State() == old(State())
      ensures d == NotANumber ==> report == UncaughtNumberFormat && State() == old(State())
      ensures d.OutOfRange? ==>
        report == IntervalOutOfRange && queryInterval == d.seconds &&
        timer == old(timer) && timers == old(timers) && labelSeconds == old(labelSeconds)
      ensures d.Accepted? ==>
        report == NoMessage && queryInterval == d.seconds &&
        fresh(timer) && timer.running && timer.delayMs == d.seconds * 1000 &&
        timers == old(timers) + [timer] && labelSeconds == d.seconds &&
        (old(timer) != null ==> !old(timer).running)
      ensures !d.Accepted? ==> timer == old(timer) && (timer == null || timer.running)
      ensures url == old(url) && fileLayer == old(fileLayer) && liveLayer == old(liveLayer)
      ensures layers == old(layers) && redraws == old(redraws) && loads == old(loads)
    {
      match d
      case EmptyInput =>
        report := EmptyInterval;
      case NotANumber =>
        report := UncaughtNumberFormat;
      case OutOfRange(s) =>
        queryInterval := s;
        report := IntervalOutOfRange;
      case Accepted(s) =>
        queryInterval := s;
        StartTimer();
        report := NoMessage;
    }

    /**
     * "Adjust Query Timer...": one answer of the interval dialog (None when
     * cancelled). A number is stored in queryInterval before the range check,
     * so a refused value stays stored; only an accepted one restarts the timer.
     */
    method AdjustQueryTimer(entry: Option<IntervalEntry>) returns (report: Report)
      requires Valid()
      modifies this, timer
      ensures Valid()
      ensures entry.None? ==> report == NoMessage && State() == old(State()) && timer == old(timer)
      ensures entry.Some? ==> match ValidateInterval(entry.value.text, entry.value.unit)
        case EmptyInput => report == EmptyInterval && State() == old(State())
        case NotANumber => report == UncaughtNumberFormat && State() == old(State())
        case OutOfRange(s) =>
          report == IntervalOutOfRange && queryInterval == s &&
          timer == old(timer) && timers == old(timers) && labelSeconds == old(labelSeconds)
        case Accepted(s) =>
          report == NoMessage && queryInterval == s &&
          fresh(timer) && timer.running && timer.delayMs == s * 1000 &&
          timers == old(timers) + [timer] && labelSeconds == s &&
          (old(timer) != null ==> !old(timer).running)
      ensures timer == old(timer) ==> timer == null || timer.running
      ensures url == old(url) && fileLayer == old(fileLayer) && liveLayer == old(liveLayer)
      ensures layers == old(layers) && redraws == old(redraws) && loads == old(loads)
    {
      match entry
      case None =>
        report := NoMessage;
      case Some(e) =>
        report := ApplyInterval(ValidateInterval(e.text, e.unit));
    }
  }

  /**
   * A refused interval is not forgotten: after "0" seconds is refused, the
   * next successful live load (a blank link answer, which loads the default
   * feed) restarts the timer with that stored value, a period of 0 ms.
   */
  method RefusedIntervalReachesTimer() returns (v: NetworkVisualizer, refused: Report, loaded: Report)
    ensures refused == IntervalOutOfRange && loaded == NoMessage
    ensures v.Valid() && v.url == Some(DefaultFeedUrl)
    ensures v.queryInterval == 0 && v.timer != null && v.timer.running && v.timer.delayMs == 0
  {
    v := new NetworkVisualizer([]);
    OutOfRangeSeconds();
    refused := v.AdjustQueryTimer(Some(IntervalEntry("0", Seconds)));
    loaded := v.OpenLink(Some(""), true);
  }

  /**
   * A timer can run with no feed: accepting "5" minutes before any address
   * was entered arms a running 300 000 ms timer, and each of its ticks hands
   * the loader a null address, ends in the loading error and leaves that
   * timer running.
   */
  method TimerWithoutFeed() returns (v: NetworkVisualizer, armed: Report, ticked: Report)
    ensures armed == NoMessage && ticked == LoadingError
    ensures v.Valid() && v.url == None && v.liveLayer != null && v.liveLayer !in v.layers
    ensures v.timer != null && v.timer.running && v.timer.delayMs == 300000
  {
    v := new NetworkVisualizer([]);
    FiveMinutesAccepted();
    armed := v.AdjustQueryTimer(Some(IntervalEntry("5", Minutes)));
    ticked := v.Tick(true);
  }
}
