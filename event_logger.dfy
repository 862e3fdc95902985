/** client/src/hooks/useEnhancedEventLogger.ts: the analytics logger's
    session guard, rapid-click window, feature de-duplication, hesitation
    threshold, device classification and journey path. The clock, the
    random session suffix, the language and the server call are
    parameters or the `sent` log. */
module EventLogger {
  import opened Wrappers

  // ----- device classification -----

  datatype DeviceType = Mobile | Tablet | Desktop
  datatype InputMethod = Touch | Mouse
  datatype Orientation = Landscape | Portrait

  datatype DeviceInfo = DeviceInfo(deviceType: DeviceType, viewportWidth: int, viewportHeight: int,
                                   inputMethod: InputMethod, orientation: Orientation)

  /** `getDeviceInfo` for a viewport of `width` by `height`, where touch
      means `'ontouchstart' in window || navigator.maxTouchPoints > 0`. */
  function GetDeviceInfo(width: int, height: int, hasTouchStart: bool, maxTouchPoints: int): (d: DeviceInfo)
    ensures d.deviceType == Mobile <==> width < 768
    ensures d.deviceType == Tablet <==> 768 <= width < 1024
    ensures d.deviceType == Desktop <==> 1024 <= width
    ensures d.inputMethod == Touch <==> hasTouchStart || maxTouchPoints > 0
    ensures d.orientation == Landscape <==> width > height
    ensures d.viewportWidth == width && d.viewportHeight == height
  {
    var deviceType := if width < 768 then Mobile else if width < 1024 then Tablet else Desktop;
    DeviceInfo(deviceType, width, height,
               if hasTouchStart || maxTouchPoints > 0 then Touch else Mouse,
               if width > height then Landscape else Portrait)
  }

  function Rank(t: DeviceType): nat
  {
    match t
    case Mobile => 0
    case Tablet => 1
    case Desktop => 2
  }

  /** Widening the viewport never moves a device to a smaller class, and
      turning a landscape viewport by swapping its sides makes it portrait. */
  lemma DeviceClassMonotone(w1: int, w2: int, h: int, touch: bool, points: int)
    requires w1 <= w2
    ensures Rank(GetDeviceInfo(w1, h, touch, points).deviceType) <= Rank(GetDeviceInfo(w2, h, touch, points).deviceType)
    ensures GetDeviceInfo(w1, h, touch, points).orientation == Landscape ==>
              GetDeviceInfo(h, w1, touch, points).orientation == Portrait
  {
  }

  // ----- rapid clicks -----

  /** The per-button record: clicks counted and when the window opened. */
  datatype ClickEntry = ClickEntry(count: int, firstClick: int)

  const ClickWindowMs := 2000

  predicate InWindow(existing: Option<ClickEntry>, now: int)
  {
    existing.Some? && now - existing.value.firstClick < ClickWindowMs
  }

  /** The record after a click at `now`: one more click in an open
      window, otherwise a new window holding this click alone. */
  function ClickUpdate(existing: Option<ClickEntry>, now: int): (e: ClickEntry)
    ensures InWindow(existing, now) ==> e.firstClick == existing.value.firstClick && e.count == existing.value.count + 1
    ensures !InWindow(existing, now) ==> e == ClickEntry(1, now)
  {
    if InWindow(existing, now) then ClickEntry(existing.value.count + 1, existing.value.firstClick)
    else ClickEntry(1, now)
  }

  /** The record of a button after clicks at `times`, starting from
      `start`. */
  function Clicks(start: Option<ClickEntry>, times: seq<int>): Option<ClickEntry>
  {
    if times == [] then start else Some(ClickUpdate(Clicks(start, times[..|times| - 1]), times[|times| - 1]))
  }

  /** Clicks that all land less than 2 s after the first are counted in
      one window opened by the first click. */
  lemma {:induction false} ClicksInOneWindow(times: seq<int>)
    requires |times| > 0
    requires forall i :: 0 <= i < |times| ==> times[i] - times[0] < ClickWindowMs
    ensures Clicks(None, times) == Some(ClickEntry(|times|, times[0]))
  {
    if |times| > 1 {
      var prefix := times[..|times| - 1];
      assert prefix[0] == times[0];
      assert forall i :: 0 <= i < |prefix| ==> prefix[i] == times[i];
      ClicksInOneWindow(prefix);
    }
  }

  /** A click 2 s or more after the window opened starts a new one. */
  lemma WindowExpires(e: ClickEntry, now: int)
    requires now - e.firstClick >= ClickWindowMs
    ensures Clicks(Some(e), [now]) == Some(ClickEntry(1, now))
  {
    assert [now][..0] == [];
  }

  /** The report a click produces: when it lands in an open window and
      brings the count to 3 or more, the count, the window length in
      seconds and whether 4 or more clicks suggest frustration. */
  datatype RapidReport = RapidReport(clickCount: int, timeWindow: real, possibleFrustration: bool)

  function RapidClickReport(existing: Option<ClickEntry>, now: int): (r: Option<RapidReport>)
    ensures r.Some? <==> InWindow(existing, now) && ClickUpdate(existing, now).count >= 3
    ensures r.Some? ==> r.value.clickCount == ClickUpdate(existing, now).count
                        && r.value.timeWindow * 1000.0 == (now - existing.value.firstClick) as real
                        && (r.value.possibleFrustration <==> r.value.clickCount >= 4)
  {
    if InWindow(existing, now) && existing.value.count + 1 >= 3 then
      Some(RapidReport(existing.value.count + 1, (now - existing.value.firstClick) as real / 1000.0,
                       existing.value.count + 1 >= 4))
    else None
  }

  /** In a burst of clicks inside one window, the first two report
      nothing, the third reports three clicks without frustration, and
      every later one reports its own count with frustration. */
  lemma BurstReports(times: seq<int>, k: nat)
    requires 0 < k < |times|
    requires forall i :: 0 <= i < |times| ==> times[i] - times[0] < ClickWindowMs
    ensures var r := RapidClickReport(Clicks(None, times[..k]), times[k]);
            (k < 2 ==> r.None?)
            && (k >= 2 ==> r == Some(RapidReport(k + 1, (times[k] - times[0]) as real / 1000.0, k + 1 >= 4)))
  {
    var prefix := times[..k];
    assert prefix[0] == times[0];
    assert forall i :: 0 <= i < |prefix| ==> prefix[i] == times[i];
    ClicksInOneWindow(prefix);
  }

  // ----- feature discovery -----

  /** The features `logFeatureDiscovered` reports, in order, for a run of
      discoveries starting from the already discovered `seen`. */
  function DiscoveryLog(seen: set<string>, names: seq<string>): seq<string>
  {
    if names == [] then []
    else
      var before := names[..|names| - 1];
      var f := names[|names| - 1];
      DiscoveryLog(seen, before) + (if f in seen || f in before then [] else [f])
  }

  /** Each feature is reported at most once, only if it was not already
      discovered, and every newly discovered feature is reported. */
  lemma {:induction false} DiscoveryLogOnce(seen: set<string>, names: seq<string>)
    ensures forall i, j :: 0 <= i < j < |DiscoveryLog(seen, names)| ==> DiscoveryLog(seen, names)[i] != DiscoveryLog(seen, names)[j]
    ensures forall f :: f in DiscoveryLog(seen, names) <==> f in names && f !in seen
  {
    if names != [] {
      var before := names[..|names| - 1];
      DiscoveryLogOnce(seen, before);
      assert forall f :: f in names <==> f in before || f == names[|names| - 1];
    }
  }

  // ----- journey -----

  const JourneySeparator := " \U{2192} "

  /** `journeySteps.join(' → ')`. */
  function JourneyPath(steps: seq<string>): string
  {
    Join(steps, JourneySeparator)
  }

  /** `steps[steps.length - 1] || 'start'`: the last step, or 'start' when
      there is none or it is empty. */
  function PreviousStep(steps: seq<string>): (p: string)
    ensures p != ""
    ensures |steps| > 0 && steps[|steps| - 1] != "" ==> p == steps[|steps| - 1]
    ensures steps == [] ==> p == "start"
  {
    if |steps| > 0 && steps[|steps| - 1] != "" then steps[|steps| - 1] else "start"
  }

  /** Recording a step extends the path by the separator and the step,
      and makes it the previous step of the next one. */
  lemma JourneyStepExtends(steps: seq<string>, step: string)
    ensures JourneyPath(steps + [step]) == if steps == [] then step else JourneyPath(steps) + JourneySeparator + step
    ensures step != "" ==> PreviousStep(steps + [step]) == step
  {
    assert (steps + [step])[..|steps|] == steps;
  }

  // ----- events -----

  datatype EventData =
    | RapidClicks(buttonName: string, report: RapidReport)
    | FeatureDiscovered(featureName: string, discoveryMethod: string)
    | FeatureUsed(fields: map<string, string>, wasDiscovered: bool)
    | FieldHesitation(fieldName: string, hoverDuration: real, didClick: bool)
    | JourneyStep(step: string, previousStep: string, journeyPath: string)
    | SessionStart(info: DeviceInfo)

  function EventType(d: EventData): string
  {
    match d
    case RapidClicks(_, _) => "rapid_clicks"
    case FeatureDiscovered(_, _) => "feature_discovered"
    case FeatureUsed(_, _) => "feature_used"
    case FieldHesitation(_, _, _) => "field_hesitation"
    case JourneyStep(_, _, _) => "journey_step"
    case SessionStart(_) => "session_start"
  }

  /** A call of the log mutation. */
  datatype Event = Event(eventType: string, sessionId: string, data: EventData)

  /** `session_${Date.now()}_${random}` from its two varying parts. */
  function NewSessionId(stamp: string, random: string): (id: string)
    ensures |id| > 8 && id[..8] == "session_"
  {
    "session_" + stamp + "_" + random
  }

  /** `{ featureName, ...featureData, wasDiscovered }` without the last
      field: a `featureName` entry of the data overrides the name, and a
      `wasDiscovered` entry is itself overridden and so dropped here. An
      absent `featureData` is the empty map. */
  function FeatureUsedFields(featureName: string, featureData: map<string, string>): (f: map<string, string>)
    ensures f.Keys == {"featureName"} + featureData.Keys - {"wasDiscovered"}
    ensures forall k :: k in featureData && k != "wasDiscovered" ==> f[k] == featureData[k]
    ensures "featureName" !in featureData ==> f["featureName"] == featureName
  {
    map["featureName" := featureName] + (featureData - {"wasDiscovered"})
  }

  class Logger {
    var sessionId: Option<string>
    var journeySteps: seq<string>
    var discovered: set<string>
    var clickCounts: map<string, ClickEntry>
    var sent: seq<Event>

    constructor ()
      ensures sessionId == None && journeySteps == [] && discovered == {} && clickCounts == map[] && sent == []
    {
      sessionId := None;
      journeySteps := [];
      discovered := {};
      clickCounts := map[];
      sent := [];
    }

    /** `!sessionIdRef.current` fails: there is a non-empty session id. */
    predicate Active()
      reads this
    {
      sessionId.Some? && sessionId.value != ""
    }

    /** The mount effect: a non-empty stored id is reused and nothing is
        written; otherwise a new id is made and returned for storage. */
    method InitSession(stored: Option<string>, stamp: string, random: string) returns (write: Option<string>)
      modifies this`sessionId
      ensures stored.Some? && stored.value != "" ==> sessionId == stored && write == None
      ensures !(stored.Some? && stored.value != "") ==> sessionId == Some(NewSessionId(stamp, random)) && write == sessionId
      ensures Active()
    {
      if stored.Some? && stored.value != "" {
        sessionId := stored;
        write := None;
      } else {
        var newId := NewSessionId(stamp, random);
        sessionId := Some(newId);
        write := Some(newId);
      }
    }

    /** `baseLog`: sends the event when a session exists, else drops it. */
    method BaseLog(data: EventData)
      modifies this`sent
      ensures sent == old(sent) + (if Active() then [Event(EventType(data), sessionId.value, data)] else [])
    {
      if !Active() {
        return;
      }
      sent := sent + [Event(EventType(data), sessionId.value, data)];
    }

    /** `logRapidClicks`: counts below 3 are not reported. */
    method LogRapidClicks(buttonName: string, clickCount: int, timeWindow: real)
      modifies this`sent
      ensures sent == old(sent) +
                (if Active() && clickCount >= 3
                 then [Event("rapid_clicks", sessionId.value,
                             RapidClicks(buttonName, RapidReport(clickCount, timeWindow, clickCount >= 4)))]
                 else [])
    {
      if clickCount < 3 {
        return;
      }
      BaseLog(RapidClicks(buttonName, RapidReport(clickCount, timeWindow, clickCount >= 4)));
    }

    /** `trackButtonClick` at time `now` (milliseconds). */
    method TrackButtonClick(buttonName: string, now: int)
      modifies this`clickCounts, this`sent
      ensures var existing := if buttonName in old(clickCounts) then Some(old(clickCounts)[buttonName]) else None;
              clickCounts == old(clickCounts)[buttonName := ClickUpdate(existing, now)]
              && sent == old(sent) +
                   (if Active() && RapidClickReport(existing, now).Some?
                    then [Event("rapid_clicks", sessionId.value,
                                RapidClicks(buttonName, RapidClickReport(existing, now).value))]
                    else [])
    {
      var existing := if buttonName in clickCounts then Some(clickCounts[buttonName]) else None;
      if existing.Some? && now - existing.value.firstClick < 2000 {
        var newCount := existing.value.count + 1;
        clickCounts := clickCounts[buttonName := ClickEntry(newCount, existing.value.firstClick)];
        if newCount >= 3 {
          LogRapidClicks(buttonName, newCount, (now - existing.value.firstClick) as real / 1000.0);
        }
      } else {
        clickCounts := clickCounts[buttonName := ClickEntry(1, now)];
      }
    }

    /** `logFeatureDiscovered`: a feature already seen is not logged
        again; a new one is remembered even without a session. */
    method LogFeatureDiscovered(featureName: string, discoveryMethod: string)
      modifies this`discovered, this`sent
      ensures discovered == old(discovered) + {featureName}
      ensures sent == old(sent) +
                (if featureName !in old(discovered) && Active()
                 then [Event("feature_discovered", sessionId.value, FeatureDiscovered(featureName, discoveryMethod))]
                 else [])
    {
      if featureName in discovered {
        return;
      }
      discovered := discovered + {featureName};
      BaseLog(FeatureDiscovered(featureName, discoveryMethod));
    }

    /** `logFeatureUsed`: the caller's data beside the feature name, and
        whether the feature was discovered. */
    method LogFeatureUsed(featureName: string, featureData: map<string, string>)
      modifies this`sent
      ensures sent == old(sent) +
                (if Active()
                 then [Event("feature_used", sessionId.value,
                             FeatureUsed(FeatureUsedFields(featureName, featureData), featureName in discovered))]
                 else [])
    {
      BaseLog(FeatureUsed(FeatureUsedFields(featureName, featureData), featureName in discovered));
    }

    /** `logFieldHesitation`: hovers shorter than 3 seconds are ignored. */
    method LogFieldHesitation(fieldName: string, hoverDuration: real, didClick: bool)
      modifies this`sent
      ensures sent == old(sent) +
                (if Active() && hoverDuration >= 3.0
                 then [Event("field_hesitation", sessionId.value, FieldHesitation(fieldName, hoverDuration, didClick))]
                 else [])
    {
      if hoverDuration < 3.0 {
        return;
      }
      BaseLog(FieldHesitation(fieldName, hoverDuration, didClick));
    }

    /** `logJourneyStep`: notes the previous step, appends the new one and
        reports the whole path. */
    method LogJourneyStep(step: string)
      modifies this`journeySteps, this`sent
      ensures journeySteps == old(journeySteps) + [step]
      ensures sent == old(sent) +
                (if Active()
                 then [Event("journey_step", sessionId.value,
                             JourneyStep(step, PreviousStep(old(journeySteps)), JourneyPath(journeySteps)))]
                 else [])
    {
      var previousStep := PreviousStep(journeySteps);
      journeySteps := journeySteps + [step];
      BaseLog(JourneyStep(step, previousStep, JourneyPath(journeySteps)));
    }

    /** `logDeviceInfo`. */
    method LogDeviceInfo(width: int, height: int, hasTouchStart: bool, maxTouchPoints: int)
      modifies this`sent
      ensures sent == old(sent) +
                (if Active() then [Event("session_start", sessionId.value,
                                         SessionStart(GetDeviceInfo(width, height, hasTouchStart, maxTouchPoints)))]
                 else [])
    {
      BaseLog(SessionStart(GetDeviceInfo(width, height, hasTouchStart, maxTouchPoints)));
    }
  }
}
