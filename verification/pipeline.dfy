/**
 * The browser and the server together: what the body the tracking script posts
 * becomes once the server has stored it and turned it into features.
 */
module Pipeline {
  import opened Wrappers
  import opened Strings
  import opened Payload
  import opened FeatureExtractor
  import opened Database
  import opened App
  import opened Tracking

  /** A body built by the script always carries every key the save endpoint requires, with an
      object under `fields`, so it is stored and answered with success. */
  lemma BrowserBodyIsSaved(t: Tables, s: State, endTime: int, sessionId: string, userAgent: string)
    requires Inv(s)
    ensures var p := Submit(s, endTime, sessionId, userAgent);
      !IsEmpty(p) && Complete(p) && MissingRequired(p) == [] && Save(t, p).response == Saved
  {
  }

  /** The script never sends a device class the encoder does not know: its body is never
      encoded as "unknown". */
  lemma BrowserDeviceIsKnown(userAgent: string)
    ensures DeviceCode(DetectDeviceType(userAgent)) < 3
    ensures DeviceCode(DetectDeviceType(userAgent)) == 1 <==> ContainsIgnoreCase(userAgent, "mobile")
  {
  }

  /** The features of a session recorded by the script exist (its `fields` is an object), with
      one field per distinct control name and a known device class. */
  lemma BrowserFeatures(controls: seq<Control>, startTime: int, events: seq<Event>,
                        endTime: int, sessionId: string, userAgent: string, sqrt: real -> real)
    ensures var p := Submit(Run(controls, startTime, events), endTime, sessionId, userAgent);
      var f := Extract(p, sqrt);
      && f.Some?
      && f.value.fieldCount == |FirstOccurrences(ControlNames(controls))|
      && f.value.durationMs == endTime - startTime
      && f.value.deviceTypeEncoded < 3
  {
    var s := Run(controls, startTime, events);
    var p := Submit(s, endTime, sessionId, userAgent);
    var m := Entries(s);
    PassedThrough(p, m, sqrt);
    assert |m| == |Names(m)| == |s.fieldKeys|;
  }

  /** The page-level features of a recorded session are the counts of the events the user
      produced. */
  lemma BrowserCounterFeatures(controls: seq<Control>, startTime: int, events: seq<Event>,
                               endTime: int, sessionId: string, userAgent: string, sqrt: real -> real)
    ensures var p := Submit(Run(controls, startTime, events), endTime, sessionId, userAgent);
      var f := Extract(p, sqrt).value;
      && f.tabCount == Count(events, KeyPress("Tab"))
      && (f.enterPressed == 1 <==> Count(events, KeyPress("Enter")) > 0)
      && f.mouseClickCount == Count(events, Clicks)
      && f.scrollCount == Count(events, Scrolls)
      && f.viewportChanges == Count(events, Resizes)
  {
    var s := Run(controls, startTime, events);
    var p := Submit(s, endTime, sessionId, userAgent);
    RunKeyCounters(controls, startTime, events);
    RunPageCounters(controls, startTime, events);
    PassedThrough(p, Entries(s), sqrt);
  }
}
