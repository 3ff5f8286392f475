/**
 * The browser-side telemetry script as a reducer: page load builds the initial
 * state from the form's controls, every DOM event is one `Step`, and submitting
 * turns the state into the JSON body posted to the server. Timestamps
 * (`Date.now()`), the random session id and the user agent are inputs.
 */
module Tracking {
  import opened Wrappers
  import opened Strings
  import opened Payload

  /** A form control's `name` and `id` attributes, "" when unset. */
  datatype Control = Control(name: string, id: string)

  /** `input.name || input.id || "unnamed"`. */
  function FieldName(c: Control): (r: string)
    ensures r != ""
    ensures c.name != "" ==> r == c.name
    ensures c.name == "" && c.id != "" ==> r == c.id
    ensures c.name == "" && c.id == "" ==> r == "unnamed"
  {
    if c.name != "" then c.name else if c.id != "" then c.id else "unnamed"
  }

  /** The variables each control's listeners close over. */
  datatype Closure = Closure(
    focusStart: int,
    hoverStart: int,
    valueBefore: string,
    changes: nat,
    deleteCount: nat,
    copyCount: nat,
    pasteCount: nat,
    focusCount: nat)

  const FRESH_CLOSURE: Closure := Closure(0, 0, "", 0, 0, 0, 0, 0)

  /** The object `fieldData[name]` that is eventually sent. */
  datatype Report = Report(
    value: string,
    timeSpentMs: int,
    hoverDurationMs: int,
    copy: nat,
    paste: nat,
    delete: nat,
    changes: nat,
    focusCount: nat)

  const FRESH_REPORT: Report := Report("", 0, 0, 0, 0, 0, 0, 0)

  /** The script's state. Controls sharing a name share one `fieldData` entry but keep their own
      closures; `fieldKeys` is the insertion order of `fieldData`'s keys. */
  datatype State = State(
    controls: seq<Control>,
    closures: seq<Closure>,
    fieldData: map<string, Report>,
    fieldKeys: seq<string>,
    fieldOrder: seq<string>,
    mouseMoved: bool,
    mouseClickCount: nat,
    scrollCount: nat,
    viewportChanges: nat,
    tabKeyCount: nat,
    enterPressed: bool,
    startTime: int,
    lastInteractionTime: int)

  /** The DOM events the script listens to. A key press on a control reaches the control's
      listener and then, bubbling, the document's; `target` is None for one outside the form. */
  datatype Kind =
    | Focus(control: nat)
    | Blur(control: nat, value: string)
    | MouseOver(control: nat)
    | MouseOut(control: nat)
    | Input(control: nat, value: string)
    | KeyDown(target: Option<nat>, key: string)
    | Copy(control: nat)
    | Paste(control: nat)
    | MouseMove
    | Click
    | Scroll
    | Resize

  /** An event and the value `Date.now()` returns while it is handled. */
  datatype Event = Event(t: int, kind: Kind)

  predicate NoDup<T(==)>(s: seq<T>)
  {
    forall i, j :: 0 <= i < j < |s| ==> s[i] != s[j]
  }

  /** The elements of `s` at their first occurrence, in order of first occurrence. */
  function FirstOccurrences(s: seq<string>): (r: seq<string>)
    ensures forall x :: x in r <==> x in s
    ensures NoDup(r)
  {
    if |s| == 0 then []
    else
      var d := FirstOccurrences(s[..|s| - 1]);
      if s[|s| - 1] in s[..|s| - 1] then d else d + [s[|s| - 1]]
  }

  /** `r` lists elements of `s`, each one's first occurrence in `s` preceding that of every
      element listed after it. */
  predicate InFirstOccurrenceOrder(s: seq<string>, r: seq<string>)
  {
    && (forall k :: 0 <= k < |r| ==> r[k] in s)
    && (forall i, j, k :: 0 <= i < j < |r| && 0 <= k < |s| && s[k] == r[j] ==> r[i] in s[..k])
  }

  /** `FirstOccurrences` lists the elements in the order in which they first occur. */
  lemma {:induction false} FirstOccurrencesOrdered(s: seq<string>)
    ensures InFirstOccurrenceOrder(s, FirstOccurrences(s))
  {
    if |s| > 0 {
      var p := s[..|s| - 1];
      var last := s[|s| - 1];
      var d := FirstOccurrences(p);
      var r := FirstOccurrences(s);
      FirstOccurrencesOrdered(p);
      forall i, j, k | 0 <= i < j < |r| && 0 <= k < |s| && s[k] == r[j]
        ensures r[i] in s[..k]
      {
        assert r[i] == d[i] && d[i] in p;
        if k < |p| {
          assert s[..k] == p[..k];
          if j < |d| {
            assert p[k] == d[j];
          }
        } else {
          assert s[..k] == p;
        }
      }
    }
  }

  function ControlNames(controls: seq<Control>): (r: seq<string>)
    ensures |r| == |controls| && forall i :: 0 <= i < |controls| ==> r[i] == FieldName(controls[i])
  {
    seq(|controls|, i requires 0 <= i < |controls| => FieldName(controls[i]))
  }

  /** What every reachable state satisfies. */
  ghost predicate Inv(s: State)
  {
    && |s.closures| == |s.controls|
    && (forall i :: 0 <= i < |s.controls| ==> FieldName(s.controls[i]) in s.fieldData)
    && (forall n :: n in s.fieldData <==> n in s.fieldKeys)
    && NoDup(s.fieldKeys)
  }

  /** The state right after DOMContentLoaded: one fresh entry per control name. */
  function Init(controls: seq<Control>, startTime: int): (r: State)
    ensures Inv(r)
    ensures r.fieldOrder == [] && r.tabKeyCount == 0 && !r.enterPressed
  {
    var names := ControlNames(controls);
    State(controls, seq(|controls|, _ => FRESH_CLOSURE), map n | n in names :: FRESH_REPORT,
      FirstOccurrences(names), [], false, 0, 0, 0, 0, false, startTime, startTime)
  }

  /** The control an event is dispatched to, if any. */
  function Target(k: Kind): Option<nat>
  {
    match k
    case Focus(i) => Some(i)
    case Blur(i, _) => Some(i)
    case MouseOver(i) => Some(i)
    case MouseOut(i) => Some(i)
    case Input(i, _) => Some(i)
    case KeyDown(target, _) => target
    case Copy(i) => Some(i)
    case Paste(i) => Some(i)
    case _ => None
  }

  /** What a control's listeners do to the variables they close over. */
  function Listen(c: Closure, t: int, k: Kind): (r: Closure)
  {
    match k
    case Focus(_) => c.(focusStart := t, focusCount := c.focusCount + 1)
    case MouseOver(_) => c.(hoverStart := t)
    case Input(_, v) => if v != c.valueBefore then c.(changes := c.changes + 1, valueBefore := v) else c
    case KeyDown(_, key) => if IsDeleteKey(key) then c.(deleteCount := c.deleteCount + 1) else c
    case Copy(_) => c.(copyCount := c.copyCount + 1)
    case Paste(_) => c.(pasteCount := c.pasteCount + 1)
    case _ => c
  }

  /** What a control's listeners write into its name's `fieldData` entry, given the closure
      before and after the event. */
  function Publish(rep: Report, before: Closure, after: Closure, t: int, k: Kind): (r: Report)
  {
    match k
    case Blur(_, v) =>
      rep.(timeSpentMs := rep.timeSpentMs + (t - before.focusStart), value := v,
           focusCount := before.focusCount)
    case MouseOut(_) => rep.(hoverDurationMs := rep.hoverDurationMs + (t - before.hoverStart))
    case Input(_, _) => rep.(changes := after.changes)
    case KeyDown(_, _) => rep.(delete := after.deleteCount)
    case Copy(_) => rep.(copy := after.copyCount)
    case Paste(_) => rep.(paste := after.pasteCount)
    case _ => rep
  }

  /** The listeners of control `i` handling one event. */
  function OnControl(s: State, i: nat, t: int, k: Kind): (r: State)
    requires Inv(s) && i < |s.controls|
    ensures Inv(r)
    ensures r.controls == s.controls && r.fieldKeys == s.fieldKeys && r.startTime == s.startTime
    ensures r.closures == s.closures[i := Listen(s.closures[i], t, k)]
    ensures var name := FieldName(s.controls[i]);
      r.fieldData == s.fieldData[name := Publish(s.fieldData[name], s.closures[i], Listen(s.closures[i], t, k), t, k)]
    ensures !k.Focus? ==> r.fieldOrder == s.fieldOrder
    ensures r.mouseMoved == s.mouseMoved && r.mouseClickCount == s.mouseClickCount
    ensures r.scrollCount == s.scrollCount && r.viewportChanges == s.viewportChanges
    ensures r.tabKeyCount == s.tabKeyCount && r.enterPressed == s.enterPressed
  {
    var name := FieldName(s.controls[i]);
    var c := s.closures[i];
    var c' := Listen(c, t, k);
    var s1 := s.(closures := s.closures[i := c'],
                 fieldData := s.fieldData[name := Publish(s.fieldData[name], c, c', t, k)]);
    match k
    case Focus(_) => if name in s.fieldOrder then s1 else s1.(fieldOrder := s.fieldOrder + [name])
    case Input(_, _) => s1.(lastInteractionTime := t)
    case KeyDown(_, _) => s1.(lastInteractionTime := t)
    case _ => s1
  }

  /** Whether the event reaches the listeners of one of the form's controls. */
  predicate Dispatched(s: State, e: Event)
  {
    Target(e.kind).Some? && Target(e.kind).value < |s.controls|
  }

  /** One event: the listeners of the control it is dispatched to (an index past the last control
      has none), then the document's and window's listeners. */
  function Step(s: State, e: Event): (r: State)
    requires Inv(s)
    ensures Inv(r)
    ensures r.controls == s.controls && r.fieldKeys == s.fieldKeys && r.startTime == s.startTime
    ensures Dispatched(s, e) ==>
      var i := Target(e.kind).value;
      var name := FieldName(s.controls[i]);
      var c' := Listen(s.closures[i], e.t, e.kind);
      && r.closures == s.closures[i := c']
      && r.fieldData == s.fieldData[name := Publish(s.fieldData[name], s.closures[i], c', e.t, e.kind)]
    ensures !Dispatched(s, e) ==> r.closures == s.closures && r.fieldData == s.fieldData
  {
    var s1 := if Dispatched(s, e) then OnControl(s, Target(e.kind).value, e.t, e.kind) else s;
    match e.kind
    case MouseMove => s1.(mouseMoved := true)
    case Click => s1.(mouseClickCount := s1.mouseClickCount + 1)
    case Scroll => s1.(scrollCount := s1.scrollCount + 1)
    case Resize => s1.(viewportChanges := s1.viewportChanges + 1)
    case KeyDown(_, key) =>
      s1.(lastInteractionTime := e.t,
          tabKeyCount := s1.tabKeyCount + (if key == "Tab" then 1 else 0),
          enterPressed := s1.enterPressed || key == "Enter")
    case _ => s1
  }

  /** The state after the events, in order, from page load. */
  function Run(controls: seq<Control>, startTime: int, events: seq<Event>): (r: State)
    ensures Inv(r)
    ensures r.controls == controls && r.fieldKeys == FirstOccurrences(ControlNames(controls))
    ensures r.startTime == startTime
  {
    if |events| == 0 then Init(controls, startTime)
    else Step(Run(controls, startTime, events[..|events| - 1]), events[|events| - 1])
  }

  /** The names of the controls focused, one per in-range focus event, in event order. */
  function FocusedNames(controls: seq<Control>, events: seq<Event>): (r: seq<string>)
    ensures |r| <= |events|
  {
    if |events| == 0 then []
    else
      var d := FocusedNames(controls, events[..|events| - 1]);
      var k := events[|events| - 1].kind;
      if k.Focus? && k.control < |controls| then d + [FieldName(controls[k.control])] else d
  }

  /** The posted `field_order` lists every focused name exactly once, in order of first focus. */
  lemma {:induction false} RunFieldOrder(controls: seq<Control>, startTime: int, events: seq<Event>)
    ensures Run(controls, startTime, events).fieldOrder == FirstOccurrences(FocusedNames(controls, events))
  {
    if |events| > 0 {
      var prefix := events[..|events| - 1];
      RunFieldOrder(controls, startTime, prefix);
      StepFieldOrder(Run(controls, startTime, prefix), events[|events| - 1]);
    }
  }

  /** Only a focus event on a control touches `fieldOrder`, appending the name if it is new. */
  lemma StepFieldOrder(s: State, e: Event)
    requires Inv(s)
    ensures var r := Step(s, e);
      if e.kind.Focus? && e.kind.control < |s.controls| then
        var name := FieldName(s.controls[e.kind.control]);
        r.fieldOrder == if name in s.fieldOrder then s.fieldOrder else s.fieldOrder + [name]
      else r.fieldOrder == s.fieldOrder
  {
  }

  /** Hence no name appears twice, none that was never focused appears, and the order is that of
      first focus. */
  lemma FieldOrderIsFirstFocusOrder(controls: seq<Control>, startTime: int, events: seq<Event>)
    ensures var r := Run(controls, startTime, events).fieldOrder;
      && NoDup(r)
      && (forall x :: x in r <==> x in FocusedNames(controls, events))
      && InFirstOccurrenceOrder(FocusedNames(controls, events), r)
  {
    RunFieldOrder(controls, startTime, events);
    FirstOccurrencesOrdered(FocusedNames(controls, events));
  }

  /** A class of events that some counter of the script counts. */
  datatype Selector =
    | KeyPress(key: string)
    | MouseMoves
    | Clicks
    | Scrolls
    | Resizes
    | FocusOn(control: nat)
    | CopyOn(control: nat)
    | PasteOn(control: nat)
    | DeleteKeyOn(control: nat)
    | InputOn(control: nat)
    | BlurOn(control: nat)

  predicate Selects(sel: Selector, k: Kind)
  {
    match sel
    case KeyPress(key) => k.KeyDown? && k.key == key
    case MouseMoves => k.MouseMove?
    case Clicks => k.Click?
    case Scrolls => k.Scroll?
    case Resizes => k.Resize?
    case FocusOn(i) => k == Focus(i)
    case CopyOn(i) => k == Copy(i)
    case PasteOn(i) => k == Paste(i)
    case DeleteKeyOn(i) => k.KeyDown? && k.target == Some(i) && IsDeleteKey(k.key)
    case InputOn(i) => k.Input? && k.control == i
    case BlurOn(i) => k.Blur? && k.control == i
  }

  predicate IsDeleteKey(key: string)
  {
    key == "Backspace" || key == "Delete"
  }

  /** How many of the events `sel` selects. */
  function Count(events: seq<Event>, sel: Selector): (r: nat)
    ensures r <= |events|
  {
    if |events| == 0 then 0
    else Count(events[..|events| - 1], sel) + (if Selects(sel, events[|events| - 1].kind) then 1 else 0)
  }

  /** The keyboard counters count their events: every Tab press, wherever it happens, and
      `enterPressed` records that Enter was pressed at least once. */
  lemma {:induction false} RunKeyCounters(controls: seq<Control>, startTime: int, events: seq<Event>)
    ensures var r := Run(controls, startTime, events);
      && r.tabKeyCount == Count(events, KeyPress("Tab"))
      && (r.enterPressed <==> Count(events, KeyPress("Enter")) > 0)
  {
    if |events| > 0 {
      var prefix := events[..|events| - 1];
      var e := events[|events| - 1];
      assert events == prefix + [e];
      RunKeyCounters(controls, startTime, prefix);
      HistoryStep(prefix, e, 0);
      StepKeyCounters(Run(controls, startTime, prefix), e);
    }
  }

  /** The mouse and window counters count every click, scroll and resize; `mouseMoved` records
      that the mouse moved at least once. */
  lemma {:induction false} RunPageCounters(controls: seq<Control>, startTime: int, events: seq<Event>)
    ensures var r := Run(controls, startTime, events);
      && (r.mouseMoved <==> Count(events, MouseMoves) > 0)
      && r.mouseClickCount == Count(events, Clicks)
      && r.scrollCount == Count(events, Scrolls)
      && r.viewportChanges == Count(events, Resizes)
  {
    if |events| > 0 {
      var prefix := events[..|events| - 1];
      var e := events[|events| - 1];
      assert events == prefix + [e];
      RunPageCounters(controls, startTime, prefix);
      HistoryStep(prefix, e, 0);
      StepPageCounters(Run(controls, startTime, prefix), e);
    }
  }

  lemma StepKeyCounters(s: State, e: Event)
    requires Inv(s)
    ensures var r := Step(s, e);
      && r.tabKeyCount == s.tabKeyCount + (if Selects(KeyPress("Tab"), e.kind) then 1 else 0)
      && r.enterPressed == (s.enterPressed || Selects(KeyPress("Enter"), e.kind))
  {
    var s1 := if Dispatched(s, e) then OnControl(s, Target(e.kind).value, e.t, e.kind) else s;
    assert s1.tabKeyCount == s.tabKeyCount && s1.enterPressed == s.enterPressed;
  }

  lemma StepPageCounters(s: State, e: Event)
    requires Inv(s)
    ensures var r := Step(s, e);
      && r.mouseMoved == (s.mouseMoved || e.kind.MouseMove?)
      && r.mouseClickCount == s.mouseClickCount + (if e.kind.Click? then 1 else 0)
      && r.scrollCount == s.scrollCount + (if e.kind.Scroll? then 1 else 0)
      && r.viewportChanges == s.viewportChanges + (if e.kind.Resize? then 1 else 0)
  {
    var s1 := if Dispatched(s, e) then OnControl(s, Target(e.kind).value, e.t, e.kind) else s;
    assert s1.mouseMoved == s.mouseMoved && s1.mouseClickCount == s.mouseClickCount;
    assert s1.scrollCount == s.scrollCount && s1.viewportChanges == s.viewportChanges;
  }

  /** The value carried by the last input event on control `i`, "" before the first. */
  function LastInput(events: seq<Event>, i: nat): string
  {
    if |events| == 0 then ""
    else
      var k := events[|events| - 1].kind;
      if k.Input? && k.control == i then k.value else LastInput(events[..|events| - 1], i)
  }

  /** The input events on control `i` that changed its value: those whose value differs from the
      one the previous input event on it carried (from "" for the first). */
  function Edits(events: seq<Event>, i: nat): (r: nat)
    ensures r <= Count(events, InputOn(i))
  {
    if |events| == 0 then 0
    else
      var prefix := events[..|events| - 1];
      var k := events[|events| - 1].kind;
      Edits(prefix, i) + (if k.Input? && k.control == i && k.value != LastInput(prefix, i) then 1 else 0)
  }

  /** What control `i`'s own listeners have counted so far. */
  predicate ClosureCounts(c: Closure, events: seq<Event>, i: nat)
  {
    && c.focusCount == Count(events, FocusOn(i))
    && c.copyCount == Count(events, CopyOn(i))
    && c.pasteCount == Count(events, PasteOn(i))
    && c.deleteCount == Count(events, DeleteKeyOn(i))
    && c.changes == Edits(events, i)
    && c.valueBefore == LastInput(events, i)
  }

  /** Each control counts its focus, copy and paste events, its Backspace and Delete presses (and
      no other key), and those input events that really changed its value. */
  lemma {:induction false} RunClosure(controls: seq<Control>, startTime: int, events: seq<Event>, i: nat)
    requires i < |controls|
    ensures ClosureCounts(Run(controls, startTime, events).closures[i], events, i)
  {
    if |events| > 0 {
      var prefix := events[..|events| - 1];
      var e := events[|events| - 1];
      assert events == prefix + [e];
      var s := Run(controls, startTime, prefix);
      RunClosure(controls, startTime, prefix, i);
      StepClosure(s, e, i);
      ClosureCountsStep(s.closures[i], prefix, e, i);
    }
  }

  /** Extending the history by one event keeps a closure's counts in step with it. */
  lemma ClosureCountsStep(c: Closure, prefix: seq<Event>, e: Event, i: nat)
    requires ClosureCounts(c, prefix, i)
    ensures ClosureCounts(if Target(e.kind) == Some(i) then Listen(c, e.t, e.kind) else c, prefix + [e], i)
  {
    HistoryStep(prefix, e, i);
    if Target(e.kind) == Some(i) {
      ListenCounts(c, e.t, e.kind, i);
    } else {
      Untargeted(e.kind, i);
    }
  }

  /** The per-control histories of `prefix + [e]` in terms of those of `prefix`. */
  lemma HistoryStep(prefix: seq<Event>, e: Event, i: nat)
    ensures forall sel :: Count(prefix + [e], sel) == Count(prefix, sel) + (if Selects(sel, e.kind) then 1 else 0)
    ensures LastInput(prefix + [e], i) == if Selects(InputOn(i), e.kind) then e.kind.value else LastInput(prefix, i)
    ensures Edits(prefix + [e], i) == Edits(prefix, i) +
      (if Selects(InputOn(i), e.kind) && e.kind.value != LastInput(prefix, i) then 1 else 0)
    ensures LastBlur(prefix + [e], i) == if Selects(BlurOn(i), e.kind) then e.kind.value else LastBlur(prefix, i)
    ensures FocusesAtLastBlur(prefix + [e], i) ==
      if Selects(BlurOn(i), e.kind) then Count(prefix, FocusOn(i)) else FocusesAtLastBlur(prefix, i)
  {
    var events := prefix + [e];
    assert events[..|events| - 1] == prefix;
  }

  /** An event not dispatched to control `i` is none of control `i`'s events. */
  lemma Untargeted(k: Kind, i: nat)
    requires Target(k) != Some(i)
    ensures !Selects(FocusOn(i), k) && !Selects(CopyOn(i), k) && !Selects(PasteOn(i), k)
    ensures !Selects(DeleteKeyOn(i), k) && !Selects(InputOn(i), k) && !Selects(BlurOn(i), k)
  {
  }

  /** Control `i`'s closure changes only under the events dispatched to it. */
  lemma StepClosure(s: State, e: Event, i: nat)
    requires Inv(s) && i < |s.controls|
    ensures Step(s, e).closures[i] ==
      if Target(e.kind) == Some(i) then Listen(s.closures[i], e.t, e.kind) else s.closures[i]
  {
  }

  /** What one event dispatched to control `i` does to its counters. */
  lemma ListenCounts(c: Closure, t: int, k: Kind, i: nat)
    requires Target(k) == Some(i)
    ensures var c' := Listen(c, t, k);
      && c'.focusCount == c.focusCount + (if Selects(FocusOn(i), k) then 1 else 0)
      && c'.copyCount == c.copyCount + (if Selects(CopyOn(i), k) then 1 else 0)
      && c'.pasteCount == c.pasteCount + (if Selects(PasteOn(i), k) then 1 else 0)
      && c'.deleteCount == c.deleteCount + (if Selects(DeleteKeyOn(i), k) then 1 else 0)
      && c'.changes == c.changes + (if Selects(InputOn(i), k) && k.value != c.valueBefore then 1 else 0)
      && c'.valueBefore == if Selects(InputOn(i), k) then k.value else c.valueBefore
  {
  }

  /** No other control shares control `i`'s name, so its `fieldData` entry is its own. */
  predicate Unique(controls: seq<Control>, i: nat)
    requires i < |controls|
  {
    forall j :: 0 <= j < |controls| && FieldName(controls[j]) == FieldName(controls[i]) ==> j == i
  }

  /** The value carried by the last blur of control `i`, "" before the first. */
  function LastBlur(events: seq<Event>, i: nat): string
  {
    if |events| == 0 then ""
    else
      var k := events[|events| - 1].kind;
      if k.Blur? && k.control == i then k.value else LastBlur(events[..|events| - 1], i)
  }

  /** How often control `i` had been focused when it was last blurred. */
  function FocusesAtLastBlur(events: seq<Event>, i: nat): (r: nat)
    ensures r <= Count(events, FocusOn(i))
    ensures Count(events, BlurOn(i)) == 0 ==> r == 0
  {
    if |events| == 0 then 0
    else
      var prefix := events[..|events| - 1];
      var k := events[|events| - 1].kind;
      if k.Blur? && k.control == i then Count(prefix, FocusOn(i)) else FocusesAtLastBlur(prefix, i)
  }

  /** What the entry of a uniquely named control reports: its copy, paste, delete and change
      counts as they stand, the value and focus count as of its last blur. */
  predicate ReportCounts(rep: Report, events: seq<Event>, i: nat)
  {
    && rep.copy == Count(events, CopyOn(i))
    && rep.paste == Count(events, PasteOn(i))
    && rep.delete == Count(events, DeleteKeyOn(i))
    && rep.changes == Edits(events, i)
    && rep.value == LastBlur(events, i)
    && rep.focusCount == FocusesAtLastBlur(events, i)
  }

  /** A uniquely named control's entry changes only under the events dispatched to it. */
  lemma StepReport(s: State, e: Event, i: nat)
    requires Inv(s) && i < |s.controls| && Unique(s.controls, i)
    ensures var name := FieldName(s.controls[i]);
      var c := s.closures[i];
      Step(s, e).fieldData[name] ==
        if Target(e.kind) == Some(i) then Publish(s.fieldData[name], c, Listen(c, e.t, e.kind), e.t, e.kind)
        else s.fieldData[name]
  {
  }

  lemma ReportCountsStep(rep: Report, c: Closure, prefix: seq<Event>, e: Event, i: nat)
    requires ReportCounts(rep, prefix, i) && ClosureCounts(c, prefix, i)
    ensures ReportCounts(
      if Target(e.kind) == Some(i) then Publish(rep, c, Listen(c, e.t, e.kind), e.t, e.kind) else rep,
      prefix + [e], i)
  {
    HistoryStep(prefix, e, i);
    if Target(e.kind) == Some(i) {
      ListenCounts(c, e.t, e.kind, i);
      PublishSelected(rep, c, e.t, e.kind, i);
    } else {
      Untargeted(e.kind, i);
    }
  }

  /** Which entry attributes an event dispatched to control `i` rewrites, and with what. */
  lemma PublishSelected(rep: Report, c: Closure, t: int, k: Kind, i: nat)
    requires Target(k) == Some(i)
    ensures var c' := Listen(c, t, k);
      var r := Publish(rep, c, c', t, k);
      && r.copy == (if Selects(CopyOn(i), k) then c'.copyCount else rep.copy)
      && r.paste == (if Selects(PasteOn(i), k) then c'.pasteCount else rep.paste)
      && r.delete == (if k.KeyDown? then c'.deleteCount else rep.delete)
      && r.changes == (if Selects(InputOn(i), k) then c'.changes else rep.changes)
      && r.value == (if Selects(BlurOn(i), k) then k.value else rep.value)
      && r.focusCount == (if Selects(BlurOn(i), k) then c.focusCount else rep.focusCount)
  {
  }

  /** The entry of a uniquely named control holds exactly its own counts, and a focus count of 0
      until it is first blurred. */
  lemma {:induction false} RunReport(controls: seq<Control>, startTime: int, events: seq<Event>, i: nat)
    requires i < |controls| && Unique(controls, i)
    ensures ReportCounts(Run(controls, startTime, events).fieldData[FieldName(controls[i])], events, i)
  {
    if |events| > 0 {
      var prefix := events[..|events| - 1];
      var e := events[|events| - 1];
      assert events == prefix + [e];
      var s := Run(controls, startTime, prefix);
      RunReport(controls, startTime, prefix, i);
      RunClosure(controls, startTime, prefix, i);
      StepReport(s, e, i);
      ReportCountsStep(s.fieldData[FieldName(controls[i])], s.closures[i], prefix, e, i);
    }
  }

  /** `Date.now()` readings: never negative, never going back. */
  predicate Chronological(events: seq<Event>)
  {
    && (forall k :: 0 <= k < |events| ==> 0 <= events[k].t)
    && (forall a, b :: 0 <= a < b < |events| ==> events[a].t <= events[b].t)
  }

  /** Every control's focus and hover start lies in [0, bound]. */
  predicate StartsWithin(s: State, bound: int)
  {
    forall j :: 0 <= j < |s.closures| ==>
      0 <= s.closures[j].focusStart <= bound && 0 <= s.closures[j].hoverStart <= bound
  }

  predicate DurationsNonNegative(s: State)
  {
    forall n :: n in s.fieldData ==> s.fieldData[n].timeSpentMs >= 0 && s.fieldData[n].hoverDurationMs >= 0
  }

  /** An event no earlier than any recorded start never shortens a time spent or a hover time. */
  lemma StepDurations(s: State, e: Event)
    requires Inv(s) && 0 <= e.t && StartsWithin(s, e.t)
    ensures StartsWithin(Step(s, e), e.t)
    ensures forall n :: n in s.fieldData ==>
      && Step(s, e).fieldData[n].timeSpentMs >= s.fieldData[n].timeSpentMs
      && Step(s, e).fieldData[n].hoverDurationMs >= s.fieldData[n].hoverDurationMs
  {
    if Dispatched(s, e) {
      var i := Target(e.kind).value;
      var c := s.closures[i];
      var name := FieldName(s.controls[i]);
      assert 0 <= c.focusStart <= e.t && 0 <= c.hoverStart <= e.t;
      PublishGrows(s.fieldData[name], c, Listen(c, e.t, e.kind), e.t, e.kind);
    }
  }

  /** Publishing at a time no earlier than the recorded starts only adds to the durations. */
  lemma PublishGrows(rep: Report, before: Closure, after: Closure, t: int, k: Kind)
    requires before.focusStart <= t && before.hoverStart <= t
    ensures Publish(rep, before, after, t, k).timeSpentMs >= rep.timeSpentMs
    ensures Publish(rep, before, after, t, k).hoverDurationMs >= rep.hoverDurationMs
  {
  }

  /** With chronological timestamps every reported time spent and hover time is non-negative. */
  lemma {:induction false} RunDurations(controls: seq<Control>, startTime: int, events: seq<Event>)
    requires Chronological(events)
    ensures DurationsNonNegative(Run(controls, startTime, events))
    ensures StartsWithin(Run(controls, startTime, events), if |events| == 0 then 0 else events[|events| - 1].t)
  {
    if |events| > 0 {
      var prefix := events[..|events| - 1];
      var e := events[|events| - 1];
      assert Chronological(prefix);
      RunDurations(controls, startTime, prefix);
      var s := Run(controls, startTime, prefix);
      if |prefix| > 0 {
        assert prefix[|prefix| - 1].t <= e.t;
      }
      assert StartsWithin(s, e.t);
      StepDurations(s, e);
    }
  }

  /** The device class sent with the form: any user agent mentioning "mobile" (in any letter case)
      is a phone, else one mentioning "tablet" is a tablet, else a desktop. */
  function DetectDeviceType(userAgent: string): (r: string)
    ensures r == "mobile" || r == "tablet" || r == "desktop"
    ensures r == "mobile" <==> ContainsIgnoreCase(userAgent, "mobile")
    ensures r == "tablet" <==> !ContainsIgnoreCase(userAgent, "mobile") && ContainsIgnoreCase(userAgent, "tablet")
  {
    if ContainsIgnoreCase(userAgent, "mobile") then "mobile"
    else if ContainsIgnoreCase(userAgent, "tablet") then "tablet"
    else "desktop"
  }

  /** `fieldKeys` lists exactly the keys of `fieldData`. */
  lemma KeysListed(s: State)
    requires Inv(s)
    ensures forall k :: 0 <= k < |s.fieldKeys| ==> s.fieldKeys[k] in s.fieldData
    ensures forall n :: n in s.fieldData ==> exists k :: 0 <= k < |s.fieldKeys| && s.fieldKeys[k] == n
  {
    forall k | 0 <= k < |s.fieldKeys|
      ensures s.fieldKeys[k] in s.fieldData
    {
      assert s.fieldKeys[k] in s.fieldKeys;
    }
    forall n | n in s.fieldData
      ensures exists k :: 0 <= k < |s.fieldKeys| && s.fieldKeys[k] == n
    {
      assert n in s.fieldKeys;
    }
  }

  /** Whether every `fieldData` entry holds a non-empty value (JavaScript's truthy string). */
  function AllFilled(s: State): (r: bool)
    requires Inv(s)
    ensures r <==> forall n :: n in s.fieldData ==> s.fieldData[n].value != ""
  {
    KeysListed(s);
    forall k | 0 <= k < |s.fieldKeys| :: s.fieldData[s.fieldKeys[k]].value != ""
  }

  function InfoOf(rep: Report): FieldInfo
  {
    FieldInfo(Some(rep.value), Some(rep.timeSpentMs), Some(rep.hoverDurationMs), Some(rep.copy),
              Some(rep.paste), Some(rep.delete), Some(rep.changes), Some(rep.focusCount))
  }

  /** `fieldData` as the JSON object sent: one entry per key, in insertion order. */
  function Entries(s: State): (m: FieldMap)
    requires Inv(s)
    ensures Names(m) == s.fieldKeys
    ensures DistinctNames(m)
    ensures forall n :: n in s.fieldData <==> Lookup(m, n).Some?
    ensures forall n :: n in s.fieldData ==> Lookup(m, n) == Some(InfoOf(s.fieldData[n]))
  {
    KeysListed(s);
    var m := seq(|s.fieldKeys|, k requires 0 <= k < |s.fieldKeys| => (s.fieldKeys[k], InfoOf(s.fieldData[s.fieldKeys[k]])));
    EntriesLookup(s, m);
    m
  }

  lemma EntriesLookup(s: State, m: FieldMap)
    requires Inv(s)
    requires |m| == |s.fieldKeys|
    requires forall k :: 0 <= k < |m| ==> m[k] == (s.fieldKeys[k], InfoOf(s.fieldData[s.fieldKeys[k]]))
    ensures Names(m) == s.fieldKeys
    ensures DistinctNames(m)
    ensures forall n :: n in s.fieldData ==> Lookup(m, n) == Some(InfoOf(s.fieldData[n]))
    ensures forall n :: n !in s.fieldData ==> Lookup(m, n).None?
  {
    KeysListed(s);
    assert Names(m) == s.fieldKeys;
    forall n | n in s.fieldData
      ensures Lookup(m, n) == Some(InfoOf(s.fieldData[n]))
    {
      var k :| 0 <= k < |s.fieldKeys| && s.fieldKeys[k] == n;
      LookupAt(m, k);
    }
  }

  /** The body posted on submit, read at `endTime`. */
  function Submit(s: State, endTime: int, sessionId: string, userAgent: string): (r: Payload)
    requires Inv(s)
    ensures r.fields == Some(Object(Entries(s)))
    ensures r.durationMs == Some(endTime - s.startTime)
    ensures r.submitDelayMs == Some(endTime - s.lastInteractionTime)
    ensures r.fastFill == Some(endTime - s.startTime < 8000 && forall n :: n in s.fieldData ==> s.fieldData[n].value != "")
    ensures r.fieldOrder == Some(s.fieldOrder)
    ensures r.deviceType == Some(DetectDeviceType(userAgent))
    ensures r.sessionId == Some(sessionId)
    ensures r.startTime == Some(s.startTime) && r.endTime == Some(endTime)
    ensures r.mouseMoved == Some(s.mouseMoved) && r.enterPressed == Some(s.enterPressed)
    ensures r.mouseClickCount == Some(s.mouseClickCount) && r.scrollCount == Some(s.scrollCount)
    ensures r.viewportChanges == Some(s.viewportChanges) && r.tabKeyCount == Some(s.tabKeyCount)
    ensures r.otherKeys == {}
  {
    Payload(Some(sessionId), Some(s.startTime), Some(endTime), Some(endTime - s.startTime),
            Some(endTime - s.lastInteractionTime), Some(s.fieldOrder), Some(Object(Entries(s))),
            Some(endTime - s.startTime < 8000 && AllFilled(s)), Some(s.mouseMoved),
            Some(s.mouseClickCount), Some(s.scrollCount), Some(s.viewportChanges), Some(s.tabKeyCount),
            Some(s.enterPressed), Some(DetectDeviceType(userAgent)), {})
  }
}
