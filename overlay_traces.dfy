/** Sequences of events applied to the overlay, one after the other, in the
    order the host delivers them. Each event is handled to completion before
    the next; a submit leaves the state as it is. */
module OverlayTraces {
  import opened JsBuiltins
  import opened PageNav

  datatype Event =
    | Updated(prev: Props, next: Props)
    | Typed(text: string)
    | Submitted(props: Props)
    | Blurred(props: Props)

  function Step(s: OverlayState, e: Event): OverlayState {
    match e
    case Updated(prev, next) => DidUpdate(s, prev, next)
    case Typed(text) => Input(s, text)
    case Submitted(_) => s
    case Blurred(props) => Blur(s, props)
  }

  function Run(s: OverlayState, events: seq<Event>): OverlayState
    decreases |events|
  {
    if events == [] then s else Run(Step(s, events[0]), events[1..])
  }

  /** An update that replaces a non-empty label array, the only event that
      can set the custom-label latch. */
  predicate SetsLatch(e: Event) {
    e.Updated? && LatchTrigger(e.prev, e.next)
  }

  /** An event that leaves the field text alone: a submit, or an update in
      which neither the page nor the label array changed. */
  predicate KeepsText(e: Event) {
    e.Submitted? || (e.Updated? && !PageOrLabelsChanged(e.prev, e.next))
  }

  lemma {:induction false} RunAppend(s: OverlayState, a: seq<Event>, b: seq<Event>)
    ensures Run(s, a + b) == Run(Run(s, a), b)
    decreases |a|
  {
    if a == [] {
      assert a + b == b;
    } else {
      assert (a + b)[0] == a[0] && (a + b)[1..] == a[1..] + b;
      RunAppend(Step(s, a[0]), a[1..], b);
    }
  }

  /** Once set, the custom-label latch stays set whatever happens next. */
  lemma {:induction false} LatchNeverResets(s: OverlayState, events: seq<Event>)
    requires s.isCustomPageLabels
    ensures Run(s, events).isCustomPageLabels
    decreases |events|
  {
    if events != [] {
      LatchNeverResets(Step(s, events[0]), events[1..]);
    }
  }

  /** The latch goes from false to true only through an update that
      replaced a non-empty label array, and it goes there whenever one
      happens. */
  lemma {:induction false} LatchSetExactlyByReplacement(s: OverlayState, events: seq<Event>)
    requires !s.isCustomPageLabels
    ensures Run(s, events).isCustomPageLabels <==>
      exists i :: 0 <= i < |events| && SetsLatch(events[i])
    decreases |events|
  {
    if events != [] {
      var t := Step(s, events[0]);
      if SetsLatch(events[0]) {
        LatchNeverResets(t, events[1..]);
      } else {
        assert !t.isCustomPageLabels;
        LatchSetExactlyByReplacement(t, events[1..]);
        if exists i :: 0 <= i < |events| && SetsLatch(events[i]) {
          var i :| 0 <= i < |events| && SetsLatch(events[i]);
          assert SetsLatch(events[1..][i - 1]);
        }
        if exists i :: 0 <= i < |events[1..]| && SetsLatch(events[1..][i]) {
          var i :| 0 <= i < |events[1..]| && SetsLatch(events[1..][i]);
          assert SetsLatch(events[i + 1]);
        }
      }
    }
  }

  /** Whatever came before, a blur leaves the current page's label in the
      field and the latch as it was. */
  lemma BlurResynchronises(s: OverlayState, events: seq<Event>, props: Props)
    ensures Run(s, events + [Blurred(props)]).input == LabelAt(props.pageLabels, props.currentPage)
    ensures Run(s, events + [Blurred(props)]).isCustomPageLabels == Run(s, events).isCustomPageLabels
  {
    RunAppend(s, events, [Blurred(props)]);
  }

  /** An edit in progress survives any run of submits and of updates that
      change neither the page nor the label array. The submit handler itself
      leaves the text; the blur a rejected submit requests is a separate
      `Blurred` event, and that one does overwrite the edit. */
  lemma {:induction false} EditSurvives(s: OverlayState, events: seq<Event>)
    requires forall i :: 0 <= i < |events| ==> KeepsText(events[i])
    ensures Run(s, events).input == s.input
    decreases |events|
  {
    if events != [] {
      assert KeepsText(events[0]);
      EditSurvives(Step(s, events[0]), events[1..]);
    }
  }

  /** Labels "1", "2", "3": after the viewer moves from page 1 to page 2 the
      field shows "2"; typing "3" and submitting asks for page 3. */
  lemma NumericLabelsScenario()
    ensures var p1 := Props(1, 3, ["1", "2", "3"], 1, false, false, false);
      var p2 := p1.(currentPage := 2);
      var s := Run(InitialState(), [Updated(p1, p2)]);
      s.input == Text("2") &&
      Run(s, [Typed("3")]).input == Text("3") &&
      Submit(p2.pageLabels, Run(s, [Typed("3")]).input) == Navigate(3)
  {
    var p1 := Props(1, 3, ["1", "2", "3"], 1, false, false, false);
    var p2 := p1.(currentPage := 2);
    assert ["1", "2", "3"][2] == "3";
    assert IndexOf(["1", "2", "3"], "3") == 2;
  }

  /** Typing "xyz" against labels "1", "2", "3": the submit only blurs, and
      the blur that follows brings back the current page's label. */
  lemma RejectedInputScenario(s: OverlayState)
    ensures var p := Props(2, 3, ["1", "2", "3"], 1, false, false, false);
      Submit(p.pageLabels, Run(s, [Typed("xyz")]).input) == BlurInput &&
      Run(s, [Typed("xyz"), Submitted(p), Blurred(p)]).input == Text("2")
  {
    var p := Props(2, 3, ["1", "2", "3"], 1, false, false, false);
    var labels: seq<string> := ["1", "2", "3"];
    assert labels[0] != "xyz" && labels[1] != "xyz" && labels[2] != "xyz";
    assert "xyz" !in labels;
    var typed := Input(s, "xyz");
    assert Run(s, [Typed("xyz"), Submitted(p), Blurred(p)]) == Run(typed, [Submitted(p), Blurred(p)]);
    assert Run(typed, [Submitted(p), Blurred(p)]) == Run(typed, [Blurred(p)]);
    assert Run(typed, [Blurred(p)]) == Blur(typed, p);
  }

  /** Custom labels "i", "ii", "iii" replacing an empty array do not set the
      latch; replacing the numeric labels "1", "2", "3" with them does, and
      the suffix then changes from " / 3" to " (2/3)". */
  lemma CustomLabelsScenario()
    ensures var empty := Props(2, 3, [], 1, false, false, false);
      var numeric := empty.(pageLabels := ["1", "2", "3"], labelsId := 2);
      var roman := empty.(pageLabels := ["i", "ii", "iii"], labelsId := 3);
      !Run(InitialState(), [Updated(empty, roman)]).isCustomPageLabels &&
      Run(InitialState(), [Updated(numeric, roman)]).isCustomPageLabels &&
      Suffix(false, 2, 3) == " / 3" && Suffix(true, 2, 3) == " (2/3)"
  {
    assert IntToString(3) == "3" && IntToString(2) == "2";
  }
}
