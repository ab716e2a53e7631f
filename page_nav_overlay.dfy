/** The page-navigation overlay: a text field in which the user types a page
    label, kept in step with the document viewer's current page.

    Its local state is the text shown in the field and a one-way latch that
    records whether the viewer has switched to custom page labels. Four kinds
    of event drive it: a props update from the viewer, a keystroke, a submit
    and a blur. A submit does not change the state; it produces an effect for
    the host (navigate to a page, or take focus away from the field).

    Props arrive as a plain value. The identity of the page-label array, which
    the component compares by reference, is the number `labelsId`: two props
    with different `labelsId` carry different arrays, whatever their contents. */
module PageNav {
  import opened JsBuiltins

  datatype Props = Props(
    currentPage: int,
    totalPages: int,
    pageLabels: seq<string>,
    labelsId: nat,
    isDisabled: bool,
    isLeftPanelOpen: bool,
    isLeftPanelDisabled: bool)

  /** The value held in the field: a string, or JavaScript's `undefined`,
      which is what reading a label past either end of the array yields. */
  datatype FieldValue = Text(s: string) | Undefined

  datatype OverlayState = OverlayState(input: FieldValue, isCustomPageLabels: bool)

  /** What a submit asks of the host: go to a page, or blur the field. */
  datatype Effect = Navigate(page: int) | BlurInput

  /** The parts of the rendered overlay that carry logic. */
  datatype View = View(value: FieldValue, width: int, shifted: bool, suffix: string)

  datatype Option<T> = None | Some(value: T)

  /** `pageLabels[page - 1]`: the label of a 1-based page, or `undefined`. */
  function LabelAt(labels: seq<string>, page: int): (f: FieldValue)
    ensures f.Text? <==> 1 <= page <= |labels|
    ensures f.Text? ==> f.s == labels[page - 1]
  {
    if 1 <= page <= |labels| then Text(labels[page - 1]) else Undefined
  }

  /** The label array was replaced by another one (reference inequality). */
  predicate LabelsReplaced(prev: Props, next: Props) {
    prev.labelsId != next.labelsId
  }

  /** The condition under which an update sets the custom-label latch. */
  predicate LatchTrigger(prev: Props, next: Props) {
    LabelsReplaced(prev, next) && |prev.pageLabels| != 0
  }

  /** The condition under which an update overwrites the field. */
  predicate PageOrLabelsChanged(prev: Props, next: Props) {
    prev.currentPage != next.currentPage || LabelsReplaced(prev, next)
  }

  // The state transitions, one per event; the class below is proved against them.

  function InitialState(): OverlayState {
    OverlayState(Text(""), false)
  }

  function DidUpdate(s: OverlayState, prev: Props, next: Props): OverlayState {
    OverlayState(
      if PageOrLabelsChanged(prev, next) then LabelAt(next.pageLabels, next.currentPage) else s.input,
      s.isCustomPageLabels || LatchTrigger(prev, next))
  }

  function Input(s: OverlayState, text: string): OverlayState {
    s.(input := Text(text))
  }

  function Blur(s: OverlayState, props: Props): OverlayState {
    s.(input := LabelAt(props.pageLabels, props.currentPage))
  }

  /** `input === '' || pageLabels.includes(input)`. */
  predicate IsValidInput(labels: seq<string>, f: FieldValue) {
    f == Text("") || (f.Text? && f.s in labels)
  }

  /** The effect of submitting the field value `f` against `labels`. An
      accepted value navigates to its first position in `labels` plus one,
      which is page 0 for an empty value that is not itself a label; a
      rejected value only blurs the field. */
  function Submit(labels: seq<string>, f: FieldValue): (e: Effect)
    ensures e.Navigate? <==> IsValidInput(labels, f)
    ensures e.Navigate? && f.s in labels ==>
      1 <= e.page <= |labels| && labels[e.page - 1] == f.s &&
      forall j :: 0 <= j < e.page - 1 ==> labels[j] != f.s
    ensures e.Navigate? && f.s !in labels ==> f.s == "" && e.page == 0
  {
    if IsValidInput(labels, f) then Navigate(IndexOf(labels, f.s) + 1) else BlurInput
  }

  /** The text after the field: the current page and the total when custom
      labels are in use, otherwise only the total. */
  function Suffix(isCustomPageLabels: bool, currentPage: int, totalPages: int): string {
    if isCustomPageLabels then " (" + IntToString(currentPage) + "/" + IntToString(totalPages) + ")"
    else " / " + IntToString(totalPages)
  }

  /** `totalPages.toString().length * 10`. */
  function InputWidth(totalPages: int): int {
    |IntToString(totalPages)| * 10
  }

  /** The overlay moves aside when the left panel is open and enabled. */
  predicate IsShifted(props: Props) {
    props.isLeftPanelOpen && !props.isLeftPanelDisabled
  }

  /** The field is ten units wide per decimal digit of the page count. */
  lemma InputWidthCountsDigits(totalPages: int)
    requires totalPages >= 0
    ensures var w := InputWidth(totalPages);
      w % 10 == 0 && w >= 10 && totalPages < Pow10(w / 10) &&
      (w == 10 || Pow10(w / 10 - 1) <= totalPages)
  {
    NatToStringLength(totalPages);
  }

  /** The suffix shows which mode it is in at its second character, and
      each form can be read back: without custom labels the total follows
      " / ", with them the suffix closes with ')'. */
  lemma SuffixShape(isCustomPageLabels: bool, currentPage: int, totalPages: int)
    ensures var sfx := Suffix(isCustomPageLabels, currentPage, totalPages);
      |sfx| >= 4 && sfx[0] == ' ' &&
      sfx[1] == (if isCustomPageLabels then '(' else '/') &&
      (isCustomPageLabels ==> sfx[|sfx| - 1] == ')') &&
      (!isCustomPageLabels ==> sfx[3..] == IntToString(totalPages))
  {
  }

  /** Without custom labels, different totals give different suffixes. */
  lemma SuffixDeterminesTotal(totalPages: int, otherTotal: int, cur: int, otherCur: int)
    ensures Suffix(false, cur, totalPages) == Suffix(false, otherCur, otherTotal) <==> totalPages == otherTotal
  {
    var a, b := Suffix(false, cur, totalPages), Suffix(false, otherCur, otherTotal);
    if a == b {
      assert a[3..] == b[3..];
      SuffixShape(false, cur, totalPages);
      SuffixShape(false, otherCur, otherTotal);
      IntToStringInjective(totalPages, otherTotal);
    }
  }

  /** A submit that navigates always names a page the labels define, except
      for the empty value, which names page 0 unless it is a label. */
  lemma SubmitTarget(labels: seq<string>, f: FieldValue)
    ensures Submit(labels, f).Navigate? ==>
      var p := Submit(labels, f).page;
      (p == 0 <==> f == Text("") && "" !in labels) &&
      (p != 0 ==> 1 <= p <= |labels| && LabelAt(labels, p) == f)
  {
  }

  /** Blurring twice leaves the state of one blur. */
  lemma BlurIdempotent(s: OverlayState, props: Props)
    ensures Blur(Blur(s, props), props) == Blur(s, props)
  {
  }

  /** The latch never goes back to false on an update. */
  lemma DidUpdateKeepsLatch(s: OverlayState, prev: Props, next: Props)
    ensures s.isCustomPageLabels ==> DidUpdate(s, prev, next).isCustomPageLabels
  {
  }

  /** An update that changes the page or the label array leaves the field
      showing the new page's label, so a blur that follows changes nothing. */
  lemma ChangingUpdateSynchronises(s: OverlayState, prev: Props, next: Props)
    requires PageOrLabelsChanged(prev, next)
    ensures DidUpdate(s, prev, next).input == LabelAt(next.pageLabels, next.currentPage)
    ensures Blur(DidUpdate(s, prev, next), next) == DidUpdate(s, prev, next)
  {
  }

  class PageNavOverlay {
    var input: FieldValue
    var isCustomPageLabels: bool

    function Snapshot(): OverlayState
      reads this
    {
      OverlayState(input, isCustomPageLabels)
    }

    constructor ()
      ensures input == Text("") && !isCustomPageLabels
      ensures Snapshot() == InitialState()
    {
      input := Text("");
      isCustomPageLabels := false;
    }

    /** The viewer's props changed from `prev` to `next`. */
    method ComponentDidUpdate(prev: Props, next: Props)
      modifies this
      ensures isCustomPageLabels == (old(isCustomPageLabels) || LatchTrigger(prev, next))
      ensures input == if PageOrLabelsChanged(prev, next)
                       then LabelAt(next.pageLabels, next.currentPage) else old(input)
      ensures Snapshot() == DidUpdate(old(Snapshot()), prev, next)
    {
      if LatchTrigger(prev, next) {
        isCustomPageLabels := true;
      }
      if PageOrLabelsChanged(prev, next) {
        input := LabelAt(next.pageLabels, next.currentPage);
      }
    }

    /** A keystroke: the field takes the typed text as it is. */
    method OnInput(text: string)
      modifies this
      ensures input == Text(text) && isCustomPageLabels == old(isCustomPageLabels)
      ensures Snapshot() == Input(old(Snapshot()), text)
    {
      input := Text(text);
    }

    /** A submit: validates the field and says what the host must do; the
        state is left as it is. */
    method OnSubmit(props: Props) returns (e: Effect)
      ensures e.Navigate? <==> IsValidInput(props.pageLabels, input)
      ensures e.Navigate? && input.s in props.pageLabels ==>
        e.page == IndexOf(props.pageLabels, input.s) + 1 && LabelAt(props.pageLabels, e.page) == input
      ensures e.Navigate? && input.s !in props.pageLabels ==> e.page == 0
      ensures e == Submit(props.pageLabels, input)
    {
      var valid := IsValidInput(props.pageLabels, input);
      if valid {
        e := Navigate(IndexOf(props.pageLabels, input.s) + 1);
      } else {
        e := BlurInput;
      }
    }

    /** The field lost focus: it shows the current page's label again. */
    method OnBlur(props: Props)
      modifies this
      ensures input == LabelAt(props.pageLabels, props.currentPage)
      ensures isCustomPageLabels == old(isCustomPageLabels)
      ensures Snapshot() == Blur(old(Snapshot()), props)
    {
      input := LabelAt(props.pageLabels, props.currentPage);
    }

    /** What `render` derives: nothing when disabled; otherwise the field
        value, its width, the shifted layout flag and the suffix. */
    function Render(props: Props): (v: Option<View>)
      reads this
      ensures v.None? <==> props.isDisabled
      ensures v.Some? ==>
        v.value.value == input &&
        v.value.shifted == IsShifted(props) &&
        v.value.width == InputWidth(props.totalPages) &&
        v.value.suffix == Suffix(isCustomPageLabels, props.currentPage, props.totalPages)
    {
      if props.isDisabled then None
      else Some(View(input, InputWidth(props.totalPages), IsShifted(props),
                     Suffix(isCustomPageLabels, props.currentPage, props.totalPages)))
    }
  }
}
