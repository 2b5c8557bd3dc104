/**
 * The tutorial dialog: a fixed, ordered list of six steps and a step index
 * that the Previous and Next buttons move one place at a time, never past
 * either end. The view (step shown, progress bars, "Step k of N" label,
 * disabled buttons) is a pure function of the index.
 */
module HelpModal {
  import Decimal

  /** One page of the tutorial. */
  datatype Step = Step(title: string, description: string, highlight: string, image: string)

  const TutorialSteps: seq<Step> := [
    Step("Welcome to the Chat",
         "This is your intelligent chat interface. You can have conversations with AI and manage multiple chats.",
         "main", "\U{2728}"),
    Step("Create New Conversations",
         "Click the 'New conversation' button in the sidebar to start a fresh chat. Each conversation is saved separately.",
         "newChat", "\U{2795}"),
    Step("Manage Your Chats",
         "Hover over any conversation to see edit and delete options. Rename conversations or remove ones you no longer need.",
         "conversations", "\U{270F}\U{FE0F}"),
    Step("Send Messages",
         "Type your message in the input box at the bottom. Press Enter to send, or use Shift+Enter for a new line.",
         "input", "\U{1F4AC}"),
    Step("Emoji Support",
         "Click the smile icon to add emojis to your messages. Make your conversations more expressive!",
         "emoji", "\U{1F60A}"),
    Step("Check Your Usage",
         "The message counter shows how many messages you have left. Upgrade your plan for more messages.",
         "messages", "\U{1F4CA}")
  ]

  // ---------------------------------------------------------------------
  // Transitions of the step index over `n` steps

  /** The index after a click on Next: one further unless already on the last step. */
  function Advance(i: nat, n: nat): (j: nat)
    requires i < n
    ensures j < n
    ensures j == i || j == i + 1
  {
    if i < n - 1 then i + 1 else i
  }

  /** The index after a click on Previous: one back unless already on the first step. */
  function Retreat(i: nat): (j: nat)
    ensures j <= i && i <= j + 1
  {
    if i > 0 then i - 1 else i
  }

  /** Next moves exactly one step forward away from the last step, and does nothing on it. */
  lemma AdvanceByOne(i: nat, n: nat)
    requires i < n
    ensures i < n - 1 ==> Advance(i, n) == i + 1
    ensures i == n - 1 ==> Advance(i, n) == i
  {
  }

  /** Previous moves exactly one step back away from the first step, and does nothing on it. */
  lemma RetreatByOne(i: nat)
    ensures i > 0 ==> Retreat(i) == i - 1
    ensures i == 0 ==> Retreat(i) == 0
  {
  }

  /** Previous undoes Next wherever Next moved. */
  lemma NextThenPrev(i: nat, n: nat)
    requires i < n - 1
    ensures Retreat(Advance(i, n)) == i
  {
  }

  /** Next undoes Previous wherever Previous moved. */
  lemma PrevThenNext(i: nat, n: nat)
    requires 0 < i < n
    ensures Advance(Retreat(i), n) == i
  {
  }

  // ---------------------------------------------------------------------
  // Sequences of clicks

  datatype Event = NextClicked | PrevClicked | CloseClicked

  /** One click. Close only asks the host to hide the dialog; the index stays. */
  function Apply(i: nat, n: nat, e: Event): (j: nat)
    requires i < n
    ensures j < n
    ensures e == CloseClicked ==> j == i
  {
    match e
    case NextClicked => Advance(i, n)
    case PrevClicked => Retreat(i)
    case CloseClicked => i
  }

  /** The index after the clicks `events`, in order, starting from `i`. */
  function Run(i: nat, n: nat, events: seq<Event>): (j: nat)
    requires i < n
    ensures j < n
    decreases |events|
  {
    if events == [] then i else Run(Apply(i, n, events[0]), n, events[1..])
  }

  /** The tutorial opens on its first step and, whatever is clicked, shows one of its six steps. */
  lemma IndexAlwaysInRange(events: seq<Event>)
    ensures |TutorialSteps| == 6
    ensures Run(0, |TutorialSteps|, events) < 6
  {
  }

  function Repeat(e: Event, k: nat): (es: seq<Event>)
    ensures |es| == k
    ensures forall m :: 0 <= m < k ==> es[m] == e
  {
    if k == 0 then [] else [e] + Repeat(e, k - 1)
  }

  function Min(a: int, b: int): int { if a <= b then a else b }

  function Max(a: int, b: int): int { if a >= b then a else b }

  /** `k` clicks on Next move `k` steps forward but stop at the last step. */
  lemma {:induction false} RepeatedNext(i: nat, n: nat, k: nat)
    requires i < n
    ensures Run(i, n, Repeat(NextClicked, k)) == Min(i + k, n - 1)
    decreases k
  {
    if k > 0 {
      var es := Repeat(NextClicked, k);
      assert es[1..] == Repeat(NextClicked, k - 1);
      RepeatedNext(Advance(i, n), n, k - 1);
    }
  }

  /** `k` clicks on Previous move `k` steps back but stop at the first step. */
  lemma {:induction false} RepeatedPrev(i: nat, n: nat, k: nat)
    requires i < n
    ensures Run(i, n, Repeat(PrevClicked, k)) == Max(i - k, 0)
    decreases k
  {
    if k > 0 {
      var es := Repeat(PrevClicked, k);
      assert es[1..] == Repeat(PrevClicked, k - 1);
      RepeatedPrev(Retreat(i), n, k - 1);
    }
  }

  // ---------------------------------------------------------------------
  // The progress indicator

  /** The look of one progress bar: bright, half-bright or dim. */
  datatype BarStatus = Current | Done | Pending

  /** The bar of step `idx` while step `current` is shown. */
  function StatusOf(idx: nat, current: nat): (s: BarStatus)
    ensures s == Current <==> idx == current
    ensures s == Done <==> idx < current
    ensures s == Pending <==> idx > current
  {
    if idx == current then Current else if idx < current then Done else Pending
  }

  /** One bar per step, in step order. */
  function ProgressBars(current: nat, n: nat): (bars: seq<BarStatus>)
    ensures |bars| == n
    ensures forall idx :: 0 <= idx < n ==> (bars[idx] == Current <==> idx == current)
    ensures forall idx :: 0 <= idx < n ==> (bars[idx] == Done <==> idx < current)
    ensures forall idx :: 0 <= idx < n ==> (bars[idx] == Pending <==> idx > current)
  {
    seq(n, idx requires 0 <= idx => StatusOf(idx, current))
  }

  /** How many bars have status `s`. */
  function Count(bars: seq<BarStatus>, s: BarStatus): nat {
    if bars == [] then 0
    else Count(bars[..|bars| - 1], s) + (if bars[|bars| - 1] == s then 1 else 0)
  }

  lemma {:induction false} BarCountsUpTo(current: nat, n: nat)
    ensures Count(ProgressBars(current, n), Done) == Min(current, n)
    ensures Count(ProgressBars(current, n), Current) == (if current < n then 1 else 0)
    ensures Count(ProgressBars(current, n), Pending) == (if current < n then n - 1 - current else 0)
    decreases n
  {
    if n > 0 {
      var bars := ProgressBars(current, n);
      assert bars[..n - 1] == ProgressBars(current, n - 1);
      BarCountsUpTo(current, n - 1);
    }
  }

  /** On step `current` exactly one bar is current, `current` bars are done and the rest pending. */
  lemma BarCounts(current: nat, n: nat)
    requires current < n
    ensures Count(ProgressBars(current, n), Current) == 1
    ensures Count(ProgressBars(current, n), Done) == current
    ensures Count(ProgressBars(current, n), Pending) == n - 1 - current
  {
    BarCountsUpTo(current, n);
  }

  // ---------------------------------------------------------------------
  // The "Step k of N" label

  /** The text under the bars: the one-based step number and the number of steps. */
  function StepLabel(current: nat, n: nat): (s: string)
    ensures |s| > 5 && s[..5] == "Step "
    ensures var total := Decimal.FromNat(n); |total| < |s| && s[|s| - |total|..] == total
  {
    "Step " + Decimal.FromNat(current + 1) + " of " + Decimal.FromNat(n)
  }

  /** Where the step number sits in the label: after "Step ", followed by a space. */
  lemma LabelLayout(i: nat, n: nat)
    ensures var a := Decimal.FromNat(i + 1);
      5 + |a| < |StepLabel(i, n)| &&
      StepLabel(i, n)[5..5 + |a|] == a &&
      StepLabel(i, n)[5 + |a|] == ' '
  {
    var a, c := Decimal.FromNat(i + 1), Decimal.FromNat(n);
    var s := StepLabel(i, n);
    assert s == "Step " + a + " of " + c;
    assert s[5 + |a|] == (" of " + c)[0] by {
      assert s == ("Step " + a) + (" of " + c);
    }
  }

  /** Equal labels put the same number of digits before " of ". */
  lemma LabelNumberLength(i: nat, j: nat, n: nat)
    requires StepLabel(i, n) == StepLabel(j, n)
    ensures |Decimal.FromNat(i + 1)| <= |Decimal.FromNat(j + 1)|
  {
    var a, b := Decimal.FromNat(i + 1), Decimal.FromNat(j + 1);
    LabelLayout(i, n);
    LabelLayout(j, n);
    if |b| < |a| {
      assert false;
    }
  }

  /** The label's two numbers can be read back: distinct steps get distinct labels. */
  lemma StepLabelInjective(i: nat, j: nat, n: nat)
    ensures StepLabel(i, n) == StepLabel(j, n) <==> i == j
  {
    if StepLabel(i, n) == StepLabel(j, n) {
      LabelNumberLength(i, j, n);
      LabelNumberLength(j, i, n);
      LabelLayout(i, n);
      LabelLayout(j, n);
      Decimal.FromNatInjective(i + 1, j + 1);
    }
  }

  /** The number the label shows for a valid step lies in 1..n. */
  lemma LabelNumberInRange(i: nat, n: nat)
    requires i < n
    ensures var a := Decimal.FromNat(i + 1);
      StepLabel(i, n)[5..5 + |a|] == a && 1 <= Decimal.ToNat(a) <= n
  {
    LabelLayout(i, n);
    Decimal.ToNatFromNat(i + 1);
  }

  /** The label reads "Step N of N" exactly on the last step. */
  lemma LabelShowsLastStep(i: nat, n: nat)
    requires i < n
    ensures StepLabel(i, n) == "Step " + Decimal.FromNat(n) + " of " + Decimal.FromNat(n) <==> i == n - 1
  {
    StepLabelInjective(i, n - 1, n);
  }

  // ---------------------------------------------------------------------
  // The rendered dialog

  datatype View = View(
    step: Step,
    bars: seq<BarStatus>,
    stepText: string,
    prevDisabled: bool,
    nextDisabled: bool)

  /** The dialog as drawn on step `i`: the step's content, the bars, the label and the buttons. */
  function Render(steps: seq<Step>, i: nat): (v: View)
    requires i < |steps|
    ensures v.step == steps[i]
    ensures v.bars == ProgressBars(i, |steps|) && v.bars[i] == Current
    ensures v.stepText == StepLabel(i, |steps|)
    ensures v.prevDisabled <==> i == 0
    ensures v.nextDisabled <==> i == |steps| - 1
  {
    View(steps[i], ProgressBars(i, |steps|), StepLabel(i, |steps|), i == 0, i == |steps| - 1)
  }

  /** Each navigation button is disabled exactly where its handler would do nothing. */
  lemma DisabledIffNoOp(steps: seq<Step>, i: nat)
    requires i < |steps|
    ensures Render(steps, i).prevDisabled <==> Retreat(i) == i
    ensures Render(steps, i).nextDisabled <==> Advance(i, |steps|) == i
  {
  }

  /** The dialog opens on "Welcome to the Chat", labelled "Step 1 of 6", with Previous disabled. */
  lemma FirstView()
    ensures Render(TutorialSteps, 0).step.title == "Welcome to the Chat"
    ensures Render(TutorialSteps, 0).stepText == "Step 1 of 6"
    ensures Render(TutorialSteps, 0).prevDisabled && !Render(TutorialSteps, 0).nextDisabled
  {
  }

  // ---------------------------------------------------------------------
  // The component's state cell

  class HelpDialog {
    const steps: seq<Step>
    var currentStep: nat

    ghost predicate Valid()
      reads this
    {
      0 < |steps| && currentStep < |steps|
    }

    /** Mounting the dialog: the fixed steps, starting at the first. */
    constructor ()
      ensures Valid()
      ensures steps == TutorialSteps && currentStep == 0
    {
      steps := TutorialSteps;
      currentStep := 0;
    }

    method HandleNext()
      requires Valid()
      modifies this
      ensures Valid()
      ensures currentStep == Advance(old(currentStep), |steps|)
    {
      if currentStep < |steps| - 1 {
        currentStep := currentStep + 1;
      }
    }

    method HandlePrev()
      requires Valid()
      modifies this
      ensures Valid()
      ensures currentStep == Retreat(old(currentStep))
    {
      if currentStep > 0 {
        currentStep := currentStep - 1;
      }
    }

    /** The Close button: asks the host to set its open flag to false; the step is kept. */
    method HandleClose() returns (open: bool)
      requires Valid()
      ensures !open
      ensures currentStep == old(currentStep)
    {
      open := false;
    }
  }
}
