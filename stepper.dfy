/**
 * The step list beside the wizard (`Stepper`): one button per step, marked
 * completed, current or pending against the current step, with the icon
 * that marking selects and the index its click reports.
 */
module Stepper {

  /** The badge inside a step's circle. */
  datatype Icon = Check | Dot | Placeholder

  /** One rendered step: its title, its marking, its icon and the index passed to `onStepClick`. */
  datatype StepView = StepView(title: string, completed: bool, current: bool, icon: Icon, clickIndex: int)

  predicate IsCompleted(index: int, currentStep: int) { index < currentStep }

  predicate IsCurrent(index: int, currentStep: int) { index == currentStep }

  /** A check for a completed step, a dot for the current one, the hover placeholder otherwise. */
  function IconFor(completed: bool, current: bool): (i: Icon)
    ensures i == Check <==> completed
    ensures i == Dot <==> !completed && current
  {
    if completed then Check else if current then Dot else Placeholder
  }

  /** The button for step `index`. */
  function StepAt(title: string, index: int, currentStep: int): StepView {
    var completed := IsCompleted(index, currentStep);
    var current := IsCurrent(index, currentStep);
    StepView(title, completed, current, IconFor(completed, current), index)
  }

  /** `steps.map(...)`: one button per step, in order. */
  function Render(titles: seq<string>, currentStep: int): (r: seq<StepView>)
    ensures |r| == |titles|
    ensures forall i :: 0 <= i < |r| ==> r[i] == StepAt(titles[i], i, currentStep)
    decreases |titles|
  {
    if titles == [] then []
    else Render(titles[..|titles| - 1], currentStep) + [StepAt(titles[|titles| - 1], |titles| - 1, currentStep)]
  }

  /**
   * Each button shows its own title and reports its own index; it is
   * completed exactly before the current step, current exactly at it, never
   * both, and its icon follows that marking.
   */
  lemma RenderMarks(titles: seq<string>, currentStep: int, i: int)
    requires 0 <= i < |titles|
    ensures var v := Render(titles, currentStep)[i];
      && v.title == titles[i] && v.clickIndex == i
      && (v.completed <==> i < currentStep)
      && (v.current <==> i == currentStep)
      && !(v.completed && v.current)
      && (v.icon == Check <==> i < currentStep)
      && (v.icon == Dot <==> i == currentStep)
      && (v.icon == Placeholder <==> i > currentStep)
  {
  }

  /** The number of buttons marked current. */
  function CurrentCount(vs: seq<StepView>): (n: nat)
    ensures n <= |vs|
    decreases |vs|
  {
    if vs == [] then 0 else CurrentCount(vs[..|vs| - 1]) + (if vs[|vs| - 1].current then 1 else 0)
  }

  lemma {:induction false} NoneCurrent(vs: seq<StepView>)
    requires forall i :: 0 <= i < |vs| ==> !vs[i].current
    ensures CurrentCount(vs) == 0
    decreases |vs|
  {
    if vs != [] {
      NoneCurrent(vs[..|vs| - 1]);
    }
  }

  lemma {:induction false} OneCurrent(vs: seq<StepView>, c: int)
    requires 0 <= c < |vs|
    requires forall i :: 0 <= i < |vs| ==> (vs[i].current <==> i == c)
    ensures CurrentCount(vs) == 1
    decreases |vs|
  {
    var init := vs[..|vs| - 1];
    if c == |vs| - 1 {
      NoneCurrent(init);
    } else {
      OneCurrent(init, c);
    }
  }

  /**
   * With the current step inside the list, exactly one button is current
   * and the completed buttons are exactly those before it.
   */
  lemma ExactlyOneCurrent(titles: seq<string>, currentStep: int)
    requires 0 <= currentStep < |titles|
    ensures CurrentCount(Render(titles, currentStep)) == 1
    ensures forall i :: 0 <= i < currentStep ==> Render(titles, currentStep)[i].completed
    ensures forall i :: currentStep <= i < |titles| ==> !Render(titles, currentStep)[i].completed
  {
    OneCurrent(Render(titles, currentStep), currentStep);
  }

  /** With the current step past the end, no button is current and all are completed. */
  lemma PastTheEnd(titles: seq<string>, currentStep: int)
    requires currentStep >= |titles|
    ensures CurrentCount(Render(titles, currentStep)) == 0
    ensures forall i :: 0 <= i < |titles| ==> Render(titles, currentStep)[i].completed
  {
    NoneCurrent(Render(titles, currentStep));
  }
}
