// Layout arithmetic shared by the preview panel and the form filler: the
// width class of the preview frame and the progress bar percentage.
module PreviewLayout {
  import opened FormModel

  /** Classes every preview frame carries, whatever the device. */
  const BaseClass: string := "mx-auto transition-all duration-300"

  /** Maximum-width class picked for a device. */
  function WidthClass(mode: PreviewMode): (w: string)
  {
    match mode
    case Mobile => "max-w-sm"
    case Tablet => "max-w-md"
    case Desktop => "max-w-2xl"
  }

  /** Class list of the preview frame: the base classes, a space, the width. */
  function ContainerClass(mode: PreviewMode): (c: string)
    ensures |c| > |BaseClass| + 1
    ensures c[..|BaseClass|] == BaseClass && c[|BaseClass|] == ' '
    ensures c[|BaseClass| + 1..] == WidthClass(mode)
  {
    BaseClass + " " + WidthClass(mode)
  }

  /** Each device gets its own frame: the class list tells the mode apart. */
  lemma ContainerClassDistinguishesModes(m1: PreviewMode, m2: PreviewMode)
    ensures ContainerClass(m1) == ContainerClass(m2) <==> m1 == m2
  {
    if ContainerClass(m1) == ContainerClass(m2) {
      assert WidthClass(m1) == ContainerClass(m1)[|BaseClass| + 1..];
      assert WidthClass(m2) == ContainerClass(m2)[|BaseClass| + 1..];
    }
  }

  /** Progress bar value: (step + 1) / total * 100, as a real number. */
  function Progress(currentStep: nat, totalSteps: nat): (p: real)
    requires totalSteps >= 1
    ensures currentStep < totalSteps ==> 0.0 < p <= 100.0
    ensures p == 100.0 <==> currentStep + 1 == totalSteps
  {
    (currentStep + 1) as real / totalSteps as real * 100.0
  }

  /** Stepping forward always moves the bar forward. */
  lemma ProgressGrows(k: nat, totalSteps: nat)
    requires totalSteps >= 1
    ensures Progress(k, totalSteps) < Progress(k + 1, totalSteps)
  {
  }
}
