/** The `add` helper of the `main` package (main.go), a second copy of
    `calculator.Add`. What `main` prints is not modelled. */
module Program {
  import opened Go
  import Calculator

  function Add(a: Int64, b: Int64): (r: Ret<Int64>)
    ensures r.err.Some? ==> r.value == 0 && r.err.value == "retour négatif"
    ensures r.err.None? ==> r.value >= 0
  {
    var result := Wrap64(a as int + b as int);
    if result < 0 then Ret(0, Some("retour négatif")) else Ret(result, None)
  }

  /** The two copies agree on every input. */
  lemma AddIsCalculatorAdd(a: Int64, b: Int64)
    ensures Add(a, b) == Calculator.Add(a, b)
  {
  }

  /** The call `add(5, 3)` that `main` makes. */
  lemma MainSum()
    ensures Add(5, 3) == Ret(8, None)
  {
  }
}
