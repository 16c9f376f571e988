/**
 * The field normaliser. The record store answers every field either as a bare
 * string or, when display values are requested, as an object
 * `{value, display_value}`. The components read the code side with
 * `typeof f === 'object' ? f.value : f` and the display side with
 * `typeof f === 'object' ? f.display_value : f`; both reads are defined once here.
 */
module Fields {

  /** A field as it arrives: a bare string, or the pair of its code and its label. */
  datatype Field = Scalar(s: string) | Pair(value: string, display: string)

  /** The code side of a field. */
  function ValueOf(f: Field): string
  {
    match f
    case Scalar(s) => s
    case Pair(v, _) => v
  }

  /** The display side of a field. */
  function DisplayOf(f: Field): string
  {
    match f
    case Scalar(s) => s
    case Pair(_, d) => d
  }

  /** JavaScript truthiness of the value a field holds: an object always, a string when it is not empty. */
  predicate Truthy(f: Field)
  {
    f.Pair? || f.s != ""
  }

  /**
   * Both shapes are observably the same to the readers: a bare string is its own
   * code and its own label, and a pair is read exactly as the bare string of the
   * side that is asked for. Truthiness is where they differ: a pair is truthy even
   * when both its sides are empty.
   */
  lemma ShapesReadAlike(f: Field)
    ensures f.Scalar? ==> ValueOf(f) == f.s && DisplayOf(f) == f.s
    ensures f.Pair? ==> ValueOf(f) == ValueOf(Scalar(f.value)) && DisplayOf(f) == DisplayOf(Scalar(f.display))
    ensures ValueOf(f) == DisplayOf(f) <==> f.Scalar? || f.value == f.display
    ensures f.Scalar? ==> (Truthy(f) <==> ValueOf(f) != "")
    ensures f.Pair? ==> Truthy(f)
  {
  }
}
