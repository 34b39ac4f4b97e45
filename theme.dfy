/** The colour theme: one of two names, kept under its own storage key. */
module Theme {

  import opened Wrappers

  const Neon := "neon"
  const Dark := "dark"

  /** `localStorage.getItem(THEME_KEY) || 'neon'`: the stored theme, with a
      missing value and the (falsy) empty string both read as "neon". */
  function Current(stored: Option<string>): (t: string)
    ensures t != ""
    ensures stored.Some? && stored.value != "" ==> t == stored.value
    ensures stored.None? || stored.value == "" ==> t == Neon
  {
    match stored
    case Some(v) => if v != "" then v else Neon
    case None => Neon
  }

  /** The toggle: "neon" becomes "dark", anything else becomes "neon". */
  function Flip(current: string): (t: string)
    ensures t == Neon || t == Dark
    ensures t == Dark <==> current == Neon
  {
    if current == Neon then Dark else Neon
  }

  /** Two toggles from either theme give it back; from any other value the
      first gives "neon" and the second "dark". */
  lemma FlipTwice(current: string)
    ensures current == Neon || current == Dark ==> Flip(Flip(current)) == current
    ensures current != Neon && current != Dark ==> Flip(Flip(current)) == Dark
  {
  }
}
