/**
 * The one string search the source relies on: std::string::find(char, start).
 * A Dafny char stands for one byte of a std::string.
 */
module Text {
  import opened Wrappers

  /** Index of the first `c` at or after `start`; None is npos. */
  function Find(text: string, c: char, start: nat): (at: Option<nat>)
    requires start <= |text|
    ensures at.None? ==> forall i | start <= i < |text| :: text[i] != c
    ensures at.Some? ==> start <= at.value < |text| && text[at.value] == c
    ensures at.Some? ==> forall i | start <= i < at.value :: text[i] != c
    decreases |text| - start
  {
    if start == |text| then None
    else if text[start] == c then Some(start)
    else Find(text, c, start + 1)
  }
}
