/** The musical scale as the plugin's processor uses it.  The definition of
    the scale's algorithms (nearest in-scale note, chord stacking) is not part
    of this model: a scale is represented by the two operations the processor
    calls on it, held as total functions, so every property proved about the
    processor holds whatever those operations compute. */
module Scales {

  /** A scale value: `adjustToScale(note)` and `getChordIntervals(root, size)`.
      Assigning a scale copies both, as the C++ copy-assignment does. */
  datatype Scale = Scale(
    adjustToScale: int -> int,
    getChordIntervals: (int, int) -> seq<int>)

  /** The chord size the processor always asks for: a root and two more notes. */
  const ChordSize: int := 3
}
