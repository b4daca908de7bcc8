/**
  Shared vocabulary of the Stages front-panel controller: the operating modes
  stored in the settings, LED colours, the chain's loop status, and the two
  fixed tables of the user interface.
 */
module UiTypes {

  datatype Option<T> = None | Some(value: T)

  /** The global operating mode persisted in the settings. The byte encoding
      lives in a header that is not part of this model; every byte that names
      none of the five modes is `Unrecognized`. */
  datatype MultiMode =
    | Stages
    | StagesSlowLfo
    | SixEg
    | Ouroboros
    | OuroborosAlternate
    | Unrecognized

  datatype LedColor = Off | Green | Yellow | Red

  /** Loop status of a segment as reported by the chain state. */
  datatype LoopStatus = LoopNone | LoopStart | LoopEnd | LoopSelf

  datatype UiMode = Normal | FactoryTest

  /** Press length (in ticks) above which a Bank A release is a long press. */
  const LongPressDuration: int := 500

  /** Length (in renders) of the "mode changed" confirmation overlay. */
  const ToggleDisplayDuration: nat := 1000

  /** Mode selected by a very long press of each switch. */
  const Multimodes: seq<MultiMode> :=
    [Stages, Stages, StagesSlowLfo, SixEg, Ouroboros, OuroborosAlternate]

  /** Colour of each 2-bit segment type. */
  const Palette: seq<LedColor> := [Green, Yellow, Red, Off]

  predicate IsOuroboros(m: MultiMode) {
    m == Ouroboros || m == OuroborosAlternate
  }

  /** Modes rendered from the segment configuration (the original Stages
      modes and the two Ouroboros modes). */
  predicate IsStageFamily(m: MultiMode) {
    m == Stages || m == StagesSlowLfo || IsOuroboros(m)
  }

  /** Index of a loop status in the table of fade patterns. */
  function LoopIndex(l: LoopStatus): (k: nat)
    ensures k < 4
  {
    match l
    case LoopNone => 0
    case LoopStart => 1
    case LoopEnd => 2
    case LoopSelf => 3
  }
}
