/** The modes shared by the whole sketch: the mode controller reads `currentMode`
    at the start of each loop and the games write it when they hand control back. */
module DLDProject {

  /** The `GameMode` enumeration, in declaration order. */
  datatype GameMode = ModeMenu | ModeSand | ModeMaze | ModeCredit

  /** The integer C gives each enumerator: its position in the declaration. A global
      of this type that is zero-initialised therefore holds the menu. */
  function Ordinal(m: GameMode): (n: nat)
    ensures n < 4
    ensures n == 0 <==> m == ModeMenu
  {
    match m
    case ModeMenu => 0
    case ModeSand => 1
    case ModeMaze => 2
    case ModeCredit => 3
  }

  /** The values follow the declaration order, so with the bound 4 they are exactly
      0, 1, 2 and 3, and distinct modes have distinct values. */
  lemma OrdinalDeclarationOrder()
    ensures Ordinal(ModeMenu) < Ordinal(ModeSand) < Ordinal(ModeMaze) < Ordinal(ModeCredit)
  {
  }
}
