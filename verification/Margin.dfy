/** Margin modes. */
module Margin {
  datatype MarginMode = NoMarginMode | Isolated | Cross | Portfolio

  /** The modes an account can have; the others end the process when accounts are created. */
  type AccountMode = m: MarginMode | m.Isolated? || m.Cross? witness Cross
}
