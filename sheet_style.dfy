/** The style record handed to a sheet (Sources/SheetUI/SheetViewStyle.swift).
    The background colour is rendering only and is not part of this model. */
module SheetStyle {

  datatype SheetViewStyle = SheetViewStyle(isModalInPresentation: bool)

  /** `SheetViewStyle()` with every argument defaulted; also `SheetViewStyle.standard`. */
  function Default(): (s: SheetViewStyle)
    ensures !s.isModalInPresentation
  {
    SheetViewStyle(false)
  }
}
