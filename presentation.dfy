/** WPF presentation values shared by several controls. */
module Presentation {

  /** `System.Windows.Visibility`. */
  datatype Visibility = Visible | Hidden | Collapsed
}
