/** The one widget property the monitor's logic sets: whether a button can
    be pressed (`state="normal"`) or not (`state="disabled"`). */
module Widgets {

  datatype ButtonState = Normal | Disabled
}
