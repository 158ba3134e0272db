/** The colour families of the design system that the components pick
    their class names from (`text-success-600`, `bg-warning-50`, ...). */
module Palette {
  datatype Tone = Success | Warning | Error | Primary | Secondary | Accent | Neutral
}
