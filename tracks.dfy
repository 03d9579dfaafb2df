/** The two presentation modes every scene can be shown in. */
module Tracks {

  datatype Track = DESIGN | LOGIC
}
