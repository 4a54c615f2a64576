/** The nullable values of the component (`File | null`, `string | null`, ...). */
module Wrappers {

  datatype Option<+T> = None | Some(value: T)

}
