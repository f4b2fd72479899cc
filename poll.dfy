/** The result shapes shared by every future and stream of the library. */
module TaskPoll {

  /** `std::task::Poll`: a poll either completes with a value or asks to be polled again. */
  datatype Poll<+T> = Pending | Ready(value: T)

  /** `core::option::Option`. */
  datatype Option<+T> = None | Some(value: T)

  /** `core::result::Result`. */
  datatype Result<+T, +E> = Ok(value: T) | Err(error: E)
}
