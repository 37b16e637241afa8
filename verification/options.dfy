/** The nullable values of the application (`T | null`) as an Option datatype. */
module Options {

  datatype Option<+T> = None | Some(value: T)
}
