/** The nullable values of the screens (`T | null`) as an explicit option type. */
module Optional {

  datatype Option<T> = None | Some(value: T)
}
