/** The optional value used for PHP's nullable fields and parameters. */
module Optional {

  datatype Option<+T> = None | Some(value: T)
}
