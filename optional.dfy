/** An optional value: `None` stands for a value that is absent. */
module Optional {

  datatype Option<+T> = None | Some(value: T)
}
