/** The optional value used wherever the orchestration code holds a nullable reference. */
module Optional {

  datatype Option<+T> = None | Some(value: T)
}
