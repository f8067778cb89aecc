/** The optional value the pipeline hands back where Python returns `None`. */
module Optional {

  datatype Option<+T> = None | Some(value: T)
}
