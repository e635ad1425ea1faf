/** A nullable value: `None` stands for Kotlin's `null`. */
module Optional {

  datatype Option<+T> = None | Some(value: T)
}
