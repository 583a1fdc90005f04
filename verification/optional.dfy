/** The optional value used throughout the model, standing for Swift's `T?`. */
module Optional {

  datatype Option<+T> = None | Some(value: T)
}
