/** The optional value the model returns where the game hands back a null pointer. */
module Optional {

  datatype Option<T> = None | Some(value: T)
}
