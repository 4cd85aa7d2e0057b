/** The Option type the model uses for "no value" and for steps that cannot
    proceed: a channel operation that would block, or a slice that would panic. */
module Optional {

  datatype Option<+T> = None | Some(value: T)
}
