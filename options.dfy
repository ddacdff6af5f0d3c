/** The optional value shared by the components: an absent DOM element, a
    missing storage key or a missing field of a server reply. */
module Options {

  datatype Option<T> = None | Some(value: T)
}
