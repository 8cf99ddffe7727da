/** The optional value shared by the chat and skill modules: an absent
    reply text, a regular expression that did not match. */
module Optional {

  datatype Option<+T> = None | Some(value: T)

}
