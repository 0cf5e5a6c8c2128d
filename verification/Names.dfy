/** Identifiers. */
module Names {

  /** The text that identifies a run, a client, a model, a provider, a function or a currency. */
  datatype Name = Name(text: string)
  {
    predicate Blank() {
      text == ""
    }
  }
}
