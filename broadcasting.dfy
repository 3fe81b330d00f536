/** A broadcast channel: public (`Channel`) or private (`PrivateChannel`). */
module Broadcasting {
  datatype Channel = Channel(name: string, isPrivate: bool)
}
