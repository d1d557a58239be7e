/** Names of services and sessions. */
module Names {
  datatype Name = Name(text: string)
}
