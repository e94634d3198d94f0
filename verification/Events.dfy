/** An event that reached the host from one of its servers. */
module Events {
  datatype Event = Event(server: string, name: string, data: string)
}
