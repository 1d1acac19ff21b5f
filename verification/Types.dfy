/** The values that travel through the switch and the lock server. */
module NetLockTypes {

  datatype Option<+T> = None | Some(value: T)

  // SHARED_LOCK and EXCLUSIVE_LOCK, the only two modes the switch tables match on.
  datatype Mode = Shared | Exclusive

  // A client is reached at an address and, on that machine, by a client number.
  datatype Client = Client(ip: nat, id: nat)

  // One queued request: what the six parallel entry arrays hold for one slot,
  // and what one node of the server's list holds. The fields are only copied,
  // never computed with, so their width does not matter.
  datatype Entry = Entry(mode: Mode, tid: nat, ip: nat, clientId: nat, tsHi: nat, tsLo: nat) {
    function Owner(): Client {
      Client(ip, clientId)
    }
  }
}
