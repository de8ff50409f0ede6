/** The fixed multicast rendezvous of the auction server. */
module Transport {

  /** Multicast group the server publishes to and hands out at bootstrap (server.js:21). */
  const MulticastAddress: string := "224.0.0.5"

  /** UDP port of the multicast group (server.js:22). */
  const MulticastPort: int := 41234
}
