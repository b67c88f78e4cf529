/**
 The values the UDP listener of a DNS caching proxy handles: raw bytes, the
 normalized question, a cache entry snapshot, the miss record handed to the
 resolver, and the DNS helpers the listener calls but whose internals are not
 part of this model.
 */
module Wire {

  newtype u8 = x: int | 0 <= x < 0x100
  newtype u16 = x: int | 0 <= x < 0x1_0000

  type Bytes = seq<u8>

  datatype Option<+T> = None | Some(value: T)

  /** A peer's socket address; the model never looks inside it. */
  datatype SocketAddr = SocketAddr(host: Bytes, port: u16)

  /** The question `dns::normalize` extracts from a query. */
  datatype Question = Question(
    qname: Bytes,          // the name as it was on the wire, original casing
    qnameLc: Bytes,        // the case-folded name, part of the cache key
    qtype: u16,
    qclass: u16,
    tid: u16,              // the transaction id of the query's header
    payloadSize: u16,      // the largest reply the client accepts over UDP
    dnssecOk: bool)

  /** What a cache lookup hands out: a private copy of the stored answer and
      whether the entry's lifetime has run out at the time of the lookup. */
  datatype Entry = Entry(packet: Bytes, expired: bool)

  datatype Protocol = UDP | TCP

  /** Stand-ins for a TCP connection token and a TCP client's reply channel;
      the UDP path always leaves both empty. */
  type ClientToken = nat
  type TcpClientChannel = nat

  /** The miss record forwarded to the resolver. `ts` is the clock reading
      taken when the record is built. */
  datatype ClientQuery = ClientQuery(
    proto: Protocol,
    clientTok: Option<ClientToken>,
    clientAddr: Option<SocketAddr>,
    tcpclientTx: Option<TcpClientChannel>,
    normalizedQuestion: Question,
    ts: nat)

  /** The DNS helpers the listener calls, as given functions:
      `normalize` parses a query with EDNS parsing switched on, as the
      listener always calls it (None is a parse error), `buildTc` builds the
      truncated reply for a question (None is an error, which the listener
      unwraps), `setTid` and `overwriteQname` patch the header id and the
      question name of a cached answer. */
  datatype Dns = Dns(
    normalize: Bytes -> Option<Question>,
    buildTc: Question -> Option<Bytes>,
    setTid: (Bytes, u16) -> Bytes,
    overwriteQname: (Bytes, Bytes) -> Bytes)

  /** The configured bounds on the length of an acceptable query. */
  datatype Limits = Limits(minSize: nat, maxSize: nat)

  predicate InBounds(limits: Limits, count: nat)
  {
    limits.minSize <= count <= limits.maxSize
  }
}
