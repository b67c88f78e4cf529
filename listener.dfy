/**
 The UDP listener itself: a statistics object whose counters it bumps in
 place, and the receive loop that handles one datagram per iteration.
 */
module Listener {
  import opened Wire
  import opened Dispatch

  /** The shared statistics object; only the four counters the listener
      touches are modelled. */
  class Varz {
    var clientQueriesUdp: nat
    var clientQueriesErrors: nat
    var clientQueriesCached: nat
    var clientQueriesExpired: nat

    constructor ()
      ensures Snapshot() == Counters(0, 0, 0, 0)
    {
      clientQueriesUdp, clientQueriesErrors := 0, 0;
      clientQueriesCached, clientQueriesExpired := 0, 0;
    }

    function Snapshot(): Counters
      reads this
    {
      Counters(clientQueriesUdp, clientQueriesErrors, clientQueriesCached, clientQueriesExpired)
    }
  }

  /** A listener on one UDP socket. The socket, the cache and the resolver
      channel are not state of this class: what is received, what the cache
      answers and what is sent or forwarded are the inputs and outputs of
      `Step`, and the only state the listener writes is the statistics. */
  class UdpListener {
    const limits: Limits
    const dns: Dns
    const varz: Varz

    constructor (limits: Limits, dns: Dns, varz: Varz)
      ensures this.limits == limits && this.dns == dns && this.varz == varz
    {
      this.limits, this.dns, this.varz := limits, dns, varz;
    }

    /** One iteration of the receive loop, for a received datagram. */
    method Step(d: Datagram) returns (a: Action)
      modifies varz
      ensures a == Decide(limits, dns, d)
      ensures varz.Snapshot() == Tally(old(varz.Snapshot()), limits, dns, d)
    {
      varz.clientQueriesUdp := varz.clientQueriesUdp + 1;
      if |d.bytes| < limits.minSize || |d.bytes| > limits.maxSize {
        varz.clientQueriesErrors := varz.clientQueriesErrors + 1;
        return Drop;
      }
      var parsed := dns.normalize(d.bytes);
      if parsed.None? {
        varz.clientQueriesErrors := varz.clientQueriesErrors + 1;
        return Drop;
      }
      var question := parsed.value;
      var cacheEntry := d.lookup(question);
      if cacheEntry.Some? {
        var entry := cacheEntry.value;
        if !entry.expired {
          varz.clientQueriesCached := varz.clientQueriesCached + 1;
          if |entry.packet| > question.payloadSize as int {
            var tc := dns.buildTc(question);
            if tc.None? {
              return TcBuildFailed;
            }
            return SendTruncated(tc.value, d.from);
          }
          var packet := entry.packet;
          packet := dns.setTid(packet, question.tid);
          packet := dns.overwriteQname(packet, question.qname);
          return SendPatched(packet, d.from);
        }
        varz.clientQueriesExpired := varz.clientQueriesExpired + 1;
      }
      var clientQuery := ClientQuery(UDP, None, Some(d.from), None, question, d.now);
      return Forward(clientQuery);
    }

    /** The receive loop over a sequence of receive events. It returns the
        outcomes in order and whether it ended on a fatal error (a receive
        error, or a truncated reply that could not be built) rather than by
        running out of events. */
    method Run(rs: seq<Recv>) returns (acts: seq<Action>, fatal: bool)
      modifies varz
      ensures acts == Trace(limits, dns, rs)
      ensures varz.Snapshot() == Totals(old(varz.Snapshot()), limits, dns, rs)
      ensures fatal <==> |acts| < |rs| || (|acts| > 0 && acts[|acts| - 1] == TcBuildFailed)
    {
      ghost var c0 := varz.Snapshot();
      acts, fatal := [], false;
      var i := 0;
      while i < |rs|
        invariant 0 <= i <= |rs|
        invariant |acts| == i && forall k :: 0 <= k < i ==> acts[k] != TcBuildFailed
        invariant acts + Trace(limits, dns, rs[i..]) == Trace(limits, dns, rs)
        invariant Totals(varz.Snapshot(), limits, dns, rs[i..]) == Totals(c0, limits, dns, rs)
      {
        TraceAt(varz.Snapshot(), limits, dns, rs, i);
        match rs[i] {
          case RecvError =>
            // `recv_from` failed: the `expect` ends the listener
            fatal := true;
            return;
          case Received(d) =>
            var a := Step(d);
            acts := acts + [a];
            if a == TcBuildFailed {
              // the `unwrap` of the truncated reply ends the listener
              fatal := true;
              return;
            }
        }
        i := i + 1;
      }
    }
  }
}
