# UDP listener of the edgedns caching proxy, in Dafny

This project models the UDP receive loop of edgedns, a DNS caching proxy. It is
`UdpListener::run` in `src/udp_listener.rs`. Each received datagram goes through
the same steps:

1. It is counted in `client_queries_udp`.
2. It is dropped and counted as an error if its length is outside the
   configured minimum and maximum query sizes.
3. The question is normalized. A parse error drops the datagram and counts an
   error.
4. The cache is looked up for the question:
   - A fresh entry counts a hit in `client_queries_cached`. If the cached
     answer is longer than the client's advertised UDP payload size, the
     client gets a truncated reply built from the question (TC bit, section
     4.1.1 of RFC 1035; payload size, section 6.2.3 of RFC 6891). Otherwise it
     gets the cached answer with the query's transaction id and the query's
     QNAME casing written into it.
   - An expired entry counts in `client_queries_expired`, then takes the miss
     path.
   - A miss builds a `ClientQuery` record and sends it to the resolver
     channel. A failed send is ignored.

The model has three modules:

- `Wire` (`wire.dfy`) holds the values: the normalized question, a cache-entry
  snapshot, the `ClientQuery` miss record and the query-size bounds. The DNS
  helpers the loop calls (`dns::normalize`, `dns::build_tc_packet`,
  `dns::set_tid`, `dns::overwrite_qname`) are not re-implemented. They are
  fields of a `Dns` value holding given total functions.
- `Dispatch` (`dispatch.dfy`) is the pure specification:
  - `Decide` gives the single outcome for one datagram: drop, send truncated,
    send patched, forward, or failure to build the truncated reply.
  - `Tally` gives how the four counters move.
  - `Trace` and `Totals` give the same over a sequence of receive events.
  - Lemmas relate these functions to each other.
- `Listener` (`listener.dfy`) is the imperative model:
  - A `Varz` class holds the four counters as fields, updated in place.
  - A `UdpListener` class has `Step`, one loop iteration with `modifies varz`,
    and `Run`, a `while` loop over an input sequence that stands in for the
    unbounded `loop`.
  - Both methods are proved against `Decide`/`Tally` and `Trace`/`Totals`.

The cache as seen by one datagram is a function from question to
`Option<Entry>`, where an entry carries an `expired` flag. This stands for
`Cache::get2` followed by `is_expired`. The listener holds no cache state, and
its only frame is the statistics object, so it can never insert into the cache.
The clock reading stored in the miss record (`Instant::now()`) is an input of
each datagram.

Building the truncated reply is not expected to fail, but the code unwraps
its result (`build_tc_packet(..).unwrap()`, line 55), so a failure ends the
listener thread with a panic. The model keeps this as the `TcBuildFailed`
outcome, which ends `Run`, like a receive error (the `expect` on `recv_from`).
The hit counter has already been bumped when this happens.

## Model

| member | source | states |
|---|---|---|
| Dispatch.Decide | src/udp_listener.rs:35-76 | A datagram is dropped exactly when its length is outside `[min, max]` or the question does not parse. A reply happens exactly on a fresh hit. It is the truncated packet built from the question when the cached packet is longer than `payload_size` (or the unwrap failure when that packet cannot be built), and otherwise the cached packet after `set_tid(tid)` then `overwrite_qname(qname)`, sent to the sender. A forward happens exactly on a miss or an expired entry. The forwarded record has `proto = UDP`, `client_addr = Some(sender)`, no token, no TCP channel, the normalized question unchanged, and the current clock. |
| Dispatch.Tally | src/udp_listener.rs:34-66 | `client_queries_udp` goes up by exactly one. `client_queries_errors` goes up by one exactly when the outcome is a drop. `client_queries_cached` goes up by one exactly on a fresh hit, truncated or not. `client_queries_expired` goes up by at most one, and does so exactly when a found entry is forwarded. No other counter changes. |
| Dispatch.SizeCheckPrecedesNormalize | src/udp_listener.rs:35-41 | For a length outside the bounds, the outcome (a drop) and the counters (`udp` and `errors` up by one) are the same whatever the parser does, so the parser is never consulted. |
| Dispatch.ParseErrorSkipsCache | src/udp_listener.rs:41-49 | On a parse error, the outcome (a drop) and the counters (`udp` and `errors` up by one) are the same whatever the cache holds, so the cache is never consulted. |
| Dispatch.StepAccounts | src/udp_listener.rs:34-76 | Per datagram, `udp` moves by one and exactly one of three things happens: an error drop (of `errors`, `cached` and `expired`, only `errors` moves), a hit (of those three, only `cached` moves), or a forward. The expired counter moves only on a forward. |
| Dispatch.TotalsMonotone | src/udp_listener.rs:31-77 | Over any sequence of receive events, no counter ever decreases. |
| Dispatch.TotalsAccount | src/udp_listener.rs:31-77 | Over any sequence of receive events, `udp` grows by the number of datagrams handled and `errors` by the number of drops. `cached` grows by the number of replies plus at most one fatal truncation failure. `expired` grows by at most the number of forwards. |
| Dispatch.RunAccounts | src/udp_listener.rs:31-77 | Over any sequence of receive events, every handled datagram lands in exactly one of the error, hit or forward accounts: the growth of `udp` equals the growth of `errors` plus the growth of `cached` plus the number of forwarded miss records. |
| Dispatch.TraceShape | src/udp_listener.rs:31-77 | The loop handles events in order, from the first, with one outcome per datagram, and never goes on after a truncation failure. When it stops before the input ends, the next event is a receive error, or the last outcome was a truncation failure. |
| Listener.UdpListener.Step | src/udp_listener.rs:34-76 | Changes only the statistics object. It returns the outcome `Decide` gives, and leaves the counters as `Tally` gives them from their old values. |
| Listener.UdpListener.Run | src/udp_listener.rs:28-78 | Changes only the statistics object. It returns exactly `Trace` of the input events and leaves the counters at `Totals` from their old values. It reports a fatal end exactly when it stopped before the input ended or its last outcome was a truncation failure. |

## Left out

- Socket setup (`socket_udp_bound`, `socket_udp_v4`, `socket_udp_v6`,
  `socket_udp_set_buffer_size`, lines 99-140) is left out. It is operating-system
  configuration.
- `UdpListener::spawn` (lines 80-96) is left out: thread creation and cloning
  the socket, cache and statistics handles. `Relaxed` atomic ordering is also
  left out, because the counters are plain fields of one object and threads
  are not modelled.
- Actual `recv_from` and `send_to` I/O is left out. Received datagrams are an
  input sequence, and a receive error is the `RecvError` event. A sent reply is
  the `SendTruncated`/`SendPatched` outcome, and a send failure is ignored by
  the code, so it is not modelled.
- The resolver channel is not state of the model. A `Forward` outcome records
  the attempted send. The code ignores the send's result, so nothing in the
  listener depends on it.
- The receive buffer is reused across iterations. The model gives
  `normalize` only the first `count` bytes, which is what the code passes.
  The OS cutting down a datagram longer than the `DNS_MAX_UDP_SIZE` buffer is
  not modelled.
- The values of `DNS_QUERY_MIN_SIZE` and `DNS_QUERY_MAX_SIZE` are defined in a
  file that is not part of this model. They are the `Limits` parameter.
- The wall clock (`Instant::now()` and the clock inside `is_expired`) is left
  out. The expiry decision is the entry's `expired` flag, and the miss
  record's timestamp is an input.
- The internals of `dns::normalize`, `build_tc_packet`, `set_tid`,
  `overwrite_qname` and the cache implementation are not part of this model.
  They are given functions, so the model says which of them is applied to
  what, and nothing about their bytes.
- The in-place patching of `cache_entry.packet` is modelled on values. It is the
  private copy handed out by the cache, and nothing else can observe it.
- Logging (`debug!`, `info!`) is left out.
- Dispatch.Tally: does not model the wrap-around of the `AtomicUsize` counters
  at 2^64. The counters are unbounded, which is what makes "never decreases"
  hold.
