/**
 The per-datagram decision of the UDP listener as pure functions: what it does
 with one received query (`Decide`), how the four statistics counters move
 (`Tally`), and the same over a whole sequence of receive events (`Trace`,
 `Totals`), with the properties that tie them together.
 */
module Dispatch {
  import opened Wire

  /** One received datagram: its bytes (the first `count` bytes of the receive
      buffer), its sender, the cache as the lookup sees it at that moment, and
      the clock reading used to stamp a miss record. */
  datatype Datagram = Datagram(
    bytes: Bytes,
    from: SocketAddr,
    lookup: Question -> Option<Entry>,
    now: nat)

  /** One call of the blocking receive: a datagram, or a socket error. */
  datatype Recv = Received(datagram: Datagram) | RecvError

  /** The single outcome of one iteration of the receive loop. */
  datatype Action =
    | Drop                                   // nothing sent, nothing forwarded
    | SendTruncated(packet: Bytes, to: SocketAddr)
    | SendPatched(packet: Bytes, to: SocketAddr)
    | Forward(query: ClientQuery)            // handed to the resolver channel
    | TcBuildFailed                          // the truncated reply could not be built

  datatype Counters = Counters(udp: nat, errors: nat, cached: nat, expired: nat)

  /** A fresh (non-expired) cache entry for the datagram's question, if the
      datagram gets that far. */
  predicate FreshHit(limits: Limits, dns: Dns, d: Datagram)
  {
    InBounds(limits, |d.bytes|) && dns.normalize(d.bytes).Some? &&
    d.lookup(dns.normalize(d.bytes).value).Some? &&
    !d.lookup(dns.normalize(d.bytes).value).value.expired
  }

  /** The question parsed but no fresh entry answers it. */
  predicate Miss(limits: Limits, dns: Dns, d: Datagram)
  {
    InBounds(limits, |d.bytes|) && dns.normalize(d.bytes).Some? && !FreshHit(limits, dns, d)
  }

  function Decide(limits: Limits, dns: Dns, d: Datagram): (a: Action)
    // a bad length or a parse error drops the datagram, and nothing else does
    ensures a == Drop <==> !InBounds(limits, |d.bytes|) || dns.normalize(d.bytes).None?
    // a fresh hit replies (or fails building the truncated reply), and nothing else does
    ensures (a.SendTruncated? || a.SendPatched? || a == TcBuildFailed) <==> FreshHit(limits, dns, d)
    ensures a.Forward? <==> Miss(limits, dns, d)
    ensures FreshHit(limits, dns, d) ==>
      var q := dns.normalize(d.bytes).value;
      var e := d.lookup(q).value;
      if |e.packet| > q.payloadSize as int then
        // too large for the client: the truncated reply built from the question
        if dns.buildTc(q).Some? then a == SendTruncated(dns.buildTc(q).value, d.from)
        else a == TcBuildFailed
      else
        // fits: the cached answer with the client's id and name casing
        a == SendPatched(dns.overwriteQname(dns.setTid(e.packet, q.tid), q.qname), d.from)
    ensures a.Forward? ==>
      a.query.proto == UDP && a.query.clientAddr == Some(d.from) &&
      a.query.clientTok == None && a.query.tcpclientTx == None &&
      a.query.normalizedQuestion == dns.normalize(d.bytes).value && a.query.ts == d.now
  {
    if |d.bytes| < limits.minSize || |d.bytes| > limits.maxSize then Drop
    else match dns.normalize(d.bytes)
      case None => Drop
      case Some(q) =>
        var entry := d.lookup(q);
        if entry.Some? && !entry.value.expired then
          var e := entry.value;
          if |e.packet| > q.payloadSize as int then
            match dns.buildTc(q)
            case Some(tc) => SendTruncated(tc, d.from)
            case None => TcBuildFailed
          else SendPatched(dns.overwriteQname(dns.setTid(e.packet, q.tid), q.qname), d.from)
        else Forward(ClientQuery(UDP, None, Some(d.from), None, q, d.now))
  }

  /** The counters after one datagram, starting from `c`. */
  function Tally(c: Counters, limits: Limits, dns: Dns, d: Datagram): (r: Counters)
    // every datagram is counted exactly once
    ensures r.udp == c.udp + 1
    // the error counter moves exactly when the datagram is dropped
    ensures r.errors == c.errors + (if Decide(limits, dns, d) == Drop then 1 else 0)
    // the hit counter moves exactly on a fresh hit, truncated or not
    ensures r.cached == c.cached + (if FreshHit(limits, dns, d) then 1 else 0)
    // the expired counter moves at most once, and only on a forward of a found entry
    ensures r.expired == c.expired || r.expired == c.expired + 1
    ensures r.expired == c.expired + 1 <==>
      Decide(limits, dns, d).Forward? && d.lookup(dns.normalize(d.bytes).value).Some?
  {
    var c := c.(udp := c.udp + 1);
    if !InBounds(limits, |d.bytes|) then c.(errors := c.errors + 1)
    else match dns.normalize(d.bytes)
      case None => c.(errors := c.errors + 1)
      case Some(q) =>
        match d.lookup(q)
        case None => c
        case Some(e) =>
          if e.expired then c.(expired := c.expired + 1) else c.(cached := c.cached + 1)
  }

  /** A bad length is rejected before `normalize` runs: the outcome and the
      counters do not depend on the parser at all. */
  lemma SizeCheckPrecedesNormalize(limits: Limits, dns: Dns, other: Dns, c: Counters, d: Datagram)
    requires !InBounds(limits, |d.bytes|)
    ensures Decide(limits, dns, d) == Decide(limits, other, d) == Drop
    ensures Tally(c, limits, dns, d) == Tally(c, limits, other, d) ==
            c.(udp := c.udp + 1, errors := c.errors + 1)
  {
  }

  /** A parse error is rejected before the cache is consulted: the outcome and
      the counters do not depend on the cache's contents. */
  lemma ParseErrorSkipsCache(limits: Limits, dns: Dns, c: Counters, d: Datagram,
                             other: Question -> Option<Entry>)
    requires InBounds(limits, |d.bytes|) && dns.normalize(d.bytes).None?
    ensures Decide(limits, dns, d) == Decide(limits, dns, d.(lookup := other)) == Drop
    ensures Tally(c, limits, dns, d) == Tally(c, limits, dns, d.(lookup := other)) ==
            c.(udp := c.udp + 1, errors := c.errors + 1)
  {
  }

  /** The kind of each outcome, for counting them. */
  datatype Kind = Dropped | Replied | Forwarded | Aborted

  function KindOf(a: Action): Kind
  {
    match a
    case Drop => Dropped
    case SendTruncated(_, _) => Replied
    case SendPatched(_, _) => Replied
    case Forward(_) => Forwarded
    case TcBuildFailed => Aborted
  }

  /** Per datagram, the counters account for the outcome: one of the error,
      hit or miss outcomes happens, and the expired counter only moves on a
      miss. */
  lemma StepAccounts(c: Counters, limits: Limits, dns: Dns, d: Datagram)
    ensures var r := Tally(c, limits, dns, d);
            var k := KindOf(Decide(limits, dns, d));
            r.udp - c.udp == (r.errors - c.errors) + (r.cached - c.cached) +
                             (if k == Forwarded then 1 else 0) &&
            (k == Dropped <==> r.errors == c.errors + 1) &&
            (k == Replied || k == Aborted <==> r.cached == c.cached + 1) &&
            (r.expired == c.expired + 1 ==> k == Forwarded)
  {
  }

  function CountOf(acts: seq<Action>, k: Kind): (n: nat)
    ensures n <= |acts|
  {
    if |acts| == 0 then 0
    else (if KindOf(acts[0]) == k then 1 else 0) + CountOf(acts[1..], k)
  }

  /** What the receive loop does with a sequence of receive events: one
      outcome per datagram, in order, until a receive error (which ends the
      loop without an outcome) or a failure to build a truncated reply (the
      last outcome). */
  function Trace(limits: Limits, dns: Dns, rs: seq<Recv>): seq<Action>
    decreases |rs|
  {
    if |rs| == 0 then []
    else match rs[0]
      case RecvError => []
      case Received(d) =>
        var a := Decide(limits, dns, d);
        if a == TcBuildFailed then [a] else [a] + Trace(limits, dns, rs[1..])
  }

  /** The counters after the receive loop ran over `rs`, starting from `c`. */
  function Totals(c: Counters, limits: Limits, dns: Dns, rs: seq<Recv>): Counters
    decreases |rs|
  {
    if |rs| == 0 then c
    else match rs[0]
      case RecvError => c
      case Received(d) =>
        var c' := Tally(c, limits, dns, d);
        if Decide(limits, dns, d) == TcBuildFailed then c' else Totals(c', limits, dns, rs[1..])
  }

  /** One step of `Trace` and `Totals` at position `i` of the events. */
  lemma TraceAt(c: Counters, limits: Limits, dns: Dns, rs: seq<Recv>, i: nat)
    requires i < |rs|
    ensures rs[i].RecvError? ==> Trace(limits, dns, rs[i..]) == [] && Totals(c, limits, dns, rs[i..]) == c
    ensures rs[i].Received? ==>
      var d := rs[i].datagram;
      var a := Decide(limits, dns, d);
      if a == TcBuildFailed then
        Trace(limits, dns, rs[i..]) == [a] && Totals(c, limits, dns, rs[i..]) == Tally(c, limits, dns, d)
      else
        Trace(limits, dns, rs[i..]) == [a] + Trace(limits, dns, rs[i + 1..]) &&
        Totals(c, limits, dns, rs[i..]) == Totals(Tally(c, limits, dns, d), limits, dns, rs[i + 1..])
  {
    assert rs[i..][0] == rs[i];
    assert rs[i..][1..] == rs[i + 1..];
  }

  predicate Le(c: Counters, c': Counters)
  {
    c.udp <= c'.udp && c.errors <= c'.errors && c.cached <= c'.cached && c.expired <= c'.expired
  }

  /** Counters never decrease. */
  lemma {:induction false} TotalsMonotone(c: Counters, limits: Limits, dns: Dns, rs: seq<Recv>)
    ensures Le(c, Totals(c, limits, dns, rs))
    decreases |rs|
  {
    if |rs| > 0 && rs[0].Received? {
      var d := rs[0].datagram;
      if Decide(limits, dns, d) != TcBuildFailed {
        TotalsMonotone(Tally(c, limits, dns, d), limits, dns, rs[1..]);
      }
    }
  }

  /** Every outcome is of exactly one kind. */
  lemma {:induction false} KindsPartition(acts: seq<Action>)
    ensures |acts| == CountOf(acts, Dropped) + CountOf(acts, Replied) +
                      CountOf(acts, Forwarded) + CountOf(acts, Aborted)
  {
    if |acts| > 0 {
      KindsPartition(acts[1..]);
    }
  }

  lemma CountOfCons(a: Action, acts: seq<Action>, k: Kind)
    ensures CountOf([a] + acts, k) == (if KindOf(a) == k then 1 else 0) + CountOf(acts, k)
  {
    assert ([a] + acts)[1..] == acts;
  }

  /** Over any run, the counters account for the outcomes: `udp` counts every
      datagram, `errors` the drops, `cached` the replies (and the one fatal
      truncation failure), and `expired` at most the forwards. */
  lemma {:induction false} TotalsAccount(c: Counters, limits: Limits, dns: Dns, rs: seq<Recv>)
    ensures var r := Totals(c, limits, dns, rs);
            var t := Trace(limits, dns, rs);
            r.udp == c.udp + |t| &&
            r.errors == c.errors + CountOf(t, Dropped) &&
            r.cached == c.cached + CountOf(t, Replied) + CountOf(t, Aborted) &&
            c.expired <= r.expired <= c.expired + CountOf(t, Forwarded) &&
            CountOf(t, Aborted) <= 1
    decreases |rs|
  {
    if |rs| > 0 && rs[0].Received? {
      var d := rs[0].datagram;
      var a := Decide(limits, dns, d);
      var c' := Tally(c, limits, dns, d);
      StepAccounts(c, limits, dns, d);
      if a == TcBuildFailed {
        forall k: Kind ensures CountOf([a], k) == (if KindOf(a) == k then 1 else 0) {
          CountOfCons(a, [], k);
        }
      } else {
        TotalsAccount(c', limits, dns, rs[1..]);
        var t := Trace(limits, dns, rs[1..]);
        forall k: Kind ensures CountOf([a] + t, k) == (if KindOf(a) == k then 1 else 0) + CountOf(t, k) {
          CountOfCons(a, t, k);
        }
      }
    }
  }

  /** Over any run, every handled datagram lands in exactly one of the error,
      hit or forward accounts: the growth of `udp` is the growth of `errors`
      plus the growth of `cached` plus the number of forwards. */
  lemma RunAccounts(c: Counters, limits: Limits, dns: Dns, rs: seq<Recv>)
    ensures var r := Totals(c, limits, dns, rs);
            r.udp - c.udp == (r.errors - c.errors) + (r.cached - c.cached) +
                             CountOf(Trace(limits, dns, rs), Forwarded)
  {
    TotalsAccount(c, limits, dns, rs);
    KindsPartition(Trace(limits, dns, rs));
  }

  /** The loop handles the events in order, one outcome per datagram, and
      stops only at a receive error or right after a failure to build a
      truncated reply. */
  lemma {:induction false} TraceShape(limits: Limits, dns: Dns, rs: seq<Recv>)
    ensures var t := Trace(limits, dns, rs);
            |t| <= |rs| &&
            (forall i :: 0 <= i < |t| ==> rs[i].Received? && t[i] == Decide(limits, dns, rs[i].datagram)) &&
            (forall i :: 0 <= i < |t| - 1 ==> t[i] != TcBuildFailed) &&
            (|t| < |rs| ==> rs[|t|].RecvError? || (|t| > 0 && t[|t| - 1] == TcBuildFailed))
    decreases |rs|
  {
    if |rs| > 0 && rs[0].Received? {
      var a := Decide(limits, dns, rs[0].datagram);
      if a != TcBuildFailed {
        TraceShape(limits, dns, rs[1..]);
        var t := Trace(limits, dns, rs[1..]);
        assert Trace(limits, dns, rs) == [a] + t;
        forall i | 1 <= i < |t| + 1
          ensures rs[i].Received? && ([a] + t)[i] == Decide(limits, dns, rs[i].datagram)
        {
          assert rs[i] == rs[1..][i - 1];
        }
        if |t| + 1 < |rs| {
          assert rs[|t| + 1] == rs[1..][|t|];
        }
      }
    }
  }
}
