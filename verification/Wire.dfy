/** The messages of the network model as bytes: what one node writes to a link, the other's dispatch loop
    hands to its handlers, message by message. */
module Wire {
  import opened Base
  import opened NodeSpec
  import opened Pdu
  import opened Dispatch

  /** A listening address, IP and port, as the identity of a node. */
  function IdOf(address: u32, port: u16): Id {
    address * 65536 + port
  }

  predicate Sendable(n: Id) {
    n < 65536 * 65536 * 65536
  }

  function AddressOf(n: Id): u32
    requires Sendable(n)
  {
    n / 65536
  }

  function PortOf(n: Id): u16 {
    n % 65536
  }

  lemma AddressInverse(n: Id, address: u32, port: u16)
    ensures Sendable(n) ==> IdOf(AddressOf(n), PortOf(n)) == n
    ensures Sendable(IdOf(address, port))
            && AddressOf(IdOf(address, port)) == address && PortOf(IdOf(address, port)) == port
  {
  }

  /** The messages that the main loop reads, with texts and addresses that fit their fields. */
  predicate Fits(m: Msg) {
    match m
    case Insert(_, v) => |v.name| < 256 && |v.email| < 256
    case Remove(_) => true
    case Lookup(_, client) => Sendable(client)
    case Join(src, _, maxId) => Sendable(src) && Sendable(maxId)
    case NewRange(_, _) => true
    case Leaving(next) => Sendable(next)
    case Close => true
    case JoinResponse(_, _, _) => false
    case NewRangeResponse => false
  }

  /** The PDU that carries a message. */
  function PduOf(m: Msg): CPdu
    requires Fits(m)
  {
    match m
    case Insert(k, v) => CInsert(k, v.name, v.email)
    case Remove(k) => CRemove(k)
    case Lookup(k, client) => CLookup(k, AddressOf(client), PortOf(client))
    case Join(src, maxSpan, maxId) => CJoin(AddressOf(src), PortOf(src), maxSpan, AddressOf(maxId), PortOf(maxId))
    case NewRange(lo, hi) => CNewRange(lo, hi)
    case Leaving(next) => CLeaving(AddressOf(next), PortOf(next))
    case Close => CClose
  }

  /** A key without NUL, where there is one. */
  predicate KeyOk(p: CPdu) {
    p.CInsert? || p.CRemove? || p.CLookup? ==> 0 !in p.ssn
  }

  /** What a handler is called with. */
  function MsgOf(p: CPdu): Msg
    requires Sized(p) && KeyOk(p)
  {
    match p
    case CInsert(ssn, name, email) => Insert(ssn, Value(name, email))
    case CRemove(ssn) => Remove(ssn)
    case CLookup(ssn, address, port) => Lookup(ssn, IdOf(address, port))
    case CJoin(sa, sp, span, ma, mp) => Join(IdOf(sa, sp), span, IdOf(ma, mp))
    case CNewRange(lo, hi) => NewRange(lo, hi)
    case CLeaving(address, port) => Leaving(IdOf(address, port))
    case CClose => Close
  }

  lemma MsgInverse(m: Msg)
    requires Fits(m)
    ensures Sized(PduOf(m)) && KeyOk(PduOf(m)) && MsgOf(PduOf(m)) == m
  {
    hide IdOf, AddressOf, PortOf, Sendable;
    match m
    case Lookup(_, client) => AddressInverse(client, 0, 0);
    case Join(src, _, maxId) =>
      AddressInverse(src, 0, 0);
      AddressInverse(maxId, 0, 0);
    case Leaving(next) => AddressInverse(next, 0, 0);
    case _ =>
  }

  lemma PduInverse(p: CPdu)
    requires Sized(p) && KeyOk(p)
    ensures Fits(MsgOf(p)) && PduOf(MsgOf(p)) == p
  {
    hide IdOf, AddressOf, PortOf, Sendable;
    match p
    case CLookup(_, address, port) => AddressInverse(0, address, port);
    case CJoin(sa, sp, _, ma, mp) =>
      AddressInverse(0, sa, sp);
      AddressInverse(0, ma, mp);
    case CLeaving(address, port) => AddressInverse(0, address, port);
    case _ =>
  }

  /** The bytes of every message, by number. */
  lemma MessageBytes(m: Msg)
    requires Fits(m)
    ensures Sized(PduOf(m))
    ensures CBytes(PduOf(m)) ==
            match m {
              case Insert(k, v) => [100] + k + [|v.name|] + v.name + [|v.email|] + v.email
              case Remove(k) => [101] + k
              case Lookup(k, client) => [102] + k + Be32(AddressOf(client)) + Be16(PortOf(client))
              case Join(src, maxSpan, maxId) =>
                [3] + Be32(AddressOf(src)) + Be16(PortOf(src)) + [maxSpan]
                + Be32(AddressOf(maxId)) + Be16(PortOf(maxId))
              case NewRange(lo, hi) => [6, lo, hi]
              case Leaving(next) => [7] + Be32(AddressOf(next)) + Be16(PortOf(next))
              case Close => [5]
            }
  {
    hide AddressOf, PortOf, Be32, Be16;
  }

  // ---- streams ----

  predicate AllFit(ms: seq<Msg>) {
    forall i :: 0 <= i < |ms| ==> Fits(ms[i])
  }

  function PdusOf(ms: seq<Msg>): (ps: seq<CPdu>)
    requires AllFit(ms)
    ensures |ps| == |ms| && forall i {:trigger ps[i]} :: 0 <= i < |ms| ==> ps[i] == PduOf(ms[i])
  {
    seq(|ms|, i requires 0 <= i < |ms| => PduOf(ms[i]))
  }

  /** The bytes of a stream of messages. */
  function StreamBytes(ms: seq<Msg>): seq<byte>
    requires AllFit(ms) && AllSized(PdusOf(ms))
  {
    CBytesAll(PdusOf(ms))
  }

  /** A stream of messages arrives as it was sent: the dispatch loop reads its bytes to the end, and calls one
      handler for every message, in order, with the message. */
  lemma StreamArrives(ms: seq<Msg>)
    requires AllFit(ms)
    ensures AllSized(PdusOf(ms))
    ensures var (ps, end) := Split(StreamBytes(ms));
            && end == AllRead && |ps| == |ms|
            && forall i :: 0 <= i < |ms| ==> Sized(ps[i]) && KeyOk(ps[i]) && MsgOf(ps[i]) == ms[i]
  {
    forall i | 0 <= i < |ms| ensures Sized(PduOf(ms[i])) && KeyOk(PduOf(ms[i])) && MsgOf(PduOf(ms[i])) == ms[i] {
      MsgInverse(ms[i]);
    }
    SplitWhole(PdusOf(ms));
  }

  /** No other stream has the same bytes. */
  lemma StreamsDiffer(ms: seq<Msg>, ns: seq<Msg>)
    requires AllFit(ms) && AllFit(ns) && AllSized(PdusOf(ms)) && AllSized(PdusOf(ns))
    ensures StreamBytes(ms) == StreamBytes(ns) <==> ms == ns
  {
    if StreamBytes(ms) == StreamBytes(ns) {
      StreamArrives(ms);
      StreamArrives(ns);
      forall i | 0 <= i < |ms| ensures ms[i] == ns[i] {
        MsgInverse(ms[i]);
        MsgInverse(ns[i]);
      }
    }
  }
}
