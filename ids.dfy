/**
 * Request identifiers of the Deribit client: the reserved control identifiers,
 * the subscribe and unsubscribe bands with their two wrapping counters, and the
 * classification of a reply identifier into the band it belongs to.
 */
module Ids {

  // The ReqID enumeration.
  const HEARTBEAT: int := 10
  const SET_HEARTBEAT: int := 11
  const AUTH: int := 20
  const ID_RANGE: int := 500
  const SUBSCRIBE: int := 1000
  const UNSUBSCRIBE: int := 2000

  /** The two operations a channel request can carry. */
  datatype OpKind = Subscribe | Unsubscribe

  /** First identifier of the band that `kind` allocates from. */
  function BandBase(kind: OpKind): int {
    match kind
    case Subscribe => SUBSCRIBE
    case Unsubscribe => UNSUBSCRIBE
  }

  /** The counters `sub_id` and `unsub_id`. */
  datatype Counters = Counters(sub: nat, unsub: nat) {

    predicate Valid() {
      sub < ID_RANGE && unsub < ID_RANGE
    }

    function Get(kind: OpKind): nat {
      match kind
      case Subscribe => sub
      case Unsubscribe => unsub
    }
  }

  /** One increment of a counter: add one, and start again at 0 once the band width is reached. */
  function Advance(c: nat): (r: nat)
    ensures r < ID_RANGE
    ensures c < ID_RANGE ==> r == (c + 1) % ID_RANGE
  {
    if c + 1 >= ID_RANGE then 0 else c + 1
  }

  /**
   * One allocation of `ws_operation`: the identifier it issues and the counters
   * afterwards. The identifier is the band base plus the counter of that kind,
   * the counter of that kind advances modulo the band width and the other one is untouched.
   */
  function Allocate(kind: OpKind, c: Counters): (r: (int, Counters))
    ensures r.0 == BandBase(kind) + c.Get(kind)
    ensures r.1.Get(kind) == Advance(c.Get(kind))
    ensures kind == Subscribe ==> r.1.unsub == c.unsub
    ensures kind == Unsubscribe ==> r.1.sub == c.sub
    ensures c.Valid() ==> r.1.Valid() && r.1.Get(kind) == (c.Get(kind) + 1) % ID_RANGE
    ensures c.Valid() ==> BandBase(kind) <= r.0 < BandBase(kind) + ID_RANGE
  {
    match kind
    case Subscribe => (SUBSCRIBE + c.sub, c.(sub := Advance(c.sub)))
    case Unsubscribe => (UNSUBSCRIBE + c.unsub, c.(unsub := Advance(c.unsub)))
  }

  /** What the reader loop makes of a reply that carries an identifier. */
  datatype ReplyKind =
    | AuthReply
    | HeartbeatReply
    | SubscribeReply
    | UnsubscribeReply
    | UnknownReply

  /**
   * The `if/elif` chain of the reader loop over a reply identifier: each class
   * is given exactly to its own reserved identifiers.
   */
  function ClassifyId(id: int): (r: ReplyKind)
    ensures r == AuthReply <==> id == AUTH
    ensures r == HeartbeatReply <==> id == HEARTBEAT || id == SET_HEARTBEAT
    ensures r == SubscribeReply <==> SUBSCRIBE <= id < SUBSCRIBE + ID_RANGE
    ensures r == UnsubscribeReply <==> UNSUBSCRIBE <= id < UNSUBSCRIBE + ID_RANGE
  {
    if id == AUTH then AuthReply
    else if id == HEARTBEAT || id == SET_HEARTBEAT then HeartbeatReply
    else if id >= SUBSCRIBE && id < SUBSCRIBE + ID_RANGE then SubscribeReply
    else if id >= UNSUBSCRIBE && id < UNSUBSCRIBE + ID_RANGE then UnsubscribeReply
    else UnknownReply
  }

  /** The kind of reply that answers a request of operation `kind`. */
  function ReplyKindOf(kind: OpKind): ReplyKind {
    match kind
    case Subscribe => SubscribeReply
    case Unsubscribe => UnsubscribeReply
  }

  /** A half-open identifier range [lo, hi) reserved for one purpose. */
  datatype Band = Band(lo: int, hi: int, kind: ReplyKind) {
    predicate Contains(id: int) {
      lo <= id < hi
    }
  }

  /** The reserved identifiers as a table of bands, independent of the order of the chain. */
  const ReplyBands: seq<Band> := [
    Band(AUTH, AUTH + 1, AuthReply),
    Band(HEARTBEAT, HEARTBEAT + 1, HeartbeatReply),
    Band(SET_HEARTBEAT, SET_HEARTBEAT + 1, HeartbeatReply),
    Band(SUBSCRIBE, SUBSCRIBE + ID_RANGE, SubscribeReply),
    Band(UNSUBSCRIBE, UNSUBSCRIBE + ID_RANGE, UnsubscribeReply)
  ]

  /** No identifier lies in two bands of the table. */
  lemma ReplyBandsDisjoint(id: int, i: nat, j: nat)
    requires i < j < |ReplyBands|
    ensures !(ReplyBands[i].Contains(id) && ReplyBands[j].Contains(id))
  {
  }

  /**
   * The chain gives every identifier the kind of the one band that contains it,
   * and `UnknownReply` exactly to the identifiers outside every band: so the
   * order of the `elif` branches does not matter and every identifier gets exactly one class.
   */
  lemma ClassifyIdMatchesBands(id: int)
    ensures forall j | 0 <= j < |ReplyBands| :: ReplyBands[j].Contains(id) ==> ClassifyId(id) == ReplyBands[j].kind
    ensures ClassifyId(id) == UnknownReply <==> forall j | 0 <= j < |ReplyBands| :: !ReplyBands[j].Contains(id)
  {
    if ClassifyId(id) != UnknownReply {
      var j := if id == AUTH then 0 else if id == HEARTBEAT then 1 else if id == SET_HEARTBEAT then 2
               else if id < UNSUBSCRIBE then 3 else 4;
      assert ReplyBands[j].Contains(id);
    }
  }

  /**
   * Round trip: an identifier issued by an allocation of `kind` comes back
   * classified as the reply to that kind of request.
   */
  lemma IssuedIdRoundTrip(kind: OpKind, c: Counters)
    requires c.Valid()
    ensures ClassifyId(Allocate(kind, c).0) == ReplyKindOf(kind)
  {
  }

  /** ((a + 1) mod m + b) mod m == (a + 1 + b) mod m for the band width m. */
  lemma ModSuccessor(a: nat, b: nat)
    ensures ((a + 1) % ID_RANGE + b) % ID_RANGE == (a + 1 + b) % ID_RANGE
  {
  }
}
