/** The partition queue: what is published, waiting, out for processing, acknowledged and
    dead-lettered. Messages are named by their position in `published`. */
module Brokers {
  import opened Tables

  const SCHEMA_VERSION := 1
  const MAX_ACCURACY_METERS := 100.0

  // ----- events and the dedup key

  datatype Event = Event(
    v: int,
    user: string,
    device: Option<string>,
    seqNo: Option<nat>,
    at: Point,
    accuracy: Option<real>,
    stamp: Stamp)
  {
    predicate HasIdentity() { device.Some? && seqNo.Some? }
    predicate PassesAccuracyGate() { accuracy.Some? ==> accuracy.value <= MAX_ACCURACY_METERS }
    function Key(): string
      requires HasIdentity()
    {
      DedupKey(user, device.value)
    }
  }

  type LastSeq = map<string, nat>

  function DedupKey(user: string, device: string): string { user + ":" + device }

  /** After a success the stored sequence number moves up, never down. */
  function Remember(lastSeq: LastSeq, e: Event): LastSeq {
    if !e.HasIdentity() then lastSeq else
      var known := if e.Key() in lastSeq then lastSeq[e.Key()] else 0;
      if e.seqNo.value > known then lastSeq[e.Key() := e.seqNo.value] else lastSeq
  }

  datatype Config = Config(
    deliveryLimit: nat,
    seeds: map<(string, string), nat>,
    lockKey: string -> int)
  {
    /** A device without a row in user_event_state starts at 0. */
    function SeedOf(e: Event): nat
      requires e.HasIdentity()
    {
      if (e.user, e.device.value) in seeds then seeds[(e.user, e.device.value)] else 0
    }
  }

  // ----- the queue

  datatype Reason = Duplicate | NoChange | Effect | StaleArea

  datatype Broker = Broker(
    published: seq<Event>,
    queue: seq<nat>,
    unacked: seq<nat>,            // in delivery order
    acked: map<nat, Reason>,
    dead: set<nat>,
    comebacks: seq<nat>,          // parallel to published: times the message went back
    deliveries: seq<nat>)         // parallel to published: times it was handed out (history)

  ghost predicate InRange(b: Broker) {
    && |b.comebacks| == |b.deliveries| == |b.published|
    && (forall i :: 0 <= i < |b.queue| ==> b.queue[i] < |b.published|)
    && (forall i :: 0 <= i < |b.unacked| ==> b.unacked[i] < |b.published|)
  }

  ghost function IndexOf(q: seq<nat>, n: nat): (i: nat)
    requires n in q
    ensures i < |q| && q[i] == n
  {
    var i :| 0 <= i < |q| && q[i] == n; i
  }

  ghost function Remove(q: seq<nat>, n: nat): seq<nat>
    requires n in q
  {
    q[..IndexOf(q, n)] + q[IndexOf(q, n) + 1..]
  }

  lemma RemoveFacts(q: seq<nat>, n: nat)
    requires n in q
    ensures |Remove(q, n)| == |q| - 1
    ensures multiset(Remove(q, n)) == multiset(q) - multiset{n}
    ensures forall m :: m in Remove(q, n) ==> m in q
  {
    var i := IndexOf(q, n);
    assert q == q[..i] + [n] + q[i + 1..];
  }

  lemma StillThere(q: seq<nat>, n: nat, m: nat)
    requires n in q && m in q && m != n
    ensures m in Remove(q, n)
  {
  }

  lemma RemoveLast(q: seq<nat>, n: nat)
    requires n !in q
    ensures Remove(q + [n], n) == q
  {
  }

  ghost function Inserted(q: seq<nat>, pos: nat, n: nat): seq<nat>
    requires pos <= |q|
  {
    q[..pos] + [n] + q[pos..]
  }

  lemma InsertedFacts(q: seq<nat>, pos: nat, n: nat)
    requires pos <= |q|
    ensures |Inserted(q, pos, n)| == |q| + 1
    ensures multiset(Inserted(q, pos, n)) == multiset(q) + multiset{n}
    ensures forall m :: m in Inserted(q, pos, n) <==> m in q || m == n
  {
    assert q == q[..pos] + q[pos..];
    assert Inserted(q, pos, n)[pos] == n;
    forall m | m in q ensures m in Inserted(q, pos, n) {
      assert m in q[..pos] || m in q[pos..];
    }
  }

  ghost function Enqueued(b: Broker, e: Event): Broker {
    b.(published := b.published + [e], queue := b.queue + [|b.published|],
       comebacks := b.comebacks + [0], deliveries := b.deliveries + [0])
  }

  ghost function Handed(b: Broker): (r: Broker)
    requires InRange(b) && b.queue != []
    ensures InRange(r)
  {
    var n := b.queue[0];
    b.(queue := b.queue[1..], unacked := b.unacked + [n], deliveries := b.deliveries[n := b.deliveries[n] + 1])
  }

  ghost function Acked(b: Broker, n: nat, reason: Reason): Broker
    requires n in b.unacked
  {
    b.(unacked := Remove(b.unacked, n), acked := b.acked[n := reason])
  }

  /** One delivery is taken back: to the queue, or to the dead-letter queue once the message
      has come back more often than the delivery limit allows. */
  ghost function GivenBack(c: Config, b: Broker, n: nat, pos: nat): (r: Broker)
    requires InRange(b) && n in b.unacked && pos <= |b.queue|
    ensures InRange(r) && |r.unacked| == |b.unacked| - 1
  {
    RemoveFacts(b.unacked, n);
    InsertedFacts(b.queue, pos, n);
    var t := b.(unacked := Remove(b.unacked, n), comebacks := b.comebacks[n := b.comebacks[n] + 1]);
    if b.comebacks[n] + 1 > c.deliveryLimit then t.(dead := t.dead + {n})
    else t.(queue := Inserted(t.queue, pos, n))
  }

  /** All deliveries go back to the front of the queue, the last one first, so that they
      stand in their delivery order again. */
  ghost function AllGivenBack(c: Config, b: Broker): (r: Broker)
    requires InRange(b)
    ensures InRange(r) && r.unacked == [] && r.published == b.published
    decreases |b.unacked|
  {
    if b.unacked == [] then b else AllGivenBack(c, GivenBack(c, b, b.unacked[|b.unacked| - 1], 0))
  }
}
