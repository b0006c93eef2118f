/** The physical layer every coordinator operation works on: numbered points,
    their records, and the physical partitions that hold them.

    A physical partition name (`PartitionKeyGen`) is injective in generation and
    index, so it is modelled as the pair itself.  The mixer inside `PartitionOf` is a
    parameter: nothing proved here depends on which hash it is. */
module Store {
  type Id = nat

  datatype Option<+T> = None | Some(value: T)

  /** What a scan returns for one point (`vector.ScanRecord`). */
  datatype Record = Record(vec: seq<real>, meta: map<string, string>, sparse: Option<seq<(nat, real)>>,
                           version: nat, ttl: nat, keyExpires: map<string, nat>)

  datatype Phys = Phys(gen: nat, p: nat)

  /** A catalog partition entry: partition count and generation. */
  datatype Route = Route(P: nat, gen: nat)

  /** The 64-bit mixer `PartitionOf` reduces modulo the partition count. */
  type Router = Id -> nat

  function PartitionOf(route: Router, id: Id, P: nat): (p: nat)
    ensures 0 < P ==> p < P
  {
    if P <= 1 then 0 else route(id) % P
  }

  type Partitions = map<Phys, map<Id, Record>>

  /** The one physical partition that owns `id` under a catalog entry. */
  function Home(route: Router, t: Route, id: Id): (ph: Phys)
  {
    Phys(t.gen, PartitionOf(route, id, t.P))
  }

  function Read(parts: Partitions, ph: Phys, id: Id): (v: Option<Record>)
  {
    if ph in parts && id in parts[ph] then Some(parts[ph][id]) else None
  }

  /** Sets (`Some`) or removes (`None`) one point of one existing partition. */
  function Write(parts: Partitions, ph: Phys, id: Id, v: Option<Record>): (parts': Partitions)
    requires ph in parts
    ensures parts'.Keys == parts.Keys
    ensures forall q, x :: Read(parts', q, x) == if q == ph && x == id then v else Read(parts, q, x)
  {
    parts[ph := if v.Some? then parts[ph][id := v.value] else parts[ph] - {id}]
  }

  predicate HasAll(parts: Partitions, t: Route)
  {
    forall p :: 0 <= p < t.P ==> Phys(t.gen, p) in parts
  }

  /** `recs` lists the content of one partition, each point once, in some order. */
  predicate IsScan(recs: seq<(Id, Record)>, m: map<Id, Record>)
  {
    && (forall i :: 0 <= i < |recs| ==> recs[i].0 in m && m[recs[i].0] == recs[i].1)
    && (forall i, j :: 0 <= i < j < |recs| ==> recs[i].0 != recs[j].0)
    && (forall x :: x in m ==> exists i :: 0 <= i < |recs| && recs[i].0 == x)
  }
}
