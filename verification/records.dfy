/** Resource records and their identity (src/record_key.rs, plus the record
    shape that the rest of the daemon relies on). */
module Records {
  datatype Option<+T> = None | Some(value: T) {
    /** Rust's `Option::or`: the first one that holds a value. */
    function Or(other: Option<T>): Option<T> {
      if Some? then this else other
    }
  }

  datatype Result<+R, +E> = Success(value: R) | Failure(error: E)

  const U32_MAX: int := 0xFFFF_FFFF
  type u32 = x: int | 0 <= x <= 0xFFFF_FFFF

  /** A reading of the monotonic clock, in nanoseconds. */
  type Time = nat
  const SECOND: nat := 1_000_000_000
  const MILLISECOND: nat := 1_000_000

  /** Addresses as their bits, most significant first. */
  type Bits = seq<bool>
  type Ipv4 = b: Bits | |b| == 32 witness seq(32, _ => false)
  type Ipv6 = b: Bits | |b| == 128 witness seq(128, _ => false)

  /** Names are compared only for equality, so a value stands for one
      equivalence class of DNS names. */
  type Name = string

  datatype RecordType = A | AAAA | PTR | SRV | TXT | ANY | OtherType(code: nat)

  /** `OtherData` covers every other payload, including the payload-less ones
      that may claim any record type. */
  datatype RData =
    | AData(v4: Ipv4)
    | AaaaData(v6: Ipv6)
    | PtrData(ptr: Name)
    | SrvData(priority: nat, weight: nat, port: nat, target: Name)
    | TxtData(strings: seq<string>)
    | OtherData(rtype: RecordType, bytes: seq<nat>)

  function TypeOf(d: RData): RecordType {
    match d
    case AData(_) => A
    case AaaaData(_) => AAAA
    case PtrData(_) => PTR
    case SrvData(_, _, _, _) => SRV
    case TxtData(_) => TXT
    case OtherData(t, _) => t
  }

  datatype Record = Record(name: Name, ttl: u32, dnsClass: nat, flush: bool, data: RData)

  datatype RecordKey = RecordKey(name: Name, rtype: RecordType, dnsClass: nat, rdata: RData)

  function KeyOf(r: Record): RecordKey {
    RecordKey(r.name, TypeOf(r.data), r.dnsClass, r.data)
  }

  /** Two records are the same resource exactly when they differ in TTL and
      cache-flush at most. */
  lemma SameKeyIff(a: Record, b: Record)
    ensures KeyOf(a) == KeyOf(b) <==> a == b.(ttl := a.ttl, flush := a.flush)
  {
  }

  /** `qtype` selects `rtype`; `ANY` selects everything. */
  predicate Selects(qtype: RecordType, rtype: RecordType) {
    qtype == ANY || rtype == qtype
  }

  function KeysOf(rs: seq<Record>): set<RecordKey> {
    set r | r in rs :: KeyOf(r)
  }

  ghost predicate DistinctKeys(rs: seq<Record>) {
    forall i, j :: 0 <= i < j < |rs| ==> KeyOf(rs[i]) != KeyOf(rs[j])
  }

  /** `rs` enumerates the map `view` in some order, each record once. */
  ghost predicate Lists(rs: seq<Record>, view: map<RecordKey, Record>) {
    && DistinctKeys(rs)
    && (forall r :: r in rs ==> KeyOf(r) in view && view[KeyOf(r)] == r)
    && (forall k :: k in view ==> view[k] in rs)
  }
}
