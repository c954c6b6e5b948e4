/** The bounded exact-result cache (cache.py): a recency list with an entry limit, a byte limit
    and a time to live. */
module Cache {
  import opened Basics
  import opened Contracts

  datatype Limits = Limits(entries: nat, maxBytes: nat, ttl: nat)

  datatype Item = Item(key: CacheKey, payload: string, computed: nat)

  datatype Hit = Hit(payload: string, computed: nat)

  /** `len(payload.encode())`: UTF-8 length. */
  function Utf8Length(s: string): nat {
    if s == "" then 0 else
    var c := s[0] as int;
    (if c < 0x80 then 1 else if c < 0x800 then 2 else if c < 0x1_0000 then 3 else 4) + Utf8Length(s[1..])
  }

  function Size(i: Item): nat { Utf8Length(i.payload) }

  /** Items from least to most recently used. */
  type Items = seq<Item>

  function Bytes(data: Items): nat {
    if data == [] then 0 else Size(data[0]) + Bytes(data[1..])
  }

  function Find(data: Items, key: CacheKey): Option<Item> {
    if data == [] then None else if data[0].key == key then Some(data[0]) else Find(data[1..], key)
  }

  function Without(data: Items, key: CacheKey): Items {
    if data == [] then [] else if data[0].key == key then data[1..] else [data[0]] + Without(data[1..], key)
  }

  datatype Lookup = Lookup(hit: Option<Hit>, data: Items)

  function Get(l: Limits, data: Items, key: Option<CacheKey>, now: nat): Lookup {
    if key.None? then Lookup(None, data) else
    match Find(data, key.value)
    case None => Lookup(None, data)
    case Some(item) =>
      if now - item.computed >= l.ttl then Lookup(None, Without(data, key.value))
      else Lookup(Some(Hit(item.payload, item.computed)), Without(data, key.value) + [item])
  }

  predicate Room(l: Limits, data: Items, size: nat) {
    |data| < l.entries && Bytes(data) + size <= l.maxBytes
  }

  function Evict(l: Limits, data: Items, size: nat): Items {
    if data != [] && !Room(l, data, size) then Evict(l, data[1..], size) else data
  }

  /** A put that is not turned away at the door. */
  predicate Accepts(l: Limits, key: Option<CacheKey>, payload: string) {
    key.Some? && l.entries != 0 && Utf8Length(payload) <= l.maxBytes
  }

  function Put(l: Limits, data: Items, key: Option<CacheKey>, payload: string, computed: nat): Items {
    if !Accepts(l, key, payload) then data
    else Evict(l, Without(data, key.value), Utf8Length(payload)) + [Item(key.value, payload, computed)]
  }

  // ---- invariants ----

  ghost predicate DistinctKeys(data: Items) {
    forall i, j :: 0 <= i < j < |data| ==> data[i].key != data[j].key
  }

  ghost predicate Fits(l: Limits, data: Items) {
    DistinctKeys(data) && |data| <= l.entries && Bytes(data) <= l.maxBytes
  }

  lemma {:induction false} FindFinds(data: Items, key: CacheKey)
    ensures Find(data, key).None? ==> forall i :: i in data ==> i.key != key
    ensures Find(data, key).Some? ==> Find(data, key).value in data && Find(data, key).value.key == key
  {
    if data != [] && data[0].key != key { FindFinds(data[1..], key); }
  }

  lemma {:induction false} WithoutRemoves(data: Items, key: CacheKey)
    requires DistinctKeys(data)
    ensures DistinctKeys(Without(data, key))
    ensures forall i :: i in Without(data, key) <==> i in data && i.key != key
    ensures Bytes(Without(data, key)) == Bytes(data) - if Find(data, key).Some? then Size(Find(data, key).value) else 0
    ensures |Without(data, key)| == |data| - if Find(data, key).Some? then 1 else 0
  {
    if data != [] {
      assert data == [data[0]] + data[1..];
      WithoutRemoves(data[1..], key);
      if data[0].key != key {
        var rest := Without(data[1..], key);
        forall j | 0 <= j < |rest| ensures rest[j].key != data[0].key { assert rest[j] in rest; }
        assert Without(data, key) == [data[0]] + rest;
      }
    }
  }

  lemma {:induction false} BytesAppend(data: Items, item: Item)
    ensures Bytes(data + [item]) == Bytes(data) + Size(item)
  {
    if data != [] {
      BytesAppend(data[1..], item);
      assert (data + [item])[1..] == data[1..] + [item];
    } else {
      assert data + [item] == [item];
    }
  }

  /** Eviction drops the shortest least-recently-used prefix that makes room. */
  lemma {:induction false} EvictIsShortest(l: Limits, data: Items, size: nat)
    requires l.entries > 0 && size <= l.maxBytes
    ensures |Evict(l, data, size)| <= |data|
    ensures Evict(l, data, size) == data[|data| - |Evict(l, data, size)|..]
    ensures Room(l, Evict(l, data, size), size)
    ensures forall m :: 0 <= m < |data| - |Evict(l, data, size)| ==> !Room(l, data[m..], size)
  {
    if data != [] && !Room(l, data, size) {
      EvictIsShortest(l, data[1..], size);
      var n := |data| - |Evict(l, data, size)|;
      forall m | 0 <= m < n ensures !Room(l, data[m..], size) {
        if m == 0 { assert data[0..] == data; } else { assert data[1..][m - 1..] == data[m..]; }
      }
    }
  }

  lemma GetFits(l: Limits, data: Items, key: Option<CacheKey>, now: nat)
    requires Fits(l, data)
    ensures Fits(l, Get(l, data, key, now).data)
    ensures forall i :: i in Get(l, data, key, now).data ==> i in data
  {
    if key.Some? {
      FindFinds(data, key.value);
      WithoutRemoves(data, key.value);
      var f := Find(data, key.value);
      if f.Some? {
        BytesAppend(Without(data, key.value), f.value);
        var rest := Without(data, key.value);
        forall j | 0 <= j < |rest| ensures rest[j].key != key.value { assert rest[j] in rest; }
      }
    }
  }

  /** What eviction keeps of a list without the key. */
  lemma KeptFits(l: Limits, data: Items, key: CacheKey, size: nat)
    requires Fits(l, data) && l.entries > 0 && size <= l.maxBytes
    ensures var kept := Evict(l, Without(data, key), size);
            && DistinctKeys(kept) && Room(l, kept, size)
            && forall i :: i in kept ==> i in data && i.key != key
  {
    WithoutRemoves(data, key);
    EvictIsShortest(l, Without(data, key), size);
    hide Evict, Without, Bytes, Size, Room;
    var d := Without(data, key);
    var kept := Evict(l, d, size);
    forall i | i in kept ensures i in d { }
  }

  lemma KeyAppended(data: Items, item: Item)
    requires DistinctKeys(data) && forall i :: i in data ==> i.key != item.key
    ensures DistinctKeys(data + [item])
  {
    forall j | 0 <= j < |data| ensures data[j].key != item.key { assert data[j] in data; }
  }

  lemma PutFits(l: Limits, data: Items, key: Option<CacheKey>, payload: string, computed: nat)
    requires Fits(l, data)
    ensures Fits(l, Put(l, data, key, payload, computed))
    ensures forall i :: i in Put(l, data, key, payload, computed) ==>
              i in data || (key.Some? && i == Item(key.value, payload, computed))
  {
    if Accepts(l, key, payload) {
      var size, item := Utf8Length(payload), Item(key.value, payload, computed);
      KeptFits(l, data, key.value, size);
      hide Evict, Without, Bytes, DistinctKeys, Utf8Length;
      var kept := Evict(l, Without(data, key.value), size);
      KeyAppended(kept, item);
      BytesAppend(kept, item);
    }
  }

  // ---- what a lookup and a store answer ----

  lemma {:induction false} FindIsOnly(data: Items, i: Item)
    requires DistinctKeys(data) && i in data
    ensures Find(data, i.key) == Some(i)
  {
    if data[0] != i {
      assert data == [data[0]] + data[1..];
      var k :| 0 <= k < |data| - 1 && data[1..][k] == i;
      assert data[0].key != data[k + 1].key;
      FindIsOnly(data[1..], i);
    }
  }

  /** A lookup hits exactly if an item with that key is resident and younger than the time to live, and
      then returns that item. */
  lemma HitIff(l: Limits, data: Items, key: CacheKey, now: nat)
    requires DistinctKeys(data)
    ensures Get(l, data, Some(key), now).hit.Some? <==> exists i :: i in data && i.key == key && now - i.computed < l.ttl
    ensures forall i :: i in data && i.key == key && now - i.computed < l.ttl ==>
              Get(l, data, Some(key), now).hit == Some(Hit(i.payload, i.computed))
  {
    FindFinds(data, key);
    forall i | i in data && i.key == key ensures Find(data, key) == Some(i) { FindIsOnly(data, i); }
  }

  /** A store that is not turned away at the door leaves its item resident, most recently used. */
  lemma PutStores(l: Limits, data: Items, key: CacheKey, payload: string, computed: nat)
    requires l.entries > 0 && Utf8Length(payload) <= l.maxBytes
    ensures var n := Put(l, data, Some(key), payload, computed);
            n != [] && n[|n| - 1] == Item(key, payload, computed) && Item(key, payload, computed) in n
  {
    hide Evict, Without;
  }

  // ---- histories ----

  datatype Op = GetOp(key: Option<CacheKey>, now: nat) | PutOp(key: Option<CacheKey>, payload: string, computed: nat)

  function Apply(l: Limits, data: Items, op: Op): Items {
    match op
    case GetOp(key, now) => Get(l, data, key, now).data
    case PutOp(key, payload, computed) => Put(l, data, key, payload, computed)
  }

  function After(l: Limits, ops: seq<Op>): Items {
    if ops == [] then [] else Apply(l, After(l, ops[..|ops| - 1]), ops[|ops| - 1])
  }

  /** The last accepted put for a key. */
  function LastPut(l: Limits, ops: seq<Op>, key: CacheKey): Option<Item> {
    if ops == [] then None else
    var op := ops[|ops| - 1];
    if op.PutOp? && op.key == Some(key) && Accepts(l, op.key, op.payload) then Some(Item(key, op.payload, op.computed))
    else LastPut(l, ops[..|ops| - 1], key)
  }

  /** A hit or an accepted put. */
  predicate Uses(l: Limits, data: Items, op: Op) {
    if op.PutOp? then Accepts(l, op.key, op.payload) else Get(l, data, op.key, op.now).hit.Some?
  }

  /** When a key was last hit or put, counting operations from 1; 0 for never. */
  function LastUse(l: Limits, ops: seq<Op>, key: CacheKey): nat {
    if ops == [] then 0 else
    var n := |ops| - 1;
    var op := ops[n];
    if op.key == Some(key) && Uses(l, After(l, ops[..n]), op) then n + 1
    else LastUse(l, ops[..n], key)
  }

  lemma {:induction false} HistoryFits(l: Limits, ops: seq<Op>)
    ensures Fits(l, After(l, ops))
  {
    if ops != [] {
      HistoryFits(l, ops[..|ops| - 1]);
      var d, op := After(l, ops[..|ops| - 1]), ops[|ops| - 1];
      match op
      case GetOp(key, now) => GetFits(l, d, key, now);
      case PutOp(key, payload, computed) => PutFits(l, d, key, payload, computed);
    }
  }

  /** What a put leaves resident: the new item, and older items of other keys. */
  lemma PutLeaves(l: Limits, data: Items, key: Option<CacheKey>, payload: string, computed: nat, item: Item)
    requires Fits(l, data) && item in Put(l, data, key, payload, computed)
    ensures if Accepts(l, key, payload)
            then item == Item(key.value, payload, computed) || (item in data && item.key != key.value)
            else item in data
  {
    if Accepts(l, key, payload) {
      var w := Without(data, key.value);
      WithoutRemoves(data, key.value);
      EvictIsShortest(l, w, Utf8Length(payload));
      assert item in Evict(l, w, Utf8Length(payload)) ==> item in w;
    }
  }

  /** Whatever is resident is the last accepted put for its key. */
  lemma {:induction false} ResidentIsLastPut(l: Limits, ops: seq<Op>, item: Item)
    requires item in After(l, ops)
    ensures LastPut(l, ops, item.key) == Some(item)
  {
    var past, op := ops[..|ops| - 1], ops[|ops| - 1];
    HistoryFits(l, past);
    if op.GetOp? {
      GetFits(l, After(l, past), op.key, op.now);
      ResidentIsLastPut(l, past, item);
    } else {
      PutLeaves(l, After(l, past), op.key, op.payload, op.computed, item);
      if item in After(l, past) { ResidentIsLastPut(l, past, item); }
    }
  }

  /** After any history a hit is the last accepted put for that key, and younger than the time to live. */
  lemma HitIsLastPut(l: Limits, ops: seq<Op>, key: CacheKey, now: nat)
    requires Get(l, After(l, ops), Some(key), now).hit.Some?
    ensures var hit := Get(l, After(l, ops), Some(key), now).hit.value;
            LastPut(l, ops, key) == Some(Item(key, hit.payload, hit.computed)) && now - hit.computed < l.ttl
  {
    FindFinds(After(l, ops), key);
    ResidentIsLastPut(l, ops, Find(After(l, ops), key).value);
  }

  ghost predicate ByUse(l: Limits, ops: seq<Op>, data: Items) {
    forall i, j :: 0 <= i < j < |data| ==> LastUse(l, ops, data[i].key) < LastUse(l, ops, data[j].key)
  }

  lemma {:induction false} UseBounded(l: Limits, ops: seq<Op>, key: CacheKey)
    ensures LastUse(l, ops, key) <= |ops|
  {
    if ops != [] { UseBounded(l, ops[..|ops| - 1], key); }
  }

  ghost predicate AllLater(l: Limits, ops: seq<Op>, data: Items, n: nat) {
    forall i :: i in data ==> n < LastUse(l, ops, i.key)
  }

  lemma ByUseHead(l: Limits, ops: seq<Op>, data: Items)
    requires data != []
    ensures ByUse(l, ops, data) <==> ByUse(l, ops, data[1..]) && AllLater(l, ops, data[1..], LastUse(l, ops, data[0].key))
  {
    hide LastUse;
    var rest := data[1..];
    if ByUse(l, ops, data) {
      forall j | 0 <= j < |rest|
        ensures LastUse(l, ops, data[0].key) < LastUse(l, ops, rest[j].key) { assert rest[j] == data[j + 1]; }
      forall i, j | 0 <= i < j < |rest| ensures LastUse(l, ops, rest[i].key) < LastUse(l, ops, rest[j].key) {
        assert rest[i] == data[i + 1] && rest[j] == data[j + 1];
      }
    }
    if ByUse(l, ops, rest) && AllLater(l, ops, rest, LastUse(l, ops, data[0].key)) {
      forall i, j | 0 <= i < j < |data| ensures LastUse(l, ops, data[i].key) < LastUse(l, ops, data[j].key) {
        assert data[j] == rest[j - 1] && rest[j - 1] in rest;
        if i > 0 { assert data[i] == rest[i - 1]; }
      }
    }
  }

  lemma {:induction false} WithoutWithin(data: Items, key: CacheKey)
    ensures forall i :: i in Without(data, key) ==> i in data
  {
    if data != [] {
      assert data == [data[0]] + data[1..];
      WithoutWithin(data[1..], key);
    }
  }

  lemma {:induction false} WithoutByUse(l: Limits, ops: seq<Op>, data: Items, key: CacheKey)
    requires ByUse(l, ops, data)
    ensures ByUse(l, ops, Without(data, key))
  {
    hide ByUse, LastUse;
    if data != [] {
      ByUseHead(l, ops, data);
      if data[0].key != key {
        WithoutByUse(l, ops, data[1..], key);
        WithoutWithin(data[1..], key);
        var n := Without(data, key);
        assert n[1..] == Without(data[1..], key) && n[0] == data[0];
        ByUseHead(l, ops, n);
      }
    } else {
      assert Without(data, key) == data;
    }
  }

  /** The kept tail followed by the item just used is again in order of last use. */
  lemma TouchedByUse(l: Limits, ops: seq<Op>, w: Items, m: nat, item: Item)
    requires ops != [] && ByUse(l, ops[..|ops| - 1], w) && m <= |w|
    requires ops[|ops| - 1].key == Some(item.key) && LastUse(l, ops, item.key) == |ops|
    requires forall i :: i in w ==> i.key != item.key
    ensures ByUse(l, ops, w[m..] + [item])
  {
    var past, next := ops[..|ops| - 1], w[m..] + [item];
    forall i, j | 0 <= i < j < |next| ensures LastUse(l, ops, next[i].key) < LastUse(l, ops, next[j].key) {
      assert next[i] == w[m + i] && w[m + i] in w;
      UseBounded(l, past, next[i].key);
      if j < |next| - 1 { assert next[j] == w[m + j] && w[m + j] in w; }
    }
  }

  /** An operation that neither hits nor is accepted leaves every last use as it was. */
  lemma UntouchedByUse(l: Limits, ops: seq<Op>, data: Items)
    requires ops != [] && ByUse(l, ops[..|ops| - 1], data)
    requires !Uses(l, After(l, ops[..|ops| - 1]), ops[|ops| - 1])
    ensures ByUse(l, ops, data)
  {
    forall i | 0 <= i < |data| ensures LastUse(l, ops, data[i].key) == LastUse(l, ops[..|ops| - 1], data[i].key) { }
  }

  lemma GetByUse(l: Limits, ops: seq<Op>)
    requires ops != [] && ops[|ops| - 1].GetOp? && ByUse(l, ops[..|ops| - 1], After(l, ops[..|ops| - 1]))
    ensures ByUse(l, ops, After(l, ops))
  {
    var past, op := ops[..|ops| - 1], ops[|ops| - 1];
    var d := After(l, past);
    HistoryFits(l, past);
    if op.key.Some? {
      FindFinds(d, op.key.value);
      WithoutByUse(l, past, d, op.key.value);
      WithoutRemoves(d, op.key.value);
    }
    if Get(l, d, op.key, op.now).hit.Some? {
      var w := Without(d, op.key.value);
      assert w[0..] == w;
      TouchedByUse(l, ops, w, 0, Find(d, op.key.value).value);
    } else {
      UntouchedByUse(l, ops, After(l, ops));
    }
  }

  lemma PutByUse(l: Limits, ops: seq<Op>)
    requires ops != [] && ops[|ops| - 1].PutOp? && ByUse(l, ops[..|ops| - 1], After(l, ops[..|ops| - 1]))
    ensures ByUse(l, ops, After(l, ops))
  {
    var past, op := ops[..|ops| - 1], ops[|ops| - 1];
    var d := After(l, past);
    HistoryFits(l, past);
    if Accepts(l, op.key, op.payload) {
      PutTouches(l, ops, d);
    } else {
      UntouchedByUse(l, ops, d);
    }
  }

  lemma AcceptedFits(l: Limits, key: Option<CacheKey>, payload: string)
    requires Accepts(l, key, payload)
    ensures key.Some? && l.entries > 0 && Utf8Length(payload) <= l.maxBytes
  {
  }

  lemma PutIs(l: Limits, ops: seq<Op>, d: Items)
    requires ops != [] && ops[|ops| - 1].PutOp? && d == After(l, ops[..|ops| - 1])
    requires Accepts(l, ops[|ops| - 1].key, ops[|ops| - 1].payload)
    ensures var op := ops[|ops| - 1];
            && op.key.Some? && LastUse(l, ops, op.key.value) == |ops|
            && After(l, ops) == Evict(l, Without(d, op.key.value), Utf8Length(op.payload))
                                + [Item(op.key.value, op.payload, op.computed)]
  {
    hide Evict, Without, Utf8Length, Accepts;
    assert ops[|ops| - 1].key.Some? by { AcceptedFits(l, ops[|ops| - 1].key, ops[|ops| - 1].payload); }
  }

  lemma EvictIsSuffix(l: Limits, data: Items, size: nat)
    requires l.entries > 0 && size <= l.maxBytes
    ensures |Evict(l, data, size)| <= |data| && Evict(l, data, size) == data[|data| - |Evict(l, data, size)|..]
  {
    hide Evict, Room;
    EvictIsShortest(l, data, size);
  }

  lemma WithoutHas(data: Items, key: CacheKey)
    requires DistinctKeys(data)
    ensures forall i :: i in Without(data, key) ==> i.key != key
  {
    hide DistinctKeys, Without;
    WithoutRemoves(data, key);
  }

  lemma PutTouches(l: Limits, ops: seq<Op>, d: Items)
    requires ops != [] && ops[|ops| - 1].PutOp? && DistinctKeys(d) && d == After(l, ops[..|ops| - 1])
    requires ByUse(l, ops[..|ops| - 1], d) && Accepts(l, ops[|ops| - 1].key, ops[|ops| - 1].payload)
    ensures ByUse(l, ops, After(l, ops))
  {
    hide After, LastUse, ByUse, Utf8Length, Bytes, Accepts, Without, Evict, DistinctKeys;
    var past, op := ops[..|ops| - 1], ops[|ops| - 1];
    AcceptedFits(l, op.key, op.payload);
    PutIs(l, ops, d);
    var w, size := Without(d, op.key.value), Utf8Length(op.payload);
    WithoutByUse(l, past, d, op.key.value);
    WithoutHas(d, op.key.value);
    EvictIsSuffix(l, w, size);
    TouchedByUse(l, ops, w, |w| - |Evict(l, w, size)|, Item(op.key.value, op.payload, op.computed));
  }

  /** The list is in order of last use, so the prefix that eviction drops is the least recently used. */
  lemma {:induction false} ListIsByUse(l: Limits, ops: seq<Op>)
    ensures ByUse(l, ops, After(l, ops))
  {
    if ops != [] {
      ListIsByUse(l, ops[..|ops| - 1]);
      if ops[|ops| - 1].GetOp? { GetByUse(l, ops); } else { PutByUse(l, ops); }
    }
  }

  lemma {:induction false} WithoutAbsent(data: Items, key: CacheKey)
    requires Find(data, key).None?
    ensures Without(data, key) == data
  {
    if data != [] { WithoutAbsent(data[1..], key); }
  }

  // ---- the object ----

  class HistoricalCache {
    const limits: Limits
    var data: Items
    var bytes: int

    /** The byte counter is the sum of the resident sizes, and both limits hold. */
    ghost predicate Valid()
      reads this
    {
      bytes == Bytes(data) && Fits(limits, data)
    }

    constructor (limits: Limits)
      ensures Valid() && data == [] && this.limits == limits
    {
      this.limits := limits;
      data, bytes := [], 0;
    }

    method Lookup(key: Option<CacheKey>, now: nat) returns (hit: Option<Hit>)
      requires Valid()
      modifies this
      ensures Valid()
      ensures hit == Get(limits, old(data), key, now).hit && data == Get(limits, old(data), key, now).data
    {
      GetFits(limits, data, key, now);
      if key.None? { return None; }
      WithoutRemoves(data, key.value);
      var found := Find(data, key.value);
      if found.None? { return None; }
      var item := found.value;
      if now - item.computed >= limits.ttl {
        data := Without(data, key.value);
        bytes := bytes - Size(item);
        return None;
      }
      BytesAppend(Without(data, key.value), item);
      data := Without(data, key.value) + [item];
      hit := Some(Hit(item.payload, item.computed));
    }

    method Store(key: Option<CacheKey>, payload: string, computed: nat)
      requires Valid()
      modifies this
      ensures Valid()
      ensures data == Put(limits, old(data), key, payload, computed)
    {
      PutFits(limits, data, key, payload, computed);
      if key.None? || limits.entries == 0 { return; }
      var size := Utf8Length(payload);
      if size > limits.maxBytes { return; }
      WithoutRemoves(data, key.value);
      var found := Find(data, key.value);
      if found.Some? {
        bytes := bytes - Size(found.value);
        data := Without(data, key.value);
      } else {
        WithoutAbsent(data, key.value);
      }
      ghost var start := data;
      while data != [] && (|data| >= limits.entries || bytes + size > limits.maxBytes)
        invariant bytes == Bytes(data)
        invariant Evict(limits, data, size) == Evict(limits, start, size)
        decreases |data|
      {
        bytes := bytes - Size(data[0]);
        data := data[1..];
      }
      BytesAppend(data, Item(key.value, payload, computed));
      data := data + [Item(key.value, payload, computed)];
      bytes := bytes + size;
    }
  }
}
