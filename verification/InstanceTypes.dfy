/** The instance-type catalogue: plans and prices fetched from the API and cached. */
module InstanceTypes {
  import opened Prelude
  import opened GoStrings
  import opened Int64

  datatype Plan = Plan(name: string, cores: int64, memoryMiB: int64, storageSize: int64, gpus: int64, gpuModel: string)

  /** `price` is None where the source uses math.MaxFloat64, for a plan without pricing data. */
  datatype InstanceType = InstanceType(
    name: string, requirements: seq<TypeLabel>, offered: string, price: Option<real>,
    cpu: int64, memoryBytes: int64, pods: int, gpus: Option<int64>)

  /** A requirement that a label has this one value. */
  datatype TypeLabel = TypeLabel(key: string, value: string)

  /* --------------------------------------------------------------- bounded arithmetic */

  const MIB := 1024 * 1024

  function Clamp(x: int64): int64 {
    if x < 0 then 0 else x
  }

  /** int64(m) * 1024 * 1024, wrapping as Go does: the conversion in buildNodeClaim. */
  function WrappingBytes(m: int64): int64 {
    Mul(Mul(m, 1024), 1024)
  }

  /** The conversion in buildInstanceTypeWithPrices. */
  function SaturatingBytes(memoryMiB: int64): int64 {
    var m := Clamp(memoryMiB);
    if m <= MAX / MIB then WrappingBytes(m) else MAX
  }

  /** No overflow for any plan: the clamped amount times 2^20, cut off at 2^63 - 1. */
  lemma SaturatingBytesExact(m: int64)
    ensures SaturatingBytes(m) == (if m < 0 then 0 else if m * MIB <= MAX then m * MIB else MAX)
  {
  }

  lemma SaturatingBytesMonotone(a: int64, b: int64)
    requires a <= b
    ensures SaturatingBytes(a) <= SaturatingBytes(b)
  {
    SaturatingBytesExact(a);
    SaturatingBytesExact(b);
  }

  /** Wrapping loses multiples of 2^64 only, also over two multiplications. */
  lemma WrappingBytesModulo(m: int64)
    ensures WrappingBytes(m) == Wrap(m * MIB)
  {
    var n := 0x1_0000_0000_0000_0000;
    var q := (m * 1024 + 0x8000_0000_0000_0000) / n;
    assert Wrap(m * 1024) == m * 1024 - q * n;
    WrapPeriodic(m * MIB, -(q * 1024));
  }

  lemma WrapPeriodic(x: int, k: int)
    ensures Wrap(x + k * 0x1_0000_0000_0000_0000) == Wrap(x)
  {
  }

  /**
   * The catalogue and buildNodeClaim report the same memory for a plan exactly in the range where
   * the product fits, and for those negative amounts that wrap around to zero.
   */
  lemma MemoryAgreesExactly(m: int64)
    ensures SaturatingBytes(m) == WrappingBytes(m) <==> 0 <= m <= MAX / MIB || (m < 0 && m % 0x1000_0000_0000 == 0)
  {
    SaturatingBytesExact(m);
    WrappingBytesModulo(m);
    if m < 0 {
      NegativeWrapsToZero(m);
    } else if m > MAX / MIB {
      WrapIsMultiple(m);
    }
  }

  lemma NegativeWrapsToZero(m: int64)
    requires m < 0
    ensures Wrap(m * MIB) == 0 <==> m % 0x1000_0000_0000 == 0
  {
    var q, r := m / 0x1000_0000_0000, m % 0x1000_0000_0000;
    assert m * MIB == r * MIB + q * 0x1_0000_0000_0000_0000;
    WrapPeriodic(r * MIB, q);
  }

  lemma WrapIsMultiple(m: int64)
    ensures Wrap(m * MIB) != MAX
  {
    var n := 0x1_0000_0000_0000_0000;
    var q := (m * MIB + 0x8000_0000_0000_0000) / n;
    var k := m - q * 0x1000_0000_0000;
    assert Wrap(m * MIB) == m * MIB - q * n == k * MIB;
    assert (k * MIB) % MIB == 0;
  }

  const POD_LIMIT := 110

  const ARCH := "kubernetes.io/arch"
  const OS := "kubernetes.io/os"
  const ZONE := "topology.kubernetes.io/zone"
  const CAPACITY_TYPE := "karpenter.sh/capacity-type"
  const FAMILY := "karpenter.k8s.upcloud/instance-family"
  const CPU := "karpenter.k8s.upcloud/instance-cpu"
  const MEMORY := "karpenter.k8s.upcloud/instance-memory"
  const STORAGE_SIZE := "karpenter.k8s.upcloud/instance-storage-size"
  const GPU_COUNT := "karpenter.k8s.upcloud/instance-gpu-count"
  const GPU_MODEL := "karpenter.k8s.upcloud/instance-gpu-model"

  function CapacityType(plan: string): string {
    if IsSpotPlan(plan) then "spot" else "on-demand"
  }

  /** util.InstanceFamily: the first known prefix. */
  function InstanceFamily(name: string): string {
    if HasPrefix(name, "CLOUDNATIVE") then "CLOUDNATIVE"
    else if HasPrefix(name, "GPU") then "GPU"
    else if HasPrefix(name, "STARTER") then "STARTER"
    else if HasPrefix(name, "PREMIUM") then "PREMIUM"
    else "UNKNOWN"
  }

  function Requirements(zone: string, plan: Plan): seq<TypeLabel> {
    [TypeLabel(INSTANCE_TYPE, plan.name), TypeLabel(ARCH, "amd64"), TypeLabel(OS, "linux"), TypeLabel(ZONE, zone),
     TypeLabel(CAPACITY_TYPE, CapacityType(plan.name)), TypeLabel(FAMILY, InstanceFamily(plan.name)),
     TypeLabel(CPU, Decimal(Clamp(plan.cores))), TypeLabel(MEMORY, Decimal(Clamp(plan.memoryMiB))),
     TypeLabel(STORAGE_SIZE, Decimal(plan.storageSize))]
    + if Clamp(plan.gpus) > 0
      then [TypeLabel(GPU_COUNT, Decimal(Clamp(plan.gpus))), TypeLabel(GPU_MODEL, plan.gpuModel)]
      else []
  }

  /** buildInstanceTypeWithPrices. */
  function Build(zone: string, plan: Plan, prices: map<string, real>): InstanceType {
    InstanceType(plan.name, Requirements(zone, plan), CapacityType(plan.name),
                 if plan.name in prices then Some(prices[plan.name]) else None,
                 Clamp(plan.cores), SaturatingBytes(plan.memoryMiB), POD_LIMIT,
                 if Clamp(plan.gpus) > 0 then Some(Clamp(plan.gpus)) else None)
  }

  /** The instance types of the given plans. */
  function Catalogue(zone: string, plans: map<string, Plan>, prices: map<string, real>): map<string, InstanceType> {
    map n | n in plans :: Build(zone, plans[n], prices)
  }

  lemma CatalogueUpdate(zone: string, plans: map<string, Plan>, prices: map<string, real>, plan: Plan)
    ensures Catalogue(zone, plans[plan.name := plan], prices)
         == Catalogue(zone, plans, prices)[plan.name := Build(zone, plan, prices)]
  {
  }

  /** The entry has this label. */
  predicate Labelled(it: InstanceType, key: string, value: string) {
    TypeLabel(key, value) in it.requirements
  }

  /** It has this label, with a value that reads as the number. */
  predicate LabelledNumber(it: InstanceType, key: string, n: int) {
    exists l :: l in it.requirements && l.key == key && ParseInt(l.value) == Some(n)
  }

  /** The one of these prefixes that the plan's name has, if it has one. */
  predicate OfFamily(name: string, family: string) {
    || (family in {"CLOUDNATIVE", "GPU", "STARTER", "PREMIUM"} && family <= name)
    || (&& family == "UNKNOWN" && !("CLOUDNATIVE" <= name) && !("GPU" <= name)
        && !("STARTER" <= name) && !("PREMIUM" <= name))
  }

  /** What the scheduler is told about a plan. */
  ghost predicate Offers(it: InstanceType, zone: string, plan: Plan, prices: map<string, real>) {
    && it.name == plan.name && it.pods == 110
    && it.offered == (if exists i: nat :: SpotAt(plan.name, i) then "spot" else "on-demand")
    && (if plan.name in prices then it.price == Some(prices[plan.name]) else it.price == None)
    && it.cpu == (if plan.cores < 0 then 0 else plan.cores)
    && it.memoryBytes == (if plan.memoryMiB < 0 then 0
                          else if plan.memoryMiB * MIB <= MAX then plan.memoryMiB * MIB
                          else MAX)
    && (if plan.gpus > 0 then it.gpus == Some(plan.gpus) else it.gpus == None)
  }

  /** And by which labels it can be selected. */
  ghost predicate SelectedBy(it: InstanceType, zone: string, plan: Plan) {
    && |it.requirements| == (if plan.gpus > 0 then 11 else 9)
    && Labelled(it, INSTANCE_TYPE, plan.name) && Labelled(it, ARCH, "amd64") && Labelled(it, OS, "linux")
    && Labelled(it, ZONE, zone) && Labelled(it, CAPACITY_TYPE, it.offered)
    && (exists family :: Labelled(it, FAMILY, family) && OfFamily(plan.name, family))
    && LabelledNumber(it, CPU, it.cpu) && LabelledNumber(it, STORAGE_SIZE, plan.storageSize)
    && LabelledNumber(it, MEMORY, if plan.memoryMiB < 0 then 0 else plan.memoryMiB)
    && (plan.gpus > 0 ==> LabelledNumber(it, GPU_COUNT, plan.gpus) && Labelled(it, GPU_MODEL, plan.gpuModel))
  }

  lemma BuildOffers(zone: string, plan: Plan, prices: map<string, real>)
    ensures Offers(Build(zone, plan, prices), zone, plan, prices)
  {
    SpotExactly(plan.name);
    SaturatingBytesExact(plan.memoryMiB);
  }

  lemma FamilyExactly(name: string)
    ensures OfFamily(name, InstanceFamily(name))
  {
  }

  lemma LabelPositions(zone: string, plan: Plan)
    ensures var labels := Requirements(zone, plan);
            && |labels| == (if plan.gpus > 0 then 11 else 9)
            && labels[0] == TypeLabel(INSTANCE_TYPE, plan.name) && labels[1] == TypeLabel(ARCH, "amd64")
            && labels[2] == TypeLabel(OS, "linux") && labels[3] == TypeLabel(ZONE, zone)
            && labels[4] == TypeLabel(CAPACITY_TYPE, CapacityType(plan.name))
            && labels[5] == TypeLabel(FAMILY, InstanceFamily(plan.name))
            && labels[6] == TypeLabel(CPU, Decimal(Clamp(plan.cores)))
            && labels[7] == TypeLabel(MEMORY, Decimal(Clamp(plan.memoryMiB)))
            && labels[8] == TypeLabel(STORAGE_SIZE, Decimal(plan.storageSize))
            && (plan.gpus > 0 ==> && labels[9] == TypeLabel(GPU_COUNT, Decimal(plan.gpus))
                                  && labels[10] == TypeLabel(GPU_MODEL, plan.gpuModel))
  {
  }

  /** A number printed into a label is read back from it. */
  lemma NumberIn(it: InstanceType, i: nat, key: string, n: int)
    requires i < |it.requirements| && it.requirements[i] == TypeLabel(key, Decimal(n)) && MIN <= n <= MAX
    ensures LabelledNumber(it, key, n)
  {
    DecimalParses(n);
    assert it.requirements[i] in it.requirements;
  }

  lemma BuildSelectedBy(zone: string, plan: Plan, prices: map<string, real>)
    ensures SelectedBy(Build(zone, plan, prices), zone, plan)
  {
    var it := Build(zone, plan, prices);
    LabelPositions(zone, plan);
    FamilyExactly(plan.name);
    assert Labelled(it, FAMILY, InstanceFamily(plan.name));
    NumberIn(it, 6, CPU, it.cpu);
    NumberIn(it, 7, MEMORY, Clamp(plan.memoryMiB));
    NumberIn(it, 8, STORAGE_SIZE, plan.storageSize);
    if plan.gpus > 0 {
      NumberIn(it, 9, GPU_COUNT, plan.gpus);
    }
  }

  /* ------------------------------------------------------------------- the price index */

  const PREFIX := "server_plan_"

  /** The keys under which a pricing item is filed. */
  predicate Files(item: string, key: string) {
    key == TrimPrefix(item, PREFIX) || (!HasPrefix(item, PREFIX) && key == PREFIX + item)
  }

  function Put(prices: map<string, real>, item: string, price: real): map<string, real> {
    var named := prices[TrimPrefix(item, PREFIX) := price];
    if HasPrefix(item, PREFIX) then named else named[PREFIX + item := price]
  }

  /** The index after visiting items in the given order. */
  function Index(items: map<string, real>, order: seq<string>): map<string, real>
    requires forall i :: 0 <= i < |order| ==> order[i] in items
    decreases |order|
  {
    if order == [] then map[]
    else
      var last := order[|order| - 1];
      Put(Index(items, order[..|order| - 1]), last, items[last])
  }

  /** `order` visits each key once. */
  ghost predicate Visits(order: seq<string>, keys: set<string>) {
    && (forall i :: 0 <= i < |order| ==> order[i] in keys)
    && (forall i, j :: 0 <= i < j < |order| ==> order[i] != order[j])
    && (forall k :: k in keys ==> k in order)
  }

  lemma IndexSnoc(items: map<string, real>, order: seq<string>, item: string)
    requires item in items && forall i :: 0 <= i < |order| ==> order[i] in items
    ensures Index(items, order + [item]) == Put(Index(items, order), item, items[item])
  {
    assert (order + [item])[..|order|] == order;
  }

  lemma TrimmedUnlessSame(item: string)
    ensures TrimPrefix(item, PREFIX) == item <==> !HasPrefix(item, PREFIX)
  {
    assert |PREFIX| == 12;
  }

  lemma VisitsSnoc(order: seq<string>, keys: set<string>, item: string)
    requires Visits(order, keys) && item !in keys
    ensures Visits(order + [item], keys + {item})
  {
    assert forall k :: k in order ==> k in order + [item];
  }

  lemma VisitedIndexSnoc(items: map<string, real>, order: seq<string>, done: set<string>, item: string)
    requires Visits(order, done) && done <= items.Keys && item in items && item !in done
    ensures Visits(order + [item], done + {item})
    ensures Index(items, order + [item]) == Put(Index(items, order), item, items[item])
  {
    IndexSnoc(items, order, item);
    VisitsSnoc(order, done, item);
  }

  /** No two items file different prices under one key. */
  ghost predicate ConflictFree(items: map<string, real>) {
    forall a, b, k :: a in items && b in items && Files(a, k) && Files(b, k) ==> items[a] == items[b]
  }

  /** Filing an item sets the keys it is filed under and no other. */
  lemma PutExact(prices: map<string, real>, item: string, price: real, k: string)
    ensures var put := Put(prices, item, price);
            && (k in put <==> k in prices || Files(item, k))
            && (k in put ==> put[k] == if Files(item, k) then price else prices[k])
  {
  }

  /** Of the items in this order, the last one filed under the key is at `i`. */
  ghost predicate LastFiled(order: seq<string>, k: string, i: nat) {
    i < |order| && Files(order[i], k) && forall j :: i < j < |order| ==> !Files(order[j], k)
  }

  /** The last item filed under a key decides, and the keys are those filed. */
  lemma {:induction false} IndexExact(items: map<string, real>, order: seq<string>, k: string)
    requires forall i :: 0 <= i < |order| ==> order[i] in items
    ensures k in Index(items, order)
       <==> exists i :: && 0 <= i < |order|
                        && (if PREFIX <= order[i] then k == order[i][|PREFIX|..]
                            else k == order[i] || k == PREFIX + order[i])
    ensures k in Index(items, order) <==> exists i :: 0 <= i < |order| && Files(order[i], k)
    ensures k in Index(items, order) ==>
              exists i: nat :: LastFiled(order, k, i) && Index(items, order)[k] == items[order[i]]
    decreases |order|
  {
    if order != [] {
      var last := |order| - 1;
      var earlier := order[..last];
      IndexExact(items, earlier, k);
      PutExact(Index(items, earlier), order[last], items[order[last]], k);
      if Files(order[last], k) {
        assert LastFiled(order, k, last);
      } else if k in Index(items, earlier) {
        var i: nat :| LastFiled(earlier, k, i) && Index(items, earlier)[k] == items[earlier[i]];
        LastFiledSnoc(earlier, order[last], k, i);
        assert order == earlier + [order[last]];
      }
    }
  }

  lemma LastFiledSnoc(order: seq<string>, item: string, k: string, i: nat)
    requires LastFiled(order, k, i) && !Files(item, k)
    ensures LastFiled(order + [item], k, i)
  {
    var longer := order + [item];
    assert forall j :: 0 <= j < |order| ==> longer[j] == order[j];
  }

  lemma SameIndex(items: map<string, real>, a: seq<string>, b: seq<string>)
    requires ConflictFree(items) && Visits(a, items.Keys) && Visits(b, items.Keys)
    ensures Index(items, a) == Index(items, b)
  {
    forall k
      ensures k in Index(items, a) <==> k in Index(items, b)
      ensures k in Index(items, a) ==> Index(items, a)[k] == Index(items, b)[k]
    {
      IndexExact(items, a, k);
      IndexExact(items, b, k);
      if k in Index(items, a) {
        var i: nat :| LastFiled(a, k, i) && Index(items, a)[k] == items[a[i]];
        assert a[i] in b;
      }
      if k in Index(items, b) {
        var i: nat :| LastFiled(b, k, i) && Index(items, b)[k] == items[b[i]];
        assert b[i] in a;
      }
    }
  }

  /** Some order visits the keys and ends with `last`. */
  lemma {:induction false} OrderEndingIn(keys: set<string>, last: string) returns (order: seq<string>)
    requires last in keys
    ensures Visits(order, keys) && order[|order| - 1] == last
    decreases |keys|
  {
    if keys == {last} {
      order := [last];
    } else {
      var k :| k in keys && k != last;
      var rest := OrderEndingIn(keys - {k}, last);
      order := [k] + rest;
      forall x | x in keys
        ensures x in order
      {
        assert x == k || x in rest;
      }
    }
  }

  /**
   * Go's map order does not show in the price index exactly when no two items file different prices
   * under one key ("X" and "server_plan_X" with two prices do).
   */
  lemma OrderInvisibleExactly(items: map<string, real>)
    ensures ConflictFree(items)
       <==> forall a, b :: Visits(a, items.Keys) && Visits(b, items.Keys) ==> Index(items, a) == Index(items, b)
  {
    if ConflictFree(items) {
      forall a, b | Visits(a, items.Keys) && Visits(b, items.Keys)
        ensures Index(items, a) == Index(items, b)
      {
        SameIndex(items, a, b);
      }
    } else {
      var _, _ := ConflictShows(items);
    }
  }

  lemma ConflictShows(items: map<string, real>) returns (x: seq<string>, y: seq<string>)
    requires !ConflictFree(items)
    ensures Visits(x, items.Keys) && Visits(y, items.Keys) && Index(items, x) != Index(items, y)
  {
    var a, b, k :| a in items && b in items && Files(a, k) && Files(b, k) && items[a] != items[b];
    x := OrderEndingIn(items.Keys, a);
    y := OrderEndingIn(items.Keys, b);
    LastDecides(items, x, k);
    LastDecides(items, y, k);
  }

  lemma LastDecides(items: map<string, real>, order: seq<string>, k: string)
    requires order != [] && forall i :: 0 <= i < |order| ==> order[i] in items
    requires Files(order[|order| - 1], k)
    ensures k in Index(items, order) && Index(items, order)[k] == items[order[|order| - 1]]
  {
  }

  /* ---------------------------------------------------------------------- the catalogue */

  /** The plans by name; of several plans with one name the last. */
  function ByName(plans: seq<Plan>): map<string, Plan> {
    if plans == [] then map[]
    else ByName(plans[..|plans| - 1])[plans[|plans| - 1].name := plans[|plans| - 1]]
  }

  /** The last plan of this name is at `i`. */
  ghost predicate LastNamed(plans: seq<Plan>, name: string, i: nat) {
    i < |plans| && plans[i].name == name && forall j :: i < j < |plans| ==> plans[j].name != name
  }

  lemma LastNamedSnoc(plans: seq<Plan>, plan: Plan, name: string, i: nat)
    requires LastNamed(plans, name, i) && plan.name != name
    ensures LastNamed(plans + [plan], name, i)
  {
    var longer := plans + [plan];
    assert forall j :: 0 <= j < |plans| ==> longer[j] == plans[j];
  }

  lemma {:induction false} NamesExact(plans: seq<Plan>, name: string)
    ensures name in ByName(plans) <==> exists i :: 0 <= i < |plans| && plans[i].name == name
    decreases |plans|
  {
    if plans != [] {
      var last := |plans| - 1;
      NamesExact(plans[..last], name);
      assert forall i :: 0 <= i < last ==> plans[..last][i] == plans[i];
    }
  }

  lemma {:induction false} ByNameExact(plans: seq<Plan>, name: string)
    ensures name in ByName(plans) <==> exists i :: 0 <= i < |plans| && plans[i].name == name
    ensures name in ByName(plans) ==> exists i: nat :: LastNamed(plans, name, i) && ByName(plans)[name] == plans[i]
    decreases |plans|
  {
    NamesExact(plans, name);
    if plans != [] {
      var last := |plans| - 1;
      var earlier := plans[..last];
      ByNameExact(earlier, name);
      if plans[last].name == name {
        assert LastNamed(plans, name, last);
      } else if name in ByName(earlier) {
        var i: nat :| LastNamed(earlier, name, i) && ByName(earlier)[name] == earlier[i];
        LastNamedSnoc(earlier, plans[last], name, i);
        assert plans == earlier + [plans[last]];
      }
    }
  }

  /** A price fetch: when it was started and when its result was stored. */
  datatype Fetch = Fetch(asked: int, stored: int)

  /** The cached prices, when they were stored, and every fetch so far. */
  datatype PriceCache = PriceCache(prices: map<string, real>, lastFetch: Option<int>, fetches: seq<Fetch>)

  /** The zone's own items, or any zone's when it has none, filed in any order. */
  ghost predicate IndexedFrom(zone: string, reply: map<string, map<string, real>>, prices: map<string, real>) {
    exists items, order ::
      && (if zone in reply then items == reply[zone]
          else if reply == map[] then items == map[]
          else exists z :: z in reply && items == reply[z])
      && Visits(order, items.Keys) && prices == Index(items, order)
  }

  /** A recent cache is left alone, and so is one that a failed fetch cannot replace. */
  predicate KeepsCache(cacheTTL: int, before: PriceCache, now: int, reply: Option<map<string, map<string, real>>>) {
    (before.lastFetch.Some? && now - before.lastFetch.value < cacheTTL) || reply.None?
  }

  /** Fetches keep their distance, and the last one is on record. */
  ghost predicate Orderly(c: PriceCache, ttl: int) {
    && Spaced(c.fetches, ttl)
    && c.lastFetch == if c.fetches == [] then None else Some(c.fetches[|c.fetches| - 1].stored)
  }

  /** How a price refresh at `now`, whose result is stored at `stored`, changes the cache. */
  ghost predicate PricesRefreshed(zone: string, cacheTTL: int, before: PriceCache, now: int,
                                  reply: Option<map<string, map<string, real>>>, stored: int, after: PriceCache) {
    if KeepsCache(cacheTTL, before, now, reply) then after == before
    else
      && after.lastFetch == Some(stored) && after.fetches == before.fetches + [Fetch(now, stored)]
      && IndexedFrom(zone, reply.value, after.prices)
  }

  /**
   * Prices are replaced exactly when a reply came and the cache was empty or at least cacheTTL old; then
   * by the zone's own items, or by some other zone's if it has none, and by nothing if nobody has any.
   */
  lemma PricesTell(zone: string, cacheTTL: int, before: PriceCache, now: int,
                   reply: Option<map<string, map<string, real>>>, stored: int, after: PriceCache)
    requires PricesRefreshed(zone, cacheTTL, before, now, reply, stored, after)
    ensures |after.fetches| == |before.fetches| + 1
       <==> reply.Some? && (before.lastFetch.None? || now - before.lastFetch.value >= cacheTTL)
    ensures |after.fetches| != |before.fetches| + 1 ==> after == before
    ensures |after.fetches| == |before.fetches| + 1 ==>
              && after.lastFetch == Some(stored) && after.fetches == before.fetches + [Fetch(now, stored)]
              && (reply.value == map[] ==> after.prices == map[])
              && (reply.value != map[] ==>
                    exists z, order ::
                      && z in reply.value && (zone in reply.value ==> z == zone)
                      && Visits(order, reply.value[z].Keys) && after.prices == Index(reply.value[z], order))
  {
    if !KeepsCache(cacheTTL, before, now, reply) {
      var items, order :|
        && (if zone in reply.value then items == reply.value[zone]
            else if reply.value == map[] then items == map[]
            else exists z :: z in reply.value && items == reply.value[z])
        && Visits(order, items.Keys) && after.prices == Index(items, order);
      if reply.value == map[] {
        assert |order| > 0 ==> order[0] in items.Keys;
      } else {
        var z :| z in reply.value && items == reply.value[z] && (zone in reply.value ==> z == zone);
      }
    }
  }

  class Provider {
    const zone: string
    const cacheTTL: int
    var typesByName: map<string, InstanceType>
    var plansByName: map<string, Plan>
    var prices: map<string, real>
    var lastFetch: Option<int>
    ghost var lastPlans: seq<Plan>
    ghost var fetches: seq<Fetch>

    constructor (zone: string, cacheTTL: int)
      requires cacheTTL >= 0
      ensures Valid() && lastPlans == [] && fetches == [] && prices == map[]
      ensures this.zone == zone && this.cacheTTL == cacheTTL
    {
      this.zone, this.cacheTTL := zone, cacheTTL;
      typesByName, plansByName, prices, lastFetch := map[], map[], map[], None;
      lastPlans, fetches := [], [];
    }

    /** The maps agree, and are the catalogue of the last plan list fetched; fetches keep their distance. */
    ghost predicate Valid()
      reads this
    {
      && plansByName == ByName(lastPlans)
      && typesByName == Catalogue(zone, plansByName, prices)
      && cacheTTL >= 0 && Orderly(Cache(), cacheTTL)
    }

    /**
     * The entries are those of the plan list that was fetched last: each name once, with the last plan
     * of that name, offered and labelled as that plan and the cached prices say.
     */
    lemma EntriesTell(name: string)
      requires Valid()
      ensures name in typesByName <==> exists i :: 0 <= i < |lastPlans| && lastPlans[i].name == name
      ensures name in plansByName <==> name in typesByName
      ensures name in typesByName ==>
                exists i: nat ::
                  && LastNamed(lastPlans, name, i) && plansByName[name] == lastPlans[i]
                  && Offers(typesByName[name], zone, lastPlans[i], prices)
                  && SelectedBy(typesByName[name], zone, lastPlans[i])
    {
      ByNameExact(lastPlans, name);
      if name in plansByName {
        BuildOffers(zone, plansByName[name], prices);
        BuildSelectedBy(zone, plansByName[name], prices);
      }
    }

    ghost function Cache(): PriceCache
      reads this
    {
      PriceCache(prices, lastFetch, fetches)
    }

    /** Prices are refreshed at most once per cacheTTL. A failed fetch keeps the old prices. */
    method RefreshPrices(now: int, reply: Option<map<string, map<string, real>>>, stored: int) returns (ok: bool)
      requires lastFetch.Some? ==> lastFetch.value <= now
      requires now <= stored && cacheTTL >= 0 && Orderly(Cache(), cacheTTL)
      modifies this`prices, this`lastFetch, this`fetches
      ensures Orderly(Cache(), cacheTTL) && (lastFetch.Some? ==> lastFetch.value <= stored)
      ensures PricesRefreshed(zone, cacheTTL, old(Cache()), now, reply, stored, Cache())
      ensures !ok <==> reply.None? && !(old(lastFetch).Some? && now - old(lastFetch).value < cacheTTL)
    {
      if lastFetch.Some? && now - lastFetch.value < cacheTTL {
        return true;
      }
      if reply.None? {
        return false;
      }
      var zonePrices: map<string, real> := map[];
      if zone in reply.value {
        zonePrices := reply.value[zone];
      } else if reply.value != map[] {
        var someZone :| someZone in reply.value;
        zonePrices := reply.value[someZone];
      }
      prices := IndexPrices(zonePrices);
      lastFetch := Some(stored);
      fetches := fetches + [Fetch(now, stored)];
      ok := true;
    }

    /** One pricing item: filed under its bare name and, when it had no prefix, also with one. */
    method FilePrice(index: map<string, real>, item: string, price: real) returns (updated: map<string, real>)
      ensures updated == Put(index, item, price)
    {
      var name := TrimPrefix(item, PREFIX);
      TrimmedUnlessSame(item);
      updated := index[name := price];
      if name == item {
        updated := updated[PREFIX + name := price];
      }
    }

    /** The loop over the price list, in the map's arbitrary order. */
    method IndexPrices(items: map<string, real>) returns (index: map<string, real>)
      ensures exists order :: Visits(order, items.Keys) && index == Index(items, order)
    {
      index := map[];
      ghost var order: seq<string> := [];
      ghost var done: set<string> := {};
      var todo := items.Keys;
      while todo != {}
        invariant done + todo == items.Keys && done !! todo
        invariant Visits(order, done)
        invariant index == Index(items, order)
        decreases |todo|
      {
        var item :| item in todo;
        VisitedIndexSnoc(items, order, done, item);
        index := FilePrice(index, item, items[item]);
        order := order + [item];
        done := done + {item};
        todo := todo - {item};
      }
    }

    /** The loop over the plan list. */
    method BuildCatalogue(plans: seq<Plan>) returns (built: map<string, InstanceType>, rawPlans: map<string, Plan>)
      ensures rawPlans == ByName(plans)
      ensures built == Catalogue(zone, rawPlans, prices)
    {
      built, rawPlans := map[], map[];
      var i := 0;
      while i < |plans|
        invariant 0 <= i <= |plans|
        invariant rawPlans == ByName(plans[..i])
        invariant built == Catalogue(zone, rawPlans, prices)
      {
        var plan := plans[i];
        assert plans[..i + 1][..i] == plans[..i];
        CatalogueUpdate(zone, rawPlans, prices, plan);
        built := built[plan.name := Build(zone, plan, prices)];
        rawPlans := rawPlans[plan.name := plan];
        i := i + 1;
      }
      assert plans[..i] == plans;
    }

    /**
     * Refresh: a failed plan fetch changes nothing; otherwise both maps become those of the fetched
     * list, priced with the prices that are cached afterwards.
     */
    method Refresh(plans: Option<seq<Plan>>, now: int, priceReply: Option<map<string, map<string, real>>>, stored: int)
      returns (ok: bool)
      requires Valid() && now <= stored && (lastFetch.Some? ==> lastFetch.value <= now)
      modifies this
      ensures Valid() && ok == plans.Some?
      ensures plans.None? ==> lastPlans == old(lastPlans) && Cache() == old(Cache())
      ensures plans.Some? ==> lastPlans == plans.value
      ensures plans.Some? ==> PricesRefreshed(zone, cacheTTL, old(Cache()), now, priceReply, stored, Cache())
      ensures lastFetch.Some? ==> lastFetch.value <= stored
    {
      if plans.None? {
        return false;
      }
      var _ := RefreshPrices(now, priceReply, stored);
      var built, rawPlans := BuildCatalogue(plans.value);
      typesByName := built;
      plansByName := rawPlans;
      lastPlans := plans.value;
      ok := true;
    }
  }

  /** Each fetch was started at least `ttl` after the result of the one before was stored. */
  ghost predicate Spaced(fetches: seq<Fetch>, ttl: int) {
    && (forall i :: 0 <= i < |fetches| ==> fetches[i].asked <= fetches[i].stored)
    && (forall i :: 0 < i < |fetches| ==> fetches[i].asked - fetches[i - 1].stored >= ttl)
  }

  /** So any two successful fetches, not only neighbours, are at least `ttl` apart. */
  lemma {:induction false} SpacedApart(fetches: seq<Fetch>, ttl: int, i: nat, j: nat)
    requires Spaced(fetches, ttl) && ttl >= 0 && i < j < |fetches|
    ensures fetches[j].asked - fetches[i].stored >= ttl * (j - i)
    decreases j
  {
    if i < j - 1 {
      SpacedApart(fetches, ttl, i, j - 1);
      assert ttl * (j - i) == ttl * (j - 1 - i) + ttl;
    }
  }
}
