/**
 * The UpCloudNodeClass spec as Go holds it: a struct with pointers, slices and a map on the heap.
 * DeepCopy and Hash are modelled as the in-place code they are and proved against functions of
 * the spec's value; the laws of the digest are then proved about those functions.
 */
module NodeClassSpecs {
  import opened Prelude

  datatype KubeletArg = KubeletArg(key: string, value: string)

  /** Go's `*bool`. */
  class BoolBox {
    var value: bool
    constructor (v: bool)
      ensures value == v
    {
      value := v;
    }
  }

  /** A Go `map[string]string`: a reference, so writes through it are seen by every holder. */
  class LabelMap {
    var entries: map<string, string>
    constructor (m: map<string, string>)
      ensures entries == m
    {
      entries := m;
    }
  }

  datatype StorageValue = StorageValue(size: int, tier: string, encrypted: Option<bool>)

  class StorageSpec {
    var size: int
    var tier: string
    var encrypted: BoolBox?

    constructor (size: int, tier: string, encrypted: BoolBox?)
      ensures this.size == size && this.tier == tier && this.encrypted == encrypted
    {
      this.size, this.tier, this.encrypted := size, tier, encrypted;
    }

    function Value(): StorageValue
      reads this, encrypted
    {
      StorageValue(size, tier, FlagValue(encrypted))
    }
  }

  /** What a spec says; `None` is Go's nil and `Some([])` an allocated empty collection. */
  datatype SpecValue = SpecValue(
    zone: string,
    plan: string,
    storage: Option<StorageValue>,
    sshKeys: Option<seq<string>>,
    kubeletArgs: Option<seq<KubeletArg>>,
    labels: Option<map<string, string>>,
    taints: Option<seq<Taint>>,
    serverGroupUUID: string,
    utilityNetworkAccess: Option<bool>)

  /* ---------------------------------------------------------------- the digest */

  /** A 64-bit word. */
  type Word = w: int | 0 <= w < 0x1_0000_0000_0000_0000 witness 0

  /**
   * The hashing library, as far as Hash relies on it: digests of the leaves, an unordered
   * combination (`join` from `unit`) for slices hashed as sets, a digest of the non-zero fields
   * of a struct, and the hexadecimal rendering.
   */
  datatype Hasher = Hasher(
    text: string -> Word,
    arg: KubeletArg -> Word,
    taint: Taint -> Word,
    labels: map<string, string> -> Word,
    storage: StorageValue -> Word,
    flag: bool -> Word,
    unit: Word,
    join: (Word, Word) -> Word,
    record: seq<(string, Word)> -> Word,
    hex: Word -> string)

  /**
   * The unordered combination really does not see the order. Left-commutativity is all a fold
   * needs; any commutative and associative `join`, exclusive-or for one, has it.
   */
  ghost predicate OrderFree(h: Hasher) {
    forall a, b, c :: h.join(a, h.join(b, c)) == h.join(b, h.join(a, c))
  }

  /** A slice hashed as a set: the element digests folded with `join`. */
  function SetDigest<T>(h: Hasher, digest: T -> Word, s: seq<T>): Word {
    if s == [] then h.unit else h.join(digest(s[0]), SetDigest(h, digest, s[1..]))
  }

  /** The struct's fields in order, each with its digest unless it holds its type's zero value. */
  function Leaves(h: Hasher, v: SpecValue): seq<(string, Option<Word>)> {
    [("Zone", if v.zone == "" then None else Some(h.text(v.zone))),
     ("Plan", if v.plan == "" then None else Some(h.text(v.plan))),
     ("Storage", if v.storage.None? then None else Some(h.storage(v.storage.value))),
     ("SSHKeys", if v.sshKeys.None? then None else Some(SetDigest(h, h.text, v.sshKeys.value))),
     ("KubeletArgs", if v.kubeletArgs.None? then None else Some(SetDigest(h, h.arg, v.kubeletArgs.value))),
     ("Labels", if v.labels.None? then None else Some(h.labels(v.labels.value))),
     ("Taints", if v.taints.None? then None else Some(SetDigest(h, h.taint, v.taints.value))),
     ("ServerGroupUUID", if v.serverGroupUUID == "" then None else Some(h.text(v.serverGroupUUID))),
     ("UtilityNetworkAccess",
      if v.utilityNetworkAccess.None? then None else Some(h.flag(v.utilityNetworkAccess.value)))]
  }

  /** Zero-valued fields are ignored. */
  function Present(fields: seq<(string, Option<Word>)>): seq<(string, Word)> {
    if fields == [] then [] else
    (if fields[0].1.None? then [] else [(fields[0].0, fields[0].1.value)]) + Present(fields[1..])
  }

  function DropEmptyList<T>(s: Option<seq<T>>): Option<seq<T>> {
    if s.Some? && |s.value| == 0 then None else s
  }

  /** Empty collections count as absent. */
  function DropEmpty(v: SpecValue): SpecValue {
    v.(sshKeys := DropEmptyList(v.sshKeys),
       kubeletArgs := DropEmptyList(v.kubeletArgs),
       labels := if v.labels.Some? && |v.labels.value| == 0 then None else v.labels,
       taints := DropEmptyList(v.taints))
  }

  function HashOf(h: Hasher, v: SpecValue): string {
    h.hex(h.record(Present(Leaves(h, DropEmpty(v)))))
  }

  /* ------------------------------------------------------- the normal form of a spec */

  /** What the digest may depend on: list fields as multisets, absent and empty identified. */
  datatype NormalForm = NormalForm(
    zone: string,
    plan: string,
    storage: Option<StorageValue>,
    sshKeys: multiset<string>,
    kubeletArgs: multiset<KubeletArg>,
    labels: map<string, string>,
    taints: multiset<Taint>,
    serverGroupUUID: string,
    utilityNetworkAccess: Option<bool>)

  ghost function Normal(v: SpecValue): NormalForm {
    NormalForm(v.zone, v.plan, v.storage,
               multiset(v.sshKeys.GetOr([])), multiset(v.kubeletArgs.GetOr([])),
               v.labels.GetOr(map[]), multiset(v.taints.GetOr([])),
               v.serverGroupUUID, v.utilityNetworkAccess)
  }

  /** An element in the middle of a slice contributes as if it stood first. */
  lemma {:induction false} SetDigestMiddle<T>(h: Hasher, digest: T -> Word, a: seq<T>, x: T, b: seq<T>)
    requires OrderFree(h)
    ensures SetDigest(h, digest, a + [x] + b) == h.join(digest(x), SetDigest(h, digest, a + b))
  {
    if a == [] {
      assert [] + [x] + b == [x] + b && [] + b == b;
    } else {
      SetDigestMiddle(h, digest, a[1..], x, b);
      assert (a + [x] + b)[1..] == a[1..] + [x] + b;
      assert (a + b)[1..] == a[1..] + b;
    }
  }

  lemma MultisetWithout<T>(s: seq<T>, j: nat)
    requires j < |s|
    ensures s == s[..j] + [s[j]] + s[j + 1..]
    ensures multiset(s[..j] + s[j + 1..]) == multiset(s) - multiset{s[j]}
  {
    assert s == s[..j] + [s[j]] + s[j + 1..];
  }

  /** The digest of a slice is the same for every permutation of it. */
  lemma {:induction false} SetDigestPermutation<T>(h: Hasher, digest: T -> Word, a: seq<T>, b: seq<T>)
    requires OrderFree(h) && multiset(a) == multiset(b)
    ensures SetDigest(h, digest, a) == SetDigest(h, digest, b)
    decreases |a|
  {
    assert |a| == |multiset(a)| == |multiset(b)| == |b|;
    if a != [] {
      var x := a[0];
      assert x in multiset(a);
      var j :| 0 <= j < |b| && b[j] == x;
      MultisetWithout(a, 0);
      MultisetWithout(b, j);
      assert a[..0] + a[1..] == a[1..];
      SetDigestPermutation(h, digest, a[1..], b[..j] + b[j + 1..]);
      SetDigestMiddle(h, digest, b[..j], x, b[j + 1..]);
    }
  }

  /** Empty and absent have the same multiset, so after DropEmpty one is absent iff the other is. */
  lemma ListFieldAgrees<T>(h: Hasher, digest: T -> Word, a: Option<seq<T>>, b: Option<seq<T>>)
    requires OrderFree(h) && multiset(a.GetOr([])) == multiset(b.GetOr([]))
    ensures DropEmptyList(a).None? <==> DropEmptyList(b).None?
    ensures SetDigest(h, digest, a.GetOr([])) == SetDigest(h, digest, b.GetOr([]))
  {
    SetDigestPermutation(h, digest, a.GetOr([]), b.GetOr([]));
    assert |multiset(a.GetOr([]))| == |a.GetOr([])| && |multiset(b.GetOr([]))| == |b.GetOr([])|;
  }

  /**
   * Specs with one normal form have one hash: reordering SSH keys, kubelet args or taints, and
   * writing an empty collection instead of leaving it out, never change the digest.
   */
  lemma HashRespectsNormalForm(h: Hasher, a: SpecValue, b: SpecValue)
    requires OrderFree(h) && Normal(a) == Normal(b)
    ensures HashOf(h, a) == HashOf(h, b)
  {
    ListFieldAgrees(h, h.text, a.sshKeys, b.sshKeys);
    ListFieldAgrees(h, h.arg, a.kubeletArgs, b.kubeletArgs);
    ListFieldAgrees(h, h.taint, a.taints, b.taints);
    assert Leaves(h, DropEmpty(a)) == Leaves(h, DropEmpty(b));
  }

  lemma {:induction false} PresentSnoc(fields: seq<(string, Option<Word>)>, last: (string, Option<Word>))
    ensures Present(fields + [last])
         == Present(fields) + (if last.1.None? then [] else [(last.0, last.1.value)])
  {
    if fields == [] {
      assert [] + [last] == [last];
    } else {
      PresentSnoc(fields[1..], last);
      assert (fields + [last])[1..] == fields[1..] + [last];
    }
  }

  /** Setting an optional boolean to false is one more field than leaving it out. */
  lemma ExplicitFalseIsAField(h: Hasher, v: SpecValue)
    requires v.utilityNetworkAccess == None
    ensures Present(Leaves(h, v.(utilityNetworkAccess := Some(false))))
         == Present(Leaves(h, v)) + [("UtilityNetworkAccess", h.flag(false))]
  {
    var leading := Leaves(h, v)[..8];
    var explicit := Leaves(h, v.(utilityNetworkAccess := Some(false)));
    assert Leaves(h, v) == leading + [("UtilityNetworkAccess", None)];
    assert explicit == leading + [("UtilityNetworkAccess", Some(h.flag(false)))];
    PresentSnoc(leading, ("UtilityNetworkAccess", None));
    PresentSnoc(leading, ("UtilityNetworkAccess", Some(h.flag(false))));
  }

  /* ------------------------------------------------------------------ the heap code */

  function SliceValue<T>(a: array?<T>): Option<seq<T>>
    reads a
  {
    if a == null then None else Some(a[..])
  }

  function MapValue(m: LabelMap?): Option<map<string, string>>
    reads m
  {
    if m == null then None else Some(m.entries)
  }

  function FlagValue(b: BoolBox?): Option<bool>
    reads b
  {
    if b == null then None else Some(b.value)
  }

  function StorageOf(s: StorageSpec?): Option<StorageValue>
    reads s, if s == null then {} else {s.encrypted}
  {
    if s == null then None else Some(s.Value())
  }

  /** `make` and `copy`: a nil slice stays nil, any other gets a fresh backing array. */
  method CopySlice<T(0)>(src: array?<T>) returns (dst: array?<T>)
    ensures dst != null ==> fresh(dst)
    ensures SliceValue(dst) == SliceValue(src)
  {
    if src == null {
      return null;
    }
    var copied := new T[src.Length];
    var i := 0;
    while i < src.Length
      invariant 0 <= i <= src.Length
      invariant copied[..i] == src[..i]
    {
      copied[i] := src[i];
      i := i + 1;
    }
    assert copied[..] == copied[..i] && src[..] == src[..i];
    dst := copied;
  }

  /** `make` and a range loop, in whatever order Go enumerates the keys. */
  method CopyMap(src: LabelMap?) returns (dst: LabelMap?)
    ensures dst != null ==> fresh(dst)
    ensures MapValue(dst) == MapValue(src)
  {
    if src == null {
      return null;
    }
    var copied := new LabelMap(map[]);
    var todo := src.entries.Keys;
    while todo != {}
      invariant todo <= src.entries.Keys
      invariant copied.entries == map k | k in src.entries && k !in todo :: src.entries[k]
      decreases |todo|
    {
      var key :| key in todo;
      copied.entries := copied.entries[key := src.entries[key]];
      todo := todo - {key};
    }
    assert copied.entries == src.entries;
    dst := copied;
  }

  class NodeClassSpec {
    var zone: string
    var plan: string
    var storage: StorageSpec?
    var sshKeys: array?<string>
    var kubeletArgs: array?<KubeletArg>
    var labels: LabelMap?
    var taints: array?<Taint>
    var serverGroupUUID: string
    var utilityNetworkAccess: BoolBox?

    constructor (zone: string, plan: string, storage: StorageSpec?, sshKeys: array?<string>,
                 kubeletArgs: array?<KubeletArg>,
                 labels: LabelMap?, taints: array?<Taint>, serverGroupUUID: string, utilityNetworkAccess: BoolBox?)
      ensures this.zone == zone && this.plan == plan && this.storage == storage
      ensures this.sshKeys == sshKeys && this.kubeletArgs == kubeletArgs
      ensures this.labels == labels && this.taints == taints
      ensures this.serverGroupUUID == serverGroupUUID && this.utilityNetworkAccess == utilityNetworkAccess
    {
      this.zone, this.plan, this.storage := zone, plan, storage;
      this.sshKeys, this.kubeletArgs := sshKeys, kubeletArgs;
      this.labels, this.taints := labels, taints;
      this.serverGroupUUID, this.utilityNetworkAccess := serverGroupUUID, utilityNetworkAccess;
    }

    /** `new(UpCloudNodeClassSpec)` followed by `*out = *in`: every pointer is shared. */
    constructor Shallow(src: NodeClassSpec)
      ensures zone == src.zone && plan == src.plan && storage == src.storage
      ensures sshKeys == src.sshKeys && kubeletArgs == src.kubeletArgs
      ensures labels == src.labels && taints == src.taints
      ensures serverGroupUUID == src.serverGroupUUID && utilityNetworkAccess == src.utilityNetworkAccess
    {
      zone, plan, storage := src.zone, src.plan, src.storage;
      sshKeys, kubeletArgs := src.sshKeys, src.kubeletArgs;
      labels, taints := src.labels, src.taints;
      serverGroupUUID, utilityNetworkAccess := src.serverGroupUUID, src.utilityNetworkAccess;
    }

    function Value(): SpecValue
      reads this, storage, sshKeys, kubeletArgs, labels, taints, utilityNetworkAccess,
            if storage == null then {} else {storage.encrypted}
    {
      SpecValue(zone, plan, StorageOf(storage), SliceValue(sshKeys), SliceValue(kubeletArgs),
                MapValue(labels), SliceValue(taints), serverGroupUUID, FlagValue(utilityNetworkAccess))
    }

    /**
     * The generated deep copy. The copy says the same as the original and shares no slice, map or
     * flag with it, but it does share the Storage object: the generator's output never copies it.
     */
    method DeepCopy() returns (out: NodeClassSpec)
      ensures fresh(out) && out.Value() == Value()
      ensures out.storage == storage
      ensures out.sshKeys != null ==> fresh(out.sshKeys)
      ensures out.kubeletArgs != null ==> fresh(out.kubeletArgs)
      ensures out.labels != null ==> fresh(out.labels)
      ensures out.taints != null ==> fresh(out.taints)
      ensures out.utilityNetworkAccess != null ==> fresh(out.utilityNetworkAccess)
    {
      var keys := CopySlice(sshKeys);
      var args := CopySlice(kubeletArgs);
      var entries := CopyMap(labels);
      var copiedTaints := CopySlice(taints);
      var access: BoolBox? := null;
      if utilityNetworkAccess != null {
        access := new BoolBox(utilityNetworkAccess.value);
      }
      out := new NodeClassSpec.Shallow(this);
      out.sshKeys, out.kubeletArgs, out.labels, out.taints := keys, args, entries, copiedTaints;
      out.utilityNetworkAccess := access;
      assert out.Value() == Value();
    }

    /** The four `if len(...) == 0` statements, on a spec the caller owns. */
    method ClearEmpty()
      modifies this
      ensures Value() == DropEmpty(old(Value()))
      ensures storage == old(storage)
    {
      ghost var v := Value();
      if sshKeys != null && sshKeys.Length == 0 {
        sshKeys := null;
      }
      v := v.(sshKeys := DropEmptyList(v.sshKeys));
      assert Value() == v;
      if kubeletArgs != null && kubeletArgs.Length == 0 {
        kubeletArgs := null;
      }
      v := v.(kubeletArgs := DropEmptyList(v.kubeletArgs));
      assert Value() == v;
      if labels != null && |labels.entries| == 0 {
        labels := null;
      }
      v := v.(labels := if v.labels.Some? && |v.labels.value| == 0 then None else v.labels);
      assert Value() == v;
      if taints != null && taints.Length == 0 {
        taints := null;
      }
    }

    /**
     * Hash normalises a copy step by step and digests it. No `modifies`: the spec, and the Storage
     * object its copy aliases, are left as they were.
     */
    method Hash(h: Hasher) returns (digest: string)
      ensures digest == HashOf(h, Value())
    {
      var spec := DeepCopy();
      spec.ClearEmpty();
      digest := h.hex(h.record(Present(Leaves(h, spec.Value()))));
    }
  }

  method AllocSlice<T(0)>(value: Option<seq<T>>) returns (a: array?<T>)
    ensures a != null ==> fresh(a)
    ensures SliceValue(a) == value
  {
    if value.None? {
      return null;
    }
    var filled := new T[|value.value|](i requires 0 <= i < |value.value| => value.value[i]);
    assert filled[..] == value.value;
    a := filled;
  }

  /** A spec as decoded from the API: all of it newly allocated. */
  method Decode(v: SpecValue) returns (spec: NodeClassSpec)
    ensures fresh(spec) && spec.Value() == v
  {
    var storage: StorageSpec? := null;
    if v.storage.Some? {
      var encrypted: BoolBox? := null;
      if v.storage.value.encrypted.Some? {
        encrypted := new BoolBox(v.storage.value.encrypted.value);
      }
      storage := new StorageSpec(v.storage.value.size, v.storage.value.tier, encrypted);
    }
    var keys := AllocSlice(v.sshKeys);
    var args := AllocSlice(v.kubeletArgs);
    var labels: LabelMap? := null;
    if v.labels.Some? {
      labels := new LabelMap(v.labels.value);
    }
    var taints := AllocSlice(v.taints);
    var access: BoolBox? := null;
    if v.utilityNetworkAccess.Some? {
      access := new BoolBox(v.utilityNetworkAccess.value);
    }
    spec := new NodeClassSpec(v.zone, v.plan, storage, keys, args, labels, taints, v.serverGroupUUID, access);
  }
}
