/**
 * What the digest of a spec sees: exactly the spec's normal form. NodeClassSpecs proves that specs
 * with one normal form have one digest; here, specs with different normal forms are told apart by
 * some hashing library. The libraries used for that look for one value of each kind and count it.
 */
module HashDetection {
  import opened Prelude
  import opened NodeClassSpecs

  const WORDS := 0x1_0000_0000_0000_0000

  /** The value of each kind to look for. */
  datatype Sight = Sight(
    text: string, arg: KubeletArg, taint: Taint, labels: map<string, string>, storage: StorageValue, flag: bool)

  const NOTHING := Sight("", KubeletArg("", ""), Taint("", "", ""), map[], StorageValue(0, "", None), false)

  function Bit(b: bool): Word {
    if b then 1 else 0
  }

  function Plus(x: Word, y: Word): Word {
    (x + y) % WORDS
  }

  /** A library that finds the values in `s` and adds up what it finds in slices. */
  function Probe(s: Sight): Hasher {
    Hasher(t => Bit(t == s.text), a => Bit(a == s.arg), t => Bit(t == s.taint), m => Bit(m == s.labels),
           v => Bit(v == s.storage), b => Bit(b == s.flag), 0, Plus, f => 0, w => if w == 1 then "1" else "0")
  }

  lemma PlusLeftCommutes(a: Word, b: Word, c: Word)
    ensures Plus(a, Plus(b, c)) == Plus(b, Plus(a, c))
  {
  }

  lemma ProbeIsOrderFree(s: Sight)
    ensures OrderFree(Probe(s))
  {
    var h := Probe(s);
    forall a, b, c
      ensures h.join(a, h.join(b, c)) == h.join(b, h.join(a, c))
    {
      PlusLeftCommutes(a, b, c);
    }
  }

  /** A slice's digest counts the occurrences of the value looked for. */
  lemma {:induction false} SliceCounts<T>(h: Hasher, digest: T -> Word, x: T, list: seq<T>)
    requires h.unit == 0 && h.join == Plus && |list| < WORDS
    requires forall y :: digest(y) == if y == x then 1 else 0
    ensures SetDigest(h, digest, list) == multiset(list)[x]
  {
    if list != [] {
      SliceCounts(h, digest, x, list[1..]);
      assert list == [list[0]] + list[1..];
      CountBound(list, x);
    }
  }

  lemma {:induction false} CountBound<T>(list: seq<T>, x: T)
    ensures multiset(list)[x] <= |list|
  {
    if list != [] {
      CountBound(list[1..], x);
      assert list == [list[0]] + list[1..];
    }
  }

  /* ------------------------------------------------------- different fields, different digests */

  /** The same names in the same order, no name twice. */
  ghost predicate SameNames(a: seq<(string, Option<Word>)>, b: seq<(string, Option<Word>)>) {
    && |a| == |b| && (forall i :: 0 <= i < |a| ==> a[i].0 == b[i].0)
    && (forall i, j :: 0 <= i < j < |a| ==> a[i].0 != a[j].0)
  }

  lemma {:induction false} PresentNames(fields: seq<(string, Option<Word>)>, name: string)
    requires forall i :: 0 <= i < |fields| ==> fields[i].0 != name
    ensures forall i :: 0 <= i < |Present(fields)| ==> Present(fields)[i].0 != name
  {
    if fields != [] {
      PresentNames(fields[1..], name);
    }
  }

  /** The fields that are present, with their names, tell which ones they are. */
  lemma {:induction false} PresentInjective(a: seq<(string, Option<Word>)>, b: seq<(string, Option<Word>)>)
    requires SameNames(a, b) && Present(a) == Present(b)
    ensures a == b
  {
    if a != [] {
      PresentNames(a[1..], a[0].0);
      PresentNames(b[1..], b[0].0);
      PresentHead(a);
      PresentHead(b);
      if a[0].1.Some? {
        assert Present(a)[0].0 == a[0].0;
        assert Present(a)[1..] == Present(a[1..]);
      }
      if b[0].1.Some? {
        assert Present(b)[0].0 == a[0].0;
        assert Present(b)[1..] == Present(b[1..]);
      }
      PresentInjective(a[1..], b[1..]);
      assert a == [a[0]] + a[1..] && b == [b[0]] + b[1..];
    }
  }

  lemma PresentHead(a: seq<(string, Option<Word>)>)
    requires a != []
    ensures a[0].1.None? ==> Present(a) == Present(a[1..])
    ensures a[0].1.Some? ==> Present(a) == [(a[0].0, a[0].1.value)] + Present(a[1..])
  {
  }

  lemma {:induction false} SameSetDigest<T>(g: Hasher, h: Hasher, digest: T -> Word, list: seq<T>)
    requires g.unit == h.unit && g.join == h.join
    ensures SetDigest(g, digest, list) == SetDigest(h, digest, list)
  {
    if list != [] {
      SameSetDigest(g, h, digest, list[1..]);
    }
  }

  /** The fields' digests do not depend on how the record is hashed. */
  lemma LeavesIgnoreRecord(g: Hasher, h: Hasher, v: SpecValue)
    requires h == g.(record := h.record)
    ensures Leaves(h, v) == Leaves(g, v)
  {
    SameSetDigest(g, h, g.text, v.sshKeys.GetOr([]));
    SameSetDigest(g, h, g.arg, v.kubeletArgs.GetOr([]));
    SameSetDigest(g, h, g.taint, v.taints.GetOr([]));
  }

  lemma LeavesHaveSameNames(h: Hasher, a: SpecValue, b: SpecValue)
    ensures SameNames(Leaves(h, a), Leaves(h, b))
  {
    assert |"Zone"| == 4 && |"Plan"| == 4 && |"Storage"| == 7 && |"SSHKeys"| == 7 && |"KubeletArgs"| == 11;
    assert |"Labels"| == 6 && |"Taints"| == 6 && |"ServerGroupUUID"| == 15 && |"UtilityNetworkAccess"| == 20;
    assert "Zone"[0] != "Plan"[0] && "Storage"[1] != "SSHKeys"[1] && "Labels"[0] != "Taints"[0];
  }

  /** Two specs of which the library digests some field differently are told apart, by it or one that knows a record. */
  lemma ToldApart(g: Hasher, a: SpecValue, b: SpecValue)
    requires OrderFree(g) && g.hex(0) != g.hex(1)
    requires Leaves(g, DropEmpty(a)) != Leaves(g, DropEmpty(b))
    ensures exists h :: OrderFree(h) && HashOf(h, a) != HashOf(h, b)
  {
    var fields := Present(Leaves(g, DropEmpty(a)));
    var h := g.(record := f => Bit(f == fields));
    LeavesIgnoreRecord(g, h, DropEmpty(a));
    LeavesIgnoreRecord(g, h, DropEmpty(b));
    LeavesHaveSameNames(g, DropEmpty(a), DropEmpty(b));
    if Present(Leaves(g, DropEmpty(b))) == fields {
      PresentInjective(Leaves(g, DropEmpty(a)), Leaves(g, DropEmpty(b)));
    }
    assert OrderFree(h) && HashOf(h, a) != HashOf(h, b);
  }

  /* ------------------------------------------------------------------------ field by field */

  predicate Bounded(v: SpecValue) {
    |v.sshKeys.GetOr([])| < WORDS && |v.kubeletArgs.GetOr([])| < WORDS && |v.taints.GetOr([])| < WORDS
  }

  ghost predicate Distinguishable(a: SpecValue, b: SpecValue) {
    exists h :: OrderFree(h) && HashOf(h, a) != HashOf(h, b)
  }

  /** A probe digests this field of the two specs differently. */
  lemma FieldTells(s: Sight, a: SpecValue, b: SpecValue, i: nat)
    requires i < 9 && Leaves(Probe(s), DropEmpty(a))[i] != Leaves(Probe(s), DropEmpty(b))[i]
    ensures Distinguishable(a, b)
  {
    ProbeIsOrderFree(s);
    ToldApart(Probe(s), a, b);
  }

  lemma TextsTell(a: SpecValue, b: SpecValue)
    requires a.zone != b.zone || a.plan != b.plan || a.serverGroupUUID != b.serverGroupUUID
    ensures Distinguishable(a, b)
  {
    if a.zone != b.zone {
      FieldTells(NOTHING.(text := if a.zone == "" then b.zone else a.zone), a, b, 0);
    } else if a.plan != b.plan {
      FieldTells(NOTHING.(text := if a.plan == "" then b.plan else a.plan), a, b, 1);
    } else {
      FieldTells(NOTHING.(text := if a.serverGroupUUID == "" then b.serverGroupUUID else a.serverGroupUUID), a, b, 7);
    }
  }

  lemma StorageTells(a: SpecValue, b: SpecValue)
    requires a.storage != b.storage
    ensures Distinguishable(a, b)
  {
    FieldTells(NOTHING.(storage := (if a.storage.None? then b.storage else a.storage).value), a, b, 2);
  }

  lemma LabelsTell(a: SpecValue, b: SpecValue)
    requires a.labels.GetOr(map[]) != b.labels.GetOr(map[])
    ensures Distinguishable(a, b)
  {
    EmptyMap(a.labels.GetOr(map[]));
    EmptyMap(b.labels.GetOr(map[]));
    FieldTells(NOTHING.(labels := (if a.labels.GetOr(map[]) == map[] then b.labels else a.labels).value), a, b, 5);
  }

  lemma EmptyMap(m: map<string, string>)
    ensures |m| == 0 <==> m == map[]
  {
  }

  lemma FlagTells(a: SpecValue, b: SpecValue)
    requires a.utilityNetworkAccess != b.utilityNetworkAccess
    ensures Distinguishable(a, b)
  {
    var flag := (if a.utilityNetworkAccess.None? then b.utilityNetworkAccess else a.utilityNetworkAccess).value;
    FieldTells(NOTHING.(flag := flag), a, b, 8);
  }

  /** Two different multisets count some value differently. */
  lemma CountsDiffer<T>(a: seq<T>, b: seq<T>) returns (x: T)
    requires multiset(a) != multiset(b)
    ensures multiset(a)[x] != multiset(b)[x]
  {
    x :| multiset(a)[x] != multiset(b)[x];
  }

  lemma SshKeysTell(a: SpecValue, b: SpecValue)
    requires Bounded(a) && Bounded(b) && multiset(a.sshKeys.GetOr([])) != multiset(b.sshKeys.GetOr([]))
    ensures Distinguishable(a, b)
  {
    var x := CountsDiffer(a.sshKeys.GetOr([]), b.sshKeys.GetOr([]));
    var s := NOTHING.(text := x);
    SliceCounts(Probe(s), Probe(s).text, x, a.sshKeys.GetOr([]));
    SliceCounts(Probe(s), Probe(s).text, x, b.sshKeys.GetOr([]));
    FieldTells(s, a, b, 3);
  }

  lemma KubeletArgsTell(a: SpecValue, b: SpecValue)
    requires Bounded(a) && Bounded(b) && multiset(a.kubeletArgs.GetOr([])) != multiset(b.kubeletArgs.GetOr([]))
    ensures Distinguishable(a, b)
  {
    var x := CountsDiffer(a.kubeletArgs.GetOr([]), b.kubeletArgs.GetOr([]));
    var s := NOTHING.(arg := x);
    SliceCounts(Probe(s), Probe(s).arg, x, a.kubeletArgs.GetOr([]));
    SliceCounts(Probe(s), Probe(s).arg, x, b.kubeletArgs.GetOr([]));
    FieldTells(s, a, b, 4);
  }

  lemma TaintsTell(a: SpecValue, b: SpecValue)
    requires Bounded(a) && Bounded(b) && multiset(a.taints.GetOr([])) != multiset(b.taints.GetOr([]))
    ensures Distinguishable(a, b)
  {
    var x := CountsDiffer(a.taints.GetOr([]), b.taints.GetOr([]));
    var s := NOTHING.(taint := x);
    SliceCounts(Probe(s), Probe(s).taint, x, a.taints.GetOr([]));
    SliceCounts(Probe(s), Probe(s).taint, x, b.taints.GetOr([]));
    FieldTells(s, a, b, 6);
  }

  /**
   * The digest sees the normal form and nothing else: all hashing libraries agree on two specs exactly
   * when these have the same zone, plan, storage, SSH keys, kubelet arguments, labels, taints, server
   * group and utility network flag, up to the order of lists and absent or empty collections.
   */
  lemma DigestSeesNormalFormExactly(a: SpecValue, b: SpecValue)
    requires Bounded(a) && Bounded(b)
    ensures (forall h :: OrderFree(h) ==> HashOf(h, a) == HashOf(h, b))
       <==> && a.zone == b.zone && a.plan == b.plan && a.serverGroupUUID == b.serverGroupUUID
            && a.storage == b.storage && a.utilityNetworkAccess == b.utilityNetworkAccess
            && a.labels.GetOr(map[]) == b.labels.GetOr(map[])
            && multiset(a.sshKeys.GetOr([])) == multiset(b.sshKeys.GetOr([]))
            && multiset(a.kubeletArgs.GetOr([])) == multiset(b.kubeletArgs.GetOr([]))
            && multiset(a.taints.GetOr([])) == multiset(b.taints.GetOr([]))
  {
    if Normal(a) == Normal(b) {
      forall h | OrderFree(h)
        ensures HashOf(h, a) == HashOf(h, b)
      {
        HashRespectsNormalForm(h, a, b);
      }
    } else {
      DifferentNormalForms(a, b);
    }
  }

  lemma DifferentNormalForms(a: SpecValue, b: SpecValue)
    requires Bounded(a) && Bounded(b) && Normal(a) != Normal(b)
    ensures Distinguishable(a, b)
  {
    if a.zone != b.zone || a.plan != b.plan || a.serverGroupUUID != b.serverGroupUUID {
      TextsTell(a, b);
    } else if a.storage != b.storage {
      StorageTells(a, b);
    } else if a.labels.GetOr(map[]) != b.labels.GetOr(map[]) {
      LabelsTell(a, b);
    } else if a.utilityNetworkAccess != b.utilityNetworkAccess {
      FlagTells(a, b);
    } else if multiset(a.sshKeys.GetOr([])) != multiset(b.sshKeys.GetOr([])) {
      SshKeysTell(a, b);
    } else if multiset(a.kubeletArgs.GetOr([])) != multiset(b.kubeletArgs.GetOr([])) {
      KubeletArgsTell(a, b);
    } else {
      TaintsTell(a, b);
    }
  }
}
