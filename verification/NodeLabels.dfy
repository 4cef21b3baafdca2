/** serializeLabels: the sorted `key=value` list handed to the kubelet, and reading it back. */
module NodeLabels {
  import opened Prelude
  import opened Lines

  /* ------------------------------------------------------------------------ byte order */

  predicate Less(a: string, b: string) {
    b != "" && (a == "" || a[0] < b[0] || (a[0] == b[0] && Less(a[1..], b[1..])))
  }

  /** Byte order, as Go compares strings: by the first byte that differs, and a proper prefix comes first. */
  lemma {:induction false} LessExactly(a: string, b: string)
    ensures Less(a, b) <==> exists i: nat :: FirstDifference(a, b, i) && i < |b| && (i < |a| ==> a[i] < b[i])
  {
    if a != "" && b != "" && a[0] == b[0] {
      LessExactly(a[1..], b[1..]);
      if i: nat :| FirstDifference(a, b, i) && i < |b| && (i < |a| ==> a[i] < b[i]) {
        assert i > 0 ==> FirstDifference(a[1..], b[1..], i - 1);
      }
      if i: nat :| FirstDifference(a[1..], b[1..], i) && i < |b| - 1 && (i < |a| - 1 ==> a[1..][i] < b[1..][i]) {
        assert FirstDifference(a, b, i + 1);
      }
    } else {
      assert FirstDifference(a, b, 0);
    }
  }

  /** Up to position `i` the texts agree, and there they differ or one ends. */
  ghost predicate FirstDifference(a: string, b: string, i: nat) {
    && i <= |a| && i <= |b| && (forall k :: 0 <= k < i ==> a[k] == b[k])
    && (i < |a| && i < |b| ==> a[i] != b[i])
  }

  lemma {:induction false} LessTotal(a: string, b: string)
    ensures Less(a, b) || a == b || Less(b, a)
    ensures !(Less(a, b) && Less(b, a)) && !Less(a, a)
    decreases |a|
  {
    if a != "" && b != "" {
      LessTotal(a[1..], b[1..]);
      LessTotal(a[1..], a[1..]);
      if a[0] == b[0] && a[1..] == b[1..] {
        assert a == [a[0]] + a[1..] && b == [b[0]] + b[1..];
      }
    } else if a != "" {
      LessTotal(a[1..], a[1..]);
    }
  }

  lemma {:induction false} LessTransitive(a: string, b: string, c: string)
    requires Less(a, b) && Less(b, c)
    ensures Less(a, c)
    decreases |a|
  {
    if a != "" && a[0] == b[0] && b[0] == c[0] {
      LessTransitive(a[1..], b[1..], c[1..]);
    }
  }

  ghost predicate Sorted(keys: seq<string>) {
    forall i, j :: 0 <= i < j < |keys| ==> Less(keys[i], keys[j])
  }

  /** `keys` is the set, in increasing order. */
  ghost predicate SortedKeys(keys: seq<string>, all: set<string>) {
    Sorted(keys) && forall k :: k in keys <==> k in all
  }

  /** There is only one such sequence, so the map's enumeration order cannot show. */
  lemma {:induction false} SortedKeysUnique(a: seq<string>, b: seq<string>, all: set<string>)
    requires SortedKeys(a, all) && SortedKeys(b, all)
    ensures a == b
    decreases |a| + |b|, a == []
  {
    if a != [] {
      assert a[0] in b && b[0] in b;
      SameFirst(a, b);
      TailKeys(a, all);
      TailKeys(b, all);
      SortedKeysUnique(a[1..], b[1..], all - {a[0]});
      assert a == [a[0]] + a[1..] && b == [b[0]] + b[1..];
    } else if b != [] {
      SortedKeysUnique(b, a, all);
    }
  }

  lemma SameFirst(a: seq<string>, b: seq<string>)
    requires Sorted(a) && Sorted(b) && a != [] && b != [] && a[0] in b && b[0] in a
    ensures a[0] == b[0]
  {
    var i :| 0 <= i < |b| && b[i] == a[0];
    var j :| 0 <= j < |a| && a[j] == b[0];
    LessTotal(a[0], b[0]);
  }

  lemma TailKeys(a: seq<string>, all: set<string>)
    requires SortedKeys(a, all) && a != []
    ensures SortedKeys(a[1..], all - {a[0]})
  {
    forall k | k in a[1..]
      ensures k in all && k != a[0]
    {
      var i :| 0 <= i < |a[1..]| && a[1..][i] == k;
      assert a[i + 1] == k;
      LessTotal(a[0], a[0]);
    }
    forall k | k in all && k != a[0]
      ensures k in a[1..]
    {
      var i :| 0 <= i < |a| && a[i] == k;
      assert a[1..][i - 1] == k;
    }
  }

  /* ------------------------------------------------------------------------- the text */

  function Entry(labels: map<string, string>, k: string): string {
    k + "=" + Lookup(labels, k)
  }

  function Entries(labels: map<string, string>, keys: seq<string>): seq<string> {
    seq(|keys|, i requires 0 <= i < |keys| => Entry(labels, keys[i]))
  }

  /** What the kubelet is given. */
  ghost predicate Serialized(labels: map<string, string>, s: string) {
    exists keys :: SortedKeys(keys, labels.Keys) && s == Join(Entries(labels, keys), ',')
  }

  lemma SerializedUnique(labels: map<string, string>, s: string, t: string)
    requires Serialized(labels, s) && Serialized(labels, t)
    ensures s == t
  {
    var a :| SortedKeys(a, labels.Keys) && s == Join(Entries(labels, a), ',');
    var b :| SortedKeys(b, labels.Keys) && t == Join(Entries(labels, b), ',');
    SortedKeysUnique(a, b, labels.Keys);
  }

  /** sort.Strings on distinct keys, by insertion. */
  method SortStrings(keys: seq<string>) returns (sorted: seq<string>)
    requires forall i, j :: 0 <= i < j < |keys| ==> keys[i] != keys[j]
    ensures Sorted(sorted) && forall k :: k in sorted <==> k in keys
  {
    sorted := [];
    var i := 0;
    while i < |keys|
      invariant 0 <= i <= |keys| && Sorted(sorted)
      invariant forall k :: k in sorted <==> k in keys[..i]
    {
      assert keys[i] !in keys[..i];
      sorted := Insert(sorted, keys[i]);
      assert keys[..i + 1] == keys[..i] + [keys[i]];
      i := i + 1;
    }
    assert keys[..i] == keys;
  }

  method Insert(sorted: seq<string>, key: string) returns (longer: seq<string>)
    requires Sorted(sorted) && key !in sorted
    ensures Sorted(longer) && forall k :: k in longer <==> k in sorted || k == key
  {
    var p := 0;
    while p < |sorted| && Less(sorted[p], key)
      invariant 0 <= p <= |sorted|
      invariant forall j :: 0 <= j < p ==> Less(sorted[j], key)
    {
      p := p + 1;
    }
    longer := sorted[..p] + [key] + sorted[p..];
    forall j | p <= j < |sorted|
      ensures Less(key, sorted[j])
    {
      LessTotal(sorted[p], key);
      if j > p {
        LessTransitive(key, sorted[p], sorted[j]);
      }
    }
    assert forall k :: k in longer <==> k in sorted[..p] || k == key || k in sorted[p..];
    assert forall k :: k in sorted <==> k in sorted[..p] || k in sorted[p..] by {
      assert sorted == sorted[..p] + sorted[p..];
    }
  }

  /** The keys of the map, in whatever order Go enumerates them. */
  method CollectKeys(labels: map<string, string>) returns (keys: seq<string>)
    ensures forall i, j :: 0 <= i < j < |keys| ==> keys[i] != keys[j]
    ensures forall k :: k in keys <==> k in labels
  {
    keys := [];
    var todo := labels.Keys;
    while todo != {}
      invariant todo <= labels.Keys
      invariant forall k :: k in keys <==> k in labels.Keys - todo
      invariant forall i, j :: 0 <= i < j < |keys| ==> keys[i] != keys[j]
      decreases |todo|
    {
      var k :| k in todo;
      assert k !in keys;
      keys := keys + [k];
      todo := todo - {k};
    }
  }

  method SerializeLabels(labels: map<string, string>) returns (s: string)
    ensures Serialized(labels, s)
  {
    if |labels| == 0 {
      assert labels.Keys == {} && SortedKeys([], labels.Keys) && Entries(labels, []) == [];
      return "";
    }
    var unsorted := CollectKeys(labels);
    var keys := SortStrings(unsorted);
    var parts: seq<string> := [];
    var i := 0;
    while i < |keys|
      invariant 0 <= i == |parts| <= |keys|
      invariant forall j :: 0 <= j < i ==> parts[j] == Entry(labels, keys[j])
    {
      parts := parts + [keys[i] + "=" + Lookup(labels, keys[i])];
      i := i + 1;
    }
    assert parts == Entries(labels, keys);
    s := Join(parts, ',');
  }

  /* --------------------------------------------------------------------- reading it back */

  /** Cut at the first '='. */
  function Cut(entry: string): Option<(string, string)> {
    if entry == "" then None
    else if entry[0] == '=' then Some(("", entry[1..]))
    else
      var rest := Cut(entry[1..]);
      if rest.None? then None else Some(([entry[0]] + rest.value.0, rest.value.1))
  }

  function ParseEntries(entries: seq<string>): Option<map<string, string>> {
    if entries == [] then Some(map[])
    else
      var earlier := ParseEntries(entries[..|entries| - 1]);
      var last := Cut(entries[|entries| - 1]);
      if earlier.None? || last.None? then None else Some(earlier.value[last.value.0 := last.value.1])
  }

  /**
   * Splitting at ',' and then at the first '='. (The kubelet does this, too, and trims blanks around
   * keys and values, which is not modelled.)
   */
  function Parse(s: string): Option<map<string, string>> {
    if s == "" then Some(map[]) else ParseEntries(Split(s, ','))
  }

  predicate Separable(labels: map<string, string>) {
    forall k :: k in labels ==> ',' !in k && '=' !in k && ',' !in labels[k]
  }

  lemma {:induction false} CutEntry(k: string, v: string)
    requires '=' !in k
    ensures Cut(k + "=" + v) == Some((k, v))
  {
    if k == "" {
      assert ("" + "=" + v)[1..] == v;
    } else {
      CutEntry(k[1..], v);
      assert (k + "=" + v)[1..] == k[1..] + "=" + v;
      assert k == [k[0]] + k[1..];
    }
  }

  /** A key read back has no '=' and, cut from an entry without ',', neither part has one. */
  lemma {:induction false} CutParts(entry: string)
    requires Cut(entry).Some?
    ensures var (k, v) := Cut(entry).value; '=' !in k && entry == k + "=" + v
  {
    if entry[0] != '=' {
      CutParts(entry[1..]);
      var (k, v) := Cut(entry[1..]).value;
      assert entry == [entry[0]] + entry[1..];
      assert [entry[0]] + (k + "=" + v) == ([entry[0]] + k) + "=" + v;
    } else {
      assert entry == "" + "=" + entry[1..];
    }
  }

  lemma {:induction false} ParseEntriesOf(labels: map<string, string>, keys: seq<string>)
    requires Separable(labels) && forall k :: k in keys ==> k in labels
    ensures ParseEntries(Entries(labels, keys)) == Some(map k | k in labels && k in keys :: labels[k])
    decreases |keys|
  {
    if keys != [] {
      var last := |keys| - 1;
      ParseEntriesOf(labels, keys[..last]);
      assert Entries(labels, keys)[..last] == Entries(labels, keys[..last]);
      CutEntry(keys[last], labels[keys[last]]);
      assert keys == keys[..last] + [keys[last]];
      var before := map k | k in labels && k in keys[..last] :: labels[k];
      assert before[keys[last] := labels[keys[last]]] == map k | k in labels && k in keys :: labels[k];
    }
  }

  /** Whatever is read back has separable keys and values. */
  lemma {:induction false} ParsedIsSeparable(entries: seq<string>)
    requires ParseEntries(entries).Some? && forall i :: 0 <= i < |entries| ==> ',' !in entries[i]
    ensures Separable(ParseEntries(entries).value)
    decreases |entries|
  {
    if entries != [] {
      var last := entries[|entries| - 1];
      ParsedIsSeparable(entries[..|entries| - 1]);
      CutParts(last);
      var (k, v) := Cut(last).value;
      assert forall c :: c in k || c in v ==> c in last;
    }
  }

  /** The labels come back exactly when no key contains ',' or '=' and no value contains ','. */
  lemma LabelsRoundTripExactly(labels: map<string, string>, s: string)
    requires Serialized(labels, s)
    ensures Parse(s) == Some(labels) <==> Separable(labels)
  {
    var keys :| SortedKeys(keys, labels.Keys) && s == Join(Entries(labels, keys), ',');
    if Separable(labels) {
      var entries := Entries(labels, keys);
      ParseEntriesOf(labels, keys);
      assert (map k | k in labels && k in keys :: labels[k]) == labels;
      if keys == [] {
        assert s == "" && labels == map[];
      } else {
        EntriesHaveNoComma(labels, keys);
        SplitJoin(entries, ',');
        JoinNotEmpty(entries);
      }
    }
    if Parse(s) == Some(labels) && s != "" {
      JoinSplit(s, ',');
      ParsedIsSeparable(Split(s, ','));
    }
  }

  lemma EntriesHaveNoComma(labels: map<string, string>, keys: seq<string>)
    requires Separable(labels) && forall k :: k in keys ==> k in labels
    ensures forall i :: 0 <= i < |Entries(labels, keys)| ==> ',' !in Entries(labels, keys)[i]
  {
    forall i | 0 <= i < |keys|
      ensures ',' !in Entries(labels, keys)[i]
    {
      assert keys[i] in labels;
    }
  }

  lemma JoinNotEmpty(parts: seq<string>)
    requires parts != [] && parts[0] != ""
    ensures Join(parts, ',') != ""
  {
  }
}
