/** The server lifecycle provider: building the create request, and telling managed servers apart. */
module InstanceProvider {
  import opened Prelude
  import opened NodeClassSpecs

  const MANAGED_KEY := "managed_by"
  const MANAGED_VALUE := "karpenter"
  const CLUSTER_ID_KEY := "capu_cluster_id"
  const CLUSTER_NAME_KEY := "capu_cluster_name"
  const GENERATED_NAME_KEY := "capu_generated_name"

  datatype Label = Label(key: string, value: string)

  /** The root disk; zero values and None are fields left out of the request. */
  datatype Device = Device(action: string, template: string, title: string, size: int, tier: string,
                           encrypted: Option<bool>)

  /** A network interface with one address of the given family. */
  datatype Interface = Interface(kind: string, network: string, family: string)

  datatype CreateRequest = CreateRequest(
    labels: seq<Label>, zone: string, hostname: string, title: string, plan: string, serverGroup: string,
    devices: seq<Device>, interfaces: seq<Interface>, userData: string, metadata: bool)

  /** One interface of each kind; only the private one names a network. */
  function Interfaces(networkUUID: string): seq<Interface> {
    [Interface("private", networkUUID, "IPv4"), Interface("utility", "", "IPv4"), Interface("public", "", "IPv4")]
  }

  datatype Server = Server(uuid: string, labels: seq<Label>)

  predicate Managed(labels: seq<Label>) {
    exists i :: 0 <= i < |labels| && labels[i] == Label(MANAGED_KEY, MANAGED_VALUE)
  }

  /** The user's labels with the four managed markers on top. */
  function Marked(labels: map<string, string>, clusterID: string, clusterName: string, hostname: string)
    : map<string, string>
  {
    labels[MANAGED_KEY := MANAGED_VALUE][CLUSTER_ID_KEY := clusterID]
          [CLUSTER_NAME_KEY := clusterName][GENERATED_NAME_KEY := hostname]
  }

  /** The four markers, by name; every other label is the user's. */
  lemma MarkedExactly(labels: map<string, string>, clusterID: string, clusterName: string, hostname: string, k: string)
    ensures var m := Marked(labels, clusterID, clusterName, hostname);
            && (k in m <==> k in labels
                            || k in {"managed_by", "capu_cluster_id", "capu_cluster_name", "capu_generated_name"})
            && (k in m ==>
                  m[k] == if k == "managed_by" then "karpenter"
                          else if k == "capu_cluster_id" then clusterID
                          else if k == "capu_cluster_name" then clusterName
                          else if k == "capu_generated_name" then hostname
                          else labels[k])
  {
    assert |MANAGED_KEY| == 10 && |CLUSTER_ID_KEY| == 15 && |CLUSTER_NAME_KEY| == 17 && |GENERATED_NAME_KEY| == 19;
  }

  /** The disk is cloned from the template; of the class's storage, what is set is asked for. */
  lemma DeviceExactly(template: string, hostname: string, storage: Option<StorageValue>)
    ensures var d := DeviceFor(template, hostname, storage);
            && d.action == "clone" && d.template == template && d.title == hostname + "-root"
            && (storage.None? ==> d.size == 0 && d.tier == "" && d.encrypted == None)
            && (storage.Some? && storage.value.size > 0 ==> d.size == storage.value.size)
            && (storage.Some? && storage.value.size <= 0 ==> d.size == 0)
            && (storage.Some? ==> d.tier == storage.value.tier && d.encrypted == storage.value.encrypted)
  {
  }

  /** `labels` holds exactly the entries of `m`, each once. */
  ghost predicate Lists(labels: seq<Label>, m: map<string, string>) {
    && (forall i :: 0 <= i < |labels| ==> labels[i].key in m && m[labels[i].key] == labels[i].value)
    && (forall i, j :: 0 <= i < j < |labels| ==> labels[i].key != labels[j].key)
    && (forall k :: k in m ==> exists i :: 0 <= i < |labels| && labels[i].key == k)
  }

  lemma ListsSnoc(labels: seq<Label>, m: map<string, string>, l: Label)
    requires Lists(labels, m) && l.key !in m
    ensures Lists(labels + [l], m[l.key := l.value])
  {
    var longer := labels + [l];
    forall k: string | k in m || k == l.key
      ensures exists i :: 0 <= i < |longer| && longer[i].key == k
    {
      if k == l.key {
        assert longer[|labels|].key == k;
      } else {
        var i :| 0 <= i < |labels| && labels[i].key == k;
        assert longer[i].key == k;
      }
    }
  }

  /** Whatever a user labels a node class with, a server created for it is recognised as managed. */
  lemma MarkedIsManaged(labels: seq<Label>, user: map<string, string>, clusterID: string, clusterName: string,
                        hostname: string)
    requires Lists(labels, Marked(user, clusterID, clusterName, hostname))
    ensures Managed(labels)
  {
    var m := Marked(user, clusterID, clusterName, hostname);
    assert MANAGED_KEY != CLUSTER_ID_KEY && MANAGED_KEY != CLUSTER_NAME_KEY && MANAGED_KEY != GENERATED_NAME_KEY by {
      assert |MANAGED_KEY| == 10 && |CLUSTER_ID_KEY| == 15 && |CLUSTER_NAME_KEY| == 17 && |GENERATED_NAME_KEY| == 19;
    }
    assert MANAGED_KEY in m && m[MANAGED_KEY] == MANAGED_VALUE;
    var i :| 0 <= i < |labels| && labels[i].key == MANAGED_KEY;
    assert labels[i] == Label(MANAGED_KEY, MANAGED_VALUE);
  }

  function DeviceFor(template: string, hostname: string, storage: Option<StorageValue>): Device {
    Device("clone", template, hostname + "-root",
           if storage.Some? && storage.value.size > 0 then storage.value.size else 0,
           if storage.Some? then storage.value.tier else "",
           if storage.Some? then storage.value.encrypted else None)
  }

  class Provider {
    const templateUUID: string
    const networkUUID: string
    const clusterID: string
    const clusterName: string

    constructor (templateUUID: string, networkUUID: string, clusterID: string, clusterName: string)
      ensures this.templateUUID == templateUUID && this.networkUUID == networkUUID
      ensures this.clusterID == clusterID && this.clusterName == clusterName
    {
      this.templateUUID, this.networkUUID := templateUUID, networkUUID;
      this.clusterID, this.clusterName := clusterID, clusterName;
    }

    /**
     * Build the create request. The managed markers are written into the map that was handed in
     * (or a new one), and the label list is then filled in Go's arbitrary map order.
     */
    method Create(hostname: string, plan: string, zone: string, userData: string, serverGroup: string,
                  labels: LabelMap?, storage: StorageSpec?)
      returns (request: CreateRequest)
      modifies labels
      ensures labels != null ==> labels.entries == Marked(old(labels.entries), clusterID, clusterName, hostname)
      ensures Lists(request.labels,
                    Marked(if labels == null then map[] else old(labels.entries), clusterID, clusterName, hostname))
      ensures Managed(request.labels)
      ensures request.devices == [DeviceFor(templateUUID, hostname, old(StorageOf(storage)))]
      ensures request.interfaces == Interfaces(networkUUID) && request.metadata
      ensures |request.interfaces| == 3 && request.interfaces[0] == Interface("private", networkUUID, "IPv4")
      ensures request.interfaces[1] == Interface("utility", "", "IPv4")
      ensures request.interfaces[2] == Interface("public", "", "IPv4")
      ensures request.zone == zone && request.hostname == request.title == hostname && request.plan == plan
      ensures request.serverGroup == serverGroup && request.userData == userData
    {
      ghost var user := if labels == null then map[] else labels.entries;
      var device := Device("clone", templateUUID, hostname + "-root", 0, "", None);
      if storage != null {
        if storage.size > 0 {
          device := device.(size := storage.size);
        }
        if storage.tier != "" {
          device := device.(tier := storage.tier);
        }
        if storage.encrypted != null {
          device := device.(encrypted := Some(storage.encrypted.value));
        }
      }
      var target: LabelMap;
      if labels == null {
        target := new LabelMap(map[]);
      } else {
        target := labels;
      }
      target.entries := target.entries[MANAGED_KEY := MANAGED_VALUE];
      target.entries := target.entries[CLUSTER_ID_KEY := clusterID];
      target.entries := target.entries[CLUSTER_NAME_KEY := clusterName];
      target.entries := target.entries[GENERATED_NAME_KEY := hostname];
      var labelSlice := LabelSlice(target.entries);
      MarkedIsManaged(labelSlice, user, clusterID, clusterName, hostname);
      request := CreateRequest(labelSlice, zone, hostname, hostname, plan, serverGroup, [device],
                               [Interface("private", networkUUID, "IPv4"), Interface("utility", "", "IPv4"),
                                Interface("public", "", "IPv4")],
                               userData, true);
    }

    method LabelSlice(entries: map<string, string>) returns (labels: seq<Label>)
      ensures Lists(labels, entries)
    {
      labels := [];
      ghost var done: map<string, string> := map[];
      var todo := entries.Keys;
      while todo != {}
        invariant todo <= entries.Keys
        invariant done == map k | k in entries && k !in todo :: entries[k]
        invariant Lists(labels, done)
        decreases |todo|
      {
        var k :| k in todo;
        ListsSnoc(labels, done, Label(k, entries[k]));
        done := done[k := entries[k]];
        labels := labels + [Label(k, entries[k])];
        todo := todo - {k};
      }
      assert done == entries;
    }

    method IsManaged(server: Server) returns (managed: bool)
      ensures managed <==> Managed(server.labels)
    {
      var i := 0;
      while i < |server.labels|
        invariant 0 <= i <= |server.labels|
        invariant forall j :: 0 <= j < i ==> server.labels[j] != Label(MANAGED_KEY, MANAGED_VALUE)
      {
        if server.labels[i].key == MANAGED_KEY && server.labels[i].value == MANAGED_VALUE {
          return true;
        }
        i := i + 1;
      }
      managed := false;
    }

    /**
     * All managed servers whose details could be read, in listing order. `servers` is the answer to
     * the listing call, `details` that to each detail call.
     */
    method List(servers: Result<seq<string>>, details: string -> Result<Server>) returns (result: Result<seq<Server>>)
      ensures result.Err? <==> servers.Err?
      ensures result.Ok? ==> result.value == ManagedAmong(servers.value, details)
    {
      if servers.Err? {
        return Err("listing servers: " + servers.message);
      }
      var listed := servers.value;
      var found: seq<Server> := [];
      var i := 0;
      while i < |listed|
        invariant 0 <= i <= |listed|
        invariant found + ManagedAmong(listed[i..], details) == ManagedAmong(listed, details)
      {
        assert listed[i..][1..] == listed[i + 1..];
        var answer := details(listed[i]);
        i := i + 1;
        if answer.Err? {
          continue;
        }
        var managed := IsManaged(answer.value);
        if managed {
          found := found + [answer.value];
        }
      }
      result := Ok(found);
    }
  }

  ghost function ManagedAmong(uuids: seq<string>, details: string -> Result<Server>): seq<Server> {
    if uuids == [] then []
    else
      var first := details(uuids[0]);
      (if first.Ok? && Managed(first.value.labels) then [first.value] else []) + ManagedAmong(uuids[1..], details)
  }

  /** In listing order: what is listed first comes first. */
  lemma {:induction false} ManagedAmongAppend(a: seq<string>, b: seq<string>, details: string -> Result<Server>)
    ensures ManagedAmong(a + b, details) == ManagedAmong(a, details) + ManagedAmong(b, details)
  {
    if a == [] {
      assert [] + b == b;
    } else {
      ManagedAmongAppend(a[1..], b, details);
      assert (a + b)[1..] == a[1..] + b && (a + b)[0] == a[0];
    }
  }

  /** What List returns is all managed, and misses no managed server that was listed and could be read. */
  lemma {:induction false} ManagedAmongExact(uuids: seq<string>, details: string -> Result<Server>, s: Server)
    ensures s in ManagedAmong(uuids, details) <==> Managed(s.labels) && exists id :: id in uuids && details(id) == Ok(s)
  {
    if uuids != [] {
      ManagedAmongExact(uuids[1..], details, s);
      assert forall id :: id in uuids <==> id == uuids[0] || id in uuids[1..];
    }
  }
}
