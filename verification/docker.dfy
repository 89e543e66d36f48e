/** `Docker.container_record`: the flat record describing one container instance of a
    workload type on a host — its name, image, host and, per port interface, the
    container port and the host port it is published on. */
module Docker {
  import opened Results
  import opened Values
  import Decimal
  import Cloud

  /** One port interface of an image: the container port, the host port if one is
      given, and the `no_range` flag as configured (any value; only `true` counts). */
  datatype PortOpts = PortOpts(cport: int, hport: Option<int>, noRange: Value)

  predicate UniqueNames(ports: seq<(string, PortOpts)>) {
    forall i, j | 0 <= i < j < |ports| :: ports[i].0 != ports[j].0
  }

  /** The `ports` hash of an image: interface name to options, in declaration order;
      being a hash, it names each interface once. */
  type PortTable = ports: seq<(string, PortOpts)> | UniqueNames(ports)

  /** The image options `container_record` reads: the image name and the optional
      `ports` hash. */
  datatype ImageOpts = ImageOpts(name: string, ports: Option<PortTable>)

  /** The host port before the per-instance offset: `hport`, or `cport` when unset. */
  function BasePort(po: PortOpts): int {
    po.hport.GetOr(po.cport)
  }

  /** Ranging is on unless `no_range` is exactly `true`. */
  predicate Ranged(po: PortOpts) {
    po.noRange != Bool(true)
  }

  /** The host port instance `inst` publishes the interface on. */
  function HostPort(po: PortOpts, inst: int): int {
    if Ranged(po) then BasePort(po) + inst else BasePort(po)
  }

  /** Offset law: the host port of instance `inst` lies `inst` above that of instance 0
      when ranging is on, and all instances share the base port when it is off. */
  lemma OffsetLaw(po: PortOpts, inst: int)
    ensures HostPort(po, 0) == BasePort(po)
    ensures Ranged(po) ==> HostPort(po, inst) - HostPort(po, 0) == inst
    ensures !Ranged(po) ==> HostPort(po, inst) == BasePort(po)
  {
  }

  /** Distinct instances of a ranged interface never share a host port. */
  lemma RangedPortsDoNotCollide(po: PortOpts, i: int, j: int)
    requires Ranged(po) && i != j
    ensures HostPort(po, i) != HostPort(po, j)
  {
  }

  /** The record key `port_{name}_c` (side 'c') or `port_{name}_h` (side 'h'). */
  function PortKey(ifName: string, side: char): string {
    "port_" + ifName + "_" + [side]
  }

  lemma PortKeyInjective(a: string, x: char, b: string, y: char)
    ensures PortKey(a, x) == PortKey(b, y) ==> a == b && x == y
  {
    if PortKey(a, x) == PortKey(b, y) {
      var k := PortKey(a, x);
      assert |a| == |b|;
      assert a == k[5..5 + |a|];
      assert b == k[5..5 + |b|];
      assert x == k[|k| - 1] == y;
    }
  }

  /** The port keys of some interfaces. */
  function PortKeys(ports: seq<(string, PortOpts)>): set<string> {
    if |ports| == 0 then {}
    else PortKeys(ports[..|ports| - 1])
         + {PortKey(ports[|ports| - 1].0, 'c'), PortKey(ports[|ports| - 1].0, 'h')}
  }

  lemma PortKeysMember(ports: seq<(string, PortOpts)>, i: nat)
    requires i < |ports|
    ensures PortKey(ports[i].0, 'c') in PortKeys(ports)
    ensures PortKey(ports[i].0, 'h') in PortKeys(ports)
  {
    if i < |ports| - 1 {
      PortKeysMember(ports[..|ports| - 1], i);
    }
  }

  /** The keys of the last interface differ from each other and from those of every
      earlier interface. */
  lemma LastKeysAreFresh(ports: seq<(string, PortOpts)>)
    requires |ports| > 0 && UniqueNames(ports)
    ensures var last := ports[|ports| - 1].0;
            && PortKey(last, 'c') != PortKey(last, 'h')
            && forall i | 0 <= i < |ports| - 1 ::
                 && PortKey(ports[i].0, 'c') != PortKey(last, 'c')
                 && PortKey(ports[i].0, 'c') != PortKey(last, 'h')
                 && PortKey(ports[i].0, 'h') != PortKey(last, 'c')
                 && PortKey(ports[i].0, 'h') != PortKey(last, 'h')
  {
    var last := ports[|ports| - 1].0;
    PortKeyInjective(last, 'c', last, 'h');
    forall i | 0 <= i < |ports| - 1
      ensures PortKey(ports[i].0, 'c') != PortKey(last, 'c')
      ensures PortKey(ports[i].0, 'c') != PortKey(last, 'h')
      ensures PortKey(ports[i].0, 'h') != PortKey(last, 'c')
      ensures PortKey(ports[i].0, 'h') != PortKey(last, 'h')
    {
      PortKeyInjective(ports[i].0, 'c', last, 'c');
      PortKeyInjective(ports[i].0, 'c', last, 'h');
      PortKeyInjective(ports[i].0, 'h', last, 'c');
      PortKeyInjective(ports[i].0, 'h', last, 'h');
    }
  }

  /** The `port_*` entries the loop over the interfaces writes: the container port
      unchanged under `_c`, the effective host port under `_h`, both in decimal. */
  function PortFields(ports: seq<(string, PortOpts)>, inst: int): (f: Fields)
    ensures f.Keys == PortKeys(ports)
    decreases |ports|
  {
    if |ports| == 0 then map[]
    else
      var n := |ports| - 1;
      PortFields(ports[..n], inst)
        [PortKey(ports[n].0, 'c') := Str(Decimal.Show(ports[n].1.cport))]
        [PortKey(ports[n].0, 'h') := Str(Decimal.Show(HostPort(ports[n].1, inst)))]
  }

  /** Each interface's entries hold its container port and its host port; later
      interfaces do not overwrite them, because interface names are unique. */
  lemma {:induction false} PortFieldsAt(ports: seq<(string, PortOpts)>, inst: int, i: nat)
    requires UniqueNames(ports) && i < |ports|
    ensures PortKey(ports[i].0, 'c') in PortFields(ports, inst)
    ensures PortKey(ports[i].0, 'h') in PortFields(ports, inst)
    ensures PortFields(ports, inst)[PortKey(ports[i].0, 'c')] == Str(Decimal.Show(ports[i].1.cport))
    ensures PortFields(ports, inst)[PortKey(ports[i].0, 'h')] == Str(Decimal.Show(HostPort(ports[i].1, inst)))
    decreases |ports|
  {
    var n := |ports| - 1;
    if i < n {
      var prefix := ports[..n];
      assert prefix[i] == ports[i];
      assert UniqueNames(prefix) by {
        assert forall a | 0 <= a < n :: prefix[a] == ports[a];
      }
      PortFieldsAt(prefix, inst, i);
      LastKeysAreFresh(ports);
    } else {
      PortKeyInjective(ports[n].0, 'c', ports[n].0, 'h');
    }
  }

  /** The container name, `app_key.type.instance`. */
  function InstanceName(appKey: string, type_: string, inst: int): string {
    appKey + "." + type_ + "." + Decimal.Show(inst)
  }

  /** The last position of `c` in `s`, if any. */
  function LastIndexOf(s: string, c: char): (r: Option<nat>)
    ensures r.Some? ==> r.value < |s| && s[r.value] == c
    ensures r.Some? ==> forall k | r.value < k < |s| :: s[k] != c
    ensures r.None? ==> forall k | 0 <= k < |s| :: s[k] != c
  {
    if |s| == 0 then None
    else if s[|s| - 1] == c then Some(|s| - 1)
    else LastIndexOf(s[..|s| - 1], c)
  }

  /** Reads a container name back into app key, type and instance number, splitting at
      its last two dots. */
  function ParseInstanceName(name: string): Option<(string, string, int)> {
    match LastIndexOf(name, '.')
    case None => None
    case Some(j) =>
      var front := name[..j];
      match LastIndexOf(front, '.')
      case None => None
      case Some(k) =>
        match Decimal.Parse(name[j + 1..])
        case None => None
        case Some(n) => Some((front[..k], front[k + 1..], n))
  }

  lemma LastIndexOfIs(s: string, c: char, p: nat)
    requires p < |s| && s[p] == c
    requires forall k | p < k < |s| :: s[k] != c
    ensures LastIndexOf(s, c) == Some(p)
  {
  }

  /** The name determines the app key, type and instance it was built from, provided the
      type contains no dot (the app key may). */
  lemma InstanceNameParses(appKey: string, type_: string, inst: int)
    requires forall k | 0 <= k < |type_| :: type_[k] != '.'
    ensures ParseInstanceName(InstanceName(appKey, type_, inst)) == Some((appKey, type_, inst))
  {
    var digits := Decimal.Show(inst);
    var front := appKey + "." + type_;
    var name := InstanceName(appKey, type_, inst);
    assert name == front + "." + digits;
    var j := |front|;
    assert name[j] == '.';
    assert forall k | j < k < |name| :: name[k] == digits[k - j - 1];
    LastIndexOfIs(name, '.', j);
    assert name[..j] == front;
    assert name[j + 1..] == digits;
    LastIndexOfIs(front, '.', |appKey|);
    assert front[..|appKey|] == appKey;
    assert front[|appKey| + 1..] == type_;
    Decimal.ParseShow(inst);
  }

  /** The names of the interfaces, in declaration order. */
  function InterfaceNames(ports: seq<(string, PortOpts)>): (names: seq<Value>)
    ensures |names| == |ports|
    ensures forall i | 0 <= i < |ports| :: names[i] == Str(ports[i].0)
  {
    seq(|ports|, i requires 0 <= i < |ports| => Str(ports[i].0))
  }

  /** The keys every record has. */
  const RecordKeys: set<string> := {"name", "image", "instance", "host", "host_ip", "ports"}

  lemma PortKeysAreNotRecordKeys(ports: seq<(string, PortOpts)>)
    ensures PortKeys(ports) !! RecordKeys
  {
    if |ports| > 0 {
      PortKeysAreNotRecordKeys(ports[..|ports| - 1]);
      var name := ports[|ports| - 1].0;
      forall s | s in {'c', 'h'}
        ensures PortKey(name, s) !in RecordKeys
      {
        var k := PortKey(name, s);
        assert |k| >= 7 && k[0] == 'p';
      }
    }
  }

  /** `Docker.container_record` for instance `inst` of workload `type_` with image
      options `img`, placed on `host`. */
  function ContainerRecord(appKey: string, type_: string, img: ImageOpts, inst: int, host: Cloud.Element): (cr: Fields)
    ensures cr.Keys == RecordKeys + (match img.ports case None => {} case Some(ps) => PortKeys(ps))
    ensures cr["name"] == Str(appKey + "." + type_ + "." + Decimal.Show(inst))
    ensures cr["image"] == Str(img.name + ":latest")
    ensures cr["instance"] == Int(inst)
    ensures cr["host"] == Cloud.Get(host, "name")
    ensures cr["host_ip"] == Cloud.InternalIp(host)
    ensures img.ports.None? ==> cr["ports"] == List([])
    ensures img.ports.Some? ==>
              && cr["ports"].List? && |cr["ports"].items| == |img.ports.value|
              && forall i | 0 <= i < |img.ports.value| :: cr["ports"].items[i] == Str(img.ports.value[i].0)
    ensures img.ports.Some? ==>
              forall k | k in PortKeys(img.ports.value) :: cr[k] == PortFields(img.ports.value, inst)[k]
  {
    var base := map[
      "name" := Str(InstanceName(appKey, type_, inst)),
      "image" := Str(img.name + ":latest"),
      "instance" := Int(inst),
      "host" := Cloud.Get(host, "name"),
      "host_ip" := Cloud.InternalIp(host),
      "ports" := List(match img.ports case None => [] case Some(ps) => InterfaceNames(ps))];
    match img.ports
    case None => base
    case Some(ps) =>
      var ports := PortFields(ps, inst);
      PortKeysAreNotRecordKeys(ps);
      DisjointUnion(base, ports);
      base + ports
  }

  /** Each interface of the image has its container port under `port_{name}_c` and the
      host port of this instance under `port_{name}_h`. */
  lemma RecordPorts(appKey: string, type_: string, img: ImageOpts, inst: int, host: Cloud.Element, i: nat)
    requires img.ports.Some? && i < |img.ports.value|
    ensures var cr, (name, po) := ContainerRecord(appKey, type_, img, inst, host), img.ports.value[i];
            && PortKey(name, 'c') in cr && PortKey(name, 'h') in cr
            && cr[PortKey(name, 'c')] == Str(Decimal.Show(po.cport))
            && cr[PortKey(name, 'h')] == Str(Decimal.Show(HostPort(po, inst)))
  {
    PortFieldsAt(img.ports.value, inst, i);
  }

  /** A union of maps with disjoint keys keeps every entry of both. */
  lemma DisjointUnion(a: Fields, b: Fields)
    requires a.Keys !! b.Keys
    ensures (a + b).Keys == a.Keys + b.Keys
    ensures forall k | k in a :: (a + b)[k] == a[k]
    ensures forall k | k in b :: (a + b)[k] == b[k]
  {
  }

  /** Two instances of the same type on any hosts publish a ranged interface on
      different host ports, so they do not collide. */
  lemma RecordHostPortsDiffer(appKey: string, type_: string, img: ImageOpts, i: int, j: int,
                              h1: Cloud.Element, h2: Cloud.Element, k: nat)
    requires img.ports.Some? && k < |img.ports.value|
    requires Ranged(img.ports.value[k].1) && i != j
    ensures var key := PortKey(img.ports.value[k].0, 'h');
            var r1, r2 := ContainerRecord(appKey, type_, img, i, h1), ContainerRecord(appKey, type_, img, j, h2);
            key in r1 && key in r2 && r1[key] != r2[key]
  {
    var po := img.ports.value[k].1;
    RecordPorts(appKey, type_, img, i, h1, k);
    RecordPorts(appKey, type_, img, j, h2, k);
    Decimal.ShowInjective(HostPort(po, i), HostPort(po, j));
  }

  /** Container port 8080 with no host port, ranging on, instance 3: published on 8083. */
  lemma PublishedPortExample(host: Cloud.Element)
    ensures var img := ImageOpts("web", Some([("http", PortOpts(8080, None, Nil))]));
            var cr := ContainerRecord("app", "web", img, 3, host);
            && PortKey("http", 'h') in cr && cr[PortKey("http", 'h')] == Str("8083")
            && PortKey("http", 'c') in cr && cr[PortKey("http", 'c')] == Str("8080")
            && cr["name"] == Str("app.web.3")
  {
    var po := PortOpts(8080, None, Nil);
    var img := ImageOpts("web", Some([("http", po)]));
    assert HostPort(po, 3) == 8083;
    ShowExample();
    RecordPorts("app", "web", img, 3, host, 0);
    ExampleName();
  }

  lemma ExampleName()
    ensures "app" + "." + "web" + "." + Decimal.Show(3) == "app.web.3"
  {
    ShowExample();
  }

  lemma ShowExample()
    ensures Decimal.Show(8083) == "8083" && Decimal.Show(8080) == "8080" && Decimal.Show(3) == "3"
  {
    assert Decimal.ShowNat(8) == "8";
    assert Decimal.ShowNat(80) == "80";
    assert Decimal.ShowNat(808) == "808";
    assert Decimal.ShowNat(8083) == "8083";
    assert Decimal.ShowNat(8080) == "8080";
  }
}
