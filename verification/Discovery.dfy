/**
 * Merging mDNS advertisements into one candidate per host. Advertisements of one host arrive interleaved
 * with those of others, and the merge depends only on each host's own sequence.
 */
module Discovery {
  import opened Common

  datatype ServiceType = ScpiRaw | Visa | Hislip | Lxi | Other

  /** An advertisement; `port` is None where the source would not find an integer. */
  datatype Service = Service(
    host: string,
    name: string,
    port: Option<int>,
    kind: string,
    addresses: seq<string>,
    txt: map<string, string>)

  const PREFERENCE: seq<ServiceType> := [ScpiRaw, Visa, Hislip, Lxi, Other]

  /** Where a `._tcp` suffix begins that runs to the end of the text without a line break. */
  function SuffixStart(s: string, i: nat): (r: nat)
    requires i <= |s|
    ensures i <= r <= |s|
    decreases |s| - i
  {
    if i == |s| then i
    else if "._tcp" <= s[i..] && '\n' !in s[i..] && '\r' !in s[i..] then i
    else SuffixStart(s, i + 1)
  }

  /** `_scpi-raw._tcp.local` and the like to a service type. */
  function Normalize(kind: string): ServiceType {
    var bare := if kind != "" && kind[0] == '_' then kind[1..] else kind;
    var clean := Lower(bare[..SuffixStart(bare, 0)]);
    if clean == "scpi-raw" then ScpiRaw
    else if clean == "visa" then Visa
    else if clean == "hislip" then Hislip
    else if clean == "lxi" then Lxi
    else Other
  }

  /** The leading underscore, the suffix with the domain, and case make no difference. */
  lemma DecorationIgnored(name: string, rest: string)
    requires name != "" && name[0] != '_' && '.' !in name && '\n' !in name && '\r' !in name
    requires '\n' !in rest && '\r' !in rest
    ensures Normalize("_" + name + "._tcp" + rest) == Normalize(name) == Normalize(Lower(name))
  {
    var bare := name + "._tcp" + rest;
    assert "_" + name + "._tcp" + rest == "_" + bare;
    SuffixAfter(name, rest, 0);
    NoSuffix(name, 0);
    NoSuffix(Lower(name), 0);
    assert bare[..|name|] == name[..|name|] == name;
    assert Lower(name)[..|name|] == Lower(name);
    assert Lower(Lower(name)) == Lower(name);
  }

  lemma SuffixAfter(name: string, rest: string, i: nat)
    requires i <= |name| && '.' !in name && '\n' !in rest && '\r' !in rest
    ensures SuffixStart(name + "._tcp" + rest, i) == |name|
    decreases |name| - i
  {
    var s := name + "._tcp" + rest;
    if i == |name| {
      assert s[i..] == "._tcp" + rest;
    } else {
      assert s[i..][0] == name[i] != '.';
      SuffixAfter(name, rest, i + 1);
    }
  }

  lemma NoSuffix(name: string, i: nat)
    requires i <= |name| && '.' !in name
    ensures SuffixStart(name, i) == |name|
    decreases |name| - i
  {
    if i == |name| {
    } else {
      assert name[i..][0] == name[i] != '.';
      NoSuffix(name, i + 1);
    }
  }

  /** What has been merged for one host. */
  datatype Entry = Entry(
    host: string,
    name: string,
    ports: map<ServiceType, int>,
    addresses: set<string>,
    txt: map<string, string>)

  datatype Candidate = Candidate(
    key: string,
    host: string,
    port: int,
    name: string,
    serviceTypes: seq<ServiceType>,
    addresses: set<string>,
    txt: map<string, string>)

  /** Names every object inherits; looking one up in the merged record finds something before it is set. */
  const INHERITED: set<string> := {
    "constructor", "hasOwnProperty", "isPrototypeOf", "propertyIsEnumerable", "toLocaleString", "toString",
    "valueOf", "__proto__", "__defineGetter__", "__defineSetter__", "__lookupGetter__", "__lookupSetter__" }

  predicate Usable(s: Service) {
    s.host != "" && s.port.Some?
  }

  function Key(s: Service): string {
    Lower(s.host)
  }

  function Blank(s: Service): Entry {
    Entry(s.host, s.name, map[], {}, map[])
  }

  /** The first port of a type and the first value of a TXT key stay; addresses accumulate. */
  function Absorb(e: Entry, s: Service): Entry
    requires Usable(s)
  {
    var t := Normalize(s.kind);
    e.(ports := if t in e.ports then e.ports else e.ports[t := s.port.value],
       addresses := e.addresses + (set a | a in s.addresses),
       txt := (s.txt - INHERITED) + e.txt)
  }

  /** The first pass of `dedupe`, one advertisement at a time. */
  function Collect(services: seq<Service>): map<string, Entry> {
    if services == [] then map[]
    else
      var last := services[|services| - 1];
      var m := Collect(services[..|services| - 1]);
      if !Usable(last) then m
      else m[Key(last) := Absorb(if Key(last) in m then m[Key(last)] else Blank(last), last)]
  }

  /** `pickPort`. */
  function PickPort(ports: map<ServiceType, int>, preference: seq<ServiceType>): Option<int> {
    if preference == [] then None
    else if preference[0] in ports then Some(ports[preference[0]])
    else PickPort(ports, preference[1..])
  }

  function Present(ports: map<ServiceType, int>, preference: seq<ServiceType>): seq<ServiceType> {
    if preference == [] then []
    else (if preference[0] in ports then [preference[0]] else []) + Present(ports, preference[1..])
  }

  function ToCandidate(key: string, e: Entry): Candidate {
    var port := PickPort(e.ports, PREFERENCE);
    Candidate(key, e.host, if port.Some? then port.value else 0, e.name, Present(e.ports, PREFERENCE),
              e.addresses, e.txt)
  }

  // ---------------------------------------------------------------------------
  // What a host's entry is, in terms of that host's advertisements alone
  // ---------------------------------------------------------------------------

  /** The advertisements of one host that count, in order. */
  function Own(services: seq<Service>, key: string): (r: seq<Service>)
    ensures forall s | s in r :: Usable(s) && Key(s) == key
  {
    if services == [] then []
    else
      var last := services[|services| - 1];
      Own(services[..|services| - 1], key) + (if Usable(last) && Key(last) == key then [last] else [])
  }

  /** The port of the first advertisement of type `t`. */
  function FirstPort(own: seq<Service>, t: ServiceType): Option<int> {
    if own == [] then None
    else if Normalize(own[0].kind) == t then own[0].port
    else FirstPort(own[1..], t)
  }

  /** The value the first advertisement that has TXT key `k` gives it. */
  function FirstTxt(own: seq<Service>, k: string): Option<string> {
    if own == [] then None
    else if k in own[0].txt then Some(own[0].txt[k])
    else FirstTxt(own[1..], k)
  }

  function Lookup<K, V>(m: map<K, V>, k: K): Option<V> {
    if k in m then Some(m[k]) else None
  }

  /** `e` is the merge of the advertisements `own`. */
  ghost predicate MergeOf(own: seq<Service>, e: Entry) {
    && own != [] && e.host == own[0].host && e.name == own[0].name
    && (forall t :: Lookup(e.ports, t) == FirstPort(own, t))
    && (forall a :: a in e.addresses <==> exists s :: s in own && a in s.addresses)
    && (forall k :: Lookup(e.txt, k) == if k in INHERITED then None else FirstTxt(own, k))
  }

  lemma FirstPortAfter(own: seq<Service>, s: Service, t: ServiceType)
    requires forall o | o in own :: Usable(o)
    ensures FirstPort(own + [s], t) ==
            if FirstPort(own, t).Some? then FirstPort(own, t) else if Normalize(s.kind) == t then s.port else None
  {
    hide Normalize;
    if own == [] {
    } else {
      assert Usable(own[0]);
      assert (own + [s])[1..] == own[1..] + [s];
      FirstPortAfter(own[1..], s, t);
    }
  }

  lemma FirstTxtAfter(own: seq<Service>, s: Service, k: string)
    ensures FirstTxt(own + [s], k) == if FirstTxt(own, k).Some? then FirstTxt(own, k) else Lookup(s.txt, k)
  {
    if own == [] {
    } else {
      assert (own + [s])[1..] == own[1..] + [s];
      FirstTxtAfter(own[1..], s, k);
    }
  }

  lemma AbsorbMerges(own: seq<Service>, e: Entry, s: Service)
    requires Usable(s) && forall o | o in own :: Usable(o)
    requires if own == [] then e == Blank(s) else MergeOf(own, e)
    ensures MergeOf(own + [s], Absorb(e, s))
  {
    hide INHERITED;
    hide Normalize;
    var n := Absorb(e, s);
    forall t ensures Lookup(n.ports, t) == FirstPort(own + [s], t) {
      FirstPortAfter(own, s, t);
      assert own != [] ==> Lookup(e.ports, t) == FirstPort(own, t);
    }
    forall k ensures Lookup(n.txt, k) == if k in INHERITED then None else FirstTxt(own + [s], k) {
      FirstTxtAfter(own, s, k);
      assert own != [] ==> Lookup(e.txt, k) == if k in INHERITED then None else FirstTxt(own, k);
    }
    forall a ensures a in n.addresses <==> exists o :: o in own + [s] && a in o.addresses {
      if a in n.addresses && a !in e.addresses {
        assert s in own + [s];
      }
      if a in e.addresses && own != [] {
        var o :| o in own && a in o.addresses;
        assert o in own + [s];
      }
    }
  }

  /**
   * The merge is local: a host has an entry if and only if it has a usable advertisement, and the entry is
   * the merge of its own advertisements, whatever came between them.
   */
  lemma CollectIsLocal(services: seq<Service>, key: string)
    ensures key in Collect(services) <==> Own(services, key) != []
    ensures key in Collect(services) ==> MergeOf(Own(services, key), Collect(services)[key])
  {
    hide MergeOf;
    hide Absorb;
    if services == [] {
    } else {
      var front, last := services[..|services| - 1], services[|services| - 1];
      CollectIsLocal(front, key);
      if Usable(last) && Key(last) == key {
        AbsorbMerges(Own(front, key), if key in Collect(front) then Collect(front)[key] else Blank(last), last);
        assert Own(services, key) == Own(front, key) + [last];
      } else {
        assert Own(services, key) == Own(front, key);
      }
    }
  }

  // ---------------------------------------------------------------------------
  // The result
  // ---------------------------------------------------------------------------

  function Rank(t: ServiceType): nat {
    match t
    case ScpiRaw => 0
    case Visa => 1
    case Hislip => 2
    case Lxi => 3
    case Other => 4
  }

  predicate InOrder(types: seq<ServiceType>) {
    forall i, j | 0 <= i < j < |types| :: Rank(types[i]) < Rank(types[j])
  }

  /**
   * `c` is the candidate of the host `key` whose advertisements are `own`: its types are exactly those
   * advertised, most preferred first; its port is the first one seen of the most preferred type; its
   * addresses are all those advertised; the rest is from the first advertisement that has it.
   */
  ghost predicate CandidateOf(key: string, own: seq<Service>, c: Candidate) {
    && own != [] && c.key == key && c.host == own[0].host && c.name == own[0].name
    && (forall t :: t in c.serviceTypes <==> FirstPort(own, t).Some?)
    && InOrder(c.serviceTypes)
    && c.serviceTypes != [] && FirstPort(own, c.serviceTypes[0]) == Some(c.port)
    && (forall a :: a in c.addresses <==> exists s :: s in own && a in s.addresses)
    && (forall k :: Lookup(c.txt, k) == if k in INHERITED then None else FirstTxt(own, k))
  }

  lemma PresentMembers(ports: map<ServiceType, int>, preference: seq<ServiceType>, t: ServiceType)
    ensures t in Present(ports, preference) <==> t in preference && t in ports
  {
    if preference == [] {
    } else {
      PresentMembers(ports, preference[1..], t);
      assert t in preference <==> t == preference[0] || t in preference[1..];
    }
  }

  lemma PresentOrdered(ports: map<ServiceType, int>, preference: seq<ServiceType>)
    requires InOrder(preference)
    ensures InOrder(Present(ports, preference))
  {
    if preference == [] {
    } else {
      PresentOrdered(ports, preference[1..]);
      var rest := Present(ports, preference[1..]);
      forall i | 0 <= i < |rest| ensures Rank(preference[0]) < Rank(rest[i]) {
        PresentMembers(ports, preference[1..], rest[i]);
        var k :| 1 <= k < |preference| && preference[k] == rest[i];
      }
    }
  }

  lemma PickIsFirstPresent(ports: map<ServiceType, int>, preference: seq<ServiceType>)
    ensures var p := Present(ports, preference);
            PickPort(ports, preference) ==
            if p == [] then None else if p[0] in ports then Some(ports[p[0]]) else None
  {
  }

  lemma EveryTypeRanked(t: ServiceType)
    ensures t in PREFERENCE
  {
    assert PREFERENCE[Rank(t)] == t;
  }

  lemma PresentInOrder(ports: map<ServiceType, int>)
    ensures var p := Present(ports, PREFERENCE);
            && (forall t :: t in p <==> t in ports)
            && InOrder(p)
            && PickPort(ports, PREFERENCE) == if p == [] then None else Some(ports[p[0]])
  {
    PresentOrdered(ports, PREFERENCE);
    PickIsFirstPresent(ports, PREFERENCE);
    forall t ensures t in Present(ports, PREFERENCE) <==> t in ports {
      PresentMembers(ports, PREFERENCE, t);
      EveryTypeRanked(t);
    }
  }

  lemma ToCandidateIsRight(key: string, own: seq<Service>, e: Entry)
    requires MergeOf(own, e) && Usable(own[0])
    ensures CandidateOf(key, own, ToCandidate(key, e))
  {
    hide INHERITED;
    hide Normalize;
    hide Present;
    hide PickPort;
    hide PREFERENCE;
    PresentInOrder(e.ports);
    var t := Normalize(own[0].kind);
    assert Lookup(e.ports, t) == FirstPort(own, t) == own[0].port;
  }

  /** A strict order on host names that tells any two apart. */
  ghost predicate StrictHostOrder(less: (string, string) -> bool) {
    && (forall a :: !less(a, a))
    && (forall a, b, c :: less(a, b) && less(b, c) ==> less(a, c))
    && (forall a, b :: a != b ==> less(a, b) || less(b, a))
  }

  ghost predicate HostsAscend(less: (string, string) -> bool, out: seq<Candidate>) {
    forall i, j | 0 <= i < j < |out| :: less(out[i].host, out[j].host)
  }

  ghost predicate Listed(out: seq<Candidate>, key: string) {
    exists i :: 0 <= i < |out| && out[i].key == key
  }

  /** `out` is the merge of `services`: one right candidate for each host heard from, in host order. */
  ghost predicate IsMerge(services: seq<Service>, less: (string, string) -> bool, out: seq<Candidate>) {
    && (forall i | 0 <= i < |out| :: CandidateOf(out[i].key, Own(services, out[i].key), out[i]))
    && (forall key :: Own(services, key) != [] ==> Listed(out, key))
    && HostsAscend(less, out)
  }

  lemma SortedUnique<T(!new)>(lt: (T, T) -> bool, x: seq<T>, y: seq<T>)
    requires (forall a :: !lt(a, a)) && (forall a, b, c :: lt(a, b) && lt(b, c) ==> lt(a, c))
    requires forall i, j | 0 <= i < j < |x| :: lt(x[i], x[j])
    requires forall i, j | 0 <= i < j < |y| :: lt(y[i], y[j])
    requires forall t :: t in x <==> t in y
    ensures x == y
  {
    assert y != [] ==> y[0] in y;
    if x == [] {
    } else {
      assert x[0] in y;
      assert y[0] in x;
      assert x[0] == y[0];
      forall t ensures t in x[1..] <==> t in y[1..] {
        assert t in x[1..] ==> t != x[0];
        assert t in y[1..] ==> t != y[0];
        assert t in x <==> t == x[0] || t in x[1..];
        assert t in y <==> t == y[0] || t in y[1..];
      }
      SortedUnique(lt, x[1..], y[1..]);
    }
  }

  lemma SameLookups<K, V>(m: map<K, V>, n: map<K, V>)
    requires forall k :: Lookup(m, k) == Lookup(n, k)
    ensures m == n
  {
    forall k ensures k in m <==> k in n {
      assert Lookup(m, k) == Lookup(n, k);
    }
    forall k | k in m ensures m[k] == n[k] {
      assert Lookup(m, k) == Lookup(n, k);
    }
  }

  /** A host's advertisements, in their order, decide its candidate. */
  lemma CandidateUnique(key: string, own: seq<Service>, c: Candidate, d: Candidate)
    requires CandidateOf(key, own, c) && CandidateOf(key, own, d)
    ensures c == d
  {
    hide INHERITED;
    SortedUnique((a: ServiceType, b: ServiceType) => Rank(a) < Rank(b), c.serviceTypes, d.serviceTypes);
    forall k ensures Lookup(c.txt, k) == Lookup(d.txt, k) {
    }
    SameLookups(c.txt, d.txt);
    assert c.addresses == d.addresses;
  }

  /**
   * Confluence: two arrival orders that keep each host's own order (and may differ in unusable
   * advertisements) have the same merge, and it has one candidate per host.
   */
  lemma MergeConfluence(a: seq<Service>, b: seq<Service>, less: (string, string) -> bool,
                        x: seq<Candidate>, y: seq<Candidate>)
    requires StrictHostOrder(less)
    requires forall key :: Own(a, key) == Own(b, key)
    requires IsMerge(a, less, x) && IsMerge(b, less, y)
    ensures x == y
    ensures forall i, j | 0 <= i < j < |x| :: x[i].key != x[j].key
  {
    hide CandidateOf;
    forall c ensures c in x <==> c in y {
      if c in x {
        SameCandidate(a, b, less, x, y, c);
      }
      if c in y {
        SameCandidate(b, a, less, y, x, c);
      }
    }
    var lt := (c: Candidate, d: Candidate) => less(c.host, d.host);
    assert forall c, d :: lt(c, d) <==> less(c.host, d.host);
    SortedUnique(lt, x, y);
    forall i, j | 0 <= i < j < |x| ensures x[i].key != x[j].key {
      assert less(x[i].host, x[j].host);
      if x[i].key == x[j].key {
        CandidateUnique(x[i].key, Own(a, x[i].key), x[i], x[j]);
      }
    }
  }

  lemma SameCandidate(a: seq<Service>, b: seq<Service>, less: (string, string) -> bool,
                      x: seq<Candidate>, y: seq<Candidate>, c: Candidate)
    requires forall key :: Own(a, key) == Own(b, key)
    requires IsMerge(a, less, x) && IsMerge(b, less, y) && c in x
    ensures c in y
  {
    assert CandidateOf(c.key, Own(a, c.key), c);
    assert Own(b, c.key) != [];
    assert Listed(y, c.key);
    var i :| 0 <= i < |y| && y[i].key == c.key;
    CandidateUnique(c.key, Own(a, c.key), c, y[i]);
  }

  // ---------------------------------------------------------------------------
  // The code
  // ---------------------------------------------------------------------------

  /** Stable insertion keeps the hosts in order. */
  function Insert(less: (string, string) -> bool, out: seq<Candidate>, c: Candidate): seq<Candidate> {
    if out == [] || !less(c.host, out[|out| - 1].host) then out + [c]
    else Insert(less, out[..|out| - 1], c) + [out[|out| - 1]]
  }

  lemma InsertAscends(less: (string, string) -> bool, out: seq<Candidate>, c: Candidate)
    requires StrictHostOrder(less) && HostsAscend(less, out) && forall d | d in out :: d.host != c.host
    ensures HostsAscend(less, Insert(less, out, c))
    ensures forall d :: d in Insert(less, out, c) <==> d in out || d == c
  {
    hide HostsAscend, StrictHostOrder;
    if out == [] {
      OneAscends(less, c);
      assert out + [c] == [c];
    } else {
      var front, last := out[..|out| - 1], out[|out| - 1];
      assert out == front + [last] && last in out;
      FrontAscends(less, front, last);
      if less(c.host, last.host) {
        InsertAscends(less, front, c);
        LastAscends(less, Insert(less, front, c), last);
      } else {
        AfterLast(less, front, last, c);
        LastAscends(less, out, c);
      }
    }
  }

  lemma OneAscends(less: (string, string) -> bool, c: Candidate)
    ensures HostsAscend(less, [c])
  {
  }

  lemma FrontAscends(less: (string, string) -> bool, front: seq<Candidate>, last: Candidate)
    requires HostsAscend(less, front + [last])
    ensures HostsAscend(less, front) && forall d | d in front :: less(d.host, last.host)
  {
    var all := front + [last];
    assert forall i | 0 <= i < |front| :: all[i] == front[i];
    assert all[|front|] == last;
  }

  lemma AfterLast(less: (string, string) -> bool, front: seq<Candidate>, last: Candidate, c: Candidate)
    requires StrictHostOrder(less) && c.host != last.host && !less(c.host, last.host)
    requires forall d | d in front :: less(d.host, last.host)
    ensures forall d | d in front + [last] :: less(d.host, c.host)
  {
  }

  lemma LastAscends(less: (string, string) -> bool, out: seq<Candidate>, last: Candidate)
    requires HostsAscend(less, out) && forall d | d in out :: less(d.host, last.host)
    ensures HostsAscend(less, out + [last])
  {
  }

  lemma InsertLists(less: (string, string) -> bool, out: seq<Candidate>, c: Candidate, key: string)
    requires Listed(out, key) || c.key == key
    ensures Listed(Insert(less, out, c), key)
  {
    var r := Insert(less, out, c);
    if out == [] || !less(c.host, out[|out| - 1].host) {
      assert r[|out|] == c;
      assert forall i | 0 <= i < |out| :: r[i] == out[i];
    } else {
      var front, last := out[..|out| - 1], out[|out| - 1];
      assert r[|r| - 1] == last;
      if last.key != key {
        assert Listed(out, key) ==> Listed(front, key) by {
          if Listed(out, key) {
            var i :| 0 <= i < |out| && out[i].key == key;
            assert front[i] == out[i];
          }
        }
        InsertLists(less, front, c, key);
        var i :| 0 <= i < |r| - 1 && Insert(less, front, c)[i].key == key;
        assert r[i].key == key;
      }
    }
  }

  lemma HostHasKey(services: seq<Service>, c: Candidate)
    requires CandidateOf(c.key, Own(services, c.key), c)
    ensures Lower(c.host) == c.key
  {
    assert Own(services, c.key)[0] in Own(services, c.key);
  }

  /** Values for keys that are not there yet, inherited names included. */
  method MergeTxt(into: map<string, string>, from: map<string, string>) returns (txt: map<string, string>)
    ensures txt == (from - INHERITED) + into
  {
    hide INHERITED;
    txt := into;
    var keys := from.Keys;
    while keys != {}
      invariant keys <= from.Keys
      invariant forall k :: k in txt <==> k in into || (k in from && k !in keys && k !in INHERITED)
      invariant forall k | k in txt :: txt[k] == if k in into then into[k] else from[k]
    {
      var k :| k in keys;
      if k !in INHERITED && k !in txt {
        txt := txt[k := from[k]];
      }
      keys := keys - {k};
    }
    assert txt == (from - INHERITED) + into;
  }

  /** The body of the merging loop: one advertisement goes into the entry of its host. */
  method Merge(entry: Entry, svc: Service) returns (e: Entry)
    requires Usable(svc)
    ensures e == Absorb(entry, svc)
  {
    hide Normalize;
    hide INHERITED;
    var kind := Normalize(svc.kind);
    var ports := entry.ports;
    if kind !in ports {
      ports := ports[kind := svc.port.value];
    }
    var addresses := entry.addresses;
    for j := 0 to |svc.addresses|
      invariant addresses == entry.addresses + set a | a in svc.addresses[..j]
    {
      addresses := addresses + {svc.addresses[j]};
    }
    var txt := MergeTxt(entry.txt, svc.txt);
    e := entry.(ports := ports, addresses := addresses, txt := txt);
  }

  method Dedupe(services: seq<Service>, less: (string, string) -> bool) returns (out: seq<Candidate>)
    requires StrictHostOrder(less)
    ensures IsMerge(services, less, out)
  {
    var byHost: map<string, Entry> := map[];
    for i := 0 to |services|
      invariant byHost == Collect(services[..i])
    {
      assert services[..i + 1][..i] == services[..i];
      var svc := services[i];
      if svc.host == "" || svc.port.None? {
        continue;
      }
      var key := Lower(svc.host);
      var entry := if key in byHost then byHost[key] else Blank(svc);
      entry := Merge(entry, svc);
      byHost := byHost[key := entry];
    }
    assert services[..|services|] == services;
    out := SortedCandidates(services, byHost, less);
  }

  /** The second pass: a candidate for each entry, sorted by host. */
  method SortedCandidates(services: seq<Service>, byHost: map<string, Entry>, less: (string, string) -> bool)
    returns (out: seq<Candidate>)
    requires StrictHostOrder(less) && byHost == Collect(services)
    ensures IsMerge(services, less, out)
  {
    hide CandidateOf;
    hide Collect;
    hide StrictHostOrder;
    hide Listed;
    hide Insert;
    out := [];
    var keys := byHost.Keys;
    while keys != {}
      invariant keys <= byHost.Keys && HostsAscend(less, out)
      invariant forall c | c in out :: c.key in byHost && c.key !in keys && CandidateOf(c.key, Own(services, c.key), c)
      invariant forall key | key in byHost && key !in keys :: Listed(out, key)
    {
      var key :| key in keys;
      var c := ToCandidate(key, byHost[key]);
      CollectIsLocal(services, key);
      ToCandidateIsRight(key, Own(services, key), byHost[key]);
      HostHasKey(services, c);
      forall d | d in out ensures d.host != c.host {
        HostHasKey(services, d);
      }
      InsertAscends(less, out, c);
      forall k | k in byHost && (k == key || k !in keys) ensures Listed(Insert(less, out, c), k) {
        InsertLists(less, out, c, k);
      }
      out := Insert(less, out, c);
      keys := keys - {key};
    }
    forall key | Own(services, key) != [] ensures Listed(out, key) {
      CollectIsLocal(services, key);
    }
  }
}

/** `browse` calls chain promises: each scan waits for the one before it, and a failed one must not fail the next. */
module BrowseChain {
  import opened Common

  /**
   * Where a promise comes from: `Promise.resolve()`, a scan that waits for another promise, or a promise
   * that takes any outcome of a scan for a success.
   */
  datatype Source = Resolved | Scan(after: nat) | Swallow(after: nat)

  datatype State = Pending | Running | Fulfilled | Rejected

  datatype Promise = Promise(source: Source, state: State)

  /** All promises made so far, the one `#browseChain` holds, and the scans begun, in the order they began. */
  datatype Service = Service(promises: seq<Promise>, chain: nat, started: seq<nat>)

  function Initial(): Service {
    Service([Promise(Resolved, Fulfilled)], 0, [])
  }

  /** `browse`: the scan is chained to the promise held, and its own swallowing promise takes that one's place. */
  function AddScan(s: Service): Service {
    var n := |s.promises|;
    s.(promises := s.promises + [Promise(Scan(s.chain), Pending), Promise(Swallow(n), Pending)], chain := n + 1)
  }

  predicate Settled(p: Promise) {
    p.state.Fulfilled? || p.state.Rejected?
  }

  datatype Event = Called | Reacts(promise: nat) | Ends(promise: nat, ok: bool)

  predicate Enabled(s: Service, e: Event) {
    match e
    case Called => true
    case Reacts(p) =>
      && p < |s.promises| && s.promises[p].state.Pending? && !s.promises[p].source.Resolved?
      && s.promises[p].source.after < |s.promises| && Settled(s.promises[s.promises[p].source.after])
    case Ends(p, _) => p < |s.promises| && s.promises[p].state.Running?
  }

  function Settle(s: Service, p: nat, state: State): Service
    requires p < |s.promises|
  {
    s.(promises := s.promises[p := s.promises[p].(state := state)])
  }

  /** A scan begins when the promise it waits for is fulfilled; if that one fails, it fails without beginning. */
  function Step(s: Service, e: Event): Service
    requires Enabled(s, e)
  {
    match e
    case Called => AddScan(s)
    case Reacts(p) =>
      (match s.promises[p].source
       case Scan(after) =>
         if s.promises[after].state.Rejected? then Settle(s, p, Rejected)
         else Settle(s, p, Running).(started := s.started + [p])
       case _ => Settle(s, p, Fulfilled))
    case Ends(p, ok) => Settle(s, p, if ok then Fulfilled else Rejected)
  }

  class DiscoveryService {
    var promises: seq<Promise>
    var browseChain: nat
    var started: seq<nat>

    ghost function View(): Service
      reads this
    {
      Service(promises, browseChain, started)
    }

    constructor ()
      ensures View() == Initial()
    {
      promises, browseChain, started := [Promise(Resolved, Fulfilled)], 0, [];
    }

    method Browse() returns (result: nat)
      modifies this
      ensures View() == AddScan(old(View())) && result == |old(promises)|
    {
      result := |promises|;
      promises := promises + [Promise(Scan(browseChain), Pending)];
      promises := promises + [Promise(Swallow(result), Pending)];
      browseChain := result + 1;
    }
  }

  /** Promise number `i` waits for the one before it: scans at the odd places, what swallows them between. */
  predicate Linked(p: Promise, i: nat) {
    if i == 0 then p == Promise(Resolved, Fulfilled)
    else if i % 2 == 1 then p.source == Scan(i - 1)
    else p.source == Swallow(i - 1) && !p.state.Running? && !p.state.Rejected?
  }

  predicate Chained(s: Service) {
    && |s.promises| % 2 == 1 && s.chain == |s.promises| - 1
    && forall i | 0 <= i < |s.promises| :: Linked(s.promises[i], i)
  }

  /** The promises before the front have settled and those behind it wait. */
  predicate Fronted(promises: seq<Promise>, front: nat) {
    && 0 < front <= |promises|
    && (forall i | 0 <= i < front :: Settled(promises[i]))
    && (forall i | front < i < |promises| :: promises[i].state.Pending?)
    && (front < |promises| ==> !Settled(promises[front]))
  }

  /** The scans before the front have begun, in call order, and so has the one at it if it runs. */
  predicate Begun(s: Service, front: nat) {
    && |s.started| == front / 2 + (if front < |s.promises| && s.promises[front].state.Running? then 1 else 0)
    && forall i | 0 <= i < |s.started| :: s.started[i] == 2 * i + 1
  }

  ghost predicate Valid(s: Service) {
    Chained(s) && exists front: nat :: Fronted(s.promises, front) && Begun(s, front)
  }

  /** Whatever goes on goes on at the front. */
  lemma AtTheFront(s: Service, e: Event, front: nat)
    requires Chained(s) && Fronted(s.promises, front) && Enabled(s, e) && !e.Called?
    ensures e.promise == front && front < |s.promises|
    ensures s.promises[front].source.Scan? ==>
              front % 2 == 1 && !s.promises[s.promises[front].source.after].state.Rejected?
    ensures !s.promises[front].source.Scan? ==> front % 2 == 0 && s.promises[front].state.Pending?
  {
    var p := e.promise;
    assert Linked(s.promises[p], p) && (p > 0 ==> Linked(s.promises[p - 1], p - 1));
  }

  lemma SettleLinks(s: Service, n: Service, p: nat, state: State)
    requires Chained(s) && 0 < p < |s.promises| && (s.promises[p].source.Scan? || state.Fulfilled?)
    requires n.promises == Settle(s, p, state).promises && n.chain == s.chain
    ensures Chained(n)
  {
    assert Linked(s.promises[p], p);
  }

  lemma AddScanValid(s: Service, front: nat)
    requires Chained(s) && Fronted(s.promises, front) && Begun(s, front)
    ensures Chained(AddScan(s)) && Fronted(AddScan(s).promises, front) && Begun(AddScan(s), front)
  {
  }

  lemma StepValid(s: Service, e: Event)
    requires Valid(s) && Enabled(s, e)
    ensures Valid(Step(s, e))
  {
    hide Linked, Chained, Fronted, Begun;
    var front: nat :| Fronted(s.promises, front) && Begun(s, front);
    if e.Called? {
      AddScanValid(s, front);
      assert Fronted(Step(s, e).promises, front) && Begun(Step(s, e), front);
    } else {
      FrontMoves(s, e, front);
    }
  }

  lemma FrontMoves(s: Service, e: Event, front: nat)
    requires Chained(s) && Fronted(s.promises, front) && Begun(s, front) && Enabled(s, e) && !e.Called?
    ensures Valid(Step(s, e))
  {
    hide Linked, Chained;
    AtTheFront(s, e, front);
    var n := Step(s, e);
    SettleLinks(s, n, front, n.promises[front].state);
    var next := if n.promises[front].state.Running? then front else front + 1;
    assert Fronted(n.promises, next);
    assert Begun(n, next);
  }

  ghost predicate Legal(trace: Trace<Event>)
    decreases trace, 0
  {
    trace.Then? ==> Legal(trace.before) && Enabled(Run(trace.before), trace.event)
  }

  ghost function Run(trace: Trace<Event>): (s: Service)
    requires Legal(trace)
    ensures Valid(s)
    decreases trace, 1
  {
    match trace
    case Start =>
      assert Fronted(Initial().promises, 1) && Begun(Initial(), 1);
      Initial()
    case Then(before, event) =>
      StepValid(Run(before), event);
      Step(Run(before), event)
  }

  /**
   * In every run, whichever scans fail: a scan begins only when every scan called for before it has settled,
   * so at most one runs; scans begin in call order; and none settles without having run.
   */
  lemma OneScanAtATime(trace: Trace<Event>, i: nat, j: nat)
    requires Legal(trace) && i < j < |Run(trace).promises|
    requires Run(trace).promises[i].source.Scan? && Run(trace).promises[j].source.Scan?
    ensures var s := Run(trace);
            && (!s.promises[j].state.Pending? ==> Settled(s.promises[i]))
            && (Settled(s.promises[i]) ==> i in s.started)
            && (forall a, b :: 0 <= a < b < |s.started| ==> s.started[a] < s.started[b])
  {
    var s := Run(trace);
    var front: nat :| Fronted(s.promises, front) && Begun(s, front);
    hide Fronted, Chained, Legal, Run;
    OneAtATime(s, i, j, front);
  }

  lemma OneAtATime(s: Service, i: nat, j: nat, front: nat)
    requires Chained(s) && Fronted(s.promises, front) && Begun(s, front) && i < j < |s.promises|
    requires s.promises[i].source.Scan? && s.promises[j].source.Scan?
    ensures !s.promises[j].state.Pending? ==> Settled(s.promises[i])
    ensures Settled(s.promises[i]) ==> i in s.started
    ensures forall a, b :: 0 <= a < b < |s.started| ==> s.started[a] < s.started[b]
  {
    assert Linked(s.promises[i], i);
    if Settled(s.promises[i]) {
      assert s.started[i / 2] == i;
    }
  }

  /** The caller learns how its own scan ended; the promise that holds up the next scan is never rejected. */
  lemma OnlyCallersSeeFailures(trace: Trace<Event>, p: nat, ok: bool, i: nat)
    requires Legal(trace) && Enabled(Run(trace), Ends(p, ok)) && i < |Run(trace).promises|
    ensures Step(Run(trace), Ends(p, ok)).promises[p].state == if ok then Fulfilled else Rejected
    ensures !Run(trace).promises[i].source.Scan? ==> !Run(trace).promises[i].state.Rejected?
  {
    assert Linked(Run(trace).promises[i], i);
  }

  /** And while a scan has not settled, something can go on: the one that runs, or the next promise in the chain. */
  lemma ScansGoOn(trace: Trace<Event>, i: nat)
    requires Legal(trace) && i < |Run(trace).promises| && !Settled(Run(trace).promises[i])
    ensures exists p: nat :: Enabled(Run(trace), Reacts(p)) || Enabled(Run(trace), Ends(p, true))
  {
    var s := Run(trace);
    var front: nat :| Fronted(s.promises, front) && Begun(s, front);
    assert Linked(s.promises[front], front);
    assert Enabled(s, Reacts(front)) || Enabled(s, Ends(front, true));
  }
}
