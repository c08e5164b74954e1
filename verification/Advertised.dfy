/** What a merged candidate says, read off the advertisements themselves, in the order they arrived. */
module Advertised {
  import opened Common
  import opened Discovery

  /** Which type a service name stands for: four names are known, in any case, and all else is other. */
  lemma TypesByName(name: string)
    requires (name != "" ==> name[0] != '_') && '.' !in name
    ensures Lower(name) == "scpi-raw" ==> Normalize(name) == ScpiRaw
    ensures Lower(name) == "visa" ==> Normalize(name) == Visa
    ensures Lower(name) == "hislip" ==> Normalize(name) == Hislip
    ensures Lower(name) == "lxi" ==> Normalize(name) == Lxi
    ensures Lower(name) !in {"scpi-raw", "visa", "hislip", "lxi"} ==> Normalize(name) == Other
  {
    NoSuffix(name, 0);
    assert name[..|name|] == name;
  }

  /** An advertisement of this host that counts: it has a host name, and a port. */
  predicate OfHost(s: Service, key: string) {
    s.host != "" && s.port.Some? && Lower(s.host) == key
  }

  /** It is the first of the advertisements to satisfy the test. */
  ghost predicate FirstOf(services: seq<Service>, test: Service -> bool, i: int) {
    0 <= i < |services| && test(services[i]) && forall j :: 0 <= j < i ==> !test(services[j])
  }

  ghost predicate NoneOf(services: seq<Service>, test: Service -> bool) {
    forall j :: 0 <= j < |services| ==> !test(services[j])
  }

  /** One more advertisement: the first stays the first, and if there was none the new one may be. */
  lemma FirstStays(front: seq<Service>, last: Service, test: Service -> bool)
    ensures forall i :: FirstOf(front, test, i) ==> FirstOf(front + [last], test, i)
    ensures NoneOf(front, test) && test(last) ==> FirstOf(front + [last], test, |front|)
    ensures NoneOf(front, test) && !test(last) ==> NoneOf(front + [last], test)
  {
  }

  /** A host has all of its advertisements that count, and no others. */
  lemma {:induction false} OwnAreAll(services: seq<Service>, key: string, s: Service)
    ensures s in Own(services, key) <==> s in services && OfHost(s, key)
  {
    if services == [] {
    } else {
      var front, last := services[..|services| - 1], services[|services| - 1];
      assert services == front + [last];
      OwnAreAll(front, key, s);
    }
  }

  /** The host's name, and the name shown, are those of its first advertisement that counts. */
  lemma {:induction false} HostIsFirst(services: seq<Service>, key: string)
    ensures var own := Own(services, key);
            var test := s => OfHost(s, key);
            if own == [] then NoneOf(services, test)
            else exists i :: FirstOf(services, test, i) && services[i] == own[0]
  {
    var test := s => OfHost(s, key);
    if services == [] {
    } else {
      var front, last := services[..|services| - 1], services[|services| - 1];
      assert services == front + [last];
      HostIsFirst(front, key);
      FirstStays(front, last, test);
      if Own(front, key) != [] {
        var i :| FirstOf(front, test, i) && front[i] == Own(front, key)[0];
        assert FirstOf(services, test, i);
      } else if test(last) {
        assert FirstOf(services, test, |front|);
      }
    }
  }

  /** The port kept for a type is that of the first advertisement of that type. */
  lemma {:induction false} PortIsFirst(services: seq<Service>, key: string, t: ServiceType)
    ensures var test := s => OfHost(s, key) && Normalize(s.kind) == t;
            match FirstPort(Own(services, key), t)
            case None => NoneOf(services, test)
            case Some(port) => exists i :: FirstOf(services, test, i) && services[i].port == Some(port)
  {
    hide Normalize;
    var test := s => OfHost(s, key) && Normalize(s.kind) == t;
    if services == [] {
    } else {
      var front, last := services[..|services| - 1], services[|services| - 1];
      assert services == front + [last];
      PortIsFirst(front, key, t);
      FirstStays(front, last, test);
      if OfHost(last, key) {
        assert Own(services, key) == Own(front, key) + [last];
        FirstPortAfter(Own(front, key), last, t);
      } else {
        assert Own(services, key) == Own(front, key);
      }
      if FirstPort(Own(front, key), t).Some? {
        var i :| FirstOf(front, test, i) && front[i].port == FirstPort(Own(front, key), t);
        assert FirstOf(services, test, i);
      } else if test(last) {
        assert FirstOf(services, test, |front|);
      }
    }
  }

  /** The value kept for a TXT key is that of the first advertisement that has it. */
  lemma {:induction false} TxtIsFirst(services: seq<Service>, key: string, k: string)
    ensures var test := s => OfHost(s, key) && k in s.txt;
            match FirstTxt(Own(services, key), k)
            case None => NoneOf(services, test)
            case Some(value) => exists i :: FirstOf(services, test, i) && services[i].txt[k] == value
  {
    var test := s => OfHost(s, key) && k in s.txt;
    if services == [] {
    } else {
      var front, last := services[..|services| - 1], services[|services| - 1];
      assert services == front + [last];
      TxtIsFirst(front, key, k);
      FirstStays(front, last, test);
      if OfHost(last, key) {
        assert Own(services, key) == Own(front, key) + [last];
        FirstTxtAfter(Own(front, key), last, k);
      } else {
        assert Own(services, key) == Own(front, key);
      }
      if FirstTxt(Own(front, key), k).Some? {
        var i :| FirstOf(front, test, i) && front[i].txt[k] == FirstTxt(Own(front, key), k).value;
        assert FirstOf(services, test, i);
      } else if test(last) {
        assert FirstOf(services, test, |front|);
      }
    }
  }

  /** The port of a candidate: of SCPI raw if that is advertised, else VISA, else HiSLIP, else LXI, else any other. */
  lemma PreferredPort(key: string, own: seq<Service>, c: Candidate)
    requires CandidateOf(key, own, c)
    ensures Some(c.port) ==
            if FirstPort(own, ScpiRaw).Some? then FirstPort(own, ScpiRaw)
            else if FirstPort(own, Visa).Some? then FirstPort(own, Visa)
            else if FirstPort(own, Hislip).Some? then FirstPort(own, Hislip)
            else if FirstPort(own, Lxi).Some? then FirstPort(own, Lxi)
            else FirstPort(own, Other)
  {
    hide FirstPort, FirstTxt, INHERITED;
    var first := c.serviceTypes[0];
    forall t: ServiceType | t in c.serviceTypes ensures t == first || Rank(first) < Rank(t) {
      var i :| 0 <= i < |c.serviceTypes| && c.serviceTypes[i] == t;
    }
  }
}
