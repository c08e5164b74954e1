/** The outcome of switching off an instrument's outputs, and what makes such a report truthful. */
module OutputKill {
  import opened Common

  datatype Target = TrackingMode | Channel(id: nat) | Whole | Input | Panic

  datatype Kind = Ok | Partial | Error

  /** `touched` are the channels switched off, `errors` what could not be done. */
  datatype KillResult = KillResult(kind: Kind, touched: seq<nat>, errors: seq<Target>)

  function Classify(touched: seq<nat>, errors: seq<Target>): (r: KillResult)
    ensures r.kind == Ok <==> errors == []
    ensures r.kind == Partial <==> errors != [] && touched != []
    ensures r.kind == Error <==> errors != [] && touched == []
    ensures r.touched == touched && r.errors == errors
  {
    KillResult(if |errors| == 0 then Ok else if |touched| > 0 then Partial else Error, touched, errors)
  }

  /** The channels among the errors, in order. */
  function FailedChannels(errors: seq<Target>): seq<nat> {
    if errors == [] then []
    else
      var last := errors[|errors| - 1];
      FailedChannels(errors[..|errors| - 1]) + (if last.Channel? then [last.id] else [])
  }

  lemma FailedGrows(errors: seq<Target>, t: Target)
    ensures FailedChannels(errors + [t]) == FailedChannels(errors) + (if t.Channel? then [t.id] else [])
  {
    assert (errors + [t])[..|errors|] == errors;
  }

  /** Two lists share out a third. */
  predicate Share(a: seq<nat>, b: seq<nat>, all: seq<nat>) {
    multiset(a) + multiset(b) == multiset(all)
  }

  /** One more element, in either list. */
  lemma ShareMore(a: seq<nat>, b: seq<nat>, all: seq<nat>, c: nat)
    requires Share(a, b, all)
    ensures Share(a + [c], b, all + [c]) && Share(a, b + [c], all + [c])
  {
    assert multiset(a + [c]) == multiset(a) + multiset{c};
    assert multiset(b + [c]) == multiset(b) + multiset{c};
    assert multiset(all + [c]) == multiset(all) + multiset{c};
  }

  /** Each of `channels` is in the report once: as touched, or as an error. */
  predicate AccountsFor(channels: seq<nat>, touched: seq<nat>, errors: seq<Target>) {
    Share(touched, FailedChannels(errors), channels)
  }

  lemma NoneYet(errors: seq<Target>)
    requires FailedChannels(errors) == []
    ensures AccountsFor([], [], errors)
  {
  }

  /** One more channel, reported either way. */
  lemma OneMore(channels: seq<nat>, touched: seq<nat>, errors: seq<Target>, id: nat)
    requires AccountsFor(channels, touched, errors)
    ensures AccountsFor(channels + [id], touched + [id], errors)
    ensures AccountsFor(channels + [id], touched, errors + [Channel(id)])
  {
    FailedGrows(errors, Channel(id));
    ShareMore(touched, FailedChannels(errors), channels, id);
  }

  /** With distinct channels that means: in exactly one of the two lists. */
  lemma InExactlyOne(channels: seq<nat>, touched: seq<nat>, errors: seq<Target>, c: nat)
    requires AccountsFor(channels, touched, errors)
    requires forall i, j | 0 <= i < j < |channels| :: channels[i] != channels[j]
    ensures c in channels <==> (c in touched) != (c in FailedChannels(errors))
  {
    Distinct(channels, c);
    assert (c in touched) <==> c in multiset(touched);
    assert (c in FailedChannels(errors)) <==> c in multiset(FailedChannels(errors));
    assert multiset(channels)[c] == multiset(touched)[c] + multiset(FailedChannels(errors))[c];
  }

  lemma Distinct(s: seq<nat>, c: nat)
    requires forall i, j | 0 <= i < j < |s| :: s[i] != s[j]
    ensures multiset(s)[c] == if c in s then 1 else 0
  {
    if s == [] {
    } else {
      var front, last := s[..|s| - 1], s[|s| - 1];
      assert s == front + [last];
      Distinct(front, c);
      if c == last {
        assert forall i | 0 <= i < |front| :: front[i] != last;
      }
    }
  }

  /** The channels whose mark is `m`, in order. */
  function Pick(channels: seq<nat>, marks: seq<bool>, m: bool): seq<nat>
    requires |marks| == |channels|
  {
    if channels == [] then []
    else
      var k := |channels| - 1;
      Pick(channels[..k], marks[..k], m) + (if marks[k] == m then [channels[k]] else [])
  }

  lemma PickMore(channels: seq<nat>, marks: seq<bool>, m: bool)
    requires |marks| == |channels| && channels != []
    ensures var k := |channels| - 1;
            Pick(channels, marks, m) ==
            if marks[k] == m then Pick(channels[..k], marks[..k], m) + [channels[k]]
            else Pick(channels[..k], marks[..k], m)
  {
  }

  lemma {:induction false} PickShares(channels: seq<nat>, marks: seq<bool>)
    requires |marks| == |channels|
    ensures Share(Pick(channels, marks, false), Pick(channels, marks, true), channels)
  {
    hide Pick, Share;
    if channels == [] {
      PickNone();
    } else {
      var k := |channels| - 1;
      var front, marked := channels[..k], marks[..k];
      PickShares(front, marked);
      ShareMore(Pick(front, marked, false), Pick(front, marked, true), front, channels[k]);
      PickMore(channels, marks, false);
      PickMore(channels, marks, true);
      assert channels == front + [channels[k]];
    }
  }

  /** What is picked are the channels with that mark, each as often as it has it. */
  lemma {:induction false} PickMeaning(channels: seq<nat>, marks: seq<bool>, m: bool, c: nat)
    requires |marks| == |channels|
    ensures c in Pick(channels, marks, m) <==> exists i :: 0 <= i < |channels| && channels[i] == c && marks[i] == m
  {
    if channels == [] {
    } else {
      var k := |channels| - 1;
      PickMeaning(channels[..k], marks[..k], m, c);
      if c in Pick(channels[..k], marks[..k], m) {
        var i :| 0 <= i < k && channels[..k][i] == c && marks[..k][i] == m;
        assert channels[i] == c && marks[i] == m;
      }
    }
  }

  lemma PickNone()
    ensures Share(Pick([], [], false), Pick([], [], true), [])
  {
  }

  /**
   * The same report for any instrument whose channels are switched off one by one (`runSgDisableAll`):
   * `channels` is None if they could not be read, `refuses[i]` tells whether the i-th switch-off fails.
   */
  method RunDisableAll(channels: Option<seq<nat>>, refuses: seq<bool>) returns (r: KillResult)
    requires channels.Some? ==> |refuses| == |channels.value|
    ensures r == Classify(r.touched, r.errors)
    ensures channels.None? ==> r.touched == [] && r.errors == [Whole]
    ensures channels.Some? ==>
              && r.touched == Pick(channels.value, refuses, false)
              && FailedChannels(r.errors) == Pick(channels.value, refuses, true)
              && AccountsFor(channels.value, r.touched, r.errors)
    ensures channels.Some? ==> forall e | e in r.errors :: e.Channel?
    ensures channels.Some? ==>
              forall i :: 0 <= i < |refuses| ==>
                if refuses[i] then channels.value[i] in FailedChannels(r.errors) else channels.value[i] in r.touched
  {
    var touched: seq<nat>, errors: seq<Target> := [], [];
    if channels.None? {
      errors := [Whole];
    } else {
      var ids := channels.value;
      for i := 0 to |ids|
        invariant touched == Pick(ids[..i], refuses[..i], false)
        invariant FailedChannels(errors) == Pick(ids[..i], refuses[..i], true)
        invariant forall e | e in errors :: e.Channel?
      {
        assert ids[..i + 1][..i] == ids[..i] && refuses[..i + 1][..i] == refuses[..i];
        if refuses[i] {
          FailedGrows(errors, Channel(ids[i]));
          errors := errors + [Channel(ids[i])];
        } else {
          touched := touched + [ids[i]];
        }
      }
      assert ids[..|ids|] == ids && refuses[..|ids|] == refuses;
      PickShares(ids, refuses);
      forall i | 0 <= i < |ids| ensures ids[i] in Pick(ids, refuses, refuses[i]) {
        PickMeaning(ids, refuses, refuses[i], ids[i]);
      }
    }
    r := Classify(touched, errors);
  }
}
