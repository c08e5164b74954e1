/**
 * Driver resolution: the first registered entry that accepts an identity wins, so a family registers its
 * variants longest name first and its catch-all last.
 */
module Drivers {
  import opened Common

  datatype Identity = Identity(manufacturer: string, model: string)

  /**
   * `Includes` is a string pattern; `Variant` is the regular expression `^name\b`, name taken literally
   * and case ignored; `Other` stands for any other regular expression, as the test it performs.
   */
  datatype Pattern = Includes(text: string) | Variant(name: string) | Other(test: string -> bool)

  datatype Entry = Entry(id: string, manufacturer: Pattern, model: Pattern)

  predicate IsWord(c: char) {
    'a' <= c <= 'z' || 'A' <= c <= 'Z' || '0' <= c <= '9' || c == '_'
  }

  /** `\b` at position `i`. */
  predicate Boundary(s: string, i: nat)
    requires i <= |s|
  {
    (i > 0 && IsWord(s[i - 1])) != (i < |s| && IsWord(s[i]))
  }

  predicate PrefixIgnoringCase(name: string, s: string) {
    |name| <= |s| && Lower(s[..|name|]) == Lower(name)
  }

  predicate Accepts(p: Pattern, s: string) {
    match p
    case Includes(text) => Contains(Lower(s), Lower(text))
    case Variant(name) => PrefixIgnoringCase(name, s) && Boundary(s, |name|)
    case Other(test) => test(s)
  }

  predicate Fits(e: Entry, who: Identity) {
    Accepts(e.manufacturer, who.manufacturer) && Accepts(e.model, who.model)
  }

  predicate FirstFit(entries: seq<Entry>, who: Identity, i: int) {
    0 <= i < |entries| && Fits(entries[i], who) && forall j :: 0 <= j < i ==> !Fits(entries[j], who)
  }

  /** The first entry that fits. */
  function Resolve(entries: seq<Entry>, who: Identity): (r: Option<Entry>)
    ensures r.Some? ==> exists i :: FirstFit(entries, who, i) && r.value == entries[i]
    ensures r.None? ==> forall e | e in entries :: !Fits(e, who)
  {
    if entries == [] then None
    else if Fits(entries[0], who) then assert FirstFit(entries, who, 0); Some(entries[0])
    else
      var r := Resolve(entries[1..], who);
      assert r.Some? ==> forall i :: FirstFit(entries[1..], who, i) ==> FirstFit(entries, who, i + 1);
      r
  }

  predicate DistinctIds(entries: seq<Entry>) {
    forall i, j | 0 <= i < j < |entries| :: entries[i].id != entries[j].id
  }

  class DriverRegistry {
    var entries: seq<Entry>

    constructor ()
      ensures entries == []
    {
      entries := [];
    }

    /** Refuses an id that is taken. */
    method Register(entry: Entry) returns (ok: bool)
      modifies this
      ensures ok <==> forall e | e in old(entries) :: e.id != entry.id
      ensures entries == if ok then old(entries) + [entry] else old(entries)
      ensures old(DistinctIds(entries)) ==> DistinctIds(entries)
    {
      ok := true;
      for i := 0 to |entries|
        invariant ok <==> forall k | 0 <= k < i :: entries[k].id != entry.id
        invariant entries == old(entries)
      {
        if entries[i].id == entry.id {
          ok := false;
        }
      }
      if ok {
        entries := entries + [entry];
      }
    }

    method ResolveIdentity(who: Identity) returns (r: Option<Entry>)
      ensures r == Resolve(entries, who)
    {
      ghost var all := Resolve(entries, who);
      for i := 0 to |entries|
        invariant Resolve(entries[i..], who) == all
      {
        if Accepts(entries[i].manufacturer, who.manufacturer) && Accepts(entries[i].model, who.model) {
          return Some(entries[i]);
        }
        assert entries[i..][1..] == entries[i + 1..];
      }
      r := None;
    }
  }

  // ---------------------------------------------------------------------------
  // A family: variants by length, then a catch-all
  // ---------------------------------------------------------------------------

  /** Stable insertion of a name, longer names first. */
  function InsertByLength(name: string, sorted: seq<string>): seq<string> {
    if sorted == [] || |sorted[0]| < |name| then [name] + sorted
    else [sorted[0]] + InsertByLength(name, sorted[1..])
  }

  /** `sortedByLength`. */
  function SortedByLength(variants: seq<string>): seq<string> {
    if variants == [] then []
    else InsertByLength(variants[|variants| - 1], SortedByLength(variants[..|variants| - 1]))
  }

  predicate LongestFirst(names: seq<string>) {
    forall i, j | 0 <= i < j < |names| :: |names[i]| >= |names[j]|
  }

  lemma InsertKeepsOrder(name: string, sorted: seq<string>)
    requires LongestFirst(sorted)
    ensures LongestFirst(InsertByLength(name, sorted))
    ensures forall n :: n in InsertByLength(name, sorted) <==> n in sorted || n == name
  {
    if sorted == [] || |sorted[0]| < |name| {
    } else {
      InsertKeepsOrder(name, sorted[1..]);
      var r := InsertByLength(name, sorted[1..]);
      assert forall n | n in r :: |n| <= |sorted[0]| by {
        forall n | n in r ensures |n| <= |sorted[0]| {
          if n != name {
            var k :| 1 <= k < |sorted| && sorted[k] == n;
          }
        }
      }
    }
  }

  lemma SortingWorks(variants: seq<string>)
    ensures LongestFirst(SortedByLength(variants))
    ensures forall n :: n in SortedByLength(variants) <==> n in variants
  {
    if variants == [] {
    } else {
      SortingWorks(variants[..|variants| - 1]);
      InsertKeepsOrder(variants[|variants| - 1], SortedByLength(variants[..|variants| - 1]));
    }
  }

  function VariantId(name: string): string {
    "gwinstek-" + Lower(name)
  }

  function VariantEntries(maker: Pattern, names: seq<string>): (r: seq<Entry>)
    ensures |r| == |names|
    ensures forall i | 0 <= i < |names| :: r[i] == Entry(VariantId(names[i]), maker, Variant(names[i]))
  {
    if names == [] then []
    else [Entry(VariantId(names[0]), maker, Variant(names[0]))] + VariantEntries(maker, names[1..])
  }

  function CatchAll(maker: Pattern, family: string, test: string -> bool): Entry {
    Entry(VariantId(family), maker, Other(test))
  }

  function FamilyEntries(maker: Pattern, variants: seq<string>, family: string, test: string -> bool): seq<Entry> {
    VariantEntries(maker, SortedByLength(variants)) + [CatchAll(maker, family, test)]
  }

  predicate DistinctIgnoringCase(names: seq<string>) {
    forall i, j | 0 <= i < j < |names| :: Lower(names[i]) != Lower(names[j])
  }

  lemma FamilyShape(maker: Pattern, variants: seq<string>, family: string, test: string -> bool)
    ensures var names, all := SortedByLength(variants), FamilyEntries(maker, variants, family, test);
            && |all| == |names| + 1 && all[|names|] == CatchAll(maker, family, test)
            && forall i | 0 <= i < |names| :: all[i] == Entry(VariantId(names[i]), maker, Variant(names[i]))
  {
  }

  lemma Extends(was: seq<Entry>, all: seq<Entry>, i: nat)
    requires i < |all|
    ensures was + all[..i] + [all[i]] == was + all[..i + 1]
    ensures was + all[..i] <= was + all
  {
  }

  lemma TakenId(was: seq<Entry>, all: seq<Entry>, i: nat)
    requires i < |all| && exists e :: e in was + all[..i] && e.id == all[i].id
    ensures !DistinctIds(was + all)
  {
    var e :| e in was + all[..i] && e.id == all[i].id;
    var k :| 0 <= k < |was| + i && (was + all[..i])[k] == e;
    assert (was + all)[k] == e && (was + all)[|was| + i] == all[i];
  }

  /**
   * Each registration may throw, and then the loop goes no further. All goes well exactly when the new ids
   * are distinct from each other and from those taken.
   */
  method RegisterFamily(registry: DriverRegistry, maker: Pattern, variants: seq<string>, family: string,
                        test: string -> bool) returns (ok: bool)
    requires DistinctIds(registry.entries)
    modifies registry
    ensures DistinctIds(registry.entries)
    ensures ok <==> DistinctIds(old(registry.entries) + FamilyEntries(maker, variants, family, test))
    ensures ok ==> registry.entries == old(registry.entries) + FamilyEntries(maker, variants, family, test)
    ensures old(registry.entries) <= registry.entries
    ensures registry.entries <= old(registry.entries) + FamilyEntries(maker, variants, family, test)
  {
    FamilyShape(maker, variants, family, test);
    hide DistinctIds, FamilyEntries, VariantEntries, SortedByLength, VariantId, CatchAll;
    var names := SortedByLength(variants);
    ghost var was, all := registry.entries, FamilyEntries(maker, variants, family, test);
    for i := 0 to |names|
      invariant registry.entries == was + all[..i] && DistinctIds(registry.entries)
    {
      var entry := Entry(VariantId(names[i]), maker, Variant(names[i]));
      Extends(was, all, i);
      ok := registry.Register(entry);
      if !ok {
        TakenId(was, all, i);
        return;
      }
    }
    Extends(was, all, |names|);
    ok := registry.Register(CatchAll(maker, family, test));
    if ok {
      assert was + all[..|names| + 1] == was + all;
    } else {
      TakenId(was, all, |names|);
    }
  }

  // ---------------------------------------------------------------------------
  // Longest match wins
  // ---------------------------------------------------------------------------

  predicate EndsInWord(name: string) {
    name != "" && IsWord(name[|name| - 1])
  }

  /** The model is the name, case aside, alone or followed by something that is not part of a word. */
  predicate AtWord(name: string, model: string) {
    PrefixIgnoringCase(name, model) && (|model| == |name| || !IsWord(model[|name|]))
  }

  lemma BoundaryMeaning(name: string, model: string)
    requires EndsInWord(name)
    ensures Accepts(Variant(name), model) <==> AtWord(name, model)
  {
    if PrefixIgnoringCase(name, model) {
      var k := |name| - 1;
      assert Lower(model[..|name|])[k] == Lower(name)[k];
      assert LowerChar(model[k]) == LowerChar(name[k]);
      assert IsWord(model[k]);
    }
  }

  lemma ResolveSkips(front: seq<Entry>, rest: seq<Entry>, who: Identity)
    requires forall e | e in front :: !Fits(e, who)
    ensures Resolve(front + rest, who) == Resolve(rest, who)
  {
    if front == [] {
      assert front + rest == rest;
    } else {
      assert (front + rest)[1..] == front[1..] + rest;
      ResolveSkips(front[1..], rest, who);
    }
  }

  function FirstMatch(names: seq<string>, model: string): (r: Option<string>)
    ensures r.Some? ==> r.value in names && AtWord(r.value, model)
    ensures r.None? ==> forall n | n in names :: !AtWord(n, model)
  {
    if names == [] then None
    else if AtWord(names[0], model) then Some(names[0])
    else FirstMatch(names[1..], model)
  }

  lemma ResolveVariants(maker: Pattern, names: seq<string>, rest: seq<Entry>, who: Identity)
    requires Accepts(maker, who.manufacturer) && forall n | n in names :: EndsInWord(n)
    ensures Resolve(VariantEntries(maker, names) + rest, who) ==
            match FirstMatch(names, who.model)
            case Some(v) => Some(Entry(VariantId(v), maker, Variant(v)))
            case None => Resolve(rest, who)
  {
    var all := VariantEntries(maker, names) + rest;
    if names == [] {
      assert all == rest;
    } else {
      assert all[1..] == VariantEntries(maker, names[1..]) + rest;
      assert all[0] == Entry(VariantId(names[0]), maker, Variant(names[0]));
      BoundaryMeaning(names[0], who.model);
      ResolveVariants(maker, names[1..], rest, who);
    }
  }

  lemma FirstIsLongest(names: seq<string>, model: string, w: string)
    requires LongestFirst(names) && w in names && AtWord(w, model)
    ensures FirstMatch(names, model).Some? && |w| <= |FirstMatch(names, model).value|
  {
    if AtWord(names[0], model) {
    } else {
      FirstIsLongest(names[1..], model, w);
    }
  }

  lemma CatchAllResolves(maker: Pattern, family: string, test: string -> bool, post: seq<Entry>, who: Identity)
    requires Accepts(maker, who.manufacturer)
    ensures Resolve([CatchAll(maker, family, test)] + post, who) ==
            if test(who.model) then Some(CatchAll(maker, family, test)) else Resolve(post, who)
  {
    assert ([CatchAll(maker, family, test)] + post)[1..] == post;
  }

  /** `v` is the longest of the variants that match. */
  ghost predicate IsLongest(variants: seq<string>, v: string, model: string) {
    && v in variants && AtWord(v, model)
    && forall w | w in variants && AtWord(w, model) :: |w| <= |v|
  }

  lemma PickIsLongest(variants: seq<string>, model: string, v: string)
    requires v in variants && AtWord(v, model)
    ensures FirstMatch(SortedByLength(variants), model).Some?
    ensures IsLongest(variants, FirstMatch(SortedByLength(variants), model).value, model)
  {
    hide AtWord;
    var names := SortedByLength(variants);
    SortingWorks(variants);
    FirstIsLongest(names, model, v);
    forall w | w in variants && AtWord(w, model) ensures |w| <= |FirstMatch(names, model).value| {
      FirstIsLongest(names, model, w);
    }
  }

  /** Names that differ by more than case cannot both be the longest. */
  lemma OneLongest(variants: seq<string>, v: string, w: string, model: string)
    requires DistinctIgnoringCase(variants) && IsLongest(variants, v, model) && IsLongest(variants, w, model)
    ensures v == w
  {
    assert |v| == |w|;
    assert Lower(v) == Lower(model[..|v|]) == Lower(w);
    var i :| 0 <= i < |variants| && variants[i] == v;
    var j :| 0 <= j < |variants| && variants[j] == w;
  }

  /** What a family of variants and a catch-all should resolve to. */
  ghost predicate RightChoice(r: Option<Entry>, maker: Pattern, variants: seq<string>, family: string,
                              test: string -> bool, post: seq<Entry>, who: Identity) {
    if exists v :: v in variants && AtWord(v, who.model) then
      exists v ::
        IsLongest(variants, v, who.model) && r == Some(Entry("gwinstek-" + Lower(v), maker, Variant(v)))
    else if test(who.model) then r == Some(CatchAll(maker, family, test))
    else r == Resolve(post, who)
  }

  /**
   * Longest match wins: wherever the family stands among other entries, an identity of its manufacturer
   * that no earlier entry claims resolves to the longest variant that prefixes the model at a word boundary,
   * to the catch-all only if there is none, and past the family if that does not accept the model either.
   */
  lemma LongestMatchWins(pre: seq<Entry>, maker: Pattern, variants: seq<string>, family: string,
                         test: string -> bool, post: seq<Entry>, who: Identity)
    requires forall n | n in variants :: EndsInWord(n)
    requires Accepts(maker, who.manufacturer) && forall e | e in pre :: !Fits(e, who)
    ensures RightChoice(Resolve(pre + FamilyEntries(maker, variants, family, test) + post, who),
                        maker, variants, family, test, post, who)
  {
    hide AtWord;
    hide Accepts;
    hide Resolve;
    var names := SortedByLength(variants);
    var rest := [CatchAll(maker, family, test)] + post;
    var all := VariantEntries(maker, names) + rest;
    SortingWorks(variants);
    assert pre + FamilyEntries(maker, variants, family, test) + post == pre + all;
    ResolveSkips(pre, all, who);
    ResolveVariants(maker, names, rest, who);
    CatchAllResolves(maker, family, test, post, who);
    if v :| v in variants && AtWord(v, who.model) {
      PickIsLongest(variants, who.model, v);
    }
  }

  lemma SharedFront(pre: seq<Entry>, a: seq<Entry>, b: seq<Entry>, who: Identity)
    requires Resolve(a, who) == Resolve(b, who)
    ensures Resolve(pre + a, who) == Resolve(pre + b, who)
  {
    if pre == [] {
      assert pre + a == a && pre + b == b;
    } else {
      assert (pre + a)[1..] == pre[1..] + a && (pre + b)[1..] == pre[1..] + b;
      SharedFront(pre[1..], a, b, who);
    }
  }

  lemma NotOurs(maker: Pattern, variants: seq<string>, family: string, test: string -> bool, post: seq<Entry>,
                who: Identity)
    requires !Accepts(maker, who.manufacturer)
    ensures Resolve(FamilyEntries(maker, variants, family, test) + post, who) == Resolve(post, who)
  {
    var own := FamilyEntries(maker, variants, family, test);
    forall e | e in own ensures !Fits(e, who) {
      var i :| 0 <= i < |own| && own[i] == e;
    }
    ResolveSkips(own, post, who);
  }

  lemma SameChoice(ra: Option<Entry>, rb: Option<Entry>, maker: Pattern, a: seq<string>, b: seq<string>,
                   family: string, test: string -> bool, post: seq<Entry>, who: Identity)
    requires RightChoice(ra, maker, a, family, test, post, who) && RightChoice(rb, maker, b, family, test, post, who)
    requires DistinctIgnoringCase(a) && forall n :: n in a <==> n in b
    ensures ra == rb
  {
    hide AtWord;
    if v :| v in a && AtWord(v, who.model) {
      var x :| IsLongest(a, x, who.model) && ra == Some(Entry("gwinstek-" + Lower(x), maker, Variant(x)));
      var y :| IsLongest(b, y, who.model) && rb == Some(Entry("gwinstek-" + Lower(y), maker, Variant(y)));
      OneLongest(a, x, y, who.model);
    }
  }

  /** The order in which a family lists its variants is of no consequence. */
  lemma OrderOfVariantsIsFree(pre: seq<Entry>, maker: Pattern, a: seq<string>, b: seq<string>, family: string,
                              test: string -> bool, post: seq<Entry>, who: Identity)
    requires DistinctIgnoringCase(a) && (forall n :: n in a <==> n in b) && forall n | n in a :: EndsInWord(n)
    ensures Resolve(pre + FamilyEntries(maker, a, family, test) + post, who) ==
            Resolve(pre + FamilyEntries(maker, b, family, test) + post, who)
  {
    hide Resolve;
    hide FamilyEntries;
    hide RightChoice;
    var ra := FamilyEntries(maker, a, family, test) + post;
    var rb := FamilyEntries(maker, b, family, test) + post;
    assert pre + FamilyEntries(maker, a, family, test) + post == pre + ra;
    assert pre + FamilyEntries(maker, b, family, test) + post == pre + rb;
    if Accepts(maker, who.manufacturer) {
      LongestMatchWins([], maker, a, family, test, post, who);
      LongestMatchWins([], maker, b, family, test, post, who);
      assert [] + FamilyEntries(maker, a, family, test) + post == ra;
      assert [] + FamilyEntries(maker, b, family, test) + post == rb;
      SameChoice(Resolve(ra, who), Resolve(rb, who), maker, a, b, family, test, post, who);
    } else {
      NotOurs(maker, a, family, test, post, who);
      NotOurs(maker, b, family, test, post, who);
    }
    SharedFront(pre, ra, rb, who);
  }
}
