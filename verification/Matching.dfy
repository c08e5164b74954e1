/** What the patterns of driver entries accept, and that sorting a family keeps its names. */
module Matching {
  import opened Common
  import opened Drivers

  predicate InWord(c: char) {
    c in CAPITALS || c in SMALLS || c in "0123456789_"
  }

  lemma WordsAre(c: char)
    ensures IsWord(c) <==> InWord(c)
  {
    hide CAPITALS, SMALLS;
    CapitalsAre(c);
    SmallsAre(c);
    assert '0' <= c <= '9' ==> "0123456789"[c as int - '0' as int] == c;
  }

  /** A text pattern accepts what holds its text anywhere, whatever the case of either. */
  lemma IncludesMeaning(text: string, s: string)
    ensures Accepts(Includes(text), s) <==> exists i: nat :: StandsAt(Lower(s), Lower(text), i)
  {
    hide Contains, StandsAt;
    ContainsMeaning(Lower(s), Lower(text));
  }

  /** A variant pattern accepts its name, in any case, alone or before something that is not part of a word. */
  lemma VariantMeaning(name: string, head: string, tail: string)
    requires EndsInWord(name) && |head| == |name|
    ensures Accepts(Variant(name), head + tail) <==> Lower(head) == Lower(name) && (tail == "" || !InWord(tail[0]))
  {
    hide Accepts, IsWord, InWord;
    BoundaryMeaning(name, head + tail);
    assert (head + tail)[..|name|] == head;
    if tail != "" {
      assert (head + tail)[|name|] == tail[0];
      WordsAre(tail[0]);
    }
  }

  /** And nothing that is shorter. */
  lemma TooShort(name: string, s: string)
    requires |s| < |name|
    ensures !Accepts(Variant(name), s)
  {
  }

  /** The names of a length, in order. */
  function OfLength(names: seq<string>, n: nat): seq<string> {
    if names == [] then []
    else (if |names[0]| == n then [names[0]] else []) + OfLength(names[1..], n)
  }

  lemma {:induction false} OfLengthJoin(a: seq<string>, b: seq<string>, n: nat)
    ensures OfLength(a + b, n) == OfLength(a, n) + OfLength(b, n)
  {
    if a == [] {
      assert a + b == b;
    } else {
      assert (a + b)[1..] == a[1..] + b;
      OfLengthJoin(a[1..], b, n);
    }
  }

  lemma {:induction false} NoneOfLength(names: seq<string>, n: nat)
    requires forall i :: 0 <= i < |names| ==> |names[i]| < n
    ensures OfLength(names, n) == []
  {
    if names == [] {
    } else {
      NoneOfLength(names[1..], n);
    }
  }

  lemma {:induction false} InsertIsStable(name: string, sorted: seq<string>, n: nat)
    requires LongestFirst(sorted)
    ensures OfLength(InsertByLength(name, sorted), n) == OfLength(sorted, n) + (if |name| == n then [name] else [])
  {
    if sorted == [] {
    } else if |sorted[0]| < |name| {
      assert ([name] + sorted)[1..] == sorted;
      if |name| == n {
        NoneOfLength(sorted, n);
      }
    } else {
      var rest := InsertByLength(name, sorted[1..]);
      assert ([sorted[0]] + rest)[1..] == rest;
      InsertIsStable(name, sorted[1..], n);
    }
  }

  /** Sorting is stable: names of one length keep their order, and none is lost or doubled. */
  lemma {:induction false} SortIsStable(variants: seq<string>, n: nat)
    ensures OfLength(SortedByLength(variants), n) == OfLength(variants, n)
  {
    hide InsertByLength, OfLength, LongestFirst;
    if variants == [] {
    } else {
      var front, last := variants[..|variants| - 1], variants[|variants| - 1];
      SortIsStable(front, n);
      SortingWorks(front);
      InsertIsStable(last, SortedByLength(front), n);
      assert variants == front + [last];
      OfLengthJoin(front, [last], n);
      OneOfLength(last, n);
    }
  }

  lemma OneOfLength(name: string, n: nat)
    ensures OfLength([name], n) == if |name| == n then [name] else []
  {
    assert [name][1..] == [];
  }
}
