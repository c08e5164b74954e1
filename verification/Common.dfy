/** Small shared vocabulary: an option type, the last `n` elements of a sequence, and text helpers. */
module Common {

  datatype Option<+T> = None | Some(value: T)

  /** A finite run of a state machine, as the events that took place. */
  datatype Trace<+E> = Start | Then(before: Trace<E>, event: E)

  /** The newest `n` elements of a log, oldest first: what a bounded FIFO ring keeps. */
  function LastN<T>(log: seq<T>, n: nat): (r: seq<T>)
    ensures |r| == if |log| <= n then |log| else n
    ensures r == log[|log| - |r|..]
  {
    if |log| <= n then log else log[|log| - n..]
  }

  /** Trimming to the last `n` early or late makes no difference. */
  lemma LastNAppend<T>(log: seq<T>, more: seq<T>, n: nat)
    ensures LastN(LastN(log, n) + more, n) == LastN(log + more, n)
  {
    if |log| <= n {
    } else {
      var k := |log| - n;
      var all, kept := log + more, log[k..] + more;
      assert kept == all[k..];
      LastNIs(kept, n, |more|);
      LastNIs(all, n, k + |more|);
      SuffixOfSuffix(all, k, |more|);
    }
  }

  lemma LastNIs<T>(log: seq<T>, n: nat, k: nat)
    requires |log| == n + k
    ensures LastN(log, n) == log[k..]
  {
  }

  lemma SuffixOfSuffix<T>(s: seq<T>, i: nat, j: nat)
    requires i + j <= |s|
    ensures s[i..][j..] == s[i + j..]
  {
  }

  /** `while (length > max) shift()`: the loop that bounds every ring. */
  method DropOldest<T>(all: seq<T>, max: nat) returns (buf: seq<T>)
    ensures buf == LastN(all, max)
  {
    buf := all;
    while |buf| > max
      invariant |buf| <= |all| && buf == all[|all| - |buf|..] && (|buf| >= max || |buf| == |all|)
    {
      buf := buf[1..];
    }
  }

  /** The white space that JavaScript's `trim`, `\s` and `parseInt` skip, restricted to one-byte characters. */
  predicate IsSpace(c: char) {
    c == ' ' || c == '\t' || c == '\n' || c == '\r' || c == '\U{0B}' || c == '\U{0C}'
  }

  predicate IsDigit(c: char) {
    '0' <= c <= '9'
  }

  function SkipSpace(s: string): (r: string)
    ensures |r| <= |s| && r == s[|s| - |r|..]
    ensures r != "" ==> !IsSpace(r[0])
    ensures forall i :: 0 <= i < |s| - |r| ==> IsSpace(s[i])
  {
    if s != "" && IsSpace(s[0]) then SkipSpace(s[1..]) else s
  }

  function TrimEnd(s: string): (r: string)
    ensures r <= s
    ensures r != "" ==> !IsSpace(r[|r| - 1])
  {
    if s != "" && IsSpace(s[|s| - 1]) then TrimEnd(s[..|s| - 1]) else s
  }

  function Trim(s: string): string {
    TrimEnd(SkipSpace(s))
  }

  /** The same white space, listed. */
  const WHITE := " \t\n\r\U{0B}\U{0C}"

  predicate AllWhite(s: string) {
    forall i :: 0 <= i < |s| ==> s[i] in WHITE
  }

  /** Text without white space at either end. */
  predicate Trimmed(s: string) {
    s != "" ==> s[0] !in WHITE && s[|s| - 1] !in WHITE
  }

  lemma {:induction false} SkipsWhite(before: string, s: string)
    requires AllWhite(before) && (s != "" ==> s[0] !in WHITE)
    ensures SkipSpace(before + s) == s
  {
    if before == "" {
      assert before + s == s;
    } else {
      assert IsSpace(before[0]);
      assert (before + s)[1..] == before[1..] + s;
      SkipsWhite(before[1..], s);
    }
  }

  lemma {:induction false} TrimsWhite(s: string, behind: string)
    requires AllWhite(behind) && (s != "" ==> s[|s| - 1] !in WHITE)
    ensures TrimEnd(s + behind) == s
  {
    if behind == "" {
      assert s + behind == s;
    } else {
      var k := |behind| - 1;
      assert IsSpace(behind[k]);
      assert (s + behind)[..|s + behind| - 1] == s + behind[..k];
      TrimsWhite(s, behind[..k]);
    }
  }

  /** Trimming takes away exactly the white space at both ends. */
  lemma TrimMeaning(before: string, s: string, behind: string)
    requires AllWhite(before) && Trimmed(s) && AllWhite(behind)
    ensures Trim(before + s + behind) == s
  {
    if s == "" {
      AllWhiteSkipped(before + s + behind);
    } else {
      assert before + s + behind == before + (s + behind);
      SkipsWhite(before, s + behind);
      TrimsWhite(s, behind);
    }
  }

  lemma AllWhiteSkipped(s: string)
    requires AllWhite(s)
    ensures Trim(s) == ""
  {
    assert s + "" == s;
    SkipsWhite(s, "");
  }

  /** ASCII case folding. */
  function LowerChar(c: char): char {
    if 'A' <= c <= 'Z' then (c as int + 32) as char else c
  }

  function Lower(s: string): (r: string)
    ensures |r| == |s| && forall i :: 0 <= i < |s| ==> r[i] == LowerChar(s[i])
  {
    seq(|s|, i requires 0 <= i < |s| => LowerChar(s[i]))
  }

  function UpperChar(c: char): char {
    if 'a' <= c <= 'z' then (c as int - 32) as char else c
  }

  function Upper(s: string): (r: string)
    ensures |r| == |s| && forall i :: 0 <= i < |s| ==> r[i] == UpperChar(s[i])
  {
    seq(|s|, i requires 0 <= i < |s| => UpperChar(s[i]))
  }

  const CAPITALS := "ABCDEFGHIJKLMNOPQRSTUVWXYZ"
  const SMALLS := "abcdefghijklmnopqrstuvwxyz"

  lemma CapitalsAre(c: char)
    ensures c in CAPITALS <==> 'A' <= c <= 'Z'
  {
    assert 'A' <= c <= 'Z' ==> CAPITALS[c as int - 'A' as int] == c;
  }

  lemma SmallsAre(c: char)
    ensures c in SMALLS <==> 'a' <= c <= 'z'
  {
    assert 'a' <= c <= 'z' ==> SMALLS[c as int - 'a' as int] == c;
  }

  /** Folding either way maps the two alphabets onto each other and leaves all else alone. */
  lemma FoldsLetters(c: char, i: nat)
    requires i < 26
    ensures LowerChar(CAPITALS[i]) == SMALLS[i] && UpperChar(SMALLS[i]) == CAPITALS[i]
    ensures c !in CAPITALS ==> LowerChar(c) == c
    ensures c !in SMALLS ==> UpperChar(c) == c
  {
    hide CAPITALS, SMALLS;
    CapitalsAre(c);
    SmallsAre(c);
    LettersInOrder(i);
  }

  lemma LettersInOrder(i: nat)
    requires i < 26
    ensures |CAPITALS| == |SMALLS| == 26
    ensures CAPITALS[i] as int == 'A' as int + i && SMALLS[i] as int == 'a' as int + i
  {
  }

  predicate Contains(s: string, part: string) {
    part <= s || (s != "" && Contains(s[1..], part))
  }

  /** `part` stands at position `i` of `s`. */
  predicate StandsAt(s: string, part: string, i: nat) {
    i + |part| <= |s| && s[i..i + |part|] == part
  }

  lemma {:induction false} Found(s: string, part: string, i: nat)
    requires StandsAt(s, part, i)
    ensures Contains(s, part)
  {
    if i == 0 {
    } else {
      assert s[1..][i - 1..i - 1 + |part|] == s[i..i + |part|];
      Found(s[1..], part, i - 1);
    }
  }

  lemma {:induction false} Finds(s: string, part: string) returns (i: nat)
    requires Contains(s, part)
    ensures StandsAt(s, part, i)
  {
    if part <= s {
      i := 0;
    } else {
      var j := Finds(s[1..], part);
      assert s[1..][j..j + |part|] == s[j + 1..j + 1 + |part|];
      i := j + 1;
    }
  }

  lemma ContainsMeaning(s: string, part: string)
    ensures Contains(s, part) <==> exists i: nat :: StandsAt(s, part, i)
  {
    hide Contains, StandsAt;
    if Contains(s, part) {
      var i := Finds(s, part);
    }
    if i: nat :| StandsAt(s, part, i) {
      Found(s, part, i);
    }
  }

  /** Decimal digits of a natural number, as JavaScript's `String(n)` prints it. */
  function Decimal(n: nat): (r: string)
    ensures r != "" && forall c | c in r :: IsDigit(c)
    ensures n > 0 ==> r[0] != '0'
  {
    if n < 10 then [(48 + n) as char] else Decimal(n / 10) + [(48 + n % 10) as char]
  }

  /** The number a run of decimal digits denotes. */
  function DigitsValue(s: string): nat
    requires forall c | c in s :: IsDigit(c)
  {
    if s == "" then 0
    else
      var last := s[|s| - 1];
      assert last in s && IsDigit(last);
      DigitsValue(s[..|s| - 1]) * 10 + (last as int - 48)
  }

  function Pow10(k: nat): (r: nat)
    ensures r >= 1
  {
    if k == 0 then 1 else 10 * Pow10(k - 1)
  }

  lemma {:induction false} DigitsValueOfDecimal(n: nat)
    ensures DigitsValue(Decimal(n)) == n
  {
    if n >= 10 {
      DigitsValueOfDecimal(n / 10);
      assert Decimal(n)[..|Decimal(n)| - 1] == Decimal(n / 10);
    } else {
      assert Decimal(n)[..0] == "";
    }
  }

  lemma {:induction false} DigitsValueBound(s: string)
    requires forall c | c in s :: IsDigit(c)
    ensures DigitsValue(s) < Pow10(|s|)
  {
    if s == "" {
    } else {
      assert s[|s| - 1] in s;
      DigitsValueBound(s[..|s| - 1]);
    }
  }

  /** A number has at most `k` digits exactly when it is below ten to the `k`. */
  lemma {:induction false} DecimalLength(n: nat, k: nat)
    requires k >= 1
    ensures |Decimal(n)| <= k <==> n < Pow10(k)
  {
    if k == 1 {
      assert Pow10(1) == 10 by { assert Pow10(0) == 1; }
    } else if n >= 10 {
      DecimalLength(n / 10, k - 1);
    } else {
      assert Pow10(k) >= 10;
    }
  }
}
