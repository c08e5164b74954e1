/**
 * Reply framing of the SCPI session: LF-terminated lines and IEEE 488.2 definite-length blocks
 * (sections 7.7.6 and 8.7.9 of IEEE 488.2), cut out of one receive buffer.
 *
 * A byte is a `char` and a byte string is a `string`; no text decoding takes place.
 */
module Framing {
  import opened Common

  type Bytes = string

  /** How a job reads its reply: not at all, one line, or one block. */
  datatype ReadMode = NoReply | Line | Block

  /** What one attempt to cut a reply out of the buffer yields. */
  datatype Parse = NeedMore | Got(value: Bytes, rest: Bytes) | Malformed

  function IndexOf(s: Bytes, c: char): (i: int)
    ensures -1 <= i < |s|
    ensures i >= 0 ==> s[i] == c && forall k :: 0 <= k < i ==> s[k] != c
    ensures i < 0 ==> forall k :: 0 <= k < |s| ==> s[k] != c
  {
    if s == "" then -1
    else if s[0] == c then 0
    else
      var j := IndexOf(s[1..], c);
      assert forall k :: 1 <= k < |s| ==> s[k] == s[1..][k - 1];
      if j < 0 then -1 else j + 1
  }

  /** Drops one trailing CR. */
  function TrimCr(s: Bytes): (r: Bytes)
    ensures r <= s
    ensures if s != "" && s[|s| - 1] == '\r' then s == r + "\r" else r == s
  {
    if s != "" && s[|s| - 1] == '\r' then s[..|s| - 1] else s
  }

  function ParseLine(buf: Bytes): Parse {
    var i := IndexOf(buf, '\n');
    if i < 0 then NeedMore else Got(TrimCr(buf[..i]), buf[i + 1..])
  }

  /** A line and its LF are read as that line less one CR at its end, and what follows is left over. */
  lemma ParseWholeLine(text: Bytes, rest: Bytes)
    requires forall k :: 0 <= k < |text| ==> text[k] != '\n'
    ensures ParseLine(text + "\n" + rest) == Got(TrimCr(text), rest)
    ensures ParseLine(text + "\r\n" + rest) == Got(text, rest)
    ensures text == "" || text[|text| - 1] != '\r' ==> ParseLine(text + "\n" + rest) == Got(text, rest)
  {
    LineCut(text, rest);
    LineCut(text + "\r", rest);
    assert text + "\r" + "\n" + rest == text + "\r\n" + rest;
    assert (text + "\r")[..|text|] == text;
  }

  lemma LineCut(text: Bytes, rest: Bytes)
    requires forall k :: 0 <= k < |text| ==> text[k] != '\n'
    ensures ParseLine(text + "\n" + rest) == Got(TrimCr(text), rest)
  {
    var buf := text + "\n" + rest;
    assert buf[|text|] == '\n' && buf[..|text|] == text && buf[|text| + 1..] == rest;
  }

  /** The longest run of digits a string starts with. */
  function DigitPrefix(s: Bytes): (r: Bytes)
    ensures r <= s
    ensures forall c | c in r :: IsDigit(c)
    ensures |r| < |s| ==> !IsDigit(s[|r|])
  {
    if s != "" && IsDigit(s[0]) then [s[0]] + DigitPrefix(s[1..]) else ""
  }

  /** A sign, then digits; anything after them is ignored. */
  function ParseSigned(t: Bytes): (r: Option<int>)
    ensures r.Some? ==> r.value < Pow10(|t|)
  {
    var signed := t != "" && (t[0] == '-' || t[0] == '+');
    var digits := DigitPrefix(if signed then t[1..] else t);
    if digits == "" then None else
    DigitsValueBound(digits);
    Pow10Monotone(|digits|, |t|);
    var magnitude: int := DigitsValue(digits);
    Some(if signed && t[0] == '-' then -magnitude else magnitude)
  }

  /** `Number.parseInt(s, 10)`: leading white space is skipped. */
  function ParseInt(s: Bytes): (r: Option<int>)
    ensures r.Some? ==> r.value < Pow10(|s|)
  {
    Pow10Monotone(|SkipSpace(s)|, |s|);
    ParseSigned(SkipSpace(s))
  }

  lemma {:induction false} Pow10Monotone(a: nat, b: nat)
    requires a <= b
    ensures Pow10(a) <= Pow10(b)
  {
    if a == b {
    } else {
      Pow10Monotone(a, b - 1);
    }
  }

  /** What the header of a buffered block says. */
  datatype Header = Short | Wrong | Sized(headerSize: nat, length: nat)

  /** What the length digits say. */
  function SizedBy(digits: Bytes): (h: Header)
    requires 1 <= |digits| <= 9
    ensures h.Sized? ==> h.headerSize == 2 + |digits| && h.length < Pow10(9)
    ensures !h.Short?
  {
    var length := ParseInt(digits);
    if length.None? || length.value < 0 then Wrong
    else
      Pow10Monotone(|digits|, 9);
      Sized(2 + |digits|, length.value)
  }

  function BlockHeader(buf: Bytes): (h: Header)
    ensures h.Sized? ==> 3 <= h.headerSize <= 11 && h.headerSize <= |buf|
    ensures h.Sized? ==> h.length < Pow10(9)
  {
    if |buf| < 2 then Short
    else if buf[0] != '#' then Wrong
    else if !('1' <= buf[1] <= '9') then Wrong
    else
      var digitCount := buf[1] as int - 48;
      if |buf| < 2 + digitCount then Short
      else SizedBy(buf[2..2 + digitCount])
  }

  /** Cuts the payload out once the header is known; a following LF is eaten if it is already there. */
  function CutBlock(h: Header, buf: Bytes): Parse {
    match h
    case Short => NeedMore
    case Wrong => Malformed
    case Sized(headerSize, length) =>
      var end := headerSize + length;
      if |buf| < end then NeedMore
      else if |buf| > end && buf[end] == '\n' then Got(buf[headerSize..end], buf[end + 1..])
      else Got(buf[headerSize..end], buf[end..])
  }

  function ParseBlock(buf: Bytes): Parse {
    CutBlock(BlockHeader(buf), buf)
  }

  /** The whole block, header included, has been received, and nothing after it. */
  predicate Bare(h: Header, buf: Bytes) {
    h.Sized? && |buf| == h.headerSize + h.length
  }

  predicate BareBlock(buf: Bytes) {
    Bare(BlockHeader(buf), buf)
  }

  function ParseReply(mode: ReadMode, buf: Bytes): Parse {
    match mode
    case NoReply => NeedMore
    case Line => ParseLine(buf)
    case Block => ParseBlock(buf)
  }

  // ---------------------------------------------------------------------------
  // Block codec
  // ---------------------------------------------------------------------------

  /** The definite-length block for a payload: `#`, the number of length digits, the length, the payload. */
  function EncodeBlock(payload: Bytes): Bytes {
    "#" + Decimal(|Decimal(|payload|)|) + Decimal(|payload|) + payload
  }

  /** Everything up to the payload. */
  function BlockPreamble(n: nat): Bytes {
    "#" + Decimal(|Decimal(n)|) + Decimal(n)
  }

  lemma {:induction false} DigitPrefixThen(digits: Bytes, tail: Bytes)
    requires forall c | c in digits :: IsDigit(c)
    requires tail == "" || !IsDigit(tail[0])
    ensures DigitPrefix(digits + tail) == digits
  {
    if digits == "" {
      assert digits + tail == tail;
    } else {
      assert (digits + tail)[1..] == digits[1..] + tail;
      assert IsDigit(digits[0]);
      DigitPrefixThen(digits[1..], tail);
    }
  }

  lemma SignedReads(sign: Bytes, digits: Bytes, tail: Bytes)
    requires sign == "" || sign == "+" || sign == "-"
    requires forall c | c in digits :: IsDigit(c)
    requires tail == "" || !IsDigit(tail[0])
    requires digits == "" && sign == "" && tail != "" ==> tail[0] != '+' && tail[0] != '-'
    ensures ParseSigned(sign + digits + tail) ==
            if digits == "" then None
            else Some(if sign == "-" then -(DigitsValue(digits) as int) else DigitsValue(digits))
  {
    hide DigitPrefix, DigitsValue, Pow10;
    var t := sign + digits + tail;
    DigitPrefixThen(digits, tail);
    assert digits != "" ==> IsDigit(digits[0]) && t[|sign|] == digits[0];
    assert t[|sign|..] == digits + tail;
    assert sign == "" ==> t[0..] == t;
  }

  /** White space, one sign, digits, and anything that does not begin with a digit after them. */
  lemma ParseIntReads(before: Bytes, sign: Bytes, digits: Bytes, tail: Bytes)
    requires AllWhite(before) && (sign == "" || sign == "+" || sign == "-")
    requires forall c | c in digits :: IsDigit(c)
    requires tail == "" || !IsDigit(tail[0])
    requires digits == "" ==> tail == "" || (tail[0] !in WHITE && (sign == "" ==> tail[0] != '+' && tail[0] != '-'))
    ensures ParseInt(before + (sign + digits + tail)) ==
            if digits == "" then None
            else Some(if sign == "-" then -(DigitsValue(digits) as int) else DigitsValue(digits))
  {
    var t := sign + digits + tail;
    assert digits != "" ==> IsDigit(digits[0]);
    hide DigitsValue, ParseSigned, Pow10;
    SkipsWhite(before, t);
    SignedReads(sign, digits, tail);
  }

  lemma ParseDigits(digits: Bytes)
    requires digits != "" && forall c | c in digits :: IsDigit(c)
    ensures ParseInt(digits) == Some(DigitsValue(digits))
  {
    hide DigitsValue, ParseInt;
    ParseIntReads("", "", digits, "");
    assert "" + ("" + digits + "") == digits;
  }

  lemma ParseIntOfDecimal(n: nat)
    ensures ParseInt(Decimal(n)) == Some(n)
  {
    hide ParseInt;
    ParseDigits(Decimal(n));
    DigitsValueOfDecimal(n);
  }

  lemma HeaderFrom(buf: Bytes, digits: Bytes, n: nat)
    requires 1 <= |digits| <= 9 && n < Pow10(9) && ParseInt(digits) == Some(n)
    requires |buf| >= 2 + |digits| && buf[0] == '#' && buf[1] == (48 + |digits|) as char
    requires buf[2..2 + |digits|] == digits
    ensures BlockHeader(buf) == Sized(2 + |digits|, n)
  {
  }

  /** The header of an encoded block is read back exactly, whatever follows the length digits. */
  lemma HeaderOfEncoded(n: nat, tail: Bytes)
    requires n < Pow10(9)
    ensures |Decimal(n)| <= 9
    ensures |BlockPreamble(n)| == 2 + |Decimal(n)|
    ensures BlockHeader(BlockPreamble(n) + tail) == Sized(2 + |Decimal(n)|, n)
  {
    hide ParseInt;
    hide BlockHeader;
    var d := Decimal(n);
    DecimalLength(n, 9);
    ParseIntOfDecimal(n);
    var buf := BlockPreamble(n) + tail;
    assert Decimal(|d|) == [(48 + |d|) as char];
    assert buf[2..2 + |d|] == d;
    HeaderFrom(buf, d, n);
  }

  lemma EncodedParts(payload: Bytes, tail: Bytes)
    requires |payload| < Pow10(9)
    ensures var buf := EncodeBlock(payload) + tail;
            var size := |BlockPreamble(|payload|)|;
            && BlockHeader(buf) == Sized(size, |payload|)
            && buf[size..size + |payload|] == payload
            && buf[size + |payload|..] == tail
  {
    hide BlockHeader;
    hide Decimal;
    var pre := BlockPreamble(|payload|);
    assert EncodeBlock(payload) == pre + payload;
    assert EncodeBlock(payload) + tail == pre + (payload + tail);
    DecimalLength(|payload|, 9);
    HeaderOfEncoded(|payload|, payload + tail);
  }

  /**
   * Decoding an encoded payload followed by LF gives the payload back and leaves the rest untouched
   * exactly when the payload is shorter than 10^9 bytes, the limit nine length digits set.
   */
  lemma BlockRoundTrip(payload: Bytes, rest: Bytes)
    ensures ParseBlock(EncodeBlock(payload) + "\n" + rest) == Got(payload, rest) <==> |payload| < Pow10(9)
  {
    var buf := EncodeBlock(payload) + "\n" + rest;
    if |payload| < Pow10(9) {
      var tail := "\n" + rest;
      assert buf == EncodeBlock(payload) + tail;
      EncodedParts(payload, tail);
      var end := |BlockPreamble(|payload|)| + |payload|;
      assert buf[end] == buf[end..][0] && buf[end + 1..] == buf[end..][1..];
      assert tail[1..] == rest;
    } else if ParseBlock(buf).Got? {
      assert |ParseBlock(buf).value| < Pow10(9);
    }
  }

  function Zeros(k: nat): (r: Bytes)
    ensures |r| == k && forall i :: 0 <= i < k ==> r[i] == '0'
  {
    seq(k, _ => '0')
  }

  lemma {:induction false} ZerosCountNothing(k: nat, digits: Bytes)
    requires forall c | c in digits :: IsDigit(c)
    ensures forall c | c in Zeros(k) + digits :: IsDigit(c)
    ensures DigitsValue(Zeros(k) + digits) == DigitsValue(digits)
    decreases |digits| + k
  {
    var s := Zeros(k) + digits;
    if digits != "" {
      var n := |digits| - 1;
      assert forall c | c in digits[..n] :: c in digits;
      assert s[..|s| - 1] == Zeros(k) + digits[..n];
      ZerosCountNothing(k, digits[..n]);
    } else if k > 0 {
      assert Zeros(k) + "" == Zeros(k) && Zeros(k)[..k - 1] == Zeros(k - 1) && Zeros(k - 1) + "" == Zeros(k - 1);
      ZerosCountNothing(k - 1, "");
    } else {
      assert s == "";
    }
  }

  /** A length may be padded with zeros to any width up to nine digits. */
  lemma PaddedBlock(payload: Bytes, zeros: nat, rest: Bytes)
    requires zeros + |Decimal(|payload|)| <= 9
    ensures var digits := Zeros(zeros) + Decimal(|payload|);
            ParseBlock("#" + Decimal(|digits|) + digits + payload + "\n" + rest) == Got(payload, rest)
  {
    hide ParseInt, BlockHeader, DigitsValue, Decimal;
    var n := |payload|;
    var digits := Zeros(zeros) + Decimal(n);
    PaddedLength(zeros, n);
    var tail := payload + "\n" + rest;
    var buf := "#" + Decimal(|digits|) + digits + tail;
    PaddedHeader(digits, n, tail);
    var size := 2 + |digits|;
    assert buf == "#" + Decimal(|digits|) + digits + payload + "\n" + rest;
    assert buf[size..] == tail;
    assert buf[size..size + n] == tail[..n] == payload;
    assert buf[size + n] == tail[n] == '\n' && buf[size + n + 1..] == tail[n + 1..] == rest;
  }

  lemma PaddedLength(zeros: nat, n: nat)
    requires zeros + |Decimal(n)| <= 9
    ensures var digits := Zeros(zeros) + Decimal(n);
            && (forall c | c in digits :: IsDigit(c))
            && DigitsValue(digits) == n < Pow10(9)
  {
    hide Decimal, DigitsValue;
    var digits := Zeros(zeros) + Decimal(n);
    DigitsValueOfDecimal(n);
    ZerosCountNothing(zeros, Decimal(n));
    DigitsValueBound(digits);
    Pow10Monotone(|digits|, 9);
  }

  lemma PaddedHeader(digits: Bytes, n: nat, tail: Bytes)
    requires 1 <= |digits| <= 9 && (forall c | c in digits :: IsDigit(c)) && DigitsValue(digits) == n < Pow10(9)
    ensures |Decimal(|digits|)| == 1
    ensures BlockHeader("#" + Decimal(|digits|) + digits + tail) == Sized(2 + |digits|, n)
  {
    hide ParseInt, BlockHeader, DigitsValue;
    var buf := "#" + Decimal(|digits|) + digits + tail;
    assert Decimal(|digits|) == [(48 + |digits|) as char];
    assert buf[2..2 + |digits|] == digits;
    ParseDigits(digits);
    HeaderFrom(buf, digits, n);
  }

  /** What is an error: a block that does not begin with `#` and a digit but 0, or whose length is no count. */
  lemma BlockErrors(buf: Bytes)
    ensures ParseBlock(buf) == Malformed <==>
            && |buf| >= 2
            && (|| buf[0] != '#' || buf[1] !in "123456789"
                || var d := buf[1] as int - '0' as int;
                   |buf| >= 2 + d && (ParseInt(buf[2..2 + d]).None? || ParseInt(buf[2..2 + d]).value < 0))
  {
    hide ParseInt;
    assert |buf| >= 2 && '1' <= buf[1] <= '9' ==> "123456789"[buf[1] as int - '1' as int] == buf[1];
  }

  /** Without its LF a complete block is delivered all the same. */
  lemma BlockBare(payload: Bytes)
    requires |payload| < Pow10(9)
    ensures BareBlock(EncodeBlock(payload)) && ParseBlock(EncodeBlock(payload)) == Got(payload, "")
  {
    EncodedParts(payload, "");
    assert EncodeBlock(payload) + "" == EncodeBlock(payload);
    assert EncodeBlock(payload) == BlockPreamble(|payload|) + payload;
  }

  /** A proper prefix of an encoded block never fails and never yields a value. */
  lemma BlockPrefixNeedsMore(payload: Bytes, k: nat)
    requires |payload| < Pow10(9) && k < |EncodeBlock(payload)|
    ensures ParseBlock(EncodeBlock(payload)[..k]) == NeedMore
  {
    var buf := EncodeBlock(payload);
    var d := Decimal(|payload|);
    DecimalLength(|payload|, 9);
    assert Decimal(|d|) == [(48 + |d|) as char];
    if k >= 2 + |d| {
      assert buf[..k] == BlockPreamble(|payload|) + payload[..k - 2 - |d|];
      HeaderOfEncoded(|payload|, payload[..k - 2 - |d|]);
    }
  }

  // ---------------------------------------------------------------------------
  // Chunking
  // ---------------------------------------------------------------------------

  /** The block ended the buffer and the LF that belongs to it opens the next chunk. */
  predicate OrphanLf(mode: ReadMode, buf: Bytes, more: Bytes) {
    mode == Block && BareBlock(buf) && more != "" && more[0] == '\n'
  }

  lemma HeaderStable(buf: Bytes, more: Bytes)
    requires !BlockHeader(buf).Short?
    ensures BlockHeader(buf + more) == BlockHeader(buf)
  {
    hide ParseInt;
    if buf[0] == '#' && '1' <= buf[1] <= '9' {
      var digitCount := buf[1] as int - 48;
      assert (buf + more)[2..2 + digitCount] == buf[2..2 + digitCount];
    }
  }

  /** A malformed buffer stays malformed whatever arrives. */
  lemma MalformedStable(mode: ReadMode, buf: Bytes, more: Bytes)
    requires ParseReply(mode, buf) == Malformed
    ensures ParseReply(mode, buf + more) == Malformed
  {
    HeaderStable(buf, more);
  }

  lemma LineStable(buf: Bytes, more: Bytes)
    requires ParseLine(buf).Got?
    ensures ParseLine(buf + more) == Got(ParseLine(buf).value, ParseLine(buf).rest + more)
  {
    var i := IndexOf(buf, '\n');
    var all := buf + more;
    assert forall k :: 0 <= k <= i ==> all[k] == buf[k];
    assert all[..i] == buf[..i];
    assert all[i + 1..] == buf[i + 1..] + more;
  }

  lemma CutStable(h: Header, buf: Bytes, more: Bytes)
    requires CutBlock(h, buf).Got? && !Bare(h, buf)
    ensures CutBlock(h, buf + more) == Got(CutBlock(h, buf).value, CutBlock(h, buf).rest + more)
  {
    var end := h.headerSize + h.length;
    var all := buf + more;
    assert all[h.headerSize..end] == buf[h.headerSize..end];
    assert all[end] == buf[end];
    assert all[end + 1..] == buf[end + 1..] + more;
    assert all[end..] == buf[end..] + more;
  }

  lemma CutBareThen(h: Header, buf: Bytes, more: Bytes)
    requires Bare(h, buf)
    ensures var value := buf[h.headerSize..];
            && CutBlock(h, buf) == Got(value, "")
            && CutBlock(h, buf + more) ==
               Got(value, if more != "" && more[0] == '\n' then more[1..] else more)
  {
    var all := buf + more;
    assert all[h.headerSize..|buf|] == buf[h.headerSize..];
    assert buf[h.headerSize..|buf|] == buf[h.headerSize..];
    assert all[|buf|..] == more;
    assert buf[|buf|..] == "";
    assert more != "" ==> all[|buf|] == more[0] && all[|buf| + 1..] == more[1..];
  }

  /**
   * Later bytes leave a delivered reply alone and only lengthen the rest, except in one case: the LF
   * that closes a block arriving after the block was delivered. Then the LF stays in the buffer.
   */
  lemma GotStable(mode: ReadMode, buf: Bytes, more: Bytes)
    requires ParseReply(mode, buf).Got?
    ensures ParseReply(mode, buf + more) == Got(ParseReply(mode, buf).value, ParseReply(mode, buf).rest + more)
       <==> !OrphanLf(mode, buf, more)
    ensures OrphanLf(mode, buf, more) ==>
              && ParseReply(mode, buf) == Got(ParseReply(mode, buf).value, "")
              && ParseReply(mode, buf + more) == Got(ParseReply(mode, buf).value, more[1..])
  {
    hide BlockHeader;
    hide ParseLine;
    if mode == Line {
      LineStable(buf, more);
    } else if BareBlock(buf) {
      HeaderStable(buf, more);
      CutBareThen(BlockHeader(buf), buf, more);
      assert "" + more == more;
      assert more != "" ==> |more[1..]| != |more|;
    } else {
      HeaderStable(buf, more);
      CutStable(BlockHeader(buf), buf, more);
    }
  }

  /** The stray LF is then read as an empty line, or spoils the next block. */
  lemma OrphanLfEffect(tail: Bytes)
    ensures ParseReply(Line, "\n" + tail) == Got("", tail)
    ensures tail != "" ==> ParseReply(Block, "\n" + tail) == Malformed
  {
    var s := "\n" + tail;
    assert s[..0] == "" && s[1..] == tail;
  }
}
