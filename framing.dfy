/**
 * The coordinator protocol: fixed-width header frames announcing a message
 * kind, and the decimal count a STOP_QUEUE frame carries.  The header width
 * (HEADER_SIZE) is a parameter.  `DecodeHeader` is the reading side: it is the
 * reference against which the frames the downloader writes are checked.
 */
module Framing {
  import opened Types

  const PostFilenameQueue: string := "POST_FILENAME_QUEUE"
  const StopQueue: string := "STOP_QUEUE"

  /** What one header frame announces. */
  datatype Header = PostFilenames | Stop(count: int)

  /** One transmission to the coordinator: a header frame or a path payload. */
  datatype Transmission = Frame(text: string) | Payload(paths: seq<Path>)

  function Spaces(n: nat): (r: string)
    ensures |r| == n
    ensures forall i :: 0 <= i < n ==> r[i] == ' '
  {
    seq(n, _ => ' ')
  }

  /** Python's `f"{tag:<{width}}"`: pad on the right with spaces up to `width`; never truncate. */
  function LeftJustify(tag: string, width: nat): (r: string)
    ensures |r| == if |tag| < width then width else |tag|
    ensures r[..|tag|] == tag
    ensures forall i :: |tag| <= i < |r| ==> r[i] == ' '
  {
    if |tag| < width then tag + Spaces(width - |tag|) else tag
  }

  /** Drop trailing spaces. */
  function TrimRight(s: string): (r: string)
    ensures |r| <= |s| && r == s[..|r|]
    ensures r == [] || r[|r| - 1] != ' '
    ensures forall i :: |r| <= i < |s| ==> s[i] == ' '
  {
    if s != [] && s[|s| - 1] == ' ' then TrimRight(s[..|s| - 1]) else s
  }

  lemma TrimRightOfJustified(tag: string, width: nat)
    requires tag != [] && tag[|tag| - 1] != ' '
    ensures TrimRight(LeftJustify(tag, width)) == tag
  {
  }

  predicate IsDigit(c: char) {
    '0' <= c <= '9'
  }

  predicate AllDigits(s: string) {
    forall i :: 0 <= i < |s| ==> IsDigit(s[i])
  }

  function DigitChar(d: nat): (c: char)
    requires d < 10
    ensures IsDigit(c)
  {
    (('0' as int) + d) as char
  }

  function DigitValue(c: char): (d: nat)
    requires IsDigit(c)
    ensures d < 10
  {
    (c as int) - ('0' as int)
  }

  /** The decimal digits of `n`, most significant first, as Python's `str` writes them. */
  function NatToDecimal(n: nat): (r: string)
    ensures r != [] && AllDigits(r)
    ensures |r| > 1 ==> r[0] != '0'
    decreases n
  {
    if n < 10 then [DigitChar(n)] else NatToDecimal(n / 10) + [DigitChar(n % 10)]
  }

  /** Python's `str` of an integer: a leading '-' for negative values. */
  function IntToDecimal(n: int): string {
    if n < 0 then "-" + NatToDecimal(-n) else NatToDecimal(n)
  }

  function ParseDigits(s: string): nat
    requires AllDigits(s)
  {
    if s == [] then 0 else ParseDigits(s[..|s| - 1]) * 10 + DigitValue(s[|s| - 1])
  }

  /** Read back a decimal integer, or None when `s` is not one. */
  function ParseDecimal(s: string): Option<int> {
    if s == [] then None
    else if s[0] == '-' then
      if |s| > 1 && AllDigits(s[1..]) then Some(-(ParseDigits(s[1..]) as int)) else None
    else if AllDigits(s) then Some(ParseDigits(s))
    else None
  }

  lemma {:induction false} ParseNatToDecimal(n: nat)
    ensures ParseDigits(NatToDecimal(n)) == n
    decreases n
  {
    if n >= 10 {
      ParseNatToDecimal(n / 10);
      var s := NatToDecimal(n);
      assert s[..|s| - 1] == NatToDecimal(n / 10);
      assert DigitValue(s[|s| - 1]) == n % 10;
    }
  }

  /** The count written into a STOP_QUEUE frame reads back unchanged. */
  lemma DecimalRoundTrip(n: int)
    ensures ParseDecimal(IntToDecimal(n)) == Some(n)
  {
    if n < 0 {
      var s := IntToDecimal(n);
      assert s[1..] == NatToDecimal(-n);
      ParseNatToDecimal(-n);
    } else {
      ParseNatToDecimal(n);
    }
  }

  /** The frame the downloader writes for `h` (download_process.py lines 28 and 190). */
  function EncodeHeader(h: Header, headerSize: nat): string {
    match h
    case PostFilenames => LeftJustify(PostFilenameQueue, headerSize)
    case Stop(count) => LeftJustify(StopQueue, headerSize) + IntToDecimal(count)
  }

  /** The coordinator's reading of a frame: the first `headerSize` characters hold the tag. */
  function DecodeHeader(frame: string, headerSize: nat): Option<Header> {
    if |frame| < headerSize then None
    else
      var tag := TrimRight(frame[..headerSize]);
      var rest := frame[headerSize..];
      if tag == PostFilenameQueue && rest == [] then Some(PostFilenames)
      else if tag == StopQueue then
        match ParseDecimal(rest)
        case Some(count) => Some(Stop(count))
        case None => None
      else None
  }

  /** When both tags fit in the header width, every frame reads back as the header it encodes. */
  lemma HeaderRoundTrip(h: Header, headerSize: nat)
    requires |PostFilenameQueue| <= headerSize
    ensures DecodeHeader(EncodeHeader(h, headerSize), headerSize) == Some(h)
  {
    match h
    case PostFilenames =>
      var f := EncodeHeader(h, headerSize);
      assert f[..headerSize] == f;
      TrimRightOfJustified(PostFilenameQueue, headerSize);
    case Stop(count) =>
      var j := LeftJustify(StopQueue, headerSize);
      var f := EncodeHeader(h, headerSize);
      assert f[..headerSize] == j;
      assert f[headerSize..] == IntToDecimal(count);
      TrimRightOfJustified(StopQueue, headerSize);
      DecimalRoundTrip(count);
      assert StopQueue != PostFilenameQueue;
  }

  /**
   * A header width below the tag's length leaves the tag unpadded, so the
   * first `headerSize` characters hold only part of it and the frame is unreadable.
   */
  lemma {:induction false} NarrowHeaderUnreadable(count: int, headerSize: nat)
    requires headerSize < |StopQueue|
    ensures DecodeHeader(EncodeHeader(Stop(count), headerSize), headerSize) == None
  {
    var f := EncodeHeader(Stop(count), headerSize);
    var tag := TrimRight(f[..headerSize]);
    assert f[..headerSize] == StopQueue[..headerSize];
    assert |tag| <= headerSize;
    assert tag != StopQueue && tag != PostFilenameQueue;
  }
}
