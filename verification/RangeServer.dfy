/**
 The range endpoint of the entry service and the Range header the downloader sends to it,
 at the level of characters.
 */
module RangeServer {
  import opened Common
  import opened Chunks

  // ---------------------------------------------------------------------------------------
  // Decimal text: fmt.Sprintf("%d") and the %d verb of fmt.Sscanf
  // ---------------------------------------------------------------------------------------

  predicate IsDigit(c: char) {
    '0' <= c <= '9'
  }

  function DigitOf(n: nat): char
    requires n < 10
  {
    ['0', '1', '2', '3', '4', '5', '6', '7', '8', '9'][n]
  }

  function Decimal(n: nat): string {
    if n < 10 then [DigitOf(n)] else Decimal(n / 10) + [DigitOf(n % 10)]
  }

  function FormatInt(n: int): string {
    if n < 0 then "-" + Decimal(-n) else Decimal(n)
  }

  /** The longest prefix of digits. */
  function DigitRun(s: string): (n: nat)
    ensures n <= |s|
  {
    if |s| == 0 || !IsDigit(s[0]) then 0 else 1 + DigitRun(s[1..])
  }

  function DigitsValue(s: string): nat
    requires forall c | c in s :: IsDigit(c)
  {
    if s == [] then 0
    else
      assert IsDigit(s[|s| - 1]);
      10 * DigitsValue(s[..|s| - 1]) + (s[|s| - 1] as int - '0' as int)
  }

  lemma {:induction false} DigitRunIsDigits(s: string)
    ensures forall c | c in s[..DigitRun(s)] :: IsDigit(c)
  {
    if |s| > 0 && IsDigit(s[0]) {
      DigitRunIsDigits(s[1..]);
      assert s[..DigitRun(s)] == [s[0]] + s[1..][..DigitRun(s[1..])];
    }
  }

  function SkipSpaces(s: string): string {
    if |s| > 0 && (s[0] == ' ' || s[0] == '\t') then SkipSpaces(s[1..]) else s
  }

  datatype Scanned = Scanned(value: int, rest: string)

  /** %d: optional spaces, an optional sign, at least one digit, a value that fits int64. */
  function ScanInt(input: string): Option<Scanned> {
    var s := SkipSpaces(input);
    var signed := |s| > 0 && (s[0] == '-' || s[0] == '+');
    var digits := if signed then s[1..] else s;
    var n := DigitRun(digits);
    DigitRunIsDigits(digits);
    if n == 0 then None
    else
      var magnitude: int := DigitsValue(digits[..n]);
      var value: int := if signed && s[0] == '-' then -magnitude else magnitude;
      if -MAX_INT64 - 1 <= value <= MAX_INT64 then Some(Scanned(value, digits[n..])) else None
  }

  const PREFIX := "bytes="

  /** fmt.Sscanf(header, "bytes=%d-%d", ...): text after the second number is ignored. */
  function ParseRange(header: string): Option<(int, int)> {
    if |header| < |PREFIX| || header[..|PREFIX|] != PREFIX then None
    else ParsePair(header[|PREFIX|..])
  }

  function ParsePair(text: string): Option<(int, int)> {
    match ScanInt(text)
    case None => None
    case Some(first) =>
      if |first.rest| == 0 || first.rest[0] != '-' then None
      else
        match ScanInt(first.rest[1..])
        case None => None
        case Some(last) => Some((first.value, last.value))
  }

  /** The header the downloader sends. */
  function RangeHeader(first: int, last: int): string {
    PREFIX + FormatInt(first) + "-" + FormatInt(last)
  }

  lemma DigitOfIsDigit(n: nat)
    requires n < 10
    ensures IsDigit(DigitOf(n)) && DigitOf(n) as int - '0' as int == n
  {}

  lemma {:induction false} DecimalIsDigits(n: nat)
    ensures |Decimal(n)| > 0
    ensures forall c | c in Decimal(n) :: IsDigit(c)
    ensures DigitsValue(Decimal(n)) == n
  {
    DigitOfIsDigit(n % 10);
    if n < 10 {
      assert Decimal(n)[..0] == [];
    } else {
      DecimalIsDigits(n / 10);
      assert Decimal(n)[..|Decimal(n)| - 1] == Decimal(n / 10);
    }
  }

  lemma {:induction false} DigitRunStops(digits: string, rest: string)
    requires forall c | c in digits :: IsDigit(c)
    requires rest == "" || !IsDigit(rest[0])
    ensures DigitRun(digits + rest) == |digits|
  {
    if digits == "" {
      assert digits + rest == rest;
    } else {
      assert (digits + rest)[1..] == digits[1..] + rest;
      DigitRunStops(digits[1..], rest);
    }
  }

  /** Scanning reads back exactly the number that was printed, unless it overflows, and stops where it ended. */
  lemma ScanReadsDecimal(n: nat, rest: string)
    requires rest == "" || !IsDigit(rest[0])
    ensures ScanInt(Decimal(n) + rest) == if n <= MAX_INT64 then Some(Scanned(n, rest)) else None
  {
    var text := Decimal(n);
    DecimalIsDigits(n);
    DigitRunStops(text, rest);
    assert IsDigit(text[0]) && (text + rest)[0] == text[0];
    assert SkipSpaces(text + rest) == text + rest;
    assert (text + rest)[..|text|] == text && (text + rest)[|text|..] == rest;
  }

  /** A minus sign belongs to the number. */
  lemma ScanReadsNegative(n: nat)
    ensures var scanned := ScanInt("-" + Decimal(n)); scanned.Some? ==> scanned.value == Scanned(-(n as int), "")
  {
    var text := Decimal(n);
    DecimalIsDigits(n);
    DigitRunStops(text, "");
    assert SkipSpaces("-" + text) == "-" + text && ("-" + text)[1..] == text;
    assert text + "" == text && text[..|text|] == text && text[|text|..] == "";
  }

  lemma ParseAfterPrefix(rest: string)
    ensures ParseRange(PREFIX + rest) == ParsePair(rest)
  {
    var header := PREFIX + rest;
    assert header[..|PREFIX|] == PREFIX && header[|PREFIX|..] == rest;
  }

  /** The header survives the trip to the server, unless a number is too large for it. */
  lemma RangeRoundTrip(first: nat, last: nat)
    ensures ParseRange(RangeHeader(first, last))
         == if first <= MAX_INT64 && last <= MAX_INT64 then Some((first as int, last as int)) else None
  {
    var tail := "-" + Decimal(last);
    assert RangeHeader(first, last) == PREFIX + (Decimal(first) + tail);
    ParseAfterPrefix(Decimal(first) + tail);
    ScanReadsDecimal(first, tail);
    assert tail[1..] == Decimal(last) + "";
    ScanReadsDecimal(last, "");
  }

  // ---------------------------------------------------------------------------------------
  // The endpoint
  // ---------------------------------------------------------------------------------------

  datatype Response =
    | Whole(body: Bytes)                                                    // 200
    | Partial(first: int, last: int, size: nat, length: int, body: Bytes)   // 206 with Content-Range and Content-Length
    | NotSatisfiable(size: nat)                                             // 416

  /** What io.LimitReader delivers after a seek: nothing when the limit is not positive. */
  function Limited(content: Bytes, start: nat, limit: int): Bytes
    requires start <= |content|
  {
    if limit <= 0 then []
    else if start + limit <= |content| then content[start..start + limit]
    else content[start..]
  }

  function Serve(content: Bytes, header: string): Response {
    if header == "" then Whole(content)
    else
      match ParseRange(header)
      case None => NotSatisfiable(|content|)
      case Some((first, last)) =>
        if first < 0 || first >= |content| then NotSatisfiable(|content|)
        else
          var clamped := if last >= |content| then |content| - 1 else last;
          Partial(first, clamped, |content|, clamped - first + 1, Limited(content, first, clamped - first + 1))
  }

  /** A response as section 14.4 of RFC 9110 wants it: a valid range, and as many bytes as announced. */
  predicate WellFormed(r: Response, content: Bytes) {
    r.Partial? ==>
      && 0 <= r.first <= r.last < r.size == |content|
      && r.length == |r.body|
      && r.body == content[r.first..r.last + 1]
  }

  /** The header names a range that starts inside the file. */
  predicate StartsInside(content: Bytes, header: string) {
    ParseRange(header).Some? && 0 <= ParseRange(header).value.0 < |content|
  }

  /** A range whose start is accepted and whose end lies before it. */
  predicate IsReversed(content: Bytes, header: string) {
    var range := ParseRange(header);
    header != "" && range.Some? && 0 <= range.value.0 < |content| && range.value.1 < range.value.0
  }

  /** The handler: parse, check, clamp, seek, stream. */
  method HandleServeFile(content: Bytes, header: string) returns (r: Response)
    ensures r == Serve(content, header)
    ensures r.Whole? <==> header == ""
    ensures r.Whole? ==> r.body == content
    ensures r.NotSatisfiable? <==> header != "" && !StartsInside(content, header)
    ensures WellFormed(r, content) <==> !IsReversed(content, header)
    ensures r.Partial? ==>
              var (first, last) := ParseRange(header).value;
              && r.first == first && (r.last == last || (last >= |content| && r.last == |content| - 1))
              && forall k | 0 <= k < |r.body| :: first + k <= last && r.body[k] == content[first + k]
  {
    if header == "" {
      return Whole(content);
    }
    var range := ParseRange(header);
    if range.None? {
      return NotSatisfiable(|content|);
    }
    var start, end := range.value.0, range.value.1;
    if start < 0 || start >= |content| {
      return NotSatisfiable(|content|);
    }
    if end >= |content| {
      end := |content| - 1;
    }
    var contentLength := end - start + 1;
    r := Partial(start, end, |content|, contentLength, Limited(content, start, contentLength));
  }

  /**
   The endpoint checks where a range starts but not where it ends: its answer is malformed (a
   Content-Length that is not the body's) exactly for reversed ranges, which section 14.1.1
   of RFC 9110 calls invalid.
   */
  lemma WellFormedIff(content: Bytes, header: string)
    ensures WellFormed(Serve(content, header), content) <==> !IsReversed(content, header)
  {}

  /** The three forms of a range in section 14.1.2 of RFC 9110. */
  datatype Spec = Closed(first: nat, last: nat) | Open(first: nat) | Suffix(length: nat)

  function Text(spec: Spec): string {
    match spec
    case Closed(first, last) => RangeHeader(first, last)
    case Open(first) => PREFIX + Decimal(first) + "-"
    case Suffix(length) => PREFIX + "-" + Decimal(length)
  }

  /** When that section calls a range satisfiable for a file of `size` bytes. */
  predicate IsSatisfiable(spec: Spec, size: nat) {
    match spec
    case Closed(first, last) => first <= last && first < size
    case Open(first) => first < size
    case Suffix(length) => length > 0
  }

  /** The open-ended form is refused. */
  lemma OpenIsRefused(content: Bytes, first: nat)
    ensures Serve(content, Text(Open(first))) == NotSatisfiable(|content|)
  {
    assert Text(Open(first)) == PREFIX + (Decimal(first) + "-");
    ParseAfterPrefix(Decimal(first) + "-");
    ScanReadsDecimal(first, "-");
    assert "-"[1..] == "" && ScanInt("") == None;
  }

  /** The suffix form is refused: its sign is taken for that of a first number. */
  lemma SuffixIsRefused(content: Bytes, length: nat)
    ensures Serve(content, Text(Suffix(length))) == NotSatisfiable(|content|)
  {
    assert Text(Suffix(length)) == PREFIX + ("-" + Decimal(length));
    ParseAfterPrefix("-" + Decimal(length));
    ScanReadsNegative(length);
  }

  /**
   Which satisfiable ranges of RFC 9110 are served: exactly the closed ones whose numbers fit
   int64. Those get the bytes they select; every other satisfiable range is answered with 416.
   */
  lemma SatisfiableIsServedIff(content: Bytes, spec: Spec)
    requires IsSatisfiable(spec, |content|)
    ensures var r := Serve(content, Text(spec));
            && (r.Partial? <==> spec.Closed? && spec.last <= MAX_INT64)
            && (!r.Partial? ==> r == NotSatisfiable(|content|))
            && (r.Partial? ==> r.body == content[spec.first..if spec.last < |content| then spec.last + 1 else |content|])
  {
    match spec
    case Closed(first, last) =>
      RangeRoundTrip(first, last);
    case Open(first) => OpenIsRefused(content, first);
    case Suffix(length) => SuffixIsRefused(content, length);
  }

  /** For every chunk of every plan the server returns exactly the chunk's bytes, never 416. */
  lemma ChunksAreServedExactly(content: Bytes, chunks: seq<Chunk>, i: nat)
    requires |content| <= MAX_INT64 && IsPlan(chunks, |content|) && i < |chunks|
    ensures 0 <= chunks[i].first <= chunks[i].last < |content|
    ensures Serve(content, RangeHeader(chunks[i].first, chunks[i].last))
         == Partial(chunks[i].first, chunks[i].last, |content|, chunks[i].last - chunks[i].first + 1,
                    content[chunks[i].first..chunks[i].last + 1])
  {
    PlanIsInside(chunks, |content|, i);
    RangeRoundTrip(chunks[i].first, chunks[i].last);
  }
}
