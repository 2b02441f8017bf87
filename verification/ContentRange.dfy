/** `Content-Range` values (section 14.4 of RFC 9110) as apps/downloader/src/download.rs reads them. */
module ContentRange {
  import opened Base
  import opened Segments

  datatype Range = Range(start: nat, end: nat, total: Option<nat>)

  predicate IsDigit(c: char) { '0' <= c <= '9' }

  predicate Digits(s: string) { forall i | 0 <= i < |s| :: IsDigit(s[i]) }

  function Value(s: string): nat
    requires Digits(s)
  {
    if s == "" then 0 else 10 * Value(s[..|s| - 1]) + (s[|s| - 1] - '0') as nat
  }

  /** Rust's `str::parse::<u64>`: an optional plus sign, then at least one digit, and no overflow. */
  function ParseU64(s: string): Option<nat> {
    var digits := if s != "" && s[0] == '+' then s[1..] else s;
    if digits != "" && Digits(digits) && Value(digits) <= U64_MAX then Some(Value(digits)) else None
  }

  function PrintNat(n: nat): (s: string)
    ensures s != "" && Digits(s)
  {
    var last := ['0' + (n % 10) as char];
    if n < 10 then last else PrintNat(n / 10) + last
  }

  lemma {:induction false} ValueOfPrint(n: nat)
    ensures Value(PrintNat(n)) == n
  {
    var s := PrintNat(n);
    if n >= 10 {
      ValueOfPrint(n / 10);
      assert s[..|s| - 1] == PrintNat(n / 10);
    }
  }

  lemma ParsePrintU64(n: nat)
    requires n <= U64_MAX
    ensures ParseU64(PrintNat(n)) == Some(n)
  {
    ValueOfPrint(n);
  }

  lemma NumbersHaveNoSeparator(s: string)
    requires ParseU64(s).Some?
    ensures '-' !in s && '/' !in s && s != "*"
  {
    var digits := if s[0] == '+' then s[1..] else s;
    assert forall i | 0 <= i < |s| :: s[i] == '+' || (exists j | 0 <= j < |digits| :: s[i] == digits[j]) by {
      forall i | 0 <= i < |s| ensures s[i] == '+' || (exists j | 0 <= j < |digits| :: s[i] == digits[j]) {
        if s[0] == '+' {
          assert i > 0 ==> s[i] == digits[i - 1];
        } else {
          assert s[i] == digits[i];
        }
      }
    }
  }

  /** `str::split_once`: around the first occurrence. */
  function SplitOnce(s: string, c: char): (r: Option<(string, string)>)
    ensures r.Some? ==> s == r.value.0 + [c] + r.value.1 && c !in r.value.0
    ensures r.None? ==> c !in s
  {
    if s == "" then None
    else if s[0] == c then assert s == [] + [c] + s[1..]; Some(("", s[1..]))
    else
      match SplitOnce(s[1..], c)
      case None => None
      case Some((a, b)) => assert s == [s[0]] + a + [c] + b; Some(([s[0]] + a, b))
  }

  lemma {:induction false} SplitAtFirst(a: string, c: char, b: string)
    requires c !in a
    ensures SplitOnce(a + [c] + b, c) == Some((a, b))
  {
    var s := a + [c] + b;
    if a == "" {
      assert s[1..] == b;
    } else {
      assert s[1..] == a[1..] + [c] + b;
      SplitAtFirst(a[1..], c, b);
      assert [a[0]] + a[1..] == a;
    }
  }

  const PREFIX: string := "bytes "

  function ParseTotal(s: string): Option<Option<nat>> {
    if s == "*" then Some(None)
    else if ParseU64(s).Some? then Some(ParseU64(s))
    else None
  }

  /** `parse_content_range` on a header that is present. */
  function Parse(value: string): Option<Range> {
    if !(PREFIX <= value) then None
    else
      match SplitOnce(value[|PREFIX|..], '/')
      case None => None
      case Some((range, totalText)) =>
        match SplitOnce(range, '-')
        case None => None
        case Some((startText, endText)) =>
          var start, end, total := ParseU64(startText), ParseU64(endText), ParseTotal(totalText);
          if start.None? || end.None? || total.None? then None
          else if end.value < start.value || (total.value.Some? && total.value.value <= end.value) then None
          else Some(Range(start.value, end.value, total.value))
  }

  /** The bounds every accepted value satisfies. */
  predicate WellFormed(r: Range) {
    r.start <= r.end <= U64_MAX && (r.total.Some? ==> r.end < r.total.value <= U64_MAX)
  }

  /** The text spells the range: three numbers, or two and an asterisk, around fixed separators. */
  ghost predicate Spells(value: string, startText: string, endText: string, totalText: string, r: Range) {
    && value == PREFIX + (startText + "-" + endText + "/" + totalText)
    && ParseU64(startText) == Some(r.start) && ParseU64(endText) == Some(r.end)
    && ParseTotal(totalText) == Some(r.total)
  }

  lemma SplitsOf(value: string, startText: string, endText: string, totalText: string, r: Range)
    requires Spells(value, startText, endText, totalText, r)
    ensures PREFIX <= value
    ensures SplitOnce(value[|PREFIX|..], '/') == Some((startText + "-" + endText, totalText))
    ensures SplitOnce(startText + "-" + endText, '-') == Some((startText, endText))
  {
    NumbersHaveNoSeparator(startText);
    NumbersHaveNoSeparator(endText);
    var rest := startText + "-" + endText + "/" + totalText;
    assert value[|PREFIX|..] == rest;
    assert rest == (startText + "-" + endText) + ['/'] + totalText;
    SplitAtFirst(startText + "-" + endText, '/', totalText);
    SplitAtFirst(startText, '-', endText);
  }

  /** The header spells `r` in some digits. */
  ghost predicate Names(value: string, r: Range) { exists a, b, c :: Spells(value, a, b, c, r) }

  /** A header is accepted as `r` exactly when it spells `r` and `r` is within bounds. */
  lemma ParseExact(value: string, r: Range)
    ensures Parse(value) == Some(r) <==> WellFormed(r) && Names(value, r)
  {
    if Parse(value) == Some(r) {
      var (range, totalText) := SplitOnce(value[|PREFIX|..], '/').value;
      var (startText, endText) := SplitOnce(range, '-').value;
      assert value == PREFIX + value[|PREFIX|..];
      assert Spells(value, startText, endText, totalText, r);
    }
    if WellFormed(r) && Names(value, r) {
      var a, b, c :| Spells(value, a, b, c, r);
      SplitsOf(value, a, b, c, r);
    }
  }

  function Print(r: Range): string {
    PREFIX + (PrintNat(r.start) + "-" + PrintNat(r.end) + "/" + if r.total.Some? then PrintNat(r.total.value) else "*")
  }

  /** Parsing inverts printing on every well-formed range. */
  lemma ParsePrint(r: Range)
    requires WellFormed(r)
    ensures Parse(Print(r)) == Some(r)
  {
    var totalText := if r.total.Some? then PrintNat(r.total.value) else "*";
    ParsePrintU64(r.start);
    ParsePrintU64(r.end);
    if r.total.Some? {
      ParsePrintU64(r.total.value);
      NumbersHaveNoSeparator(totalText);
    }
    assert Spells(Print(r), PrintNat(r.start), PrintNat(r.end), totalText, r);
    ParseExact(Print(r), r);
  }

  /** `valid_range_response`: the status is 206 and the header names the range that was asked for. */
  predicate ValidRangeResponse(partial: bool, header: Option<string>, start: nat, end: Option<nat>, total: Option<nat>) {
    && partial && header.Some?
    && var r := Parse(header.value);
       && r.Some? && r.value.start == start
       && (end.Some? ==> r.value.end == end.value)
       && (total.Some? ==> r.value.total == total)
  }

  /** A response is accepted for a pending segment exactly when its header spells the segment's remaining bytes, in
      whatever digits, and these lie in the file. */
  lemma SegmentResponseExact(partial: bool, header: Option<string>, s: Segment, total: nat)
    requires s.next < s.end
    ensures ValidRangeResponse(partial, header, s.next, Some(s.end - 1), Some(total)) <==>
            && partial && header.Some? && s.end <= total <= U64_MAX
            && Names(header.value, Range(s.next, s.end - 1, Some(total)))
  {
    if header.Some? {
      var r := Parse(header.value);
      ParseExact(header.value, Range(s.next, s.end - 1, Some(total)));
      assert r == Some(Range(s.next, s.end - 1, Some(total))) <==>
             r.Some? && r.value.start == s.next && r.value.end == s.end - 1 && r.value.total == Some(total);
    }
  }

  /** In particular the header that prints them. */
  lemma SegmentResponseAccepted(s: Segment, total: nat)
    requires s.next < s.end <= total <= U64_MAX
    ensures ValidRangeResponse(true, Some(Print(Range(s.next, s.end - 1, Some(total)))), s.next, Some(s.end - 1), Some(total))
  {
    ParsePrint(Range(s.next, s.end - 1, Some(total)));
  }
}
