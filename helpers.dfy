/**
 * The league SDK's stateless helpers: UTC timestamp checks, `type:id` sender strings,
 * the retryable-code test, match points and number parity.
 */
module Helpers {
  import opened Wrappers
  import opened Text
  import Parity

  /** A calendar instant as `datetime.now(timezone.utc)` reports it. */
  datatype DateTime = DateTime(year: nat, month: nat, day: nat, hour: nat, minute: nat, second: nat)
  {
    predicate Valid()
    {
      1000 <= year <= 9999 && 1 <= month <= 12 && 1 <= day <= 31
      && hour < 24 && minute < 60 && second < 60
    }
  }

  /** `%Y-%m-%dT%H:%M:%SZ` for the instant `now` (the clock read is the parameter). */
  function UtcNow(now: DateTime): string
    requires now.Valid()
  {
    Decimal(now.year) + "-" + Pad2(now.month) + "-" + Pad2(now.day)
    + "T" + Pad2(now.hour) + ":" + Pad2(now.minute) + ":" + Pad2(now.second) + "Z"
  }

  /** `\d{4}-\d{2}-\d{2}T\d{2}:\d{2}:\d{2}`: digits are not range-checked. */
  predicate DateTimeShape(s: string)
  {
    |s| == 19
    && IsDigit(s[0]) && IsDigit(s[1]) && IsDigit(s[2]) && IsDigit(s[3]) && s[4] == '-'
    && IsDigit(s[5]) && IsDigit(s[6]) && s[7] == '-'
    && IsDigit(s[8]) && IsDigit(s[9]) && s[10] == 'T'
    && IsDigit(s[11]) && IsDigit(s[12]) && s[13] == ':'
    && IsDigit(s[14]) && IsDigit(s[15]) && s[16] == ':'
    && IsDigit(s[17]) && IsDigit(s[18])
  }

  predicate ZForm(s: string)
  {
    |s| == 20 && DateTimeShape(s[..19]) && s[19] == 'Z'
  }

  predicate OffsetForm(s: string)
  {
    |s| == 25 && DateTimeShape(s[..19]) && s[19..] == "+00:00"
  }

  /**
   * The text a `^...$` pattern must match in full: Python's `$` also matches
   * just before one final newline, so that newline is not part of the match.
   */
  function AnchoredText(s: string): (t: string)
    ensures t == s || s == t + "\n"
  {
    if |s| > 0 && s[|s| - 1] == '\n' then s[..|s| - 1] else s
  }

  /** `validate_utc`: false for an empty timestamp, else one of the two UTC patterns. */
  predicate ValidateUtc(timestamp: string)
  {
    timestamp != "" && (ZForm(AnchoredText(timestamp)) || OffsetForm(AnchoredText(timestamp)))
  }

  /** The two patterns as suffix conditions on the text after the date-time shape. */
  lemma FormsBySuffix(t: string)
    ensures ZForm(t) <==> |t| >= 20 && DateTimeShape(t[..19]) && t[19..] == "Z"
    ensures OffsetForm(t) <==> |t| >= 20 && DateTimeShape(t[..19]) && t[19..] == "+00:00"
  {
    if |t| >= 20 && t[19..] == "Z" {
      assert |t| == 20 && t[19] == t[19..][0];
    }
    if |t| == 20 && t[19] == 'Z' {
      assert t[19..] == [t[19]];
    }
  }

  /** The accepted strings, written out: the date-time shape, then `Z` or `+00:00`, then at most one newline. */
  lemma ValidateUtcExactly(s: string)
    ensures ValidateUtc(s) <==>
      |s| >= 20 && DateTimeShape(s[..19])
      && (s[19..] == "Z" || s[19..] == "+00:00" || s[19..] == "Z\n" || s[19..] == "+00:00\n")
  {
    var t := AnchoredText(s);
    FormsBySuffix(t);
    if t == s {
      if |s| >= 20 {
        assert s[19..][|s| - 20] == s[|s| - 1] != '\n';
      }
    } else {
      assert s == t + "\n";
      if |s| >= 20 {
        assert s[..19] == t[..19];
        assert s[19..] == t[19..] + "\n";
        assert s[19..][|s| - 20] == '\n';
      }
    }
  }

  /** Field values are not range-checked: month 99 and second 99 pass. */
  lemma DigitsNotRangeChecked()
    ensures ValidateUtc("2025-99-99T99:99:99Z")
  {
    var s := "2025-99-99T99:99:99Z";
    assert AnchoredText(s) == s;
    var shape := s[..19];
    assert shape == "2025-99-99T99:99:99";
    assert DateTimeShape(shape);
    assert ZForm(s);
  }

  /** A non-zero offset and a missing zone are both rejected. */
  lemma OtherZonesRejected()
    ensures !ValidateUtc("2025-01-15T10:30:00+02:00")
    ensures !ValidateUtc("2025-01-15T10:30:00")
  {
    var s := "2025-01-15T10:30:00+02:00";
    assert AnchoredText(s) == s;
    assert s[19..] == "+02:00";
    var u := "2025-01-15T10:30:00";
    assert AnchoredText(u) == u;
  }

  lemma FourDigits(n: nat)
    requires 1000 <= n <= 9999
    ensures |Decimal(n)| == 4
  {
    var a := n / 10;
    var b := a / 10;
    assert 100 <= a <= 999 && 10 <= b <= 99 && b / 10 < 10;
    DecimalStep(n);
    DecimalStep(a);
    DecimalStep(b);
  }

  /** A number from 10 on has one digit more than its tenth. */
  lemma DecimalStep(n: nat)
    requires n >= 10
    ensures |Decimal(n)| == |Decimal(n / 10)| + 1
  {
  }

  /** Four digits and five pairs of digits joined by the pattern's separators have the date-time shape. */
  lemma JoinedShape(y: string, mo: string, d: string, h: string, mi: string, se: string)
    requires |y| == 4 && |mo| == 2 && |d| == 2 && |h| == 2 && |mi| == 2 && |se| == 2
    requires AllDigits(y) && AllDigits(mo) && AllDigits(d) && AllDigits(h) && AllDigits(mi) && AllDigits(se)
    ensures DateTimeShape(y + "-" + mo + "-" + d + "T" + h + ":" + mi + ":" + se)
  {
    var t := y + "-" + mo + "-" + d + "T" + h + ":" + mi + ":" + se;
    assert t[0] == y[0] && t[1] == y[1] && t[2] == y[2] && t[3] == y[3];
    assert t[5] == mo[0] && t[6] == mo[1] && t[8] == d[0] && t[9] == d[1];
    assert t[11] == h[0] && t[12] == h[1] && t[14] == mi[0] && t[15] == mi[1];
    assert t[17] == se[0] && t[18] == se[1];
  }

  /** Every timestamp `utc_now` produces passes `validate_utc`. */
  lemma UtcNowValidates(now: DateTime)
    requires now.Valid()
    ensures ValidateUtc(UtcNow(now))
  {
    FourDigits(now.year);
    var y, mo, d := Decimal(now.year), Pad2(now.month), Pad2(now.day);
    var h, mi, se := Pad2(now.hour), Pad2(now.minute), Pad2(now.second);
    var t := y + "-" + mo + "-" + d + "T" + h + ":" + mi + ":" + se;
    JoinedShape(y, mo, d, h, mi, se);
    var s := UtcNow(now);
    assert s == t + "Z";
    assert s[..19] == t;
    assert AnchoredText(s) == s;
  }

  /** `parse_sender`: raises unless the sender holds a ':', then splits at the first one. */
  function ParseSender(sender: string): (r: Result<(string, string), string>)
    ensures r.Err? <==> ':' !in sender
    ensures r.Err? ==> r.error == "Invalid sender format: " + sender
    ensures r.Ok? ==> ':' !in r.value.0 && sender == r.value.0 + ":" + r.value.1
  {
    if ':' !in sender then Err("Invalid sender format: " + sender)
    else Ok(SplitFirst(sender, ':'))
  }

  /** `format_sender`. */
  function FormatSender(agentType: string, agentId: string): string
  {
    agentType + ":" + agentId
  }

  /** Formatting then parsing gives back the parts, whenever the type holds no ':' (the id may). */
  lemma ParseFormatRoundTrip(agentType: string, agentId: string)
    requires ':' !in agentType
    ensures ParseSender(FormatSender(agentType, agentId)) == Ok((agentType, agentId))
  {
    SplitFirstAfter(agentType, ':', agentId);
  }

  /** Parsing then formatting gives back any sender that holds a ':'. */
  lemma FormatParseRoundTrip(sender: string)
    requires ':' in sender
    ensures ParseSender(sender).Ok?
    ensures FormatSender(ParseSender(sender).value.0, ParseSender(sender).value.1) == sender
  {
  }

  /** `is_retryable_error`: timeouts (E001) and connection errors (E009). */
  predicate IsRetryableError(errorCode: string)
  {
    errorCode == "E001" || errorCode == "E009"
  }

  /** `calculate_points`: the points table with 0 for every result it does not list. */
  function CalculatePoints(result: string): (points: nat)
    ensures points == 3 <==> result == "WIN"
    ensures points == 1 <==> result == "DRAW"
    ensures points == 0 <==> result != "WIN" && result != "DRAW"
  {
    if result == "WIN" then 3
    else if result == "DRAW" then 1
    else if result == "LOSS" then 0
    else if result == "TECHNICAL_LOSS" then 0
    else 0
  }

  /** `determine_parity`. */
  function DetermineParity(number: int): (p: string)
    ensures p == Parity.Name(Parity.OfNumber(number))
    ensures p == "even" <==> number % 2 == 0
  {
    if number % 2 == 0 then "even" else "odd"
  }
}
