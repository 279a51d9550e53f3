/**
 * Timestamp pre-processing and the time-of-day bucket.
 * `datetime.fromisoformat` itself is calendar logic of the host library; it is
 * passed in as a partial function that yields the fields the script reads.
 */
module Timestamp {
  import opened Wrappers
  import opened JsonValues

  type Hour = h: int | 0 <= h < 24

  /** ISO weekday: 1 is Monday, 7 is Sunday. */
  type Weekday = d: int | 1 <= d <= 7 witness 1

  /**
   * What the script uses of a parsed datetime: `.hour`, `.date().isoformat()`,
   * `.isoweekday()` and `.isoformat()`.
   */
  datatype Stamp = Stamp(hour: Hour, date: string, weekday: Weekday, iso: string)

  /** `datetime.fromisoformat`: None stands for the ValueError it raises on malformed text. */
  type IsoParser = string -> Option<Stamp>

  /** Python's `str.isspace` for one character (the whitespace code points of Unicode that Python strips). */
  predicate IsSpace(c: char) {
    var n := c as int;
    || 9 <= n <= 13
    || 28 <= n <= 32
    || n == 0x85 || n == 0xA0 || n == 0x1680
    || 0x2000 <= n <= 0x200A
    || n == 0x2028 || n == 0x2029 || n == 0x202F || n == 0x205F || n == 0x3000
  }

  predicate AllSpace(s: string) {
    forall k :: 0 <= k < |s| ==> IsSpace(s[k])
  }

  /** Length of the longest all-whitespace prefix of s. */
  function LeadingSpace(s: string): (n: nat)
    ensures n <= |s| && AllSpace(s[..n])
    ensures n < |s| ==> !IsSpace(s[n])
    decreases |s|
  {
    if s != [] && IsSpace(s[0]) then 1 + LeadingSpace(s[1..]) else 0
  }

  /** Length of the longest all-whitespace suffix of s. */
  function TrailingSpace(s: string): (n: nat)
    ensures n <= |s| && AllSpace(s[|s| - n..])
    ensures n < |s| ==> !IsSpace(s[|s| - n - 1])
    decreases |s|
  {
    if s != [] && IsSpace(s[|s| - 1]) then
      var init := s[..|s| - 1];
      var m := TrailingSpace(init);
      assert s[|s| - (m + 1)..] == init[|init| - m..] + [s[|s| - 1]];
      m + 1
    else 0
  }

  /** `s.strip()`: s with its surrounding whitespace removed. */
  function Strip(s: string): (t: string)
    ensures LeadingSpace(s) + |t| <= |s|
    ensures t == s[LeadingSpace(s)..LeadingSpace(s) + |t|]
    ensures AllSpace(s[LeadingSpace(s) + |t|..])
    ensures t == [] || (!IsSpace(t[0]) && !IsSpace(t[|t| - 1]))
  {
    var rest := s[LeadingSpace(s)..];
    rest[..|rest| - TrailingSpace(rest)]
  }

  predicate EndsWithZ(s: string) {
    |s| > 0 && s[|s| - 1] == 'Z'
  }

  /** The text handed to `fromisoformat`: stripped, then one trailing 'Z' (if any) removed. */
  function Preprocess(s: string): (t: string)
    ensures t == Strip(s) || t + "Z" == Strip(s)
    ensures t + "Z" == Strip(s) <==> EndsWithZ(Strip(s))
  {
    var u := Strip(s);
    if EndsWithZ(u) then u[..|u| - 1] else u
  }

  /**
   * `parse_timestamp(ts)`: a falsy input gives None; a truthy non-string has no
   * `.strip` (AttributeError); a string is pre-processed and parsed, and a
   * rejected parse is a ValueError.
   */
  function ParseTimestamp(parse: IsoParser, raw: Json): (r: Result<Option<Stamp>>)
    ensures r == Ok(None) <==> !Truthy(raw)
    ensures Truthy(raw) && !raw.Str? ==> r == Err(AttributeError)
    ensures raw.Str? && Truthy(raw) ==>
              match parse(Preprocess(raw.s))
              case Some(st) => r == Ok(Some(st))
              case None => r == Err(ValueError)
  {
    if !Truthy(raw) then Ok(None)
    else if !raw.Str? then Err(AttributeError)
    else match parse(Preprocess(raw.s))
      case Some(st) => Ok(Some(st))
      case None => Err(ValueError)
  }

  const BucketLabels: seq<string> := ["Morning", "Afternoon", "Evening", "Late Night"]

  /** The bucket of an hour: one of four labels, by the boundaries 5, 12, 17 and 22. */
  function HourBucket(h: Hour): (name: string)
    ensures name in BucketLabels
    ensures name == "Morning" <==> 5 <= h <= 11
    ensures name == "Afternoon" <==> 12 <= h <= 16
    ensures name == "Evening" <==> 17 <= h <= 21
    ensures name == "Late Night" <==> h <= 4 || 22 <= h
  {
    if 5 <= h < 12 then "Morning"
    else if 12 <= h < 17 then "Afternoon"
    else if 17 <= h < 22 then "Evening"
    else "Late Night"
  }

  /** `time_of_day_bucket(dt)`: None for None, else the bucket of `dt.hour`. */
  function TimeOfDayBucket(dt: Option<Stamp>): (r: Option<string>)
    ensures r.None? <==> dt.None?
    ensures dt.Some? ==> r == Some(HourBucket(dt.value.hour))
  {
    match dt
    case None => None
    case Some(st) => Some(HourBucket(st.hour))
  }

  /** Stripping is idempotent: the stripped text has no surrounding whitespace left. */
  lemma StripIdempotent(s: string)
    ensures Strip(Strip(s)) == Strip(s)
  {
    var t := Strip(s);
    assert LeadingSpace(t) == 0;
    if t != [] {
      assert TrailingSpace(t) == 0;
    }
  }

  /** Text that is already trimmed and does not end in 'Z' reaches the parser unchanged. */
  lemma PreprocessKeepsCleanText(s: string)
    requires s == [] || (!IsSpace(s[0]) && !IsSpace(s[|s| - 1]))
    requires !EndsWithZ(s)
    ensures Preprocess(s) == s
  {
    assert LeadingSpace(s) == 0;
    if s != [] {
      assert TrailingSpace(s) == 0;
    }
  }

  /** Only one trailing 'Z' is dropped: a stripped text ending in "ZZ" still ends in 'Z'. */
  lemma PreprocessDropsOneZ(s: string)
    requires |Strip(s)| >= 2 && Strip(s)[|Strip(s)| - 2..] == "ZZ"
    ensures EndsWithZ(Preprocess(s)) && Preprocess(s) + "Z" == Strip(s)
  {
  }

  /**
   * Whitespace around the text and a single 'Z' suffix do not change what is
   * parsed; this includes a bare "Z" (parsed as "") and a text that itself ends in 'Z'.
   */
  lemma PreprocessIgnoresPaddingAndZ(core: string, before: string, after: string)
    requires AllSpace(before) && AllSpace(after)
    requires core == [] || !IsSpace(core[0])
    ensures Preprocess(before + core + "Z" + after) == core
  {
    var s := before + core + "Z" + after;
    var t := core + "Z";
    assert s == before + t + after;
    assert t[|t| - 1] == 'Z' && !IsSpace(t[0]);
    LeadingSpaceOfPadded(before, t, after);
    assert t[..|t| - 1] == core;
  }

  /** Helper: the strip of `before + t + after` is t when t has no surrounding whitespace. */
  lemma LeadingSpaceOfPadded(before: string, t: string, after: string)
    requires AllSpace(before) && AllSpace(after)
    requires t != [] && !IsSpace(t[0]) && !IsSpace(t[|t| - 1])
    ensures Strip(before + t + after) == t
  {
    var s := before + t + after;
    LeadingSpaceOfPrefix(before, t + after);
    assert s == before + (t + after);
    assert s[|before|..] == t + after;
    TrailingSpaceOfSuffix(t, after);
  }

  lemma {:induction false} LeadingSpaceOfPrefix(before: string, rest: string)
    requires AllSpace(before)
    requires rest != [] && !IsSpace(rest[0])
    ensures LeadingSpace(before + rest) == |before|
    decreases |before|
  {
    if before != [] {
      var s := before + rest;
      assert s[0] == before[0] && IsSpace(s[0]);
      assert s[1..] == before[1..] + rest;
      LeadingSpaceOfPrefix(before[1..], rest);
      assert LeadingSpace(s) == 1 + LeadingSpace(s[1..]);
    } else {
      assert before + rest == rest;
    }
  }

  lemma {:induction false} TrailingSpaceOfSuffix(t: string, after: string)
    requires AllSpace(after)
    requires t != [] && !IsSpace(t[|t| - 1])
    ensures TrailingSpace(t + after) == |after|
    decreases |after|
  {
    if after != [] {
      assert (t + after)[..|t + after| - 1] == t + after[..|after| - 1];
      TrailingSpaceOfSuffix(t, after[..|after| - 1]);
    } else {
      assert t + after == t;
    }
  }
}
