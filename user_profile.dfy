/**
 * The player profile page: the account-age and last-seen texts, the display
 * form of the social links, the rating badge's label and progress arrow, and
 * the page state that a profile fetch or a refresh updates. Instants are
 * integer milliseconds; the current instant is a parameter.
 */
module UserProfile {
  import opened Wrappers
  import opened Text

  const HourMs: int := 3600000
  const DayMs: int := 86400000
  const WeekMs: int := 604800000

  function Abs(x: int): nat { if x < 0 then -x else x }

  // ---------------------------------------------------------------------
  // Account age
  // ---------------------------------------------------------------------

  /** Whole days between the two instants, rounded up. */
  function AgeDays(createdAt: int, now: int): (days: nat)
    ensures days * DayMs >= Abs(now - createdAt) > days * DayMs - DayMs
  {
    (Abs(now - createdAt) + DayMs - 1) / DayMs
  }

  /** An age in years of 365 days and months of 30 days. */
  datatype Age = Age(years: nat, months: nat)

  /** Years first, then months in the days left over. */
  function AgeOf(days: nat): (a: Age)
    ensures a.years * 365 <= days < a.years * 365 + 365
    ensures a.months * 30 <= days - a.years * 365 < a.months * 30 + 30
    ensures a.months <= 12
  {
    Age(days / 365, (days % 365) / 30)
  }

  /** " <unit>", with an "s" when plural holds. */
  function Phrase(unit: string, plural: bool): string
  {
    " " + unit + (if plural then "s" else "")
  }

  /** The account-age text of an age: the years when there are any, then the months when there are any or no years. */
  function AgeText(age: Age): string
  {
    var years, months := age.years, age.months;
    if years > 0 then
      Show(years) + Phrase("year", years > 1)
      + (if months > 0 then ", " + Show(months) + Phrase("month", months > 1) else "")
    else
      Show(months) + Phrase("month", months != 1)
  }

  /** For a positive count, "more than one" and "not one" choose the same plural. */
  lemma PhraseNoun(unit: string, n: nat)
    ensures Phrase(unit, n != 1) == " " + Noun(unit, n)
    ensures n > 0 ==> Phrase(unit, n > 1) == " " + Noun(unit, n)
  {
  }

  /** getAccountAge at instant now. */
  function AccountAge(createdAt: int, now: int): string
  {
    AgeText(AgeOf(AgeDays(createdAt, now)))
  }

  /**
   * Reads an account-age text back into years and months. A years phrase is
   * written only for a positive count, so "0 years" is not an age text.
   */
  function ReadAge(s: string): Option<Age>
  {
    match ReadCount(s, "year")
    case Some((years, rest)) =>
      if years == 0 then None
      else if rest == "" then Some(Age(years, 0))
      else if StartsWith(rest, ", ") then
        match ReadCount(rest[2..], "month")
        case Some((months, tail)) => if tail == "" && months > 0 then Some(Age(years, months)) else None
        case None => None
      else None
    case None =>
      match ReadCount(s, "month")
      case Some((months, tail)) => if tail == "" then Some(Age(0, months)) else None
      case None => None
  }

  lemma YearsMonthsText(years: nat, months: nat)
    requires years > 0 && months > 0
    ensures AgeText(Age(years, months))
            == Show(years) + " " + Noun("year", years) + (", " + (Show(months) + " " + Noun("month", months)))
  {
    var y, m := Show(years), Show(months);
    var yw, mw := Noun("year", years), Noun("month", months);
    assert AgeText(Age(years, months)) == y + Phrase("year", years > 1) + (", " + m + Phrase("month", months > 1));
    PhraseNoun("year", years);
    PhraseNoun("month", months);
    Regroup(y, yw, m, mw);
  }

  lemma Regroup(y: string, yw: string, m: string, mw: string)
    ensures y + (" " + yw) + (", " + m + (" " + mw)) == y + " " + yw + (", " + (m + " " + mw))
  {
  }

  lemma YearsMonthsRoundTrip(age: Age)
    requires age.years > 0 && age.months > 0
    ensures ReadAge(AgeText(age)) == Some(age)
  {
    var years, months := age.years, age.months;
    var tail := Show(months) + " " + Noun("month", months);
    var rest := ", " + tail;
    var text := AgeText(age);
    YearsMonthsText(years, months);
    ReadCountRoundTrip(years, "year", rest);
    assert ReadCount(text, "year") == Some((years, rest));
    assert rest[2..] == tail + "";
    ReadCountRoundTrip(months, "month", "");
    assert ReadCount(rest[2..], "month") == Some((months, ""));
    assert rest[..2] == ", ";
  }

  lemma YearsRoundTrip(age: Age)
    requires age.years > 0 && age.months == 0
    ensures ReadAge(AgeText(age)) == Some(age)
  {
    PhraseNoun("year", age.years);
    assert AgeText(age) == Show(age.years) + " " + Noun("year", age.years) + "";
    ReadCountRoundTrip(age.years, "year", "");
  }

  lemma MonthsRoundTrip(age: Age)
    requires age.years == 0
    ensures AgeText(age) == Show(age.months) + " " + Noun("month", age.months)
    ensures ReadAge(AgeText(age)) == Some(age)
  {
    PhraseNoun("month", age.months);
    assert AgeText(age) == Show(age.months) + " " + Noun("month", age.months) + "";
    ReadCountOtherUnit(age.months, "month", "year", "");
    ReadCountRoundTrip(age.months, "month", "");
  }

  /**
   * The account-age text names the years when there are any, the months when
   * there are any or no years, each with the plural exactly when its count
   * is not 1; reading it back gives the age it was made from.
   */
  lemma AccountAgeRoundTrip(createdAt: int, now: int)
    ensures ReadAge(AccountAge(createdAt, now)) == Some(AgeOf(AgeDays(createdAt, now)))
    ensures AgeOf(AgeDays(createdAt, now)).years == 0 ==>
              AccountAge(createdAt, now) == Show(AgeOf(AgeDays(createdAt, now)).months) + " "
                                            + Noun("month", AgeOf(AgeDays(createdAt, now)).months)
  {
    AgeTextRoundTrip(AgeOf(AgeDays(createdAt, now)));
  }

  /** Every age's text reads back to that age; with no years it is the months phrase alone. */
  lemma AgeTextRoundTrip(age: Age)
    ensures ReadAge(AgeText(age)) == Some(age)
    ensures age.years == 0 ==> AgeText(age) == Show(age.months) + " " + Noun("month", age.months)
  {
    if age.years > 0 && age.months > 0 {
      YearsMonthsRoundTrip(age);
    } else if age.years > 0 {
      YearsRoundTrip(age);
    } else {
      MonthsRoundTrip(age);
    }
  }

  /** No text that opens with a zero years phrase is an account-age text. */
  lemma ReadAgeZeroYears(rest: string)
    ensures ReadAge("0 years" + rest) == None
  {
    assert Show(0) == "0";
    ReadCountRoundTrip(0, "year", rest);
    assert "0 years" + rest == Show(0) + " " + Noun("year", 0) + rest;
  }

  /** A profile created at this very instant is "0 months" old. */
  lemma AccountAgeNew(t: int)
    ensures AccountAge(t, t) == "0 months"
  {
    assert AgeDays(t, t) == 0;
    assert Show(0) == "0";
  }

  /** With 30-day months, 360 to 364 days read as twelve months, not a year. */
  lemma TwelveMonths()
    ensures AgeOf(360) == Age(0, 12)
  {
  }

  // ---------------------------------------------------------------------
  // Last seen
  // ---------------------------------------------------------------------

  /** formatLastSeen at instant now; localeDate is the locale's rendering of the seen date. */
  function FormatLastSeen(seenAt: int, now: int, localeDate: string): string
  {
    var diffMs := now - seenAt;
    var diffMins := diffMs / MinuteMs;
    var diffHours := diffMins / 60;
    var diffDays := diffHours / 24;
    if diffMins < 1 then "Online now"
    else if diffMins < 60 then
      "Last seen " + Show(diffMins) + " minute" + (if diffMins == 1 then "" else "s") + " ago"
    else if diffHours < 24 then
      "Last seen " + Show(diffHours) + " hour" + (if diffHours == 1 then "" else "s") + " ago"
    else if diffDays < 7 then
      "Last seen " + Show(diffDays) + " day" + (if diffDays == 1 then "" else "s") + " ago"
    else "Last seen on " + localeDate
  }

  /** What a last-seen text says. */
  datatype Seen = OnlineNow | Ago(count: nat, unit: string) | OnDate(date: string)

  /**
   * The reference reading of a gap of diff milliseconds: online under a
   * minute, then whole minutes under an hour, whole hours under a day,
   * whole days under a week, and the date beyond.
   */
  function ExpectedSeen(diff: int, localeDate: string): Seen
  {
    if diff < MinuteMs then OnlineNow
    else if diff < HourMs then Ago(diff / MinuteMs, "minute")
    else if diff < DayMs then Ago(diff / HourMs, "hour")
    else if diff < WeekMs then Ago(diff / DayMs, "day")
    else OnDate(localeDate)
  }

  function ReadAgo(s: string, unit: string): Option<Seen>
  {
    match ReadCount(s, unit)
    case Some((n, rest)) => if rest == " ago" then Some(Ago(n, unit)) else None
    case None => None
  }

  /** Reads the "<n> <unit>[s] ago" part of a last-seen text, for any of the three units. */
  function ReadAgoAny(rest: string): Option<Seen>
  {
    if ReadAgo(rest, "minute").Some? then ReadAgo(rest, "minute")
    else if ReadAgo(rest, "hour").Some? then ReadAgo(rest, "hour")
    else ReadAgo(rest, "day")
  }

  /** Reads a last-seen text back. */
  function ReadLastSeen(s: string): Option<Seen>
  {
    if s == "Online now" then Some(OnlineNow)
    else if StartsWith(s, "Last seen on ") then Some(OnDate(s[13..]))
    else if StartsWith(s, "Last seen ") then ReadAgoAny(s[10..])
    else None
  }

  lemma ReadLastSeenAgo(body: string)
    requires |body| > 0 && IsDigit(body[0])
    ensures ReadLastSeen("Last seen " + body) == ReadAgoAny(body)
  {
    var text := "Last seen " + body;
    assert text[10..] == body;
    assert text[10] == body[0];
    assert text != "Online now" by {
      assert text[0] != "Online now"[0];
    }
    assert !StartsWith(text, "Last seen on ") by {
      assert "Last seen on "[10] == 'o';
    }
    assert StartsWith(text, "Last seen ") by {
      assert text[..10] == "Last seen ";
    }
  }

  lemma ReadAgoText(n: nat, unit: string)
    requires unit == "minute" || unit == "hour" || unit == "day"
    ensures ReadLastSeen("Last seen " + Show(n) + " " + Noun(unit, n) + " ago") == Some(Ago(n, unit))
  {
    var body := Show(n) + " " + Noun(unit, n) + " ago";
    assert "Last seen " + Show(n) + " " + Noun(unit, n) + " ago" == "Last seen " + body;
    ReadLastSeenAgo(body);
    ReadCountRoundTrip(n, unit, " ago");
    if unit != "minute" {
      ReadCountOtherUnit(n, unit, "minute", " ago");
    }
    if unit == "day" {
      ReadCountOtherUnit(n, unit, "hour", " ago");
    }
  }

  /** The chained floors of the source agree with the thresholds in milliseconds. */
  lemma FloorMinutes(diff: int)
    ensures diff / MinuteMs / 60 == diff / HourMs
    ensures diff / MinuteMs / 60 / 24 == diff / DayMs
    ensures diff / MinuteMs < 1 <==> diff < MinuteMs
    ensures diff / MinuteMs < 60 <==> diff < HourMs
    ensures diff / HourMs < 24 <==> diff < DayMs
    ensures diff / DayMs < 7 <==> diff < WeekMs
  {
  }

  /**
   * The threshold ladder: the last-seen text, read back, is the reference
   * reading of the gap between the two instants, with the singular exactly
   * when the count is 1.
   */
  lemma LastSeenLadder(seenAt: int, now: int, localeDate: string)
    ensures ReadLastSeen(FormatLastSeen(seenAt, now, localeDate)) == Some(ExpectedSeen(now - seenAt, localeDate))
  {
    var diff := now - seenAt;
    var text := FormatLastSeen(seenAt, now, localeDate);
    FloorMinutes(diff);
    if diff < MinuteMs {
      assert text == "Online now";
    } else if diff < HourMs {
      var n := diff / MinuteMs;
      assert text == "Last seen " + Show(n) + " " + Noun("minute", n) + " ago";
      ReadAgoText(n, "minute");
    } else if diff < DayMs {
      var n := diff / HourMs;
      assert text == "Last seen " + Show(n) + " " + Noun("hour", n) + " ago";
      ReadAgoText(n, "hour");
    } else if diff < WeekMs {
      var n := diff / DayMs;
      assert text == "Last seen " + Show(n) + " " + Noun("day", n) + " ago";
      ReadAgoText(n, "day");
    } else {
      assert text == "Last seen on " + localeDate;
      assert text[13..] == localeDate;
    }
  }

  /** "Online now" exactly under a minute, a seen-time in the future included. */
  lemma LastSeenOnline(seenAt: int, now: int, localeDate: string)
    ensures FormatLastSeen(seenAt, now, localeDate) == "Online now" <==> now - seenAt < MinuteMs
  {
    LastSeenLadder(seenAt, now, localeDate);
  }

  /**
   * String.prototype.replace with a string pattern and an empty replacement:
   * drops the first occurrence. The contract states the prefix case, which
   * the last-seen card uses, and that a text without the pattern is unchanged.
   */
  function ReplaceFirst(s: string, pattern: string): (r: string)
    ensures StartsWith(s, pattern) ==> pattern + r == s
    ensures |s| < |pattern| ==> r == s
    ensures (forall i :: 0 <= i <= |s| ==> !StartsWith(s[i..], pattern)) ==> r == s
    ensures |r| <= |s|
    decreases |s|
  {
    if StartsWith(s, pattern) then
      assert s[0..] == s;
      s[|pattern|..]
    else if s == [] then s
    else [s[0]] + ReplaceFirst(s[1..], pattern)
  }

  /** The value of the last-seen card: "Now" when the text's first word is "Online", else the text without "Last seen ". */
  function LastSeenStat(text: string): string
  {
    if Split(text, ' ')[0] == "Online" then "Now" else ReplaceFirst(text, "Last seen ")
  }

  lemma FirstWord(word: string, rest: string)
    requires ' ' !in word
    ensures Split(word + " " + rest, ' ')[0] == word
  {
    SplitPrefix(word, " " + rest, ' ');
    assert word + " " + rest == word + (" " + rest);
    assert (" " + rest)[1..] == rest;
    assert Split(" " + rest, ' ') == [""] + Split(rest, ' ');
  }

  lemma StatOnline()
    ensures LastSeenStat("Online now") == "Now"
  {
    assert "Online now" == "Online" + " " + "now";
    FirstWord("Online", "now");
  }

  lemma StatAgo(body: string)
    ensures LastSeenStat("Last seen " + body) == body
  {
    var text := "Last seen " + body;
    assert text == "Last" + " " + ("seen " + body);
    FirstWord("Last", "seen " + body);
    assert |"Last"| != |"Online"|;
    assert text[..10] == "Last seen ";
    assert text[10..] == body;
  }

  /** Every last-seen text other than "Online now" starts with "Last seen ". */
  lemma LastSeenPrefix(seenAt: int, now: int, localeDate: string)
    requires now - seenAt >= MinuteMs
    ensures FormatLastSeen(seenAt, now, localeDate) == "Last seen " + FormatLastSeen(seenAt, now, localeDate)[10..]
  {
    var text := FormatLastSeen(seenAt, now, localeDate);
    LastSeenLadder(seenAt, now, localeDate);
    assert ReadLastSeen(text).Some? && ReadLastSeen(text) != Some(OnlineNow);
    assert StartsWith(text, "Last seen on ") ==> text[..10] == "Last seen on "[..10];
    assert StartsWith(text, "Last seen ");
    assert text == text[..10] + text[10..];
  }

  /**
   * The card shows "Now" for a user seen under a minute ago, and otherwise
   * the last-seen text with its leading "Last seen " cut off.
   */
  lemma LastSeenStatValue(seenAt: int, now: int, localeDate: string)
    ensures now - seenAt < MinuteMs ==> LastSeenStat(FormatLastSeen(seenAt, now, localeDate)) == "Now"
    ensures now - seenAt >= MinuteMs ==>
              "Last seen " + LastSeenStat(FormatLastSeen(seenAt, now, localeDate)) == FormatLastSeen(seenAt, now, localeDate)
  {
    var text := FormatLastSeen(seenAt, now, localeDate);
    LastSeenOnline(seenAt, now, localeDate);
    if now - seenAt < MinuteMs {
      StatOnline();
    } else {
      LastSeenPrefix(seenAt, now, localeDate);
      StatAgo(text[10..]);
    }
  }

  // ---------------------------------------------------------------------
  // Social links
  // ---------------------------------------------------------------------

  /** The scheme the display form drops: "https://" or "http://" at the start, if any. */
  function SchemePrefix(link: string): string
  {
    if StartsWith(link, "https://") then "https://"
    else if StartsWith(link, "http://") then "http://"
    else ""
  }

  function DropScheme(link: string): string
  {
    link[|SchemePrefix(link)|..]
  }

  /** The slash the display form drops: one "/" at the end of what is left, if any. */
  function TrailingSlash(s: string): string
  {
    if |s| > 0 && s[|s| - 1] == '/' then "/" else ""
  }

  /** The display text of a link: without one leading scheme and one trailing slash. */
  function DisplayLink(link: string): string
  {
    var rest := DropScheme(link);
    rest[..|rest| - |TrailingSlash(rest)|]
  }

  /** The scheme dropped is "https://" or "http://" exactly when the link starts with it. */
  lemma SchemePrefixCases(link: string)
    ensures SchemePrefix(link) == "https://" <==> StartsWith(link, "https://")
    ensures SchemePrefix(link) == "http://" <==> StartsWith(link, "http://")
    ensures SchemePrefix(link) == "" <==> !StartsWith(link, "https://") && !StartsWith(link, "http://")
    ensures StartsWith(link, SchemePrefix(link))
  {
    if StartsWith(link, "https://") {
      assert link[4] == 's' != "http://"[4];
    }
  }

  lemma DropSchemeSplit(link: string)
    ensures link == SchemePrefix(link) + DropScheme(link)
  {
    SchemePrefixCases(link);
    var p := SchemePrefix(link);
    assert link[..|p|] == p;
    assert link == link[..|p|] + link[|p|..];
  }

  lemma DropSlashSplit(rest: string)
    ensures rest == rest[..|rest| - |TrailingSlash(rest)|] + TrailingSlash(rest)
  {
    var q := TrailingSlash(rest);
    if q == "/" {
      assert rest[|rest| - 1..] == q;
    }
    assert rest == rest[..|rest| - |q|] + rest[|rest| - |q|..];
  }

  /**
   * Only the scheme and the trailing slash are removed: the link is its
   * scheme, then its display text, then the slash.
   */
  lemma DisplayLinkReassembles(link: string)
    ensures SchemePrefix(link) + DisplayLink(link) + TrailingSlash(DropScheme(link)) == link
  {
    var p := SchemePrefix(link);
    var rest := DropScheme(link);
    var q := TrailingSlash(rest);
    DropSchemeSplit(link);
    DropSlashSplit(rest);
    assert DisplayLink(link) == rest[..|rest| - |q|];
    assert p + rest[..|rest| - |q|] + q == p + (rest[..|rest| - |q|] + q);
  }

  /** A link with neither a scheme nor a trailing slash is displayed as it is. */
  lemma DisplayLinkPlain(link: string)
    requires !StartsWith(link, "https://") && !StartsWith(link, "http://")
    requires link == [] || link[|link| - 1] != '/'
    ensures DisplayLink(link) == link
  {
  }

  /** One rendered social link: where it points and what it shows. */
  datatype LinkView = LinkView(href: string, text: string)

  /** The social links of a profile: the links field split on single spaces. */
  function SocialLinks(links: string): seq<LinkView>
  {
    if links == "" then []
    else
      var pieces := Split(links, ' ');
      seq(|pieces|, i requires 0 <= i < |pieces| => LinkView(pieces[i], DisplayLink(pieces[i])))
  }

  /**
   * One link per space-separated piece, in order, each pointing at its piece
   * and showing its display form; joining the pieces by spaces gives the
   * links field back.
   */
  lemma SocialLinksCover(links: string)
    requires links != ""
    ensures |SocialLinks(links)| == Occurrences(links, ' ') + 1
    ensures forall i :: 0 <= i < |SocialLinks(links)| ==>
              SocialLinks(links)[i] == LinkView(Split(links, ' ')[i], DisplayLink(Split(links, ' ')[i]))
    ensures Join(Split(links, ' '), ' ') == links
  {
    JoinSplit(links, ' ');
  }

  // ---------------------------------------------------------------------
  // Rating badge
  // ---------------------------------------------------------------------

  datatype BadgeStyle = BadgeStyle(bg: string, caption: string)

  const DefaultBg: string := "bg-gray-100 text-gray-800"

  /** The style of a rating badge for a rating category (the variants table, with its fallback). */
  function VariantStyle(variant: string): BadgeStyle
  {
    if variant == "bullet" then BadgeStyle("bg-amber-100 text-amber-800", "Bullet")
    else if variant == "blitz" then BadgeStyle("bg-blue-100 text-blue-800", "Blitz")
    else if variant == "rapid" then BadgeStyle("bg-green-100 text-green-800", "Rapid")
    else if variant == "classical" then BadgeStyle("bg-purple-100 text-purple-800", "Classical")
    else if variant == "correspondence" then BadgeStyle("bg-indigo-100 text-indigo-800", "Correspondence")
    else if variant == "puzzle" then BadgeStyle("bg-pink-100 text-pink-800", "Puzzle")
    else BadgeStyle(DefaultBg, variant)
  }

  predicate KnownVariant(variant: string)
  {
    variant in {"bullet", "blitz", "rapid", "classical", "correspondence", "puzzle"}
  }

  function Upper(c: char): char
  {
    if 'a' <= c <= 'z' then (c as int - 32) as char else c
  }

  function Capitalize(s: string): string
  {
    if s == [] then s else [Upper(s[0])] + s[1..]
  }

  /** Capitalising a key that starts with a lower-case letter upper-cases only that letter. */
  lemma CapitalizeKey(key: string, first: char, rest: string, caption: string)
    requires key == [first] + rest && 'a' <= first <= 'z'
    requires caption == [(first as int - 32) as char] + rest
    ensures Capitalize(key) == caption
  {
    assert key[1..] == rest;
  }

  /** A known category is labelled by its capitalised key, in a colour of its own. */
  lemma KnownVariantLabel(variant: string)
    requires KnownVariant(variant)
    ensures VariantStyle(variant).caption == Capitalize(variant)
    ensures VariantStyle(variant).bg != DefaultBg
  {
    if variant == "bullet" {
      CapitalizeKey(variant, 'b', "ullet", "Bullet");
    } else if variant == "blitz" {
      CapitalizeKey(variant, 'b', "litz", "Blitz");
    } else if variant == "rapid" {
      CapitalizeKey(variant, 'r', "apid", "Rapid");
    } else if variant == "classical" {
      CapitalizeKey(variant, 'c', "lassical", "Classical");
    } else if variant == "correspondence" {
      CapitalizeKey(variant, 'c', "orrespondence", "Correspondence");
    } else {
      CapitalizeKey(variant, 'p', "uzzle", "Puzzle");
    }
  }

  /** Any other key labels itself, in grey. */
  lemma OtherVariantLabel(variant: string)
    requires !KnownVariant(variant)
    ensures VariantStyle(variant) == BadgeStyle(DefaultBg, variant)
  {
  }

  /** The progress indicator: its colour and its text. */
  datatype Indicator = Indicator(colour: string, text: string)

  /** Shown only for a nonzero progress: an up arrow in green or a down arrow in red, then the absolute value. */
  function ProgressIndicator(progress: int): Option<Indicator>
  {
    if progress != 0 then
      Some(Indicator(
        if progress > 0 then "text-green-600" else "text-red-600",
        (if progress > 0 then "\U{2191}" else "\U{2193}") + " " + Show(Abs(progress))))
    else None
  }

  /** Reads an indicator text back into a signed progress. */
  function ReadProgress(text: string): Option<int>
  {
    if |text| >= 2 && (text[0] == '\U{2191}' || text[0] == '\U{2193}') && text[1] == ' ' then
      match ReadNat(text[2..])
      case Some((n, rest)) =>
        var value: int := if text[0] == '\U{2191}' then n as int else -(n as int);
        if rest == "" then Some(value) else None
      case None => None
    else None
  }

  /** The indicator is absent exactly for zero progress, and its text gives the progress back, sign included. */
  lemma ProgressRoundTrip(progress: int)
    ensures ProgressIndicator(progress).None? <==> progress == 0
    ensures progress != 0 ==> ReadProgress(ProgressIndicator(progress).value.text) == Some(progress)
    ensures progress != 0 ==> (ProgressIndicator(progress).value.colour == "text-green-600" <==> progress > 0)
    ensures progress != 0 ==> (ProgressIndicator(progress).value.colour == "text-red-600" <==> progress < 0)
  {
    if progress != 0 {
      var text := ProgressIndicator(progress).value.text;
      var digits := Show(Abs(progress));
      assert text[2..] == digits + "";
      ReadShow(Abs(progress), "");
    }
  }

  /** A rating category of a profile; prog is absent when the server omits it. */
  datatype Perf = Perf(rating: int, prog: Option<int>)

  /** The progress passed to the badge: the server's value, 0 when it is missing. */
  function ProgressOf(perf: Perf): int
  {
    match perf.prog
    case Some(p) => p
    case None => 0
  }

  /** A rating category shows the progress arrow exactly when the server reported a nonzero progress. */
  lemma RatingBadgeProgress(perf: Perf)
    ensures ProgressIndicator(ProgressOf(perf)).Some? <==> perf.prog.Some? && perf.prog.value != 0
    ensures perf.prog.Some? && perf.prog.value != 0 ==>
              ReadProgress(ProgressIndicator(ProgressOf(perf)).value.text) == perf.prog
  {
    ProgressRoundTrip(ProgressOf(perf));
  }

  // ---------------------------------------------------------------------
  // Page state
  // ---------------------------------------------------------------------

  /** The fields of a profile record the page uses. */
  datatype Profile = Profile(
    username: string,
    createdAt: int,
    seenAt: int,
    links: string,
    perfs: seq<(string, Perf)>)

  const ProfileErrorMessage: string := "Failed to fetch profile. Please check the username and try again."

  /** What a call of fetchProfile comes to: skipped by its guard, resolved with the data, or rejected. */
  datatype FetchOutcome = Skipped | Fetched(data: Profile) | Rejected(reason: string)

  /** The state of the profile page. */
  class ProfileView {
    var username: string
    var urlUsername: string
    var profile: Option<Profile>
    var error: Option<string>
    var isLoading: bool
    var isRefreshing: bool

    /** The page opened on a route whose username parameter is routeUsername ("" when there is none). */
    constructor (routeUsername: string)
      ensures username == routeUsername && urlUsername == routeUsername
      ensures profile == None && error == None
      ensures isLoading == (routeUsername != "") && !isRefreshing
    {
      username := routeUsername;
      urlUsername := routeUsername;
      profile := None;
      error := None;
      isLoading := routeUsername != "";
      isRefreshing := false;
    }

    /** Typing into the search box. */
    method EditUsername(text: string)
      modifies this
      ensures username == text
      ensures urlUsername == old(urlUsername) && profile == old(profile) && error == old(error)
      ensures isLoading == old(isLoading) && isRefreshing == old(isRefreshing)
    {
      username := text;
    }

    /**
     * fetchProfile, given the outcome of the profile request: a name that
     * trims to nothing (one made of whitespace only, by TrimEmptyIffBlank)
     * changes nothing; otherwise success stores the profile, clears the
     * error and moves the route to the name, failure clears the profile and
     * sets the error text, and both clear the loading and refreshing flags.
     */
    method FetchProfile(name: string, response: Result<Profile, string>) returns (outcome: FetchOutcome)
      modifies this
      ensures Trim(name) == "" ==> outcome == Skipped
      ensures Trim(name) == "" ==>
                username == old(username) && urlUsername == old(urlUsername) && profile == old(profile)
                && error == old(error) && isLoading == old(isLoading) && isRefreshing == old(isRefreshing)
      ensures Trim(name) != "" ==> !isLoading && !isRefreshing && username == old(username)
      ensures Trim(name) != "" && response.Success? ==>
                outcome == Fetched(response.value) && profile == Some(response.value)
                && error == None && urlUsername == name
      ensures Trim(name) != "" && response.Failure? ==>
                outcome == Rejected(response.error) && profile == None
                && error == Some(ProfileErrorMessage) && urlUsername == old(urlUsername)
    {
      if Trim(name) == "" {
        return Skipped;
      }
      outcome := Request(name, response);
    }

    /** fetchProfile past its guard: the request, its two handlers and the cleanup that follows either. */
    method Request(name: string, response: Result<Profile, string>) returns (outcome: FetchOutcome)
      modifies this
      ensures !isLoading && !isRefreshing && username == old(username)
      ensures response.Success? ==>
                outcome == Fetched(response.value) && profile == Some(response.value)
                && error == None && urlUsername == name
      ensures response.Failure? ==>
                outcome == Rejected(response.error) && profile == None
                && error == Some(ProfileErrorMessage) && urlUsername == old(urlUsername)
    {
      isLoading := true;
      error := None;
      match response {
        case Success(data) =>
          profile := Some(data);
          error := None;
          if name != urlUsername {
            urlUsername := name;
          }
          outcome := Fetched(data);
        case Failure(reason) =>
          error := Some(ProfileErrorMessage);
          profile := None;
          outcome := Rejected(reason);
      }
      isLoading := false;
      isRefreshing := false;
    }

    /** Submitting the search form fetches the name in the search box, with fetchProfile's outcomes. */
    method HandleSubmit(response: Result<Profile, string>) returns (outcome: FetchOutcome)
      modifies this
      ensures Trim(old(username)) == "" ==> outcome == Skipped
      ensures Trim(old(username)) == "" ==>
                username == old(username) && urlUsername == old(urlUsername) && profile == old(profile)
                && error == old(error) && isLoading == old(isLoading) && isRefreshing == old(isRefreshing)
      ensures Trim(old(username)) != "" ==> !isLoading && !isRefreshing && username == old(username)
      ensures Trim(old(username)) != "" && response.Success? ==>
                outcome == Fetched(response.value) && profile == Some(response.value)
                && error == None && urlUsername == old(username)
      ensures Trim(old(username)) != "" && response.Failure? ==>
                outcome == Rejected(response.error) && profile == None
                && error == Some(ProfileErrorMessage) && urlUsername == old(urlUsername)
    {
      outcome := FetchProfile(username, response);
    }

    /**
     * handleRefresh: nothing without a profile; otherwise the refreshing
     * flag goes up and the shown profile's username is fetched again. The
     * flag comes down only when that fetch gets past its guard.
     */
    method HandleRefresh(response: Result<Profile, string>) returns (outcome: FetchOutcome)
      modifies this
      ensures old(profile).None? ==> outcome == Skipped
      ensures old(profile).None? ==>
                username == old(username) && urlUsername == old(urlUsername) && profile == old(profile)
                && error == old(error) && isLoading == old(isLoading) && isRefreshing == old(isRefreshing)
      ensures old(profile).Some? && Trim(old(profile).value.username) == "" ==> outcome == Skipped
      ensures old(profile).Some? && Trim(old(profile).value.username) == "" ==>
                username == old(username) && urlUsername == old(urlUsername) && profile == old(profile)
                && error == old(error) && isLoading == old(isLoading) && isRefreshing
      ensures old(profile).Some? && Trim(old(profile).value.username) != "" ==>
                !isLoading && !isRefreshing && username == old(username)
      ensures old(profile).Some? && Trim(old(profile).value.username) != "" && response.Success? ==>
                outcome == Fetched(response.value) && profile == Some(response.value)
                && error == None && urlUsername == old(profile).value.username
      ensures old(profile).Some? && Trim(old(profile).value.username) != "" && response.Failure? ==>
                outcome == Rejected(response.error) && profile == None
                && error == Some(ProfileErrorMessage) && urlUsername == old(urlUsername)
    {
      if profile.None? {
        return Skipped;
      }
      isRefreshing := true;
      outcome := FetchProfile(profile.value.username, response);
    }
  }
}
