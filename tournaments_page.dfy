/**
 * The tournaments page: the status badge of a tournament card, the countdown
 * text of an upcoming tournament, and the page state that one fetch of the
 * feed updates (buckets, loading flag, error text, selected tab).
 */
module TournamentsPage {
  import opened Wrappers
  import opened Text
  import opened TournamentFeed

  // ---------------------------------------------------------------------
  // Status badge
  // ---------------------------------------------------------------------

  datatype Badge = Upcoming | InProgress | Completed

  /** The caption each badge shows. */
  function BadgeText(b: Badge): string
  {
    match b
    case Upcoming => "Upcoming"
    case InProgress => "In Progress"
    case Completed => "Completed"
  }

  /** The three captions differ, so a card's caption tells its status. */
  lemma BadgeTextInjective(a: Badge, b: Badge)
    ensures BadgeText(a) == BadgeText(b) <==> a == b
  {
  }

  /** getStatusBadge: the badge of a tournament card at instant now. */
  function StatusBadge(now: int, t: Tournament): Badge
  {
    var start := t.startsAt;
    var end := t.finishesAt;
    if now < start then Upcoming
    else if now >= start && now <= end then InProgress
    else Completed
  }

  /** The badge that names a bucket of the feed. */
  function BadgeOf(s: Status): Badge
  {
    match s
    case Created => Upcoming
    case Started => InProgress
    case Finished => Completed
  }

  /** The badge and the feed decide by the same predicate. */
  lemma BadgeAgreesWithBucket(now: int, t: Tournament)
    ensures StatusBadge(now, t) == BadgeOf(Classify(now, t))
  {
  }

  /** Every card shown under a tab of the page, rendered at the instant of the fetch, carries that tab's badge. */
  lemma BadgeOfListed(now: int, data: seq<Tournament>, t: Tournament)
    ensures t in Categorize(now, data).created ==> StatusBadge(now, t) == Upcoming
    ensures t in Categorize(now, data).started ==> StatusBadge(now, t) == InProgress
    ensures t in Categorize(now, data).finished ==> StatusBadge(now, t) == Completed
  {
    CategorizeMembership(now, data, t);
  }

  // ---------------------------------------------------------------------
  // Countdown
  // ---------------------------------------------------------------------


  /** A duration in whole days, hours and minutes. */
  datatype Countdown = Countdown(days: nat, hours: nat, minutes: nat)

  function TotalMinutes(c: Countdown): nat
  {
    c.days * 1440 + c.hours * 60 + c.minutes
  }

  /** Splits a number of whole minutes into days, hours below 24 and minutes below 60. */
  function SplitMinutes(total: nat): (c: Countdown)
    ensures TotalMinutes(c) == total
    ensures c.hours < 24 && c.minutes < 60
  {
    var diffHours := total / 60;
    assert total == diffHours * 60 + total % 60;
    assert diffHours == (diffHours / 24) * 24 + diffHours % 24;
    Countdown(diffHours / 24, diffHours % 24, total % 60)
  }

  /** The split is the only one with hours below 24 and minutes below 60. */
  lemma SplitMinutesUnique(c: Countdown)
    requires c.hours < 24 && c.minutes < 60
    ensures SplitMinutes(TotalMinutes(c)) == c
  {
    var total := TotalMinutes(c);
    var h := c.days * 24 + c.hours;
    assert total == h * 60 + c.minutes;
    assert total / 60 == h && total % 60 == c.minutes;
    assert h / 24 == c.days && h % 24 == c.hours;
  }

  /** Whether formatTimeLeft pushes the minutes piece: when there are any, or when neither days nor hours were pushed. */
  predicate MinutesShown(c: Countdown)
  {
    c.minutes > 0 || (c.days == 0 && c.hours == 0)
  }

  /** The pieces of the countdown: days, hours, minutes, each only when nonzero, minutes when nothing else. */
  function CountdownParts(c: Countdown): seq<string>
  {
    Piece(c.days, 'd', c.days > 0)
    + Piece(c.hours, 'h', c.hours > 0)
    + Piece(c.minutes, 'm', MinutesShown(c))
  }

  /** The piece "<n><unit>" when present, nothing otherwise. */
  function Piece(n: nat, unit: char, present: bool): seq<string>
  {
    if present then [Show(n) + [unit]] else []
  }

  function StartsInText(c: Countdown): string
  {
    "Starts in " + Join(CountdownParts(c), ' ')
  }

  /**
   * formatTimeLeft: "Starting now" once the start is reached, otherwise the
   * whole minutes left before the start, as days, hours and minutes.
   */
  method FormatTimeLeft(startsAt: int, now: int) returns (text: string)
    ensures text == "Starting now" <==> startsAt - now <= 0
    ensures startsAt - now > 0 ==> text == StartsInText(SplitMinutes((startsAt - now) / MinuteMs))
    ensures startsAt - now > 0 ==> ReadStartsIn(text) == Some((startsAt - now) / MinuteMs)
    ensures 0 < startsAt - now < MinuteMs ==> text == "Starts in 0m"
  {
    var diffMs := startsAt - now;
    if diffMs <= 0 {
      return "Starting now";
    }
    var diffMins := diffMs / MinuteMs;
    var diffHours := diffMins / 60;
    var days := diffHours / 24;
    var hours := diffHours % 24;
    var minutes := diffMins % 60;

    var parts: seq<string> := [];
    if days > 0 {
      parts := parts + [Show(days) + "d"];
    }
    assert parts == Piece(days, 'd', days > 0);
    if hours > 0 {
      parts := parts + [Show(hours) + "h"];
    }
    assert parts == Piece(days, 'd', days > 0) + Piece(hours, 'h', hours > 0);
    if minutes > 0 || |parts| == 0 {
      parts := parts + [Show(minutes) + "m"];
    }
    assert SplitMinutes(diffMins) == Countdown(days, hours, minutes);
    assert parts == CountdownParts(SplitMinutes(diffMins));
    text := "Starts in " + Join(parts, ' ');
    StartsInFacts(diffMins);
  }

  /** What FormatTimeLeft relies on about the text for a positive number of minutes. */
  lemma StartsInFacts(total: nat)
    ensures StartsInText(SplitMinutes(total)) != "Starting now"
    ensures ReadStartsIn(StartsInText(SplitMinutes(total))) == Some(total)
    ensures total == 0 ==> StartsInText(SplitMinutes(total)) == "Starts in 0m"
  {
    var c := SplitMinutes(total);
    ReadStartsInRoundTrip(c);
    StartsInIsNotStartingNow(c);
    if total == 0 {
      StartsInZero();
    }
  }

  /** Less than a minute before the start, the countdown reads "Starts in 0m". */
  lemma StartsInZero()
    ensures StartsInText(SplitMinutes(0)) == "Starts in 0m"
  {
    NoMinutesIsZero(SplitMinutes(0));
    ZeroCountdownText();
  }

  lemma ZeroCountdownText()
    ensures StartsInText(Countdown(0, 0, 0)) == "Starts in 0m"
  {
    ZeroCountdownParts();
  }

  // Reading a countdown back.

  function UnitMinutes(u: char): nat
  {
    if u == 'd' then 1440 else if u == 'h' then 60 else 1
  }

  predicate IsUnit(u: char) { u == 'd' || u == 'h' || u == 'm' }

  /** The minutes one piece "<digits><unit>" stands for. */
  function PartMinutes(p: string): Option<nat>
  {
    if |p| >= 2 && AllDigits(p[..|p| - 1]) && IsUnit(p[|p| - 1]) then
      Some(DigitsValue(p[..|p| - 1]) * UnitMinutes(p[|p| - 1]))
    else None
  }

  /** The minutes a list of pieces stands for, if every piece reads. */
  function PartsMinutes(ps: seq<string>): Option<nat>
  {
    if ps == [] then Some(0)
    else
      match (PartMinutes(ps[0]), PartsMinutes(ps[1..]))
      case (Some(a), Some(b)) => Some(a + b)
      case _ => None
  }

  /** The minutes a "Starts in ..." text stands for. */
  function ReadStartsIn(text: string): Option<nat>
  {
    var prefix := "Starts in ";
    if StartsWith(text, prefix) then PartsMinutes(Split(text[|prefix|..], ' ')) else None
  }

  lemma PartMinutesShow(n: nat, u: char)
    requires IsUnit(u)
    ensures PartMinutes(Show(n) + [u]) == Some(n * UnitMinutes(u))
  {
    var p := Show(n) + [u];
    assert p[..|p| - 1] == Show(n);
    ShowValue(n);
  }

  lemma {:induction false} PartsMinutesAppend(a: seq<string>, b: seq<string>, x: nat, y: nat)
    requires PartsMinutes(a) == Some(x) && PartsMinutes(b) == Some(y)
    ensures PartsMinutes(a + b) == Some(x + y)
  {
    if a == [] {
      assert a + b == b;
    } else {
      var first := PartMinutes(a[0]).value;
      PartsMinutesAppend(a[1..], b, x - first, y);
      assert (a + b)[1..] == a[1..] + b;
    }
  }

  lemma PieceMinutes(n: nat, u: char, present: bool)
    requires IsUnit(u)
    requires !present ==> n == 0
    ensures PartsMinutes(Piece(n, u, present)) == Some(n * UnitMinutes(u))
  {
    if present {
      PartMinutesShow(n, u);
      assert [Show(n) + [u]][1..] == [];
    }
  }

  /** Every piece is a number followed by its unit, so none contains a space. */
  lemma CountdownPartsNoSpace(c: Countdown)
    ensures forall i :: 0 <= i < |CountdownParts(c)| ==> ' ' !in CountdownParts(c)[i]
  {
    var ps := CountdownParts(c);
    forall i | 0 <= i < |ps|
      ensures ' ' !in ps[i]
    {
      var n :| ps[i] == Show(n) + "d" || ps[i] == Show(n) + "h" || ps[i] == Show(n) + "m";
      var digits := Show(n);
      assert forall j :: 0 <= j < |digits| ==> digits[j] != ' ';
    }
  }

  /** The pieces, read back, stand for the minutes they were made from. */
  lemma CountdownPartsMinutes(c: Countdown)
    ensures PartsMinutes(CountdownParts(c)) == Some(TotalMinutes(c))
  {
    DayPieceMinutes(c);
    HourPieceMinutes(c);
    MinutePieceMinutes(c);
    ThreePiecesMinutes(
      Piece(c.days, 'd', c.days > 0),
      Piece(c.hours, 'h', c.hours > 0),
      Piece(c.minutes, 'm', MinutesShown(c)),
      c.days * 1440, c.hours * 60, c.minutes);
  }

  lemma ThreePiecesMinutes(a: seq<string>, b: seq<string>, c: seq<string>, x: nat, y: nat, z: nat)
    requires PartsMinutes(a) == Some(x) && PartsMinutes(b) == Some(y) && PartsMinutes(c) == Some(z)
    ensures PartsMinutes(a + b + c) == Some(x + y + z)
  {
    PartsMinutesAppend(a, b, x, y);
    PartsMinutesAppend(a + b, c, x + y, z);
  }

  lemma DayPieceMinutes(c: Countdown)
    ensures PartsMinutes(Piece(c.days, 'd', c.days > 0)) == Some(c.days * 1440)
  {
    PieceMinutes(c.days, 'd', c.days > 0);
  }

  lemma HourPieceMinutes(c: Countdown)
    ensures PartsMinutes(Piece(c.hours, 'h', c.hours > 0)) == Some(c.hours * 60)
  {
    PieceMinutes(c.hours, 'h', c.hours > 0);
  }

  lemma MinutePieceMinutes(c: Countdown)
    ensures PartsMinutes(Piece(c.minutes, 'm', MinutesShown(c))) == Some(c.minutes)
  {
    PieceMinutes(c.minutes, 'm', MinutesShown(c));
  }

  /** Reading the countdown text gives back the minutes it was made from. */
  lemma ReadStartsInRoundTrip(c: Countdown)
    ensures ReadStartsIn(StartsInText(c)) == Some(TotalMinutes(c))
  {
    var ps := CountdownParts(c);
    var text := StartsInText(c);
    CountdownPartsMinutes(c);
    CountdownPartsNoSpace(c);
    SplitJoin(ps, ' ');
    assert text[10..] == Join(ps, ' ');
  }

  /** The last character of a piece: its unit. */
  function UnitOf(p: string): char
  {
    if p == [] then ' ' else p[|p| - 1]
  }

  /** Pieces come in the order days, hours, minutes, one to three of them. */
  lemma CountdownPartsOrder(c: Countdown)
    ensures 1 <= |CountdownParts(c)| <= 3
    ensures forall i, j :: 0 <= i < j < |CountdownParts(c)| ==>
              UnitMinutes(UnitOf(CountdownParts(c)[i])) > UnitMinutes(UnitOf(CountdownParts(c)[j]))
  {
    var ps := CountdownParts(c);
    assert forall i :: 0 <= i < |ps| ==>
      (ps[i] == Show(c.days) + "d" && UnitOf(ps[i]) == 'd' && i == 0)
      || (ps[i] == Show(c.hours) + "h" && UnitOf(ps[i]) == 'h' && i <= 1 && (i == 1 ==> UnitOf(ps[0]) == 'd'))
      || (ps[i] == Show(c.minutes) + "m" && UnitOf(ps[i]) == 'm' && i == |ps| - 1);
  }

  /** The lone "0m" is the countdown exactly for less than a minute. */
  lemma CountdownPartsZero(c: Countdown)
    ensures CountdownParts(c) == ["0m"] <==> TotalMinutes(c) == 0
  {
    if TotalMinutes(c) == 0 {
      NoMinutesParts(c);
    }
    if CountdownParts(c) == ["0m"] {
      ZeroPartMinutes();
      CountdownPartsMinutes(c);
    }
  }

  lemma NoMinutesParts(c: Countdown)
    requires TotalMinutes(c) == 0
    ensures CountdownParts(c) == ["0m"]
  {
    NoMinutesIsZero(c);
    ZeroCountdownParts();
  }

  lemma NoMinutesIsZero(c: Countdown)
    requires TotalMinutes(c) == 0
    ensures c == Countdown(0, 0, 0)
  {
  }

  lemma ZeroCountdownParts()
    ensures CountdownParts(Countdown(0, 0, 0)) == ["0m"]
  {
    assert Show(0) + ['m'] == "0m";
  }

  lemma ZeroPartMinutes()
    ensures PartsMinutes(["0m"]) == Some(0)
  {
    PartMinutesShow(0, 'm');
    assert Show(0) + ['m'] == "0m";
    assert ["0m"][1..] == [];
  }

  lemma StartsInIsNotStartingNow(c: Countdown)
    ensures StartsInText(c) != "Starting now"
  {
    var text := StartsInText(c);
    assert text[..10] == "Starts in ";
    assert text[5] == 's';
    assert "Starting now"[5] == 'i';
  }

  /** When time is left, every piece stands for a positive amount. */
  lemma CountdownPartsPositive(c: Countdown)
    requires TotalMinutes(c) > 0
    ensures forall i :: 0 <= i < |CountdownParts(c)| ==> PartMinutes(CountdownParts(c)[i]) != Some(0)
  {
    var ps := CountdownParts(c);
    if c.days > 0 { PartMinutesShow(c.days, 'd'); }
    if c.hours > 0 { PartMinutesShow(c.hours, 'h'); }
    if c.minutes > 0 { PartMinutesShow(c.minutes, 'm'); }
  }

  /** The count a countdown gives for a unit letter. */
  function Component(c: Countdown, u: char): nat
  {
    if u == 'd' then c.days else if u == 'h' then c.hours else c.minutes
  }

  /** The unit letters of the pieces, in order. */
  function Units(ps: seq<string>): seq<char>
  {
    if ps == [] then [] else [UnitOf(ps[0])] + Units(ps[1..])
  }

  lemma {:induction false} UnitsAppend(a: seq<string>, b: seq<string>)
    ensures Units(a + b) == Units(a) + Units(b)
  {
    if a == [] {
      assert a + b == b;
    } else {
      assert (a + b)[1..] == a[1..] + b;
      UnitsAppend(a[1..], b);
    }
  }

  /** A piece present for a unit is that unit's own count followed by the unit. */
  lemma PieceOfComponent(c: Countdown, u: char, present: bool)
    ensures Units(Piece(Component(c, u), u, present)) == if present then [u] else []
    ensures forall p :: p in Piece(Component(c, u), u, present) ==> p == Show(Component(c, UnitOf(p))) + [UnitOf(p)]
  {
    if present {
      assert UnitOf(Show(Component(c, u)) + [u]) == u;
    }
  }

  /**
   * Each component appears exactly when formatTimeLeft pushes it: days and
   * hours when nonzero, minutes when nonzero or when nothing came before; and
   * every piece shows its own component's count.
   */
  lemma CountdownPartsComponents(c: Countdown)
    ensures 'd' in Units(CountdownParts(c)) <==> c.days > 0
    ensures 'h' in Units(CountdownParts(c)) <==> c.hours > 0
    ensures 'm' in Units(CountdownParts(c)) <==> MinutesShown(c)
    ensures forall p :: p in CountdownParts(c) ==> p == Show(Component(c, UnitOf(p))) + [UnitOf(p)]
  {
    var us := Units(CountdownParts(c));
    CountdownUnits(c);
    var ud: seq<char> := if c.days > 0 then ['d'] else [];
    var uh: seq<char> := if c.hours > 0 then ['h'] else [];
    var um: seq<char> := if MinutesShown(c) then ['m'] else [];
    assert us == ud + uh + um;
    assert forall x :: x in us <==> x in ud || x in uh || x in um;
    CountdownPiecesShow(c);
  }

  lemma CountdownUnits(c: Countdown)
    ensures Units(CountdownParts(c))
            == (if c.days > 0 then ['d'] else []) + (if c.hours > 0 then ['h'] else [])
               + (if MinutesShown(c) then ['m'] else [])
  {
    var pd := Piece(c.days, 'd', c.days > 0);
    var ph := Piece(c.hours, 'h', c.hours > 0);
    var pm := Piece(c.minutes, 'm', MinutesShown(c));
    PieceOfComponent(c, 'd', c.days > 0);
    PieceOfComponent(c, 'h', c.hours > 0);
    PieceOfComponent(c, 'm', MinutesShown(c));
    UnitsAppend(pd, ph);
    UnitsAppend(pd + ph, pm);
  }

  lemma CountdownPiecesShow(c: Countdown)
    ensures forall p :: p in CountdownParts(c) ==> p == Show(Component(c, UnitOf(p))) + [UnitOf(p)]
  {
    var pd := Piece(c.days, 'd', c.days > 0);
    var ph := Piece(c.hours, 'h', c.hours > 0);
    var pm := Piece(c.minutes, 'm', MinutesShown(c));
    PieceOfComponent(c, 'd', c.days > 0);
    PieceOfComponent(c, 'h', c.hours > 0);
    PieceOfComponent(c, 'm', MinutesShown(c));
    assert forall p :: p in pd + ph + pm <==> p in pd || p in ph || p in pm;
  }

  // ---------------------------------------------------------------------
  // Page state
  // ---------------------------------------------------------------------

  const FetchErrorMessage: string := "Failed to fetch tournaments. Please try again later."

  datatype Tab = StartedTab | CreatedTab | FinishedTab

  /** The state of the tournaments page. */
  class TournamentsView {
    var tournaments: Buckets
    var loading: bool
    var error: string
    var activeTab: Tab

    /** The page starts empty and loading, on the running tab. */
    constructor ()
      ensures tournaments == Buckets([], [], [])
      ensures loading && error == "" && activeTab == StartedTab
    {
      tournaments := Buckets([], [], []);
      loading := true;
      error := "";
      activeTab := StartedTab;
    }

    /**
     * fetchTournaments, given the outcome of the request to the tournament
     * endpoint and the instant the feed reads: success replaces the buckets
     * wholesale with the feed of the payload; failure keeps the old buckets
     * and sets the error text. Loading is off afterwards either way.
     */
    method FetchTournaments(response: Result<seq<Tournament>, string>, now: int)
      modifies this
      ensures !loading && activeTab == old(activeTab)
      ensures response.Success? ==> tournaments == Categorize(now, response.value) && error == ""
      ensures response.Failure? ==> tournaments == old(tournaments) && error == FetchErrorMessage
    {
      loading := true;
      error := "";
      match response {
        case Success(payload) =>
          var data := GetTournaments(now, payload);
          tournaments := data;
        case Failure(_) =>
          error := FetchErrorMessage;
      }
      loading := false;
    }

    /** A click on a tab selects it and changes nothing else. */
    method SelectTab(tab: Tab)
      modifies this
      ensures activeTab == tab
      ensures tournaments == old(tournaments) && loading == old(loading) && error == old(error)
    {
      activeTab := tab;
    }
  }
}
