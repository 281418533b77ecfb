/**
 * lib/helpers.ts: the pure helpers used by the pages: the initials of a name,
 * the "time ago" wording of an elapsed number of seconds, and the prefixing of
 * a path with the deployment's base path.
 */
module Helpers {
  import opened Common

  // ---------------------------------------------------------------------------
  // getInitials

  function NonEmptyWord(): string -> bool {
    (w: string) => w != ""
  }

  /** `name.split(' ').filter(Boolean)`. */
  function Words(name: string): (ws: seq<string>)
    ensures forall i :: 0 <= i < |ws| ==> ws[i] != "" && ' ' !in ws[i]
  {
    var parts := Split(name, ' ');
    var ws := Filter(NonEmptyWord(), parts);
    assert forall i :: 0 <= i < |ws| ==> ws[i] in parts;
    ws
  }

  /** `.map(part => part[0].toUpperCase())`, ASCII letters only. */
  function FirstLetters(ws: seq<string>): (r: string)
    requires forall i :: 0 <= i < |ws| ==> ws[i] != ""
    ensures |r| == |ws| && forall i :: 0 <= i < |ws| ==> r[i] == UpperChar(ws[i][0])
  {
    seq(|ws|, i requires 0 <= i < |ws| => UpperChar(ws[i][0]))
  }

  /**
   * `getInitials(name, count)`: one upper-cased letter per word, in order,
   * cut to the first `count` when `count` is positive.
   */
  function GetInitials(name: Option<string>, count: Option<int>): (r: string)
    ensures name.None? || name == Some("") ==> r == ""
    ensures name.Some? ==>
              var ws := Words(name.value);
              |r| == (if count.Some? && count.value > 0 && count.value < |ws| then count.value else |ws|) &&
              forall i :: 0 <= i < |r| ==> r[i] == UpperChar(ws[i][0])
  {
    if !Truthy(name) then ""
    else
      var all := FirstLetters(Words(name.value));
      if count.Some? && count.value > 0 && count.value < |all| then all[..count.value] else all
  }

  /** Names whose words are separated by single spaces keep one initial per word. */
  lemma InitialsOfWords(ws: seq<string>)
    requires |ws| >= 1
    requires forall i :: 0 <= i < |ws| ==> ws[i] != "" && ' ' !in ws[i]
    ensures GetInitials(Some(Join(ws, ' ')), None) == FirstLetters(ws)
  {
    SplitJoin(ws, ' ');
    FilterKeepsAll(NonEmptyWord(), ws);
  }

  /** A leading space adds no initial. */
  lemma LeadingSpaceIgnored(name: string, count: Option<int>)
    ensures GetInitials(Some(" " + name), count) == GetInitials(Some(name), count)
  {
    SplitAtSeparator("", ' ', name);
    assert "" + [' '] + name == " " + name;
    FilterConcat(NonEmptyWord(), [""], Split(name, ' '));
  }

  /** A space splits a name into the words before it and the words after it. */
  lemma WordsAtSpace(a: string, b: string)
    ensures Words(a + " " + b) == Words(a) + Words(b)
  {
    SplitAtSeparator(a, ' ', b);
    FilterConcat(NonEmptyWord(), Split(a, ' '), Split(b, ' '));
  }

  /** A run of spaces inside a name adds no word, so no initial. */
  lemma SpaceRunIgnored(a: string, b: string, count: Option<int>)
    ensures Words(a + "  " + b) == Words(a + " " + b)
    ensures GetInitials(Some(a + "  " + b), count) == GetInitials(Some(a + " " + b), count)
  {
    assert a + "  " + b == a + " " + (" " + b);
    WordsAtSpace(a, " " + b);
    assert " " + b == "" + " " + b;
    WordsAtSpace("", b);
    assert Words("") == [] by {
      assert Split("", ' ') == [""];
    }
    WordsAtSpace(a, b);
  }

  /** The count only ever cuts: a positive count gives a prefix of the uncut initials. */
  lemma CountGivesPrefix(name: string, count: int)
    requires count > 0
    ensures var all := GetInitials(Some(name), None);
            var cut := GetInitials(Some(name), Some(count));
            |cut| <= count && cut <= all
  {
  }

  // ---------------------------------------------------------------------------
  // timeAgo

  datatype Unit = Minute | Hour | Day | Week | Month | Year

  /** The length of one unit in seconds, which is also where its band starts. */
  function Seconds(u: Unit): nat {
    match u
    case Minute => 60
    case Hour => 3600
    case Day => 86400
    case Week => 604800
    case Month => 2592000
    case Year => 31536000
  }

  /** The band of `diff` values worded in unit `u`: from one `u` up to the next unit's start; years have no end. */
  predicate InBand(diff: int, u: Unit) {
    Seconds(u) <= diff &&
    match u
    case Minute => diff < Seconds(Hour)
    case Hour => diff < Seconds(Day)
    case Day => diff < Seconds(Week)
    case Week => diff < Seconds(Month)
    case Month => diff < Seconds(Year)
    case Year => true
  }

  datatype Ago = JustNow | Ago(n: nat, unit: Unit)

  /** The chain of `if (diff < …)` tests of `timeAgo`, on the elapsed seconds. */
  function TimeAgo(diff: int): (r: Ago)
    ensures r.JustNow? <==> diff < 60
    ensures r.Ago? ==> InBand(diff, r.unit) && r.n == diff / Seconds(r.unit) && r.n >= 1
  {
    if diff < 60 then JustNow
    else if diff < 3600 then Ago(diff / 60, Minute)
    else if diff < 86400 then Ago(diff / 3600, Hour)
    else if diff < 604800 then Ago(diff / 86400, Day)
    else if diff < 2592000 then Ago(diff / 604800, Week)
    else if diff < 31536000 then Ago(diff / 2592000, Month)
    else Ago(diff / 31536000, Year)
  }

  /** The bands do not overlap, so the unit `timeAgo` picks is the only one that fits. */
  lemma BandsDisjoint(diff: int, u: Unit, w: Unit)
    requires InBand(diff, u) && InBand(diff, w)
    ensures u == w
  {
  }

  /** Every elapsed time of a minute or more falls in some band; a year or more is always counted in years. */
  lemma BandsCover(diff: int)
    requires diff >= 60
    ensures TimeAgo(diff).Ago? && InBand(diff, TimeAgo(diff).unit)
    ensures diff >= Seconds(Year) ==> TimeAgo(diff).unit == Year
  {
  }

  function UnitName(u: Unit): string {
    match u
    case Minute => "minute"
    case Hour => "hour"
    case Day => "day"
    case Week => "week"
    case Month => "month"
    case Year => "year"
  }

  /** The text: the number, the unit, an `s` when the number is above one, then `ago`. */
  function Render(a: Ago): (text: string)
    ensures a.JustNow? ==> text == "just now"
    ensures a.Ago? ==> IsPrefix(NatToString(a.n) + " " + UnitName(a.unit), text)
  {
    match a
    case JustNow => "just now"
    case Ago(n, u) => NatToString(n) + " " + UnitName(u) + (if n > 1 then "s" else "") + " ago"
  }

  /** `timeAgo` as a function of the elapsed seconds. */
  function TimeAgoText(diff: int): (text: string)
    ensures diff < 60 ==> text == "just now"
  {
    Render(TimeAgo(diff))
  }

  /** The plural `s` appears exactly when the number shown is greater than one. */
  lemma PluralIff(n: nat, u: Unit)
    ensures var text := Render(Ago(n, u));
            |text| >= 5 && (text[|text| - 5..] == "s ago" <==> n > 1)
  {
    var text := Render(Ago(n, u));
    var name := UnitName(u);
    if n <= 1 {
      assert text == NatToString(n) + " " + name + " ago";
      assert text[|text| - 5] == name[|name| - 1];
    }
  }

  /** Future dates (a negative difference) read as "just now". */
  lemma FutureIsJustNow(diff: int)
    requires diff < 0
    ensures TimeAgoText(diff) == "just now"
  {
  }

  // ---------------------------------------------------------------------------
  // toAbsoluteUrl

  /** `toAbsoluteUrl(pathname)` with `NEXT_PUBLIC_BASE_PATH` passed in as `basePath`. */
  function ToAbsoluteUrl(basePath: Option<string>, pathname: string): (r: string)
    ensures Truthy(basePath) && basePath.value != "/" ==> r == basePath.value + pathname
    ensures !(Truthy(basePath) && basePath.value != "/") ==> r == pathname
  {
    if Truthy(basePath) && basePath.value != "/" then basePath.value + pathname else pathname
  }

  /** The path comes back unchanged exactly when the base path is unset, empty or `/`. */
  lemma UnchangedIff(basePath: Option<string>, pathname: string)
    ensures ToAbsoluteUrl(basePath, pathname) == pathname <==>
            basePath.None? || basePath.value == "" || basePath.value == "/"
  {
    if Truthy(basePath) && basePath.value != "/" {
      assert |ToAbsoluteUrl(basePath, pathname)| > |pathname|;
    }
  }
}
