/**
 * The normalization rules both provider transformers share: employment types, experience
 * levels, dates, string lists and salary ranges.
 */
module BaseTransformer {
  import opened Wrappers
  import opened Text
  import opened Payloads
  import opened Jobs
  import opened SalaryPatterns

  // ----- Employment type -----

  /** The recognised spellings of an employment type, lower-cased, and their canonical names. */
  const EmploymentTypes: map<string, string> := map[
    "full-time" := "Full Time", "full time" := "Full Time",
    "part-time" := "Part Time", "part time" := "Part Time",
    "contract" := "Contract", "temporary" := "Temporary", "internship" := "Internship",
    "remote" := "Remote", "on-site" := "On-site", "hybrid" := "Hybrid"]

  /** A recognised spelling, in any letter case, becomes its canonical name; any other
      non-empty text is kept as it is; empty text is "Not Specified". */
  function NormalizeEmploymentType(t: string): (r: string)
    ensures r != ""
    ensures ToLower(t) in EmploymentTypes ==> r == EmploymentTypes[ToLower(t)]
    ensures ToLower(t) !in EmploymentTypes && t != "" ==> r == t
    ensures t == "" ==> r == "Not Specified"
  {
    var key := ToLower(t);
    if key in EmploymentTypes then EmploymentTypes[key]
    else if t != "" then t
    else "Not Specified"
  }

  /** The canonical employment type names. */
  const CanonicalEmploymentTypes: seq<string> :=
    ["Full Time", "Part Time", "Contract", "Temporary", "Internship", "Remote", "On-site", "Hybrid"]

  /** A name whose lower-cased form is a recognised spelling of that same name is kept. */
  lemma KeptWhenCanonical(v: string, key: string)
    requires ToLower(v) == key && key in EmploymentTypes && EmploymentTypes[key] == v
    ensures NormalizeEmploymentType(v) == v
  {
  }

  /** The full-time, part-time, contract and temporary names are kept. */
  lemma FullAndPartTimeKept()
    ensures NormalizeEmploymentType("Full Time") == "Full Time"
    ensures NormalizeEmploymentType("Part Time") == "Part Time"
    ensures NormalizeEmploymentType("Contract") == "Contract"
    ensures NormalizeEmploymentType("Temporary") == "Temporary"
  {
    assert ToLower("Full Time") == "full time";
    KeptWhenCanonical("Full Time", "full time");
    assert ToLower("Part Time") == "part time";
    KeptWhenCanonical("Part Time", "part time");
    assert ToLower("Contract") == "contract";
    KeptWhenCanonical("Contract", "contract");
    assert ToLower("Temporary") == "temporary";
    KeptWhenCanonical("Temporary", "temporary");
  }

  /** The internship, remote, on-site and hybrid names are kept. */
  lemma OtherTypesKept()
    ensures NormalizeEmploymentType("Internship") == "Internship"
    ensures NormalizeEmploymentType("Remote") == "Remote"
    ensures NormalizeEmploymentType("On-site") == "On-site"
    ensures NormalizeEmploymentType("Hybrid") == "Hybrid"
  {
    assert ToLower("Internship") == "internship";
    KeptWhenCanonical("Internship", "internship");
    assert ToLower("Remote") == "remote";
    KeptWhenCanonical("Remote", "remote");
    assert ToLower("On-site") == "on-site";
    KeptWhenCanonical("On-site", "on-site");
    assert ToLower("Hybrid") == "hybrid";
    KeptWhenCanonical("Hybrid", "hybrid");
  }

  /** Every canonical name, and "Not Specified", is left as it is. */
  lemma CanonicalEmploymentTypesFixed(v: string)
    requires v in CanonicalEmploymentTypes || v == "Not Specified"
    ensures NormalizeEmploymentType(v) == v
  {
    FullAndPartTimeKept();
    OtherTypesKept();
    assert |ToLower("Not Specified")| == 13;
  }

  /** Normalizing an employment type twice gives what normalizing once gives. */
  lemma NormalizeEmploymentTypeIdempotent(t: string)
    ensures NormalizeEmploymentType(NormalizeEmploymentType(t)) == NormalizeEmploymentType(t)
  {
    var r := NormalizeEmploymentType(t);
    if ToLower(t) in EmploymentTypes || t == "" {
      assert r in CanonicalEmploymentTypes || r == "Not Specified";
      CanonicalEmploymentTypesFixed(r);
    }
  }

  // ----- Experience level -----

  /** The experience a provider reports: a number of years or a label. */
  datatype ExperienceInput = Years(years: int) | Label(name: string)

  /** The levels a number of years maps to, from least to most experienced. */
  const YearsLevels: seq<string> := ["Entry Level", "Junior", "Mid Level", "Senior", "Principal"]

  /** The position of a level in YearsLevels (levels outside it come last). */
  function LevelRank(level: string): (k: nat)
    ensures k <= |YearsLevels|
    ensures k < |YearsLevels| ==> YearsLevels[k] == level
  {
    if level == "Entry Level" then 0
    else if level == "Junior" then 1
    else if level == "Mid Level" then 2
    else if level == "Senior" then 3
    else if level == "Principal" then 4
    else 5
  }

  /** The level for a number of years: 0 is Entry Level, up to 2 (negative numbers
      included) Junior, 3 to 5 Mid Level, 6 to 8 Senior, beyond 8 Principal. */
  function YearsLevel(n: int): (r: string)
    ensures r in YearsLevels
    ensures r == "Entry Level" <==> n == 0
    ensures r == "Junior" <==> n < 0 || 1 <= n <= 2
    ensures r == "Mid Level" <==> 3 <= n <= 5
    ensures r == "Senior" <==> 6 <= n <= 8
    ensures r == "Principal" <==> n > 8
  {
    if n == 0 then "Entry Level"
    else if n <= 2 then "Junior"
    else if n <= 5 then "Mid Level"
    else if n <= 8 then "Senior"
    else "Principal"
  }

  /** More years never give a lower level. */
  lemma YearsLevelMonotone(m: int, n: int)
    requires 0 <= m <= n
    ensures LevelRank(YearsLevel(m)) <= LevelRank(YearsLevel(n))
  {
  }

  /** Every level the experience rules can produce. */
  const ExperienceLevels: set<string> :=
    {"Entry Level", "Junior", "Mid Level", "Senior", "Lead", "Principal", "Staff", "Manager"}

  /** The recognised level labels, lower-cased, and their canonical names. */
  const LevelLabels: map<string, string> := map[
    "entry" := "Entry Level", "junior" := "Junior", "mid" := "Mid Level", "senior" := "Senior",
    "lead" := "Lead", "principal" := "Principal", "staff" := "Staff", "manager" := "Manager"]

  /** The seniority markers a title is searched for, in order, with the level each implies. */
  const TitleMarkers: seq<(seq<string>, string)> := [
    (["senior", "sr."], "Senior"), (["junior", "jr."], "Junior"), (["lead"], "Lead"),
    (["principal", "staff"], "Principal"), (["manager"], "Manager")]

  predicate HasMarker(lower: string, markers: seq<string>) {
    exists m :: m in markers && Contains(lower, m)
  }

  /** The level of the first row of `table` whose markers occur in `lower`; Mid Level when
      none does. */
  function FirstMarkedLevel(lower: string, table: seq<(seq<string>, string)>): string
    decreases |table|
  {
    if table == [] then "Mid Level"
    else if HasMarker(lower, table[0].0) then table[0].1
    else FirstMarkedLevel(lower, table[1..])
  }

  /** The rows of TitleMarkers, read as the tests on the lower-cased title they stand for. */
  lemma TitleMarkerRows(lower: string)
    ensures FirstMarkedLevel(lower, TitleMarkers) ==
      if Contains(lower, "senior") || Contains(lower, "sr.") then "Senior"
      else if Contains(lower, "junior") || Contains(lower, "jr.") then "Junior"
      else if Contains(lower, "lead") then "Lead"
      else if Contains(lower, "principal") || Contains(lower, "staff") then "Principal"
      else if Contains(lower, "manager") then "Manager"
      else "Mid Level"
  {
    var t := TitleMarkers;
    assert HasMarker(lower, t[0].0) <==> Contains(lower, "senior") || Contains(lower, "sr.");
    assert HasMarker(lower, t[1].0) <==> Contains(lower, "junior") || Contains(lower, "jr.");
    assert HasMarker(lower, t[2].0) <==> Contains(lower, "lead");
    assert HasMarker(lower, t[3].0) <==> Contains(lower, "principal") || Contains(lower, "staff");
    assert HasMarker(lower, t[4].0) <==> Contains(lower, "manager");
    assert t[1..][1..][1..][1..][1..] == [];
  }

  /** The level a title implies, looking for the markers of TitleMarkers in its lower-cased
      text, in order. */
  function InferExperienceFromTitle(title: string): (r: string)
    ensures r == FirstMarkedLevel(ToLower(title), TitleMarkers)
    ensures r in ExperienceLevels
  {
    var lower := ToLower(title);
    TitleMarkerRows(lower);
    if Contains(lower, "senior") || Contains(lower, "sr.") then "Senior"
    else if Contains(lower, "junior") || Contains(lower, "jr.") then "Junior"
    else if Contains(lower, "lead") then "Lead"
    else if Contains(lower, "principal") || Contains(lower, "staff") then "Principal"
    else if Contains(lower, "manager") then "Manager"
    else "Mid Level"
  }

  /** The first marker row that occurs decides the level. */
  lemma {:induction false} FirstMarkerDecides(lower: string, table: seq<(seq<string>, string)>, i: nat)
    requires i < |table| && HasMarker(lower, table[i].0)
    requires forall j :: 0 <= j < i ==> !HasMarker(lower, table[j].0)
    ensures FirstMarkedLevel(lower, table) == table[i].1
    decreases i
  {
    if i > 0 {
      assert !HasMarker(lower, table[0].0);
      FirstMarkerDecides(lower, table[1..], i - 1);
    }
  }

  /** With no marker present the level is Mid Level. */
  lemma {:induction false} NoMarkerMidLevel(lower: string, table: seq<(seq<string>, string)>)
    requires forall j :: 0 <= j < |table| ==> !HasMarker(lower, table[j].0)
    ensures FirstMarkedLevel(lower, table) == "Mid Level"
    decreases |table|
  {
    if table != [] {
      assert !HasMarker(lower, table[0].0);
      NoMarkerMidLevel(lower, table[1..]);
    }
  }

  /** The level for the reported experience. Years go through YearsLevel; a recognised label,
      in any letter case, becomes its canonical name; any other label is read as a title.
      The result is never "Not Specified": title inference always yields a level. */
  function NormalizeExperienceLevel(level: ExperienceInput): (r: string)
    ensures level.Years? ==> r == YearsLevel(level.years)
    ensures level.Label? && ToLower(level.name) in LevelLabels ==> r == LevelLabels[ToLower(level.name)]
    ensures level.Label? && ToLower(level.name) !in LevelLabels ==>
              r == FirstMarkedLevel(ToLower(level.name), TitleMarkers)
    ensures r in ExperienceLevels && r != "Not Specified"
  {
    match level
    case Years(n) => YearsLevel(n)
    case Label(text) =>
      var key := ToLower(text);
      if key in LevelLabels then LevelLabels[key] else InferExperienceFromTitle(text)
  }

  // ----- Dates -----

  /** `new Date(text)` followed by the validity test: a timestamp, or None for an invalid
      date. Date parsing itself is not part of this model. */
  type DateParser = string -> Option<Timestamp>

  /** Missing or empty text has no date; any other text is whatever the date parser makes
      of it. */
  function ParseDate(parse: DateParser, text: Option<string>): (r: Option<Timestamp>)
    ensures !Truthy(text) ==> r == None
    ensures Truthy(text) ==> r == parse(text.value)
  {
    if !Truthy(text) then None else parse(text.value)
  }

  // ----- String lists -----

  /** A list of strings as a provider may send it: absent, an array, or comma-separated text. */
  datatype ArrayInput = Missing | List(items: seq<string>) | Csv(text: string)

  /** `xs.filter(Boolean)`: the non-empty strings of `xs`, in order. */
  function NonEmpty(xs: seq<string>): (r: seq<string>)
    ensures |r| <= |xs|
    ensures forall k :: 0 <= k < |r| ==> r[k] != ""
    ensures forall x :: x in r <==> x in xs && x != ""
  {
    if xs == [] then [] else (if xs[0] != "" then [xs[0]] else []) + NonEmpty(xs[1..])
  }

  /** Filtering a concatenation is concatenating the filtered parts. */
  lemma {:induction false} NonEmptyAppend(a: seq<string>, b: seq<string>)
    ensures NonEmpty(a + b) == NonEmpty(a) + NonEmpty(b)
    decreases |a|
  {
    if a != [] {
      assert (a + b)[1..] == a[1..] + b;
      NonEmptyAppend(a[1..], b);
    } else {
      assert a + b == b;
    }
  }

  /** A list with no empty string is kept whole. */
  lemma {:induction false} NonEmptyKeeps(xs: seq<string>)
    requires forall k :: 0 <= k < |xs| ==> xs[k] != ""
    ensures NonEmpty(xs) == xs
    decreases |xs|
  {
    if xs != [] {
      NonEmptyKeeps(xs[1..]);
    }
  }

  /** A separator and `x`, or nothing when `x` is empty. */
  function Sep(sep: string, x: string): string {
    if x == "" then "" else sep + x
  }

  /** A part framed by a non-empty prefix, after a separator. */
  lemma SepFramed(sep: string, pre: string, x: string, post: string)
    requires pre != ""
    ensures Sep(sep, pre + x + post) == (sep + pre) + x + post
  {
  }

  /** The non-empty strings of `xs`, each written after `sep`. */
  function Prefixed(xs: seq<string>, sep: string): string
    decreases |xs|
  {
    if xs == [] then "" else Sep(sep, xs[0]) + Prefixed(xs[1..], sep)
  }

  /** The non-empty strings of `[x] + rest` after a separator: `x`'s first. */
  lemma PrefixedCons(x: string, rest: seq<string>, sep: string)
    ensures Prefixed([x] + rest, sep) == Sep(sep, x) + Prefixed(rest, sep)
  {
    assert ([x] + rest)[1..] == rest;
  }

  /** Filtering `[x] + rest` keeps `x` exactly when it is non-empty. */
  lemma NonEmptyCons(x: string, rest: seq<string>)
    ensures NonEmpty([x] + rest) == (if x != "" then [x] else []) + NonEmpty(rest)
  {
    assert ([x] + rest)[1..] == rest;
  }

  lemma ConcatAssoc(a: string, b: string, c: string, d: string)
    ensures a + b + (c + d) == a + ((b + c) + d)
  {
  }

  /** Joining `[h] + t` for a non-empty `t`: `h`, the separator, then `t` joined. */
  lemma JoinCons(h: string, t: seq<string>, sep: string)
    requires t != []
    ensures Join([h] + t, sep) == h + sep + Join(t, sep)
  {
    assert ([h] + t)[1..] == t;
  }

  /** One more kept string in front of a joined list. */
  lemma JoinKept(head: string, r0: string, kept: seq<string>, rest: string, sep: string)
    requires Join([r0] + kept, sep) == r0 + rest
    ensures Join([head] + ([r0] + kept), sep) == head + ((sep + r0) + rest)
  {
    JoinCons(head, [r0] + kept, sep);
    ConcatAssoc(head, sep, r0, rest);
  }

  /** Joining `[h] + ys` when no string of `ys` is empty: `h`, then each of `ys` after a
      separator. */
  lemma {:induction false} JoinAllKept(h: string, ys: seq<string>, sep: string)
    requires forall k :: 0 <= k < |ys| ==> ys[k] != ""
    ensures Join([h] + ys, sep) == h + Prefixed(ys, sep)
    decreases |ys|
  {
    if ys == [] {
      assert [h] + ys == [h];
      assert h + Prefixed(ys, sep) == h + "" == h;
    } else {
      var y, t := ys[0], ys[1..];
      assert ys == [y] + t;
      JoinAllKept(y, t, sep);
      JoinKept(h, y, t, Prefixed(t, sep), sep);
      PrefixedCons(y, t, sep);
    }
  }

  /** Empty strings add nothing to `Prefixed`. */
  lemma {:induction false} PrefixedNonEmpty(xs: seq<string>, sep: string)
    ensures Prefixed(NonEmpty(xs), sep) == Prefixed(xs, sep)
    decreases |xs|
  {
    if xs != [] {
      var x, t := xs[0], xs[1..];
      assert xs == [x] + t;
      NonEmptyCons(x, t);
      PrefixedNonEmpty(t, sep);
      PrefixedCons(x, t, sep);
      if x == "" {
        assert NonEmpty(xs) == [] + NonEmpty(t) == NonEmpty(t);
        assert Prefixed(xs, sep) == "" + Prefixed(t, sep) == Prefixed(t, sep);
      } else {
        assert NonEmpty(xs) == [x] + NonEmpty(t);
        PrefixedCons(x, NonEmpty(t), sep);
      }
    }
  }

  /** `[head, ...rest].filter(Boolean).join(sep)` for a non-empty head: the head, then every
      non-empty string of `rest` after a separator. */
  lemma JoinNonEmptyHead(head: string, rest: seq<string>, sep: string)
    requires head != ""
    ensures Join(NonEmpty([head] + rest), sep) == head + Prefixed(rest, sep)
  {
    NonEmptyCons(head, rest);
    JoinAllKept(head, NonEmpty(rest), sep);
    PrefixedNonEmpty(rest, sep);
  }

  /** `[a, b].filter(Boolean).join(sep)` for a non-empty `a`. */
  lemma JoinTwo(a: string, b: string, sep: string)
    requires a != ""
    ensures Join(NonEmpty([a, b]), sep) == a + Sep(sep, b)
  {
    assert [a, b] == [a] + [b];
    JoinNonEmptyHead(a, [b], sep);
    assert [b][1..] == [];
  }

  /** `[a, pre + x + post].filter(Boolean).join(sep)` for non-empty `a` and `pre`. */
  lemma JoinFramed(a: string, pre: string, x: string, post: string, sep: string)
    requires a != "" && pre != ""
    ensures Join(NonEmpty([a, pre + x + post]), sep) == a + ((sep + pre) + x + post)
  {
    JoinTwo(a, pre + x + post, sep);
    SepFramed(sep, pre, x, post);
  }

  /** `[a, b].filter(Boolean).join(sep)`: both strings around the separator when both are
      non-empty, otherwise the one that is (or nothing). */
  lemma JoinPair(a: string, b: string, sep: string)
    ensures Join(NonEmpty([a, b]), sep) == if a != "" && b != "" then a + sep + b else a + b
  {
    if a != "" {
      JoinTwo(a, b, sep);
    } else {
      assert [a, b][1..] == [b];
      assert a + b == b;
    }
  }

  /** Three strings, each written after `sep` when non-empty. */
  lemma PrefixedThree(b: string, c: string, d: string, sep: string)
    ensures Prefixed([b, c, d], sep) == Sep(sep, b) + Sep(sep, c) + Sep(sep, d)
  {
    assert [b, c, d] == [b] + [c, d] && [c, d] == [c] + [d] && [d] == [d] + [];
    PrefixedCons(d, [], sep);
    PrefixedCons(c, [d], sep);
    PrefixedCons(b, [c, d], sep);
  }

  /** `[a, b, c, d].filter(Boolean).join(sep)` for a non-empty `a`. */
  lemma JoinFour(a: string, b: string, c: string, d: string, sep: string)
    requires a != ""
    ensures Join(NonEmpty([a, b, c, d]), sep) == a + Sep(sep, b) + Sep(sep, c) + Sep(sep, d)
  {
    assert [a, b, c, d] == [a] + [b, c, d];
    JoinNonEmptyHead(a, [b, c, d], sep);
    PrefixedThree(b, c, d, sep);
  }

  /** `xs.map(item => item.trim())` */
  function TrimAll(xs: seq<string>): (r: seq<string>)
    ensures |r| == |xs| && forall k :: 0 <= k < |xs| ==> r[k] == Trim(xs[k])
  {
    seq(|xs|, k requires 0 <= k < |xs| => Trim(xs[k]))
  }

  /** Trimming strings that have no white space at either end changes nothing. */
  lemma TrimAllKeeps(xs: seq<string>)
    requires forall k :: 0 <= k < |xs| ==> IsTrimmed(xs[k])
    ensures TrimAll(xs) == xs
  {
    forall k | 0 <= k < |xs|
      ensures Trim(xs[k]) == xs[k]
    {
      TrimOfTrimmed(xs[k]);
    }
  }

  /** The strings of a list input: an array loses its empty strings; text is split at commas,
      each piece trimmed, and the empty pieces dropped; absent or empty text is the empty list. */
  function ParseArray(input: ArrayInput): (r: seq<string>)
    ensures forall k :: 0 <= k < |r| ==> r[k] != ""
    ensures input.Missing? ==> r == []
    ensures input.List? ==> r == NonEmpty(input.items)
    ensures input.Csv? ==> r == NonEmpty(TrimAll(Split(input.text, ',')))
  {
    match input
    case Missing => []
    case List(items) => NonEmpty(items)
    case Csv(text) =>
      if text == "" then [] else NonEmpty(TrimAll(Split(text, ',')))
  }

  /** Items that are non-empty, have no white space at either end and hold no comma come back
      unchanged from their comma-joined text, and from an array. */
  lemma ParseArrayOfJoin(xs: seq<string>)
    requires forall k :: 0 <= k < |xs| ==> xs[k] != "" && IsTrimmed(xs[k]) && ',' !in xs[k]
    ensures ParseArray(Csv(Join(xs, ","))) == xs
    ensures ParseArray(List(xs)) == xs
  {
    NonEmptyKeeps(xs);
    if xs != [] {
      SplitJoin(xs, ',');
      TrimAllKeeps(xs);
    }
  }

  // ----- Salary ranges -----

  /** A salary range: bounds in whole currency units, or None when the text had no range. */
  datatype SalaryRange = SalaryRange(min: Option<int>, max: Option<int>, currency: string)

  /** The result when no pattern matches. */
  const NoSalary := SalaryRange(None, None, "USD")

  /** The bounds a match of `pat` stands for: the `k` patterns read thousands, the grouped
      pattern reads each bound's two digit groups as one number. */
  function ReadGroups(pat: Pattern, groups: seq<string>): (r: SalaryRange)
    requires WellFormed(pat, groups)
    ensures r.currency == "USD" && r.min.Some? && r.max.Some?
    ensures pat != DollarGrouped ==>
              r.min.value == DigitsValue(groups[0]) * 1000 && r.max.value == DigitsValue(groups[1]) * 1000
    ensures pat == DollarGrouped ==>
              r.min.value == DigitsValue(groups[0]) * Pow10(|groups[1]|) + DigitsValue(groups[1])
              && r.max.value == DigitsValue(groups[2]) * Pow10(|groups[3]|) + DigitsValue(groups[3])
  {
    if pat == DollarGrouped then
      DigitsAppend(groups[0], groups[1]);
      DigitsAppend(groups[2], groups[3]);
      SalaryRange(Some(DigitsValue(groups[0] + groups[1])), Some(DigitsValue(groups[2] + groups[3])), "USD")
    else
      SalaryRange(Some(DigitsValue(groups[0]) * 1000), Some(DigitsValue(groups[1]) * 1000), "USD")
  }

  /** The range read by the first of `pats` that matches `s`; NoSalary when none does. */
  function SalaryOf(pats: seq<Pattern>, s: string): (r: SalaryRange)
    ensures r.currency == "USD"
    ensures r.min.Some? <==> r.max.Some?
    ensures r.min.None? <==> forall k :: 0 <= k < |pats| ==> Search(pats[k], s, 0).None?
    decreases |pats|
  {
    if pats == [] then NoSalary
    else
      var m := Search(pats[0], s, 0);
      if m.Some? then ReadGroups(pats[0], m.value)
      else
        var r := SalaryOf(pats[1..], s);
        assert forall k :: 1 <= k < |pats| ==> pats[k] == pats[1..][k - 1];
        r
  }

  /** The salary range a text states, trying the patterns in order. */
  function SalaryFromText(s: string): (r: SalaryRange)
    ensures r.currency == "USD"
    ensures r.min.Some? <==> r.max.Some?
    ensures r.min.None? <==> forall k :: 0 <= k < |Patterns| ==> Search(Patterns[k], s, 0).None?
  {
    SalaryOf(Patterns, s)
  }

  /** The first pattern that matches decides the range. */
  lemma {:induction false} FirstPatternDecides(pats: seq<Pattern>, s: string, i: nat)
    requires i < |pats| && Search(pats[i], s, 0).Some?
    requires forall j :: 0 <= j < i ==> Search(pats[j], s, 0).None?
    ensures SalaryOf(pats, s) == ReadGroups(pats[i], Search(pats[i], s, 0).value)
    decreases i
  {
    if i > 0 {
      assert Search(pats[0], s, 0).None?;
      FirstPatternDecides(pats[1..], s, i - 1);
    }
  }

  /** `parseSalaryRange`: the patterns tried one after the other, returning at the first
      that matches. */
  method ParseSalaryRange(salaryRange: string) returns (r: SalaryRange)
    ensures r == SalaryFromText(salaryRange)
  {
    for i := 0 to |Patterns|
      invariant SalaryOf(Patterns[i..], salaryRange) == SalaryFromText(salaryRange)
    {
      var m := Search(Patterns[i], salaryRange, 0);
      if m.Some? {
        return ReadGroups(Patterns[i], m.value);
      }
      assert Patterns[i..][1..] == Patterns[i + 1..];
    }
    return NoSalary;
  }

  /** Text without a digit states no range; in particular the empty text does not. */
  lemma SalaryWithoutDigits(s: string)
    requires forall i :: 0 <= i < |s| ==> !IsDigit(s[i])
    ensures SalaryFromText(s) == NoSalary
  {
    NoDigitNoMatch(s, DollarK);
    NoDigitNoMatch(s, DollarGrouped);
    NoDigitNoMatch(s, PlainK);
  }

  /** A match at the very start of the text, of a pattern no earlier pattern matches,
      decides the range. */
  lemma MatchAtStartDecides(s: string, i: nat, groups: seq<string>)
    requires i < |Patterns| && MatchAt(Patterns[i], s, 0) == Some(groups)
    requires forall j :: 0 <= j < i ==> Search(Patterns[j], s, 0).None?
    ensures WellFormed(Patterns[i], groups)
    ensures SalaryFromText(s) == ReadGroups(Patterns[i], groups)
  {
    assert Search(Patterns[i], s, 0) == Some(groups);
    FirstPatternDecides(Patterns, s, i);
  }

  /** `$<a>k - $<b>k` is the range from a thousand times a to a thousand times b. */
  lemma SalaryOfDollarK(a: nat, b: nat, rest: string)
    ensures SalaryFromText("$" + NatToString(a) + "k - $" + NatToString(b) + "k" + rest)
            == SalaryRange(Some(a * 1000), Some(b * 1000), "USD")
  {
    var x, y := NatToString(a), NatToString(b);
    DollarKAtStart(x, y, rest);
    MatchAtStartDecides("$" + x + "k - $" + y + "k" + rest, 0, [x, y]);
  }

  /** Digits of NatToString are not a `$`. */
  lemma NoDollarInNumber(n: nat)
    ensures '$' !in NatToString(n)
  {
  }

  /** A match of PlainK at the start of a text without a `$` decides the range. */
  lemma PlainKDecides(s: string, x: string, y: string)
    requires '$' !in s
    requires MatchAt(PlainK, s, 0) == Some([x, y])
    ensures IsDigits(x) && IsDigits(y)
    ensures SalaryFromText(s) == SalaryRange(Some(DigitsValue(x) * 1000), Some(DigitsValue(y) * 1000), "USD")
  {
    forall i | 0 <= i < |s|
      ensures s[i] != '$'
    {
      assert s[i] in s;
    }
    NoDollarNoMatch(s, DollarK);
    NoDollarNoMatch(s, DollarGrouped);
    MatchAtStartDecides(s, 2, [x, y]);
  }

  /** `<a>k - <b>k`, with no `$` anywhere, is the range from a thousand times a to a
      thousand times b. */
  lemma SalaryOfPlainK(a: nat, b: nat, rest: string)
    requires '$' !in rest
    ensures SalaryFromText(NatToString(a) + "k - " + NatToString(b) + "k" + rest)
            == SalaryRange(Some(a * 1000), Some(b * 1000), "USD")
  {
    var x, y := NatToString(a), NatToString(b);
    NoDollarInNumber(a);
    NoDollarInNumber(b);
    PlainKAtStart(x, y, rest);
    PlainKDecides(x + "k - " + y + "k" + rest, x, y);
  }

  /** A digit string holds no `k` or `K`. */
  lemma DigitsNoK(d: string)
    requires IsDigits(d)
    ensures 'k' !in d && 'K' !in d
  {
  }

  /** A match of DollarGrouped at the start of a text without a `k` or `K` decides the range. */
  lemma GroupedDecides(s: string, a: string, b: string, c: string, d: string)
    requires 'k' !in s && 'K' !in s
    requires MatchAt(DollarGrouped, s, 0) == Some([a, b, c, d])
    ensures IsDigits(a + b) && IsDigits(c + d)
    ensures SalaryFromText(s) == SalaryRange(Some(DigitsValue(a + b)), Some(DigitsValue(c + d)), "USD")
  {
    forall i | 0 <= i < |s|
      ensures !IsK(s[i])
    {
      assert s[i] in s;
    }
    NoKNoMatch(s, DollarK);
    MatchAtStartDecides(s, 1, [a, b, c, d]);
    DigitsAppend(a, b);
    DigitsAppend(c, d);
  }

  /** `$<a>,<b> - $<c>,<d>` reads each bound with its comma dropped, as the digits of both
      groups written together (`$62,000` is 62000; Text.DigitsAppend gives that value as
      a * 10^|b| + b). */
  lemma SalaryOfGrouped(a: string, b: string, c: string, d: string)
    requires |a| >= 1 && IsDigits(a) && |b| >= 1 && IsDigits(b)
    requires |c| >= 1 && IsDigits(c) && |d| >= 1 && IsDigits(d)
    ensures IsDigits(a + b) && IsDigits(c + d)
    ensures SalaryFromText("$" + a + "," + b + " - $" + c + "," + d)
            == SalaryRange(Some(DigitsValue(a + b)), Some(DigitsValue(c + d)), "USD")
  {
    DigitsNoK(a);
    DigitsNoK(b);
    DigitsNoK(c);
    DigitsNoK(d);
    GroupedAtStart(a, b, c, d);
    GroupedDecides("$" + a + "," + b + " - $" + c + "," + d, a, b, c, d);
  }

  /** The `k` form the parser documents. */
  lemma SalaryExampleK()
    ensures SalaryFromText("$62k - $102k") == SalaryRange(Some(62000), Some(102000), "USD")
  {
    assert NatToString(6) == "6" && NatToString(62) == "62";
    assert NatToString(1) == "1" && NatToString(10) == "10" && NatToString(102) == "102";
    assert "$62k - $102k" == "$" + NatToString(62) + "k - $" + NatToString(102) + "k" + "";
    SalaryOfDollarK(62, 102, "");
  }

  // ----- The unified record -----

  /** What every record built by the provider rules satisfies: a company, an employment type
      and a known experience level are always filled in, a currency is always set, there is
      no deadline and no benefit, the record is active, and its description ends with ".". */
  predicate Normalized(j: UnifiedJob) {
    && j.company != ""
    && j.employmentType != ""
    && j.experienceLevel in ExperienceLevels
    && j.currency.Some?
    && j.applicationDeadline.None?
    && j.benefits == []
    && j.active
    && |j.description| > 0 && j.description[|j.description| - 1] == '.'
  }
}
