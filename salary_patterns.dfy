/**
 * The three salary-range regular expressions of the base normalizer, as searches over a
 * string:
 *
 *   DollarK        \$(\d+)k\s*-\s*\$(\d+)k          (case-insensitive: k or K)
 *   DollarGrouped  \$(\d+),?(\d+)\s*-\s*\$(\d+),?(\d+)
 *   PlainK         (\d+)k\s*-\s*(\d+)k              (case-insensitive: k or K)
 *
 * `s.match(re)` without the global flag reports the match at the leftmost start position
 * where the anchored pattern succeeds (Search). Each pattern is written as a sequence of
 * tokens (Tokens), and at a fixed start each token has at most one outcome, so the tokens
 * are matched one after the other without backtracking (Run):
 *   - a greedy `\d+` or `\s*` never profits from giving characters back, because the
 *     token that follows it (`k`, `-`, `$`, `,`, a space) can never be a digit or a space;
 *   - in `(\d+),?(\d+)` let D be the maximal digit run. If a comma and a digit follow D,
 *     the groups are D and the digit run E after the comma, and the match goes on after E
 *     (every other split leaves the rest of the pattern facing the comma or a digit, where
 *     it fails). Otherwise the only splits end the second group at the end of D, they all
 *     continue at the same position, and the first one the engine tries is D minus its
 *     last digit followed by that digit; a run of one digit cannot be split.
 * `\d` is the ASCII digits and `\s` is JavaScript white space (Text.IsSpace).
 */
module SalaryPatterns {
  import opened Wrappers
  import opened Text

  datatype Pattern = DollarK | DollarGrouped | PlainK

  /** The patterns in the order the parser tries them. */
  const Patterns: seq<Pattern> := [DollarK, DollarGrouped, PlainK]

  /** How many groups each pattern captures. */
  function GroupCount(pat: Pattern): nat {
    if pat == DollarGrouped then 4 else 2
  }

  /** Captured groups as the parser reads them: every group is a non-empty digit string. */
  predicate WellFormed(pat: Pattern, groups: seq<string>) {
    |groups| == GroupCount(pat) && forall k :: 0 <= k < |groups| ==> |groups[k]| >= 1 && IsDigits(groups[k])
  }

  /** Length of the maximal run of digits of `s` starting at `p`. */
  function DigitRun(s: string, p: nat): (n: nat)
    requires p <= |s|
    ensures p + n <= |s|
    ensures forall i :: p <= i < p + n ==> IsDigit(s[i])
    ensures p + n == |s| || !IsDigit(s[p + n])
    decreases |s| - p
  {
    if p < |s| && IsDigit(s[p]) then 1 + DigitRun(s, p + 1) else 0
  }

  /** Length of the maximal run of white space of `s` starting at `p`. */
  function SpaceRun(s: string, p: nat): (n: nat)
    requires p <= |s|
    ensures p + n <= |s|
    decreases |s| - p
  {
    if p < |s| && IsSpace(s[p]) then 1 + SpaceRun(s, p + 1) else 0
  }

  predicate IsK(c: char) {
    c == 'k' || c == 'K'
  }

  /** One element of a pattern; each has at most one outcome at a given position. */
  datatype Token =
    | Char(c: char)    // a literal character
    | LetterK          // `k`, which the case-insensitive flag also lets match `K`
    | Blank            // `\s*`
    | Number           // `(\d+)`, one group
    | GroupedNumber    // `(\d+),?(\d+)`, two groups

  /** A pattern as a list of tokens. */
  datatype TokenList = End | Cons(head: Token, tail: TokenList)

  /** The patterns written out token by token. */
  function Tokens(pat: Pattern): TokenList {
    match pat
    case DollarK =>
      Cons(Char('$'), Cons(Number, Cons(LetterK, Cons(Blank, Cons(Char('-'), Cons(Blank,
      Cons(Char('$'), Cons(Number, Cons(LetterK, End)))))))))
    case DollarGrouped =>
      Cons(Char('$'), Cons(GroupedNumber, Cons(Blank, Cons(Char('-'), Cons(Blank,
      Cons(Char('$'), Cons(GroupedNumber, End)))))))
    case PlainK =>
      Cons(Number, Cons(LetterK, Cons(Blank, Cons(Char('-'), Cons(Blank,
      Cons(Number, Cons(LetterK, End)))))))
  }

  /** The groups a token captures at `p` and the position after it, if it matches there. */
  function Step(t: Token, s: string, p: nat): (r: Option<(seq<string>, nat)>)
    requires p <= |s|
    ensures r.Some? ==> p <= r.value.1 <= |s|
  {
    match t
    case Char(c) => if p < |s| && s[p] == c then Some(([], p + 1)) else None
    case LetterK => if p < |s| && IsK(s[p]) then Some(([], p + 1)) else None
    case Blank => Some(([], p + SpaceRun(s, p)))
    case Number =>
      var n := DigitRun(s, p);
      var d: nat := p + n;
      if n == 0 then None else Some(([s[p..d]], d))
    case GroupedNumber =>
      var n := DigitRun(s, p);
      var d: nat := p + n;
      if n == 0 then None
      else if d + 1 < |s| && s[d] == ',' && IsDigit(s[d + 1]) then
        var e: nat := d + 1 + DigitRun(s, d + 1);
        Some(([s[p..d], s[d + 1..e]], e))
      else if n >= 2 then
        Some(([s[p..d - 1], s[d - 1..d]], d))
      else
        None
  }

  /** The tokens matched one after the other from `p`: the groups they capture, in order. */
  function Run(toks: TokenList, s: string, p: nat): Option<seq<string>>
    requires p <= |s|
  {
    match toks
    case End => Some([])
    case Cons(t, rest) =>
      var st :- Step(t, s, p);
      var groups :- Run(rest, s, st.1);
      Some(st.0 + groups)
  }

  /** The groups of `pat` matched at start `p`, if it matches there. */
  function MatchAt(pat: Pattern, s: string, p: nat): (r: Option<seq<string>>)
    requires p <= |s|
    ensures r.Some? ==> WellFormed(pat, r.value)
  {
    RunGroups(Tokens(pat), s, p);
    GroupsOfTokens(pat);
    Run(Tokens(pat), s, p)
  }

  /** How many groups a token captures. */
  function TokenGroups(t: Token): nat {
    match t
    case Number => 1
    case GroupedNumber => 2
    case _ => 0
  }

  /** How many groups a token list captures. */
  function GroupsOf(toks: TokenList): nat {
    match toks
    case End => 0
    case Cons(t, rest) => TokenGroups(t) + GroupsOf(rest)
  }

  /** Each pattern captures the number of groups the parser reads. */
  lemma GroupsOfTokens(pat: Pattern)
    ensures GroupsOf(Tokens(pat)) == GroupCount(pat)
  {
  }

  /** A run that matches its first token and then the rest. */
  lemma RunCons(t: Token, rest: TokenList, s: string, p: nat, g: seq<string>, q: nat, groups: seq<string>,
                all: seq<string>)
    requires p <= q <= |s|
    requires Step(t, s, p) == Some((g, q))
    requires Run(rest, s, q) == Some(groups)
    requires all == g + groups
    ensures Run(Cons(t, rest), s, p) == Some(all)
  {
  }

  /** A slice of digits is a digit string. */
  lemma SliceDigits(s: string, i: nat, j: nat)
    requires i <= j <= |s|
    requires forall k :: i <= k < j ==> IsDigit(s[k])
    ensures IsDigits(s[i..j])
  {
    var run := s[i..j];
    assert forall k :: 0 <= k < |run| ==> run[k] == s[i + k];
  }

  /** The groups a token captures are non-empty digit strings. */
  lemma StepGroups(t: Token, s: string, p: nat)
    requires p <= |s|
    ensures var r := Step(t, s, p);
            r.Some? ==> |r.value.0| == TokenGroups(t)
                        && forall k :: 0 <= k < |r.value.0| ==> |r.value.0[k]| >= 1 && IsDigits(r.value.0[k])
  {
    var d := p + DigitRun(s, p);
    if t == Number {
      SliceDigits(s, p, d);
    } else if t == GroupedNumber {
      if d + 1 < |s| && s[d] == ',' && IsDigit(s[d + 1]) {
        SliceDigits(s, p, d);
        SliceDigits(s, d + 1, d + 1 + DigitRun(s, d + 1));
      } else if d - p >= 2 {
        SliceDigits(s, p, d - 1);
        SliceDigits(s, d - 1, d);
      }
    }
  }

  /** A successful run captures GroupsOf(toks) groups, all non-empty digit strings. */
  lemma {:induction false} RunGroups(toks: TokenList, s: string, p: nat)
    requires p <= |s|
    ensures var r := Run(toks, s, p);
            r.Some? ==> |r.value| == GroupsOf(toks)
                        && forall k :: 0 <= k < |r.value| ==> |r.value[k]| >= 1 && IsDigits(r.value[k])
  {
    if toks.Cons? {
      var st := Step(toks.head, s, p);
      StepGroups(toks.head, s, p);
      if st.Some? {
        RunGroups(toks.tail, s, st.value.1);
        var r := Run(toks, s, p);
        if r.Some? {
          var rest := Run(toks.tail, s, st.value.1).value;
          assert r.value == st.value.0 + rest;
        }
      }
    }
  }

  /** `s.match(pat)` looking from `p` on: the match at the leftmost start that has one. */
  function Search(pat: Pattern, s: string, p: nat): (r: Option<seq<string>>)
    requires p <= |s|
    ensures r.Some? ==> WellFormed(pat, r.value)
    decreases |s| - p
  {
    var m := MatchAt(pat, s, p);
    if m.Some? then m
    else if p == |s| then None
    else Search(pat, s, p + 1)
  }

  /** `pat` matches at `q` and at no start from `p` up to `q`. */
  ghost predicate FirstMatchAt(pat: Pattern, s: string, p: nat, q: nat)
    requires p <= q <= |s|
  {
    MatchAt(pat, s, q).Some? && forall q' :: p <= q' < q ==> MatchAt(pat, s, q').None?
  }

  /** Search reports the match at the leftmost start from `p` on, and nothing only when
      no start from `p` on matches. */
  lemma {:induction false} SearchIsLeftmost(pat: Pattern, s: string, p: nat)
    requires p <= |s|
    ensures Search(pat, s, p).Some? ==>
              exists q :: p <= q <= |s| && FirstMatchAt(pat, s, p, q) && Search(pat, s, p) == MatchAt(pat, s, q)
    ensures Search(pat, s, p).None? <==> forall q :: p <= q <= |s| ==> MatchAt(pat, s, q).None?
    decreases |s| - p
  {
    if MatchAt(pat, s, p).Some? {
      assert FirstMatchAt(pat, s, p, p);
    } else if p < |s| {
      SearchIsLeftmost(pat, s, p + 1);
      if Search(pat, s, p + 1).Some? {
        var q :| p + 1 <= q <= |s| && FirstMatchAt(pat, s, p + 1, q) && Search(pat, s, p + 1) == MatchAt(pat, s, q);
        assert FirstMatchAt(pat, s, p, q);
      }
    }
  }

  /** What a token other than Blank needs to find at the first position it consumes. */
  predicate Consumes(t: Token, c: char) {
    match t
    case Char(x) => c == x
    case LetterK => IsK(c)
    case Blank => true
    case Number => IsDigit(c)
    case GroupedNumber => IsDigit(c)
  }

  /** `t` is one of the tokens of `toks`. */
  predicate Mentions(toks: TokenList, t: Token) {
    toks.Cons? && (toks.head == t || Mentions(toks.tail, t))
  }

  /** A successful run has found, somewhere from `p` on, a character each of its non-blank
      tokens needs. */
  lemma {:induction false} RunConsumes(toks: TokenList, s: string, p: nat, t: Token)
    requires p <= |s| && Mentions(toks, t) && t != Blank
    requires Run(toks, s, p).Some?
    ensures exists i :: p <= i < |s| && Consumes(t, s[i])
  {
    var st := Step(toks.head, s, p).value;
    if toks.head == t {
      assert Consumes(t, s[p]);
    } else {
      RunConsumes(toks.tail, s, st.1, t);
    }
  }

  /** A pattern needs the character each of its non-blank tokens consumes somewhere in the
      text. */
  lemma {:induction false} SearchConsumes(pat: Pattern, s: string, p: nat, t: Token)
    requires p <= |s| && Mentions(Tokens(pat), t) && t != Blank
    requires forall i :: 0 <= i < |s| ==> !Consumes(t, s[i])
    ensures Search(pat, s, p).None?
    decreases |s| - p
  {
    if Run(Tokens(pat), s, p).Some? {
      RunConsumes(Tokens(pat), s, p, t);
    }
    if p < |s| {
      SearchConsumes(pat, s, p + 1, t);
    }
  }

  /** Neither `k`-suffixed pattern can match a string without a `k` or `K`. */
  lemma NoKNoMatch(s: string, pat: Pattern)
    requires pat != DollarGrouped
    requires forall i :: 0 <= i < |s| ==> !IsK(s[i])
    ensures Search(pat, s, 0).None?
  {
    SearchConsumes(pat, s, 0, LetterK);
  }

  /** The dollar patterns cannot match a string without a `$`. */
  lemma NoDollarNoMatch(s: string, pat: Pattern)
    requires pat != PlainK
    requires forall i :: 0 <= i < |s| ==> s[i] != '$'
    ensures Search(pat, s, 0).None?
  {
    SearchConsumes(pat, s, 0, Char('$'));
  }

  /** No pattern can match a string without a digit. */
  lemma NoDigitNoMatch(s: string, pat: Pattern)
    requires forall i :: 0 <= i < |s| ==> !IsDigit(s[i])
    ensures Search(pat, s, 0).None?
  {
    SearchConsumes(pat, s, 0, if pat == DollarGrouped then GroupedNumber else Number);
  }

  /** A digit string `d` at `p`, followed by a non-digit or the end, is the whole run there. */
  lemma {:induction false} DigitRunOf(s: string, p: nat, d: string)
    requires p + |d| <= |s| && s[p..p + |d|] == d && IsDigits(d)
    requires p + |d| == |s| || !IsDigit(s[p + |d|])
    ensures DigitRun(s, p) == |d|
    decreases |d|
  {
    if |d| > 0 {
      assert s[p] == d[0];
      assert s[p + 1..p + 1 + |d[1..]|] == d[1..];
      DigitRunOf(s, p + 1, d[1..]);
    }
  }

  /** One space followed by something else is what `\s*` consumes. */
  lemma OneSpace(s: string, q: nat)
    requires q + 1 < |s| && s[q] == ' ' && !IsSpace(s[q + 1])
    ensures Step(Blank, s, q) == Some(([], q + 1))
  {
    assert SpaceRun(s, q + 1) == 0;
  }

  /** `\s*-\s*` over " - " followed by something other than white space: the rest of the
      pattern goes on after it. */
  lemma SpacedDashAt(s: string, q: nat, rest: TokenList, g: seq<string>)
    requires q + 3 < |s| && s[q] == ' ' && s[q + 1] == '-' && s[q + 2] == ' ' && !IsSpace(s[q + 3])
    requires Run(rest, s, q + 3) == Some(g)
    ensures Run(Cons(Blank, Cons(Char('-'), Cons(Blank, rest))), s, q) == Some(g)
  {
    assert [] + g == g;
    OneSpace(s, q + 2);
    RunCons(Blank, rest, s, q + 2, [], q + 3, g, g);
    RunCons(Char('-'), Cons(Blank, rest), s, q + 1, [], q + 2, g, g);
    OneSpace(s, q);
    RunCons(Blank, Cons(Char('-'), Cons(Blank, rest)), s, q, [], q + 1, g, g);
  }

  /** `(\d+)k` over the digit string `b` followed by a `k`. */
  lemma NumberKAt(s: string, q: nat, b: string)
    requires |b| >= 1 && IsDigits(b)
    requires q + |b| < |s| && s[q..q + |b|] == b && s[q + |b|] == 'k'
    ensures Run(Cons(Number, Cons(LetterK, End)), s, q) == Some([b])
  {
    DigitRunOf(s, q, b);
    RunCons(LetterK, End, s, q + |b|, [], q + |b| + 1, [], []);
    RunCons(Number, Cons(LetterK, End), s, q, [b], q + |b|, [], [b]);
  }

  /** DollarK matches at 0 when the text has the digit runs `a` and `b` in the places of
      `$<a>k - $<b>k`. */
  lemma DollarKAt(s: string, a: string, b: string)
    requires |a| >= 1 && IsDigits(a) && |b| >= 1 && IsDigits(b)
    requires var n, m := |a|, |b|;
             && 7 + n + m <= |s| && s[0] == '$' && s[1..1 + n] == a && s[1 + n] == 'k'
             && s[2 + n] == ' ' && s[3 + n] == '-' && s[4 + n] == ' ' && s[5 + n] == '$'
             && s[6 + n..6 + n + m] == b && s[6 + n + m] == 'k'
    ensures MatchAt(DollarK, s, 0) == Some([a, b])
  {
    var n := |a|;
    var numberK := Cons(Number, Cons(LetterK, End));
    NumberKAt(s, 6 + n, b);
    RunCons(Char('$'), numberK, s, 5 + n, [], 6 + n, [b], [b]);
    var dash := Cons(Blank, Cons(Char('-'), Cons(Blank, Cons(Char('$'), numberK))));
    SpacedDashAt(s, 2 + n, Cons(Char('$'), numberK), [b]);
    RunCons(LetterK, dash, s, 1 + n, [], 2 + n, [b], [b]);
    DigitRunOf(s, 1, a);
    RunCons(Number, Cons(LetterK, dash), s, 1, [a], 1 + n, [b], [a, b]);
    RunCons(Char('$'), Cons(Number, Cons(LetterK, dash)), s, 0, [], 1, [a, b], [a, b]);
  }

  /** `$<a>k - $<b>k` at the start of a string is captured as the digits of a and b. */
  lemma DollarKAtStart(a: string, b: string, rest: string)
    requires |a| >= 1 && IsDigits(a) && |b| >= 1 && IsDigits(b)
    ensures MatchAt(DollarK, "$" + a + "k - $" + b + "k" + rest, 0) == Some([a, b])
  {
    var s := "$" + a + "k - $" + b + "k" + rest;
    var n, m := |a|, |b|;
    assert s[1..1 + n] == a && s[1 + n] == 'k';
    assert s[6 + n..6 + n + m] == b && s[6 + n + m] == 'k';
    DollarKAt(s, a, b);
  }

  /** PlainK matches at 0 when the text has the digit runs `a` and `b` in the places of
      `<a>k - <b>k`. */
  lemma PlainKAt(s: string, a: string, b: string)
    requires |a| >= 1 && IsDigits(a) && |b| >= 1 && IsDigits(b)
    requires var n, m := |a|, |b|;
             && 5 + n + m <= |s| && s[..n] == a && s[n] == 'k'
             && s[1 + n] == ' ' && s[2 + n] == '-' && s[3 + n] == ' '
             && s[4 + n..4 + n + m] == b && s[4 + n + m] == 'k'
    ensures MatchAt(PlainK, s, 0) == Some([a, b])
  {
    var n := |a|;
    var numberK := Cons(Number, Cons(LetterK, End));
    NumberKAt(s, 4 + n, b);
    assert s[4 + n] == b[0];
    var dash := Cons(Blank, Cons(Char('-'), Cons(Blank, numberK)));
    SpacedDashAt(s, 1 + n, numberK, [b]);
    RunCons(LetterK, dash, s, n, [], 1 + n, [b], [b]);
    assert s[0..n] == a;
    DigitRunOf(s, 0, a);
    RunCons(Number, Cons(LetterK, dash), s, 0, [a], n, [b], [a, b]);
  }

  /** `<a>k - <b>k` at the start of a string is captured as the digits of a and b. */
  lemma PlainKAtStart(a: string, b: string, rest: string)
    requires |a| >= 1 && IsDigits(a) && |b| >= 1 && IsDigits(b)
    ensures MatchAt(PlainK, a + "k - " + b + "k" + rest, 0) == Some([a, b])
  {
    var s := a + "k - " + b + "k" + rest;
    var n, m := |a|, |b|;
    assert s[..n] == a && s[n] == 'k';
    assert s[4 + n..4 + n + m] == b && s[4 + n + m] == 'k';
    PlainKAt(s, a, b);
  }

  /** A digit string `a`, a comma and a digit string `b` that ends the digit run there are
      read as the groups a and b. */
  lemma GroupedNumberOf(s: string, p: nat, a: string, b: string)
    requires |a| >= 1 && IsDigits(a) && |b| >= 1 && IsDigits(b)
    requires p + |a| + 1 + |b| <= |s|
    requires s[p..p + |a|] == a && s[p + |a|] == ',' && s[p + |a| + 1..p + |a| + 1 + |b|] == b
    requires p + |a| + 1 + |b| == |s| || !IsDigit(s[p + |a| + 1 + |b|])
    ensures Step(GroupedNumber, s, p) == Some(([a, b], p + |a| + 1 + |b|))
  {
    DigitRunOf(s, p, a);
    assert s[p + |a| + 1] == b[0];
    DigitRunOf(s, p + |a| + 1, b);
  }

  /** DollarGrouped matches at 0 when the text has the digit runs `a`, `b`, `c`, `d` in
      the places of `$<a>,<b> - $<c>,<d>`, and nothing after them. */
  lemma GroupedAt(s: string, a: string, b: string, c: string, d: string)
    requires |a| >= 1 && IsDigits(a) && |b| >= 1 && IsDigits(b)
    requires |c| >= 1 && IsDigits(c) && |d| >= 1 && IsDigits(d)
    requires var n, m, k := |a|, |b|, |c|;
             && |s| == 7 + n + m + k + |d| && s[0] == '$' && s[1..1 + n] == a && s[1 + n] == ','
             && s[2 + n..2 + n + m] == b && s[2 + n + m] == ' ' && s[3 + n + m] == '-'
             && s[4 + n + m] == ' ' && s[5 + n + m] == '$'
             && s[6 + n + m..6 + n + m + k] == c && s[6 + n + m + k] == ','
             && s[7 + n + m + k..] == d
    ensures MatchAt(DollarGrouped, s, 0) == Some([a, b, c, d])
  {
    var n, m, k := |a|, |b|, |c|;
    assert s[7 + n + m + k..7 + n + m + k + |d|] == d;
    GroupedNumberOf(s, 6 + n + m, c, d);
    var last := Cons(GroupedNumber, End);
    RunCons(GroupedNumber, End, s, 6 + n + m, [c, d], |s|, [], [c, d]);
    RunCons(Char('$'), last, s, 5 + n + m, [], 6 + n + m, [c, d], [c, d]);
    var dash := Cons(Blank, Cons(Char('-'), Cons(Blank, Cons(Char('$'), last))));
    SpacedDashAt(s, 2 + n + m, Cons(Char('$'), last), [c, d]);
    GroupedNumberOf(s, 1, a, b);
    RunCons(GroupedNumber, dash, s, 1, [a, b], 2 + n + m, [c, d], [a, b, c, d]);
    RunCons(Char('$'), Cons(GroupedNumber, dash), s, 0, [], 1, [a, b, c, d], [a, b, c, d]);
  }

  /** `$<a>,<b> - $<c>,<d>` is captured as its four digit groups. */
  lemma GroupedAtStart(a: string, b: string, c: string, d: string)
    requires |a| >= 1 && IsDigits(a) && |b| >= 1 && IsDigits(b)
    requires |c| >= 1 && IsDigits(c) && |d| >= 1 && IsDigits(d)
    ensures MatchAt(DollarGrouped, "$" + a + "," + b + " - $" + c + "," + d, 0) == Some([a, b, c, d])
  {
    var s := "$" + a + "," + b + " - $" + c + "," + d;
    var n, m, k := |a|, |b|, |c|;
    assert s[1..1 + n] == a && s[1 + n] == ',' && s[2 + n..2 + n + m] == b;
    assert s[6 + n + m..6 + n + m + k] == c && s[6 + n + m + k] == ',';
    assert s[7 + n + m + k..] == d;
    GroupedAt(s, a, b, c, d);
  }
}
