/**
 * Pattern assembly in the servlet's constructor: the fixed fragments, the
 * text of each shape's pattern with its two holes (the format alternation
 * and the view alternation), and the structured grammar the matcher reads.
 */
module Grammar {
  import opened Wrappers
  import opened Join

  /** Anchored, case-insensitive start; opens the optional api/[1.0/]format/ group and the format group. */
  const BASE_START: string := "^(?i)/legislation/(?:(?:api/)(?:(?<=api/)1\\.0/)?(?:("
  /** Closes the format group and its '/', makes the whole api part optional, opens the view group. */
  const BASE_MIDDLE: string := ")/))?("
  const BASE_END: string := "$"
  /** Optional page number (possessive '/' after it) and optional page size (optional '/' after it). */
  const PAGING: string := "(?:(\\d+)/?+)?(?:(\\d+)/?)?"
  /** Closes the view group; '/' and the greedy id. */
  const SINGLE_END: string := ")/(.+)"
  /** Closes the view group; an optional '/'. */
  const MULTI_END: string := ")/?"
  /** Closes the view group; '/', the lazy value and a possessive optional '/'. */
  const KEY_VALUE_END: string := ")/(.*?)/?+"

  /** What follows the view group in a shape's pattern. */
  datatype SuffixKind = IdSuffix | PagedSuffix | KeyValueSuffix

  /**
   * A compiled shape: the alternatives of the format group and of the view
   * group, in the order the pattern lists them, and the suffix after the view.
   */
  datatype ShapeGrammar = ShapeGrammar(formats: seq<string>, views: seq<string>, suffix: SuffixKind)

  /** The fragments the constructor appends after the view alternation. */
  function EndText(kind: SuffixKind): (end: string) {
    match kind
    case IdSuffix => SINGLE_END + BASE_END
    case PagedSuffix => MULTI_END + PAGING + BASE_END
    case KeyValueSuffix => KEY_VALUE_END + PAGING + BASE_END
  }

  /**
   * The pattern text the constructor compiles for one shape; the Search
   * pattern is built from the same fragments as the KeyValue pattern.
   */
  function PatternText(kind: SuffixKind, formats: seq<string>, views: seq<string>): (text: string)
    ensures BASE_START <= text
    ensures |EndText(kind)| <= |text| && text[|text| - |EndText(kind)|..] == EndText(kind)
  {
    var head := BASE_START + Joined(formats, "|") + BASE_MIDDLE + Joined(views, "|");
    assert (head + EndText(kind))[..|BASE_START|] == BASE_START;
    assert (head + EndText(kind))[|head|..] == EndText(kind);
    head + EndText(kind)
  }

  /**
   * The alternatives of a group whose text is the vocabulary joined with
   * "|": the tokens themselves, or, for an empty vocabulary, the one empty
   * alternative (the group then matches the empty string).
   */
  function Alternatives(vocabulary: seq<string>): (alternatives: seq<string>) {
    if |vocabulary| == 0 then [""] else vocabulary
  }

  /** The grammar a shape's pattern encodes. */
  function Compile(kind: SuffixKind, formats: seq<string>, views: seq<string>): (g: ShapeGrammar) {
    ShapeGrammar(Alternatives(formats), Alternatives(views), kind)
  }

  /** Which shape's fragments a pattern ends with. */
  function KindOfEnd(end: string): (kind: Option<SuffixKind>) {
    if end == EndText(IdSuffix) then Some(IdSuffix)
    else if end == EndText(PagedSuffix) then Some(PagedSuffix)
    else if end == EndText(KeyValueSuffix) then Some(KeyValueSuffix)
    else None
  }

  /**
   * Reads a pattern text back into its grammar: after BASE_START, the format
   * hole runs to the first ')', then BASE_MIDDLE, then the view hole runs to
   * the next ')', and the rest names the suffix.
   */
  function Holes(pattern: string): (g: Option<ShapeGrammar>) {
    if BASE_START <= pattern then FormatHole(pattern[|BASE_START|..]) else None
  }

  /** The format hole and what follows it, once BASE_START is read. */
  function FormatHole(rest: string): (g: Option<ShapeGrammar>) {
    if ')' !in rest then None
    else
      var i := IndexOf(rest, ')');
      if BASE_MIDDLE <= rest[i..] then ViewHole(Split(rest[..i], '|'), rest[i..][|BASE_MIDDLE|..])
      else None
  }

  /** The view hole and the end, once BASE_MIDDLE is read. */
  function ViewHole(formats: seq<string>, rest: string): (g: Option<ShapeGrammar>) {
    if ')' !in rest then None
    else
      var j := IndexOf(rest, ')');
      match KindOfEnd(rest[j..])
      case None => None
      case Some(kind) => Some(ShapeGrammar(formats, Split(rest[..j], '|'), kind))
  }

  /** Tokens that read back as single alternatives: no '|' and no ')'. */
  predicate PlainTokens(vocabulary: seq<string>) {
    forall k :: 0 <= k < |vocabulary| ==> '|' !in vocabulary[k] && ')' !in vocabulary[k]
  }

  /** Each shape's end fragments are told apart. */
  lemma KindOfEndText(kind: SuffixKind)
    ensures KindOfEnd(EndText(kind)) == Some(kind)
  {
    assert EndText(IdSuffix)[2] == '(';
    assert EndText(PagedSuffix)[2] == '?';
    assert EndText(KeyValueSuffix)[2] == '(';
    assert EndText(IdSuffix)[4] == '+';
    assert EndText(KeyValueSuffix)[4] == '*';
  }

  /** Slicing a concatenation at the seam gives back its parts. */
  lemma Seam(a: string, b: string)
    ensures (a + b)[..|a|] == a && (a + b)[|a|..] == b
  {
  }

  lemma ViewHoleOf(formats: seq<string>, jv: string, kind: SuffixKind)
    requires ')' !in jv
    ensures ViewHole(formats, jv + EndText(kind)) == Some(ShapeGrammar(formats, Split(jv, '|'), kind))
  {
    var end := EndText(kind);
    Seam(jv, end);
    assert (jv + end)[|jv|] == ')';
    IndexOfIs(jv + end, ')', |jv|);
    KindOfEndText(kind);
  }

  lemma FormatHoleOf(jf: string, jv: string, kind: SuffixKind)
    requires ')' !in jf && ')' !in jv
    ensures FormatHole(jf + (BASE_MIDDLE + (jv + EndText(kind))))
         == Some(ShapeGrammar(Split(jf, '|'), Split(jv, '|'), kind))
  {
    var tail := jv + EndText(kind);
    var rest := jf + (BASE_MIDDLE + tail);
    Seam(jf, BASE_MIDDLE + tail);
    assert rest[|jf|] == ')';
    IndexOfIs(rest, ')', |jf|);
    Seam(BASE_MIDDLE, tail);
    ViewHoleOf(Split(jf, '|'), jv, kind);
  }

  /** After BASE_START, Holes reads the format hole. */
  lemma HolesStart(rest: string)
    ensures Holes(BASE_START + rest) == FormatHole(rest)
  {
    Seam(BASE_START, rest);
  }

  lemma Regroup5(a: string, b: string, c: string, d: string, e: string)
    ensures a + b + c + d + e == a + (b + (c + (d + e)))
  {
  }

  /** The value of Holes on a pattern made of the five parts with plain holes. */
  lemma HolesOfParts(jf: string, jv: string, kind: SuffixKind)
    requires ')' !in jf && ')' !in jv
    ensures Holes(BASE_START + jf + BASE_MIDDLE + jv + EndText(kind))
         == Some(ShapeGrammar(Split(jf, '|'), Split(jv, '|'), kind))
  {
    Regroup5(BASE_START, jf, BASE_MIDDLE, jv, EndText(kind));
    HolesStart(jf + (BASE_MIDDLE + (jv + EndText(kind))));
    FormatHoleOf(jf, jv, kind);
  }

  // ------------------------------------------------------------------
  // Capturing groups of the pattern text
  // ------------------------------------------------------------------

  /** The number of capturing groups the pattern of this shape has. */
  function GroupCount(kind: SuffixKind): (n: nat) {
    match kind
    case IdSuffix => 3
    case PagedSuffix => 4
    case KeyValueSuffix => 5
  }

  /** A capturing group opens at i: a '(' that does not start a `(?` construct. */
  predicate OpensGroup(s: string, i: nat)
    requires i < |s|
  {
    s[i] == '(' && (i + 1 == |s| || s[i + 1] != '?')
  }

  /** The number of capturing groups opening at or after position i. */
  function GroupsFrom(s: string, i: nat): (n: nat)
    decreases |s| - i
  {
    if i >= |s| then 0 else (if OpensGroup(s, i) then 1 else 0) + GroupsFrom(s, i + 1)
  }

  /** The number of capturing groups in a pattern text. */
  function Groups(s: string): (n: nat) {
    GroupsFrom(s, 0)
  }

  /** The second part of a concatenation keeps its own groups. */
  lemma {:induction false} GroupsFromRight(a: string, b: string, j: nat)
    requires j <= |b|
    ensures GroupsFrom(a + b, |a| + j) == GroupsFrom(b, j)
    decreases |b| - j
  {
    if j < |b| {
      GroupsFromRight(a, b, j + 1);
      assert (a + b)[|a| + j] == b[j];
      if j + 1 < |b| {
        assert (a + b)[|a| + j + 1] == b[j + 1];
      }
    }
  }

  /** A '(' at the end of a cannot be turned into `(?` by b. */
  predicate SafeSeam(a: string, b: string) {
    !(|a| > 0 && a[|a| - 1] == '(' && |b| > 0 && b[0] == '?')
  }

  lemma {:induction false} GroupsFromLeft(a: string, b: string, i: nat)
    requires i <= |a| && SafeSeam(a, b)
    ensures GroupsFrom(a + b, i) == GroupsFrom(a, i) + GroupsFrom(b, 0)
    decreases |a| - i
  {
    if i == |a| {
      GroupsFromRight(a, b, 0);
    } else {
      GroupsFromLeft(a, b, i + 1);
      assert (a + b)[i] == a[i];
      if i + 1 < |a| {
        assert (a + b)[i + 1] == a[i + 1];
      }
    }
  }

  /** Concatenating at a safe seam adds the groups of both parts. */
  lemma GroupsOfConcat(a: string, b: string)
    requires SafeSeam(a, b)
    ensures Groups(a + b) == Groups(a) + Groups(b)
  {
    GroupsFromLeft(a, b, 0);
  }

  /** Text without '(' opens no group. */
  lemma {:induction false} GroupsWithoutParen(s: string, i: nat)
    requires '(' !in s
    ensures GroupsFrom(s, i) == 0
    decreases |s| - i
  {
    if i < |s| {
      assert s[i] in s;
      GroupsWithoutParen(s, i + 1);
    }
  }

  /** The literal parts of BASE_START open no group. */
  lemma BaseStartPlainParts()
    ensures Groups("^(?i)/legislation/") == 0
    ensures Groups("(?:(?:api/)") == 0
    ensures Groups("(?:(?<=api/)1\\.0/)?") == 0
  {
    var a, b, c := "^(?i)/legislation/", "(?:(?:api/)", "(?:(?<=api/)1\\.0/)?";
    assert GroupsFrom(a, 12) == 0;
    assert GroupsFrom(a, 6) == 0;
    assert GroupsFrom(b, 6) == 0;
    assert GroupsFrom(c, 13) == 0;
    assert GroupsFrom(c, 7) == 0;
  }

  lemma BaseStartParts()
    ensures BASE_START == "^(?i)/legislation/" + "(?:(?:api/)" + "(?:(?<=api/)1\\.0/)?" + "(?:("
  {
  }

  /** BASE_START opens one group, the format group; its other parentheses start `(?` constructs. */
  lemma BaseStartGroups()
    ensures Groups(BASE_START) == 1
  {
    var a, b, c, d := "^(?i)/legislation/", "(?:(?:api/)", "(?:(?<=api/)1\\.0/)?", "(?:(";
    BaseStartParts();
    BaseStartPlainParts();
    GroupsOfConcat(a, b);
    GroupsOfConcat(a + b, c);
    GroupsOfConcat(a + b + c, d);
  }

  /** PAGING opens two groups, the page number and the page size. */
  lemma PagingGroupCount()
    ensures Groups(PAGING) == 2
  {
    var a, b := "(?:(\\d+)/?+)?", "(?:(\\d+)/?)?";
    assert PAGING == a + b;
    assert Groups(a) == 1 by {
      assert GroupsFrom(a, 6) == 0;
    }
    assert Groups(b) == 1 by {
      assert GroupsFrom(b, 6) == 0;
    }
    GroupsOfConcat(a, b);
  }

  /** The groups of each fragment. */
  lemma FragmentGroups()
    ensures Groups(BASE_START) == 1 && Groups(BASE_MIDDLE) == 1 && Groups(BASE_END) == 0
    ensures Groups(PAGING) == 2 && Groups(SINGLE_END) == 1 && Groups(MULTI_END) == 0 && Groups(KEY_VALUE_END) == 1
  {
    BaseStartGroups();
    PagingGroupCount();
    assert |KEY_VALUE_END| == 10;
    assert GroupsFrom(KEY_VALUE_END, 5) == 0;
  }

  /** Each shape's end fragments hold the groups after the view: id; page, size; value, page, size. */
  lemma EndGroups(kind: SuffixKind)
    ensures Groups(EndText(kind)) == GroupCount(kind) - 2
  {
    FragmentGroups();
    match kind
    case IdSuffix =>
      GroupsOfConcat(SINGLE_END, BASE_END);
    case PagedSuffix =>
      GroupsOfConcat(MULTI_END, PAGING);
      GroupsOfConcat(MULTI_END + PAGING, BASE_END);
    case KeyValueSuffix =>
      GroupsOfConcat(KEY_VALUE_END, PAGING);
      GroupsOfConcat(KEY_VALUE_END + PAGING, BASE_END);
  }

  /** Tokens that add no group and cannot turn a '(' before them into `(?`: no '(' and no '?'. */
  predicate NoGroupChars(vocabulary: seq<string>) {
    forall k :: 0 <= k < |vocabulary| ==> '(' !in vocabulary[k] && '?' !in vocabulary[k]
  }

  /** A joined vocabulary of such tokens: no group, and no '?' to follow a '('. */
  lemma JoinedNoGroups(vocabulary: seq<string>)
    requires NoGroupChars(vocabulary)
    ensures Groups(Joined(vocabulary, "|")) == 0
    ensures '?' !in Joined(vocabulary, "|")
  {
    JoinedAvoids(vocabulary, "|", '(');
    JoinedAvoids(vocabulary, "|", '?');
    GroupsWithoutParen(Joined(vocabulary, "|"), 0);
  }

  /** What follows an opening '(' starts with a token (no '?') or with ')'. */
  lemma SeamAfter(open: string, joined: string, rest: string)
    requires '?' !in joined && |rest| > 0 && rest[0] == ')'
    ensures SafeSeam(open, joined + rest)
  {
    if |joined| > 0 {
      assert (joined + rest)[0] == joined[0];
      assert joined[0] in joined;
    } else {
      assert joined + rest == rest;
    }
  }

  /**
   * The assembled pattern has exactly GroupCount(kind) capturing groups:
   * the format (1), the view (2), then the shape's own groups, so every
   * group number doGet reads exists and no group goes unread.
   */
  lemma GroupsOfPattern(kind: SuffixKind, formats: seq<string>, views: seq<string>)
    requires NoGroupChars(formats) && NoGroupChars(views)
    ensures Groups(PatternText(kind, formats, views)) == GroupCount(kind)
  {
    var jf, jv, end := Joined(formats, "|"), Joined(views, "|"), EndText(kind);
    FragmentGroups();
    EndGroups(kind);
    JoinedNoGroups(formats);
    JoinedNoGroups(views);
    KindOfEndText(kind);
    assert end[0] == ')';
    assert (BASE_MIDDLE + (jv + end))[0] == ')';
    SeamAfter(BASE_MIDDLE, jv, end);
    GroupsOfConcat(jv, end);
    GroupsOfConcat(BASE_MIDDLE, jv + end);
    SeamAfter(BASE_START, jf, BASE_MIDDLE + (jv + end));
    GroupsOfConcat(jf, BASE_MIDDLE + (jv + end));
    GroupsOfConcat(BASE_START, jf + (BASE_MIDDLE + (jv + end)));
    Regroup5(BASE_START, jf, BASE_MIDDLE, jv, end);
  }

  /**
   * The holes of the assembled pattern hold exactly the vocabularies'
   * alternatives in their order, and its end names the right suffix: the
   * pattern text and the grammar the matcher reads are the same grammar.
   */
  lemma HolesOfPattern(kind: SuffixKind, formats: seq<string>, views: seq<string>)
    requires PlainTokens(formats) && PlainTokens(views)
    ensures Holes(PatternText(kind, formats, views)) == Some(Compile(kind, formats, views))
  {
    JoinedAvoids(formats, "|", ')');
    JoinedAvoids(views, "|", ')');
    HolesOfParts(Joined(formats, "|"), Joined(views, "|"), kind);
    SplitJoined(formats, '|');
    SplitJoined(views, '|');
  }
}
