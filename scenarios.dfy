/**
 * The routing decision on concrete paths, for a small vocabulary: formats
 * json and xml for every shape, single view "bill", multi view "bills",
 * key-value view "committee" and search view "search".
 */
module Scenarios {
  import opened Wrappers
  import opened Text
  import opened Grammar
  import opened Matcher
  import opened Servlet

  const FORMATS: seq<string> := ["json", "xml"]

  const VOCABULARY: Vocabulary :=
    Vocabulary(["bill"], FORMATS, ["bills"], FORMATS, ["committee"], FORMATS, ["search"], FORMATS)

  /** The patterns an ApiServlet built from VOCABULARY holds. */
  function Patterns(): (p: PatternSet)
    ensures WellShaped(p)
  {
    PatternsOf(VOCABULARY)
  }

  /** The path of one item: a head, a '/' and the id. */
  function IdPath(head: string, id: string): (path: string) {
    head + "/" + id
  }

  /** After the head, the id suffix reads exactly the id. */
  lemma IdAfter(head: string, id: string)
    requires |id| > 0 && NoTerminators(id, 0, |id|)
    ensures var s := IdPath(head, id);
      && LiteralAt(s, 0, head) && s[..|head|] == head && s[|head| + 1..] == id && |s| == |head| + 1 + |id|
      && MatchId(s, |head|) == Some(IdTail(|id|))
  {
    var s := IdPath(head, id);
    assert s == head + ("/" + id);
    LiteralAtStart(head, "/" + id);
    assert ValidId(s, |head|, |id|) by {
      forall k | |head| + 1 <= k < |head| + 1 + |id| ensures !IsLineTerminator(s[k]) {
        assert s[k] == id[k - |head| - 1];
      }
    }
    MatchIdUnique(s, |head|, |id|);
  }

  lemma SingleJsonHead()
    ensures PrefixOfRank(Patterns().single, 2) == Api(false, 0)
    ensures PrefixText(Patterns().single, Api(false, 0)) == "api/json/"
    ensures Head(Patterns().single, Api(false, 0), 0) == "/legislation/api/json/bill"
  {
  }

  /** The path of a single bill in json, without the version. */
  function SingleJsonPath(id: string): (path: string) {
    IdPath("/legislation/api/json/bill", id)
  }

  lemma SingleJsonMatch(id: string)
    requires |id| > 0 && NoTerminators(id, 0, |id|)
    ensures Match(Patterns().single, SingleJsonPath(id)) == Some(Parse(Api(false, 0), 0, IdTail(|id|)))
  {
    var head := "/legislation/api/json/bill";
    var s := SingleJsonPath(id);
    IdAfter(head, id);
    var g := Patterns().single;
    assert s[17] == head[17] == 'j';
    LiteralMismatch(s, |BASE|, "api/1.0/", 4);
    SkipVersioned(g, s, 0);
    SingleJsonHead();
    TakeCandidate(g, s, 2, 0, IdTail(|id|));
  }

  lemma SingleJsonGroups(id: string, P: Parse)
    requires |id| > 0 && NoTerminators(id, 0, |id|)
    requires P == Parse(Api(false, 0), 0, IdTail(|id|)) && Valid(Patterns().single, SingleJsonPath(id), P)
    ensures SingleRequestOf(Patterns().single, SingleJsonPath(id), P)
         == SingleViewRequest(Some("json"), Some("bill"), Some(id))
  {
    var head := "/legislation/api/json/bill";
    var s := SingleJsonPath(id);
    IdAfter(head, id);
    var g := Patterns().single;
    SingleJsonHead();
    assert s[17..21] == head[17..21] == "json";
    assert Group(g, s, P, 1) == Some("json");
    assert s[22..26] == head[22..26] == "bill";
    assert Group(g, s, P, 2) == Some("bill");
    assert s[27..27 + |id|] == s[27..] == id;
    assert Group(g, s, P, 3) == Some(id);
  }

  /** A single view with a format: "api/" then json, the view and the id, which may hold '/'. */
  lemma SingleWithFormat(id: string)
    requires |id| > 0 && NoTerminators(id, 0, |id|)
    ensures RouteRequest(Patterns(), SingleJsonPath(id)) == Some(SingleViewRequest(Some("json"), Some("bill"), Some(id)))
  {
    SingleJsonMatch(id);
    SingleJsonGroups(id, Parse(Api(false, 0), 0, IdTail(|id|)));
  }

  /** Without "api/" after "/legislation/", only the bare candidate of a one-view pattern is left. */
  lemma BareOnly(g: ShapeGrammar, s: string)
    requires |g.views| == 1 && !LiteralAt(s, |BASE|, "api/")
    ensures Match(g, s) == TryAt(g, s, 2 * |g.formats|, 0)
  {
    SkipApi(g, s, 0);
    NextPrefix(g, s, 2 * |g.formats|);
  }

  /** ... and when the view is not there either, the pattern does not match. */
  lemma BareMismatch(g: ShapeGrammar, s: string, j: nat)
    requires |g.views| == 1 && !LiteralAt(s, |BASE|, "api/")
    requires j < |g.views[0]| && (|BASE| + |g.views[0]| <= |s| ==> Fold(s[|BASE| + j]) != Fold(g.views[0][j]))
    ensures Match(g, s) == None
  {
    BareOnly(g, s);
    assert Head(g, Bare, 0) == BASE + g.views[0];
    LiteralAtConcat(s, 0, BASE, g.views[0]);
    LiteralMismatch(s, |BASE|, g.views[0], j);
  }

  /** The path of a page of bills: page number, then page size. */
  function MultiPath(n1: string, n2: string): (path: string) {
    "/legislation/bills/" + n1 + "/" + n2
  }

  lemma MultiDigits(n1: string, n2: string)
    requires Numeric(n1) && Numeric(n2)
    ensures var s := MultiPath(n1, n2);
      && |s| == 20 + |n1| + |n2|
      && AllDigits(s, 19, 19 + |n1|) && s[19 + |n1|] == '/'
      && AllDigits(s, 20 + |n1|, 20 + |n1| + |n2|)
      && s[19..19 + |n1|] == n1 && s[20 + |n1|..] == n2
      && s[..18] == "/legislation/bills" && s[13] == 'b' && s[17] == 's' && s[18] == '/'
  {
    var s := MultiPath(n1, n2);
    assert s == "/legislation/bills/" + (n1 + ("/" + n2));
    forall k | 19 <= k < 19 + |n1| ensures IsDigit(s[k]) {
      assert s[k] == n1[k - 19];
    }
    forall k | 20 + |n1| <= k < 20 + |n1| + |n2| ensures IsDigit(s[k]) {
      assert s[k] == n2[k - 20 - |n1|];
    }
  }

  lemma MultiHeads()
    ensures Head(Patterns().single, Bare, 0) == "/legislation/bill"
    ensures Head(Patterns().multi, Bare, 0) == "/legislation/bills"
    ensures PrefixOfRank(Patterns().single, 4) == Bare && PrefixOfRank(Patterns().multi, 4) == Bare
  {
  }

  lemma MultiMatch(n1: string, n2: string)
    requires Numeric(n1) && Numeric(n2)
    ensures Match(Patterns().single, MultiPath(n1, n2)) == None
    ensures Match(Patterns().multi, MultiPath(n1, n2)) == Some(Parse(Bare, 0, PagedTail(true, Paging(|n1|, |n2|, false))))
  {
    MultiBare(n1, n2);
    MultiHeads();
    MultiTail(n1, n2);
  }

  /** After "/legislation/bills" the multi-view suffix reads "/n1/n2" as page number and page size. */
  lemma MultiTail(n1: string, n2: string)
    requires Numeric(n1) && Numeric(n2)
    ensures MatchTail(IdSuffix, MultiPath(n1, n2), 17) == None
    ensures MatchTail(PagedSuffix, MultiPath(n1, n2), 18) == Some(PagedTail(true, Paging(|n1|, |n2|, false)))
  {
    var s := MultiPath(n1, n2);
    MultiDigits(n1, n2);
    DigitRunIs(s, 19, |n1|);
    DigitRunIs(s, 20 + |n1|, |n2|);
    assert MatchPaging(s, 19) == Some(Paging(|n1|, |n2|, false));
  }


  /** Both bills patterns can only read a page of bills with their bare prefix, and their heads are there. */
  lemma MultiBare(n1: string, n2: string)
    requires Numeric(n1) && Numeric(n2)
    ensures var s := MultiPath(n1, n2);
      && Match(Patterns().single, s) == TryAt(Patterns().single, s, 4, 0)
      && Match(Patterns().multi, s) == TryAt(Patterns().multi, s, 4, 0)
      && LiteralAt(s, 0, "/legislation/bill") && LiteralAt(s, 0, "/legislation/bills")
  {
    var s := MultiPath(n1, n2);
    MultiDigits(n1, n2);
    MultiHeads();
    LiteralMismatch(s, |BASE|, "api/", 0);
    LiteralAtStart("/legislation/bills", s[18..]);
    assert s == "/legislation/bills" + s[18..];
    LiteralAtConcat(s, 0, "/legislation/bill", "s");
    BareOnly(Patterns().single, s);
    BareOnly(Patterns().multi, s);
  }


  lemma MultiGroups(n1: string, n2: string, P: Parse)
    requires Numeric(n1) && Numeric(n2)
    requires P == Parse(Bare, 0, PagedTail(true, Paging(|n1|, |n2|, false))) && Valid(Patterns().multi, MultiPath(n1, n2), P)
    ensures MultiRequestOf(Patterns().multi, MultiPath(n1, n2), P) == MultiViewRequest(None, Some("bills"), Some(n1), Some(n2))
  {
    var s := MultiPath(n1, n2);
    MultiDigits(n1, n2);
    MultiHeads();
    var g := Patterns().multi;
    assert s[13..18] == "bills";
    assert Group(g, s, P, 1) == None;
    assert Group(g, s, P, 2) == Some("bills");
    assert Group(g, s, P, 3) == Some(n1);
    assert AfterPage(s, 19, |n1|) == 20 + |n1|;
    assert s[20 + |n1|..20 + |n1| + |n2|] == n2;
    assert Group(g, s, P, 4) == Some(n2);
  }

  /**
   * "/legislation/bills/1/20": the single pattern's "bill" is there too, but
   * its id needs a '/' next, so the multi pattern takes the path, without a
   * format.
   */
  lemma MultiPage(n1: string, n2: string)
    requires Numeric(n1) && Numeric(n2)
    ensures RouteRequest(Patterns(), MultiPath(n1, n2)) == Some(MultiViewRequest(None, Some("bills"), Some(n1), Some(n2)))
  {
    MultiMatch(n1, n2);
    MultiGroups(n1, n2, Parse(Bare, 0, PagedTail(true, Paging(|n1|, |n2|, false))));
  }

  /** The path of a page of bills followed by one more number. */
  function ThreeNumberPath(n1: string, n2: string, n3: string): (path: string) {
    "/legislation/bills/" + n1 + "/" + n2 + "/" + n3
  }

  lemma ThreeNumberDigits(n1: string, n2: string, n3: string)
    requires Numeric(n1) && Numeric(n2) && Numeric(n3)
    ensures var s := ThreeNumberPath(n1, n2, n3);
      && |s| == 21 + |n1| + |n2| + |n3|
      && AllDigits(s, 19, 19 + |n1|) && s[19 + |n1|] == '/'
      && AllDigits(s, 20 + |n1|, 20 + |n1| + |n2|) && s[20 + |n1| + |n2|] == '/'
      && IsDigit(s[21 + |n1| + |n2|])
      && s[..18] == "/legislation/bills" && s[13] == 'b' && s[17] == 's' && s[18] == '/'
  {
    var s := ThreeNumberPath(n1, n2, n3);
    assert s == "/legislation/bills/" + (n1 + ("/" + (n2 + ("/" + n3))));
    forall k | 19 <= k < 19 + |n1| ensures IsDigit(s[k]) {
      assert s[k] == n1[k - 19];
    }
    forall k | 20 + |n1| <= k < 20 + |n1| + |n2| ensures IsDigit(s[k]) {
      assert s[k] == n2[k - 20 - |n1|];
    }
    assert s[21 + |n1| + |n2|] == n3[0];
  }

  /**
   * "/legislation/bills/1/20/30": PAGING reads at most two numbers, so no
   * pattern matches and doGet answers 404.
   */
  lemma ThreeNumbers(n1: string, n2: string, n3: string)
    requires Numeric(n1) && Numeric(n2) && Numeric(n3)
    ensures RouteRequest(Patterns(), ThreeNumberPath(n1, n2, n3)) == None
  {
    var s := ThreeNumberPath(n1, n2, n3);
    ThreeNumbersBills(n1, n2, n3);
    ThreeNumberDigits(n1, n2, n3);
    LiteralMismatch(s, |BASE|, "api/", 0);
    BareMismatch(Patterns().keyValue, s, 0);
    BareMismatch(Patterns().search, s, 0);
  }

  /** Neither bills pattern matches a page of bills followed by one more number. */
  lemma ThreeNumbersBills(n1: string, n2: string, n3: string)
    requires Numeric(n1) && Numeric(n2) && Numeric(n3)
    ensures Match(Patterns().single, ThreeNumberPath(n1, n2, n3)) == None
    ensures Match(Patterns().multi, ThreeNumberPath(n1, n2, n3)) == None
  {
    var s := ThreeNumberPath(n1, n2, n3);
    ThreeNumberDigits(n1, n2, n3);
    MultiHeads();
    LiteralMismatch(s, |BASE|, "api/", 0);
    LiteralAtStart("/legislation/bills", s[18..]);
    assert s == "/legislation/bills" + s[18..];
    LiteralAtConcat(s, 0, "/legislation/bill", "s");
    BareOnly(Patterns().single, s);
    BareOnly(Patterns().multi, s);
    ThreeNumbersNoMulti(s, 18, |n1|, |n2|);
  }


  /** The prefix texts of a pattern with the formats json and xml, in the order they are tried. */
  lemma PrefixTexts(g: ShapeGrammar)
    requires g.formats == FORMATS
    ensures PrefixCount(g) == 5
    ensures PrefixText(g, PrefixOfRank(g, 2)) == "api/json/"
    ensures PrefixText(g, PrefixOfRank(g, 3)) == "api/xml/"
    ensures PrefixOfRank(g, 4) == Bare && PrefixText(g, Bare) == ""
  {
  }

  /** Without "api/1.0/", json or xml after "api/", the api candidates are all passed over. */
  lemma ApiCommitteeSkipped(g: ShapeGrammar, s: string)
    requires g.formats == FORMATS && s == "/legislation/api/committee/finance"
    ensures Matcher.Search(g, s, 0, 0) == Matcher.Search(g, s, 4, 0)
  {
    assert s[17] == 'c' && |s| == 34;
    PrefixTexts(g);
    LiteralMismatch(s, |BASE|, "api/1.0/", 4);
    SkipVersioned(g, s, 0);
    LiteralMismatch(s, |BASE|, "api/json/", 4);
    SkipPrefix(g, s, 2, 0);
    LiteralMismatch(s, |BASE|, "api/xml/", 4);
    SkipPrefix(g, s, 3, 0);
  }

  /** A pattern with the formats json and xml and a view not starting with 'a' cannot read the path. */
  lemma ApiCommitteeUnmatched(g: ShapeGrammar)
    requires g.formats == FORMATS && |g.views| == 1 && |g.views[0]| > 0 && Fold(g.views[0][0]) != 'a'
    ensures Match(g, "/legislation/api/committee/finance") == None
  {
    var s := "/legislation/api/committee/finance";
    ApiCommitteeSkipped(g, s);
    PrefixTexts(g);
    assert s[13] == 'a';
    LiteralMismatch(s, |BASE|, g.views[0], 0);
    SkipCandidate(g, s, 4, 0);
    NextPrefix(g, s, 4);
  }

  /**
   * "/legislation/api/committee/finance": with "api/" the format is not
   * optional, so no pattern matches and doGet answers 404.
   */
  lemma ApiWithoutFormat()
    ensures RouteRequest(Patterns(), "/legislation/api/committee/finance") == None
  {
    ApiCommitteeUnmatched(Patterns().single);
    ApiCommitteeUnmatched(Patterns().multi);
    ApiCommitteeUnmatched(Patterns().keyValue);
    ApiCommitteeUnmatched(Patterns().search);
  }

  /** The path of a committee's listing; the value is whatever follows. */
  function KeyValuePath(value: string): (path: string) {
    "/legislation/committee/" + value
  }

  lemma KeyValueHeads()
    ensures Head(Patterns().keyValue, Bare, 0) == "/legislation/committee"
    ensures PrefixOfRank(Patterns().keyValue, 4) == Bare
  {
  }

  /** A committee path goes to the key-value pattern; its tail is what lazy `.*?` finds after the '/'. */
  lemma KeyValueMatch(value: string, t: Tail)
    requires LazyValue(KeyValuePath(value), 23, 0) == Some(t)
    ensures Match(Patterns().single, KeyValuePath(value)) == None
    ensures Match(Patterns().multi, KeyValuePath(value)) == None
    ensures Match(Patterns().keyValue, KeyValuePath(value)) == Some(Parse(Bare, 0, t))
  {
    KeyValueNotBills(value);
    KeyValueBare(value);
    KeyValueHeads();
    KeyValueTailOf(value, t);
  }

  /** Neither bills pattern reads a committee path: "bill" is not where "committee" is. */
  lemma KeyValueNotBills(value: string)
    ensures Match(Patterns().single, KeyValuePath(value)) == None
    ensures Match(Patterns().multi, KeyValuePath(value)) == None
  {
    var s := KeyValuePath(value);
    assert s == "/legislation/committee" + ("/" + value);
    assert s[13] == 'c';
    LiteralMismatch(s, |BASE|, "api/", 0);
    BareMismatch(Patterns().single, s, 0);
    BareMismatch(Patterns().multi, s, 0);
  }

  /** The key-value pattern can only read a committee path with its bare prefix, and its head is there. */
  lemma KeyValueBare(value: string)
    ensures var s := KeyValuePath(value);
      && Match(Patterns().keyValue, s) == TryAt(Patterns().keyValue, s, 4, 0)
      && LiteralAt(s, 0, "/legislation/committee")
  {
    var s := KeyValuePath(value);
    assert s == "/legislation/committee" + ("/" + value);
    assert s[13] == 'c';
    LiteralMismatch(s, |BASE|, "api/", 0);
    BareOnly(Patterns().keyValue, s);
    LiteralAtStart("/legislation/committee", "/" + value);
  }

  /** After "/legislation/committee" the key-value suffix starts with the '/' and reads what LazyValue finds. */
  lemma KeyValueTailOf(value: string, t: Tail)
    requires LazyValue(KeyValuePath(value), 23, 0) == Some(t)
    ensures MatchTail(KeyValueSuffix, KeyValuePath(value), 22) == Some(t)
  {
    var s := KeyValuePath(value);
    assert s == "/legislation/committee" + ("/" + value);
    assert s[22] == '/';
    KeyValueTailAt(s, 22);
  }

  lemma KeyValueTailAt(s: string, p: nat)
    requires p < |s| && s[p] == '/'
    ensures MatchTail(KeyValueSuffix, s, p) == LazyValue(s, p + 1, 0)
  {
  }


  /** Groups 1 and 2 of a committee path, and the value, whatever the paging. */
  lemma KeyValueHeadGroups(value: string, P: Parse)
    requires P.prefix == Bare && P.view == 0 && P.tail.KeyValueTail?
    requires Valid(Patterns().keyValue, KeyValuePath(value), P)
    ensures Group(Patterns().keyValue, KeyValuePath(value), P, 1) == None
    ensures Group(Patterns().keyValue, KeyValuePath(value), P, 2) == Some("committee")
    ensures Group(Patterns().keyValue, KeyValuePath(value), P, 3) == Some(value[..P.tail.valueLen])
  {
    var s := KeyValuePath(value);
    assert s == "/legislation/committee" + ("/" + value);
    KeyValueHeads();
    assert s[13..22] == "committee";
    assert s[23..23 + P.tail.valueLen] == value[..P.tail.valueLen];
  }

  /** A character a plain value may hold: not a digit, not '/', not a line terminator. */
  predicate Plain(c: char) {
    !IsDigit(c) && c != '/' && !IsLineTerminator(c)
  }

  lemma {:induction false} LineRunPlain(s: string, i: nat)
    requires i <= |s| && forall k :: i <= k < |s| ==> Plain(s[k])
    ensures LineRun(s, i) == |s| - i
    decreases |s| - i
  {
    if i < |s| {
      LineRunPlain(s, i + 1);
    }
  }

  /** Lazy `.*?` over plain characters can stop only at the end of the path. */
  lemma {:induction false} LazyValuePlain(s: string, v0: nat, k: nat)
    requires v0 + k <= |s| && forall i :: v0 <= i < |s| ==> Plain(s[i])
    requires LineRun(s, v0) == |s| - v0
    ensures LazyValue(s, v0, k) == Some(KeyValueTail(|s| - v0, Paging(0, 0, false)))
    decreases |s| - v0 - k
  {
    if v0 + k < |s| {
      LazyValuePlain(s, v0, k + 1);
      LazyValuePlainStep(s, v0, k, Some(KeyValueTail(|s| - v0, Paging(0, 0, false))));
    } else {
      LazyValuePlainEnd(s, v0, k);
    }
  }

  /** Before the end, `.*?` takes one more plain character and carries on. */
  lemma LazyValuePlainStep(s: string, v0: nat, k: nat, r: Option<Tail>)
    requires v0 + k < |s| && Plain(s[v0 + k]) && LineRun(s, v0) == |s| - v0
    requires LazyValue(s, v0, k + 1) == r
    ensures LazyValue(s, v0, k) == r
  {
    NoPagingAt(s, v0 + k);
    assert Possessive(s, v0 + k) == v0 + k;
  }

  /** At the end, the paging matches empty. */
  lemma LazyValuePlainEnd(s: string, v0: nat, k: nat)
    requires v0 + k == |s| && LineRun(s, v0) == |s| - v0
    ensures LazyValue(s, v0, k) == Some(KeyValueTail(|s| - v0, Paging(0, 0, false)))
  {
    assert MatchPaging(s, |s|) == Some(Paging(0, 0, false));
  }

  /** "/legislation/committee/finance": a value with no digit and no '/' is taken whole, without paging. */
  lemma KeyValuePlain(value: string)
    requires forall i :: 0 <= i < |value| ==> Plain(value[i])
    ensures RouteRequest(Patterns(), KeyValuePath(value))
         == Some(KeyValueViewRequest(None, Some("committee"), Some(value), None, None))
  {
    var t := KeyValueTail(|value|, Paging(0, 0, false));
    PlainValueTail(value);
    KeyValueRoute(value, t);
    KeyValueHeadGroups(value, Parse(Bare, 0, t));
    NoPagingGroups(value, Parse(Bare, 0, t));
    assert value[..|value|] == value;
  }

  /** Lazy `.*?` takes a plain value whole. */
  lemma PlainValueTail(value: string)
    requires forall i :: 0 <= i < |value| ==> Plain(value[i])
    ensures LazyValue(KeyValuePath(value), 23, 0) == Some(KeyValueTail(|value|, Paging(0, 0, false)))
  {
    var s := KeyValuePath(value);
    assert s == "/legislation/committee" + ("/" + value);
    forall i | 23 <= i < |s| ensures Plain(s[i]) {
      assert s[i] == value[i - 23];
    }
    LineRunPlain(s, 23);
    LazyValuePlain(s, 23, 0);
  }

  /** "/legislation/committee/1": lazy `.*?` leaves the value empty and the number becomes the page number. */
  lemma KeyValueNumber(n: string)
    requires Numeric(n)
    ensures RouteRequest(Patterns(), KeyValuePath(n))
         == Some(KeyValueViewRequest(None, Some("committee"), Some(""), Some(n), None))
  {
    var t := KeyValueTail(0, Paging(|n|, 0, false));
    NumberValue(n);
    KeyValueRoute(n, t);
    var P := Parse(Bare, 0, t);
    KeyValueHeadGroups(n, P);
    NumberGroups(n, P);
  }

  /** A committee path takes the key-value route with the reading lazy `.*?` finds. */
  lemma KeyValueRoute(value: string, t: Tail)
    requires LazyValue(KeyValuePath(value), 23, 0) == Some(t)
    ensures Valid(Patterns().keyValue, KeyValuePath(value), Parse(Bare, 0, t))
    ensures var g, s, P := Patterns().keyValue, KeyValuePath(value), Parse(Bare, 0, t);
      RouteRequest(Patterns(), KeyValuePath(value))
        == Some(KeyValueViewRequest(Group(g, s, P, 1), Group(g, s, P, 2), Group(g, s, P, 3), Group(g, s, P, 4), Group(g, s, P, 5)))
  {
    KeyValueMatch(value, t);
  }

  lemma NumberGroups(n: string, P: Parse)
    requires Numeric(n) && P == Parse(Bare, 0, KeyValueTail(0, Paging(|n|, 0, false)))
    requires Valid(Patterns().keyValue, KeyValuePath(n), P)
    requires |KeyValuePath(n)| == 23 + |n| && KeyValuePath(n)[23..23 + |n|] == n
    ensures Group(Patterns().keyValue, KeyValuePath(n), P, 4) == Some(n)
    ensures Group(Patterns().keyValue, KeyValuePath(n), P, 5) == None
  {
    KeyValueHeads();
  }


  /** After "/legislation/committee/" a number is read at once as the page number, with an empty value. */
  lemma NumberValue(n: string)
    requires Numeric(n)
    ensures LazyValue(KeyValuePath(n), 23, 0) == Some(KeyValueTail(0, Paging(|n|, 0, false)))
    ensures |KeyValuePath(n)| == 23 + |n| && KeyValuePath(n)[23..23 + |n|] == n
  {
    var s := KeyValuePath(n);
    assert s == "/legislation/committee" + ("/" + n);
    forall i | 23 <= i < |s| ensures IsDigit(s[i]) {
      assert s[i] == n[i - 23];
    }
    DigitRunIs(s, 23, |n|);
    assert MatchPaging(s, 23) == Some(Paging(|n|, 0, false));
    assert s[23..23 + |n|] == n;
  }


  lemma SlashesValue()
    ensures LazyValue(KeyValuePath("a//"), 23, 0) == Some(KeyValueTail(2, Paging(0, 0, false)))
  {
    var s := KeyValuePath("a//");
    SlashesPath();
    NoPagingAt(s, 23);
    NoPagingAt(s, 25);
    assert Possessive(s, 23) == 23 && Possessive(s, 24) == 25 && Possessive(s, 25) == 26;
    assert MatchPaging(s, 26) == Some(Paging(0, 0, false));
    assert LazyValue(s, 23, 2) == Some(KeyValueTail(2, Paging(0, 0, false)));
  }

  lemma SlashesPath()
    ensures var s := KeyValuePath("a//");
      |s| == 26 && s[23] == 'a' && s[24] == '/' && s[25] == '/' && LineRun(s, 23) == 3
  {
    var s := KeyValuePath("a//");
    assert s == "/legislation/committee/a//";
    assert LineRun(s, 26) == 0;
    assert LineRun(s, 25) == 1;
  }

  /** PAGING and `$` cannot start at a character that is neither a digit nor a line terminator. */
  lemma NoPagingAt(s: string, q: nat)
    requires q < |s| && !IsDigit(s[q]) && !IsLineTerminator(s[q])
    ensures MatchPaging(s, q) == None
  {
    DigitRunIs(s, q, 0);
  }

  /**
   * "/legislation/committee/a//": the possessive '/' after the value gives
   * nothing back, so the shortest value that works keeps one '/': "a/".
   */
  lemma KeyValueSlashes()
    ensures RouteRequest(Patterns(), KeyValuePath("a//"))
         == Some(KeyValueViewRequest(None, Some("committee"), Some("a/"), None, None))
  {
    var t := KeyValueTail(2, Paging(0, 0, false));
    SlashesValue();
    KeyValueRoute("a//", t);
    SlashesGroups(Parse(Bare, 0, t));
  }

  lemma SlashesGroups(P: Parse)
    requires P == Parse(Bare, 0, KeyValueTail(2, Paging(0, 0, false)))
    requires Valid(Patterns().keyValue, KeyValuePath("a//"), P)
    ensures var g, s := Patterns().keyValue, KeyValuePath("a//");
      [Group(g, s, P, 1), Group(g, s, P, 2), Group(g, s, P, 3), Group(g, s, P, 4), Group(g, s, P, 5)]
        == [None, Some("committee"), Some("a/"), None, None]
  {
    KeyValueHeadGroups("a//", P);
    NoPagingGroups("a//", P);
    assert "a//"[..2] == "a/";
  }

  /** A key-value reading with no page digits has no page-number and no page-size group. */
  lemma NoPagingGroups(value: string, P: Parse)
    requires P.tail.KeyValueTail? && P.tail.paging == Paging(0, 0, false)
    requires Valid(Patterns().keyValue, KeyValuePath(value), P)
    ensures Group(Patterns().keyValue, KeyValuePath(value), P, 4) == None
    ensures Group(Patterns().keyValue, KeyValuePath(value), P, 5) == None
  {
  }

  /** No views and no formats at all: each alternation is the single empty alternative. */
  const EMPTY: Vocabulary := Vocabulary([], [], [], [], [], [], [], [])

  function EmptyPatterns(): (p: PatternSet)
    ensures WellShaped(p)
  {
    PatternsOf(EMPTY)
  }

  lemma EmptySingleMatch(id: string)
    requires |id| > 0 && NoTerminators(id, 0, |id|)
    ensures Match(EmptyPatterns().single, IdPath(BASE, id)) == Some(Parse(Bare, 0, IdTail(|id|)))
  {
    var s := IdPath(BASE, id);
    var g := EmptyPatterns().single;
    assert g.formats == [""] && g.views == [""];
    IdAfter(BASE, id);
    assert s[13] == '/';
    LiteralMismatch(s, |BASE|, "api/", 0);
    SkipApi(g, s, 0);
    assert PrefixOfRank(g, 2) == Bare && Head(g, Bare, 0) == BASE;
    TakeCandidate(g, s, 2, 0, IdTail(|id|));
  }

  /**
   * With no views the view alternation is empty but still there, so
   * "/legislation//x" is a single view whose type is "".
   */
  lemma EmptyVocabulary(id: string)
    requires |id| > 0 && NoTerminators(id, 0, |id|)
    ensures RouteRequest(EmptyPatterns(), IdPath(BASE, id)) == Some(SingleViewRequest(None, Some(""), Some(id)))
  {
    var s := IdPath(BASE, id);
    var g := EmptyPatterns().single;
    EmptySingleMatch(id);
    var P := Parse(Bare, 0, IdTail(|id|));
    assert g.views == [""] && Head(g, Bare, 0) == BASE;
    IdAfter(BASE, id);
    assert s[13..13] == "";
    assert s[14..14 + |id|] == s[14..] == id;
    assert Group(g, s, P, 3) == Some(id);
  }

  /** The path of a single bill in the versioned api. */
  function VersionedPath(format: string, id: string): (path: string) {
    IdPath("/legislation/api/1.0/" + format + "/bill", id)
  }

  lemma VersionedHeads()
    ensures Head(Patterns().single, PrefixOfRank(Patterns().single, 1), 0) == "/legislation/api/1.0/xml/bill"
    ensures PrefixOfRank(Patterns().single, 1) == Api(true, 1)
    ensures PrefixText(Patterns().single, PrefixOfRank(Patterns().single, 0)) == "api/1.0/json/"
  {
  }

  lemma VersionedMatch(id: string)
    requires |id| > 0 && NoTerminators(id, 0, |id|)
    ensures Match(Patterns().single, VersionedPath("xml", id)) == Some(Parse(Api(true, 1), 0, IdTail(|id|)))
  {
    var head := "/legislation/api/1.0/xml/bill";
    var s := VersionedPath("xml", id);
    assert "/legislation/api/1.0/" + "xml" + "/bill" == head;
    IdAfter(head, id);
    assert |head| == 29 && s[21] == head[21] == 'x';
    var g := Patterns().single;
    VersionedHeads();
    LiteralMismatch(s, |BASE|, "api/1.0/json/", 8);
    SkipPrefix(g, s, 0, 0);
    TakeCandidate(g, s, 1, 0, IdTail(|id|));
  }

  lemma VersionedGroups(id: string, P: Parse)
    requires |id| > 0 && NoTerminators(id, 0, |id|)
    requires P == Parse(Api(true, 1), 0, IdTail(|id|)) && Valid(Patterns().single, VersionedPath("xml", id), P)
    ensures SingleRequestOf(Patterns().single, VersionedPath("xml", id), P)
         == SingleViewRequest(Some("xml"), Some("bill"), Some(id))
  {
    var head := "/legislation/api/1.0/xml/bill";
    var s := VersionedPath("xml", id);
    assert "/legislation/api/1.0/" + "xml" + "/bill" == head;
    IdAfter(head, id);
    var g := Patterns().single;
    VersionedHeads();
    assert PrefixText(g, P.prefix) == "api/1.0/xml/";
    assert s[21..24] == head[21..24] == "xml";
    assert Group(g, s, P, 1) == Some("xml");
    assert s[25..29] == head[25..29] == "bill";
    assert Group(g, s, P, 2) == Some("bill");
    assert s[30..30 + |id|] == s[30..] == id;
    assert Group(g, s, P, 3) == Some(id);
  }

  /** "/legislation/api/1.0/xml/bill/S1": the version is accepted and not captured; json is tried first and fails. */
  lemma SingleVersioned(id: string)
    requires |id| > 0 && NoTerminators(id, 0, |id|)
    ensures RouteRequest(Patterns(), VersionedPath("xml", id)) == Some(SingleViewRequest(Some("xml"), Some("bill"), Some(id)))
  {
    VersionedMatch(id);
    VersionedGroups(id, Parse(Api(true, 1), 0, IdTail(|id|)));
  }
}
