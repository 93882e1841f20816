/**
 * The servlet itself: the constructor assembles and compiles the four
 * shape patterns from the view and format vocabularies, and doGet routes an
 * already-decoded request path by trying the Single, Multi, KeyValue and
 * Search patterns in that order, builds one request from the first match's
 * groups, executes it, and answers 404 when nothing matched or the request
 * failed.
 */
module Servlet {
  import opened Wrappers
  import opened Text
  import opened Join
  import opened Grammar
  import opened Matcher

  // Group numbers of the captures, per shape.
  const SINGLE_FORMAT: nat := 1
  const SINGLE_TYPE: nat := 2
  const SINGLE_ID: nat := 3

  const MULTI_FORMAT: nat := 1
  const MULTI_TYPE: nat := 2
  const MULTI_PAGE_NUMBER: nat := 3
  const MULTI_PAGE_SIZE: nat := 4

  const KEY_VALUE_FORMAT: nat := 1
  const KEY_VALUE_KEY: nat := 2
  const KEY_VALUE_VALUE: nat := 3
  const KEY_VALUE_PAGE_NUMBER: nat := 4
  const KEY_VALUE_PAGE_SIZE: nat := 5

  /** HttpServletResponse.SC_NOT_FOUND. */
  const SC_NOT_FOUND: int := 404

  /**
   * The view names of each shape's enum, in declaration order, and the
   * formats those views offer, in the order the format collection yields them.
   */
  datatype Vocabulary = Vocabulary(
    singleViews: seq<string>, singleFormats: seq<string>,
    multiViews: seq<string>, multiFormats: seq<string>,
    keyValueViews: seq<string>, keyValueFormats: seq<string>,
    searchViews: seq<string>, searchFormats: seq<string>)

  /** A compiled java.util.regex.Pattern: its source text and the grammar that text stands for. */
  datatype Pattern = Pattern(source: string, grammar: ShapeGrammar)

  /** The grammars of the four patterns, in the order doGet tries them. */
  datatype PatternSet = PatternSet(single: ShapeGrammar, multi: ShapeGrammar, keyValue: ShapeGrammar, search: ShapeGrammar)

  /** Each pattern ends with the suffix of its shape; Search reuses the key-value suffix. */
  predicate WellShaped(p: PatternSet) {
    && p.single.suffix == IdSuffix
    && p.multi.suffix == PagedSuffix
    && p.keyValue.suffix == KeyValueSuffix
    && p.search.suffix == KeyValueSuffix
  }

  /** The grammars the constructor compiles from a vocabulary. */
  function PatternsOf(v: Vocabulary): (p: PatternSet)
    ensures WellShaped(p)
  {
    PatternSet(
      Compile(IdSuffix, v.singleFormats, v.singleViews),
      Compile(PagedSuffix, v.multiFormats, v.multiViews),
      Compile(KeyValueSuffix, v.keyValueFormats, v.keyValueViews),
      Compile(KeyValueSuffix, v.searchFormats, v.searchViews))
  }

  /**
   * The request objects doGet builds, with the constructor arguments taken
   * from the groups; None stands for a group that took no part (null).
   */
  datatype ApiRequest =
    | SingleViewRequest(format: Option<string>, viewType: Option<string>, id: Option<string>)
    | MultiViewRequest(format: Option<string>, viewType: Option<string>, pageNumber: Option<string>, pageSize: Option<string>)
    | KeyValueViewRequest(format: Option<string>, key: Option<string>, value: Option<string>,
                          pageNumber: Option<string>, pageSize: Option<string>)
    | SearchRequest(format: Option<string>, key: Option<string>, value: Option<string>,
                    pageNumber: Option<string>, pageSize: Option<string>)

  /** How a request's execute() ends; what it does is not part of this model. */
  datatype Outcome = Executed | ApiRequestException | OtherException

  /** How doGet ends: the request ran, the 404 error was sent, or an exception left doGet. */
  datatype Response = Served(request: ApiRequest) | SentError(status: int) | Propagated(request: ApiRequest)

  /** The views or formats of one shape joined with "|", through the array overload of join. */
  method JoinViews(views: seq<string>) returns (r: string)
    ensures r == Joined(views, "|")
  {
    var items := new string[|views|](k requires 0 <= k < |views| => views[k]);
    r := JoinArray(items, (t: string) => t, "|");
    assert Values(items[..], (t: string) => t) == views;
  }

  /** The formats of one shape joined with "|", through the Iterable overload of join. */
  method JoinFormats(formats: seq<string>) returns (r: string)
    ensures r == Joined(formats, "|")
  {
    r := JoinIterable(formats, (t: string) => t, "|");
    assert Values(formats, (t: string) => t) == formats;
  }

  /** Pattern.compile of one shape's text, built by the constructor from the joined vocabularies. */
  method CompileShape(kind: SuffixKind, formats: seq<string>, views: seq<string>) returns (p: Pattern)
    ensures p.source == PatternText(kind, formats, views)
    ensures p.grammar == Compile(kind, formats, views)
    ensures PlainTokens(formats) && PlainTokens(views) ==> Holes(p.source) == Some(p.grammar)
  {
    var joinedViews := JoinViews(views);
    var joinedFormats := JoinFormats(formats);
    var source := BASE_START + joinedFormats + BASE_MIDDLE + joinedViews + EndText(kind);
    p := Pattern(source, Compile(kind, formats, views));
    if PlainTokens(formats) && PlainTokens(views) {
      HolesOfPattern(kind, formats, views);
    }
  }

  /**
   * The group numbers doGet passes to the request constructors are 1, 2, ...
   * up to the number of capturing groups in that shape's pattern text, for
   * vocabularies whose tokens hold no '(' and no '?'.
   */
  lemma GroupNumbersInRange(formats: seq<string>, views: seq<string>)
    requires NoGroupChars(formats) && NoGroupChars(views)
    ensures SINGLE_FORMAT == 1 && SINGLE_TYPE == 2
    ensures SINGLE_ID == 3 == Groups(PatternText(IdSuffix, formats, views))
    ensures MULTI_FORMAT == 1 && MULTI_TYPE == 2 && MULTI_PAGE_NUMBER == 3
    ensures MULTI_PAGE_SIZE == 4 == Groups(PatternText(PagedSuffix, formats, views))
    ensures KEY_VALUE_FORMAT == 1 && KEY_VALUE_KEY == 2 && KEY_VALUE_VALUE == 3 && KEY_VALUE_PAGE_NUMBER == 4
    ensures KEY_VALUE_PAGE_SIZE == 5 == Groups(PatternText(KeyValueSuffix, formats, views))
  {
    GroupsOfPattern(IdSuffix, formats, views);
    GroupsOfPattern(PagedSuffix, formats, views);
    GroupsOfPattern(KeyValueSuffix, formats, views);
  }

  /** The request's constructor arguments are m.group(1), m.group(2), ... in order, one per group of the pattern. */
  predicate TakesGroups(r: ApiRequest, g: ShapeGrammar, uri: string, P: Parse)
    requires Valid(g, uri, P)
  {
    && |Fields(r)| == GroupCount(g.suffix)
    && forall k :: 0 <= k < |Fields(r)| ==> Fields(r)[k] == Group(g, uri, P, k + 1)
  }

  function SingleRequestOf(g: ShapeGrammar, uri: string, P: Parse): (r: ApiRequest)
    requires Valid(g, uri, P) && g.suffix == IdSuffix
    ensures ShapeOf(r) == Single && TakesGroups(r, g, uri, P)
  {
    SingleViewRequest(Group(g, uri, P, SINGLE_FORMAT), Group(g, uri, P, SINGLE_TYPE), Group(g, uri, P, SINGLE_ID))
  }

  function MultiRequestOf(g: ShapeGrammar, uri: string, P: Parse): (r: ApiRequest)
    requires Valid(g, uri, P) && g.suffix == PagedSuffix
    ensures ShapeOf(r) == Multi && TakesGroups(r, g, uri, P)
  {
    MultiViewRequest(Group(g, uri, P, MULTI_FORMAT), Group(g, uri, P, MULTI_TYPE),
                     Group(g, uri, P, MULTI_PAGE_NUMBER), Group(g, uri, P, MULTI_PAGE_SIZE))
  }

  function KeyValueRequestOf(g: ShapeGrammar, uri: string, P: Parse): (r: ApiRequest)
    requires Valid(g, uri, P) && g.suffix == KeyValueSuffix
    ensures ShapeOf(r) == KeyValue && TakesGroups(r, g, uri, P)
  {
    var r := KeyValueViewRequest(Group(g, uri, P, KEY_VALUE_FORMAT), Group(g, uri, P, KEY_VALUE_KEY),
                                 Group(g, uri, P, KEY_VALUE_VALUE), Group(g, uri, P, KEY_VALUE_PAGE_NUMBER),
                                 Group(g, uri, P, KEY_VALUE_PAGE_SIZE));
    TakesFiveGroups(r, g, uri, P);
    r
  }

  /** The search request takes its groups by the KEY_VALUE_ numbers, so it holds what a key-value request would. */
  function SearchRequestOf(g: ShapeGrammar, uri: string, P: Parse): (r: ApiRequest)
    requires Valid(g, uri, P) && g.suffix == KeyValueSuffix
    ensures ShapeOf(r) == Search && TakesGroups(r, g, uri, P)
    ensures Fields(r) == Fields(KeyValueRequestOf(g, uri, P))
  {
    var r := SearchRequest(Group(g, uri, P, KEY_VALUE_FORMAT), Group(g, uri, P, KEY_VALUE_KEY),
                           Group(g, uri, P, KEY_VALUE_VALUE), Group(g, uri, P, KEY_VALUE_PAGE_NUMBER),
                           Group(g, uri, P, KEY_VALUE_PAGE_SIZE));
    TakesFiveGroups(r, g, uri, P);
    r
  }

  lemma TakesFiveGroups(r: ApiRequest, g: ShapeGrammar, uri: string, P: Parse)
    requires Valid(g, uri, P) && g.suffix == KeyValueSuffix
    requires Fields(r) == [Group(g, uri, P, 1), Group(g, uri, P, 2), Group(g, uri, P, 3), Group(g, uri, P, 4), Group(g, uri, P, 5)]
    ensures TakesGroups(r, g, uri, P)
  {
  }

  /**
   * The routing decision of doGet: the request built from the first of the
   * four patterns whose find() succeeds, or None when none does. The request
   * takes its groups from the reading that pattern's find() reports.
   */
  function RouteRequest(p: PatternSet, uri: string): (r: Option<ApiRequest>)
    requires WellShaped(p)
    ensures r.Some? ==> Picks(GrammarOf(p, r.value), uri, r.value)
  {
    match Match(p.single, uri)
    case Some(P) => SinglePicks(p, uri, P); Some(SingleRequestOf(p.single, uri, P))
    case None =>
      match Match(p.multi, uri)
      case Some(P) => MultiPicks(p, uri, P); Some(MultiRequestOf(p.multi, uri, P))
      case None =>
        match Match(p.keyValue, uri)
        case Some(P) => KeyValuePicks(p, uri, P); Some(KeyValueRequestOf(p.keyValue, uri, P))
        case None =>
          match Match(p.search, uri)
          case Some(P) => SearchPicks(p, uri, P); Some(SearchRequestOf(p.search, uri, P))
          case None => None
  }

  /** `r` takes its groups from the reading of the path that the pattern of g's find() reports. */
  ghost predicate Picks(g: ShapeGrammar, uri: string, r: ApiRequest) {
    exists P :: FirstParse(g, uri, P) && TakesGroups(r, g, uri, P)
  }

  /** A reading that a request picks, for the lemmas that need only its validity and groups. */
  lemma PickedReading(g: ShapeGrammar, uri: string, r: ApiRequest) returns (P: Parse)
    requires Picks(g, uri, r)
    ensures Valid(g, uri, P) && TakesGroups(r, g, uri, P)
  {
    P :| FirstParse(g, uri, P) && TakesGroups(r, g, uri, P);
  }

  lemma PicksFound(g: ShapeGrammar, uri: string, P: Parse, r: ApiRequest)
    requires Match(g, uri) == Some(P) && Valid(g, uri, P) && TakesGroups(r, g, uri, P)
    ensures Picks(g, uri, r)
  {
    MatchIsFirstParse(g, uri, P);
  }

  // Each branch of RouteRequest picks the reading its pattern's find() reports.

  lemma SinglePicks(p: PatternSet, uri: string, P: Parse)
    requires WellShaped(p) && Match(p.single, uri) == Some(P)
    ensures var r := SingleRequestOf(p.single, uri, P); Picks(GrammarOf(p, r), uri, r)
  {
    PicksFound(p.single, uri, P, SingleRequestOf(p.single, uri, P));
  }

  lemma MultiPicks(p: PatternSet, uri: string, P: Parse)
    requires WellShaped(p) && Match(p.multi, uri) == Some(P)
    ensures var r := MultiRequestOf(p.multi, uri, P); Picks(GrammarOf(p, r), uri, r)
  {
    PicksFound(p.multi, uri, P, MultiRequestOf(p.multi, uri, P));
  }

  lemma KeyValuePicks(p: PatternSet, uri: string, P: Parse)
    requires WellShaped(p) && Match(p.keyValue, uri) == Some(P)
    ensures var r := KeyValueRequestOf(p.keyValue, uri, P); Picks(GrammarOf(p, r), uri, r)
  {
    PicksFound(p.keyValue, uri, P, KeyValueRequestOf(p.keyValue, uri, P));
  }

  lemma SearchPicks(p: PatternSet, uri: string, P: Parse)
    requires WellShaped(p) && Match(p.search, uri) == Some(P)
    ensures var r := SearchRequestOf(p.search, uri, P); Picks(GrammarOf(p, r), uri, r)
  {
    PicksFound(p.search, uri, P, SearchRequestOf(p.search, uri, P));
  }

  /**
   * The try block of doGet: no request is an ApiRequestException, and so is
   * a failing execute(); both send SC_NOT_FOUND. Any other exception leaves doGet.
   */
  function Respond(route: Option<ApiRequest>, execute: ApiRequest -> Outcome): (r: Response)
    ensures r == SentError(SC_NOT_FOUND) <==> route.None? || execute(route.value) == ApiRequestException
    ensures r.Served? <==> route.Some? && execute(route.value) == Executed
    ensures r.SentError? ==> r.status == SC_NOT_FOUND
    ensures !r.SentError? ==> route.Some? && r.request == route.value
  {
    match route
    case None => SentError(SC_NOT_FOUND)
    case Some(request) =>
      match execute(request)
      case Executed => Served(request)
      case ApiRequestException => SentError(SC_NOT_FOUND)
      case OtherException => Propagated(request)
  }

  class ApiServlet {
    const SINGLE_PATTERN: Pattern
    const MULTI_PATTERN: Pattern
    const KEY_VALUE_PATTERN: Pattern
    const SEARCH_PATTERN: Pattern

    /** The grammars of the four patterns. */
    function Patterns(): (patterns: PatternSet) {
      PatternSet(SINGLE_PATTERN.grammar, MULTI_PATTERN.grammar, KEY_VALUE_PATTERN.grammar, SEARCH_PATTERN.grammar)
    }

    /** The patterns as the constructor left them: each with its own shape's suffix. */
    predicate Valid() {
      WellShaped(Patterns())
    }

    /**
     * Joins each shape's views and formats with "|" and compiles
     * BASE_START + formats + BASE_MIDDLE + views + the shape's end.
     */
    constructor(vocabulary: Vocabulary)
      ensures SINGLE_PATTERN.grammar == Compile(IdSuffix, vocabulary.singleFormats, vocabulary.singleViews)
      ensures MULTI_PATTERN.grammar == Compile(PagedSuffix, vocabulary.multiFormats, vocabulary.multiViews)
      ensures KEY_VALUE_PATTERN.grammar == Compile(KeyValueSuffix, vocabulary.keyValueFormats, vocabulary.keyValueViews)
      ensures SEARCH_PATTERN.grammar == Compile(KeyValueSuffix, vocabulary.searchFormats, vocabulary.searchViews)
      ensures SINGLE_PATTERN.source == PatternText(IdSuffix, vocabulary.singleFormats, vocabulary.singleViews)
      ensures MULTI_PATTERN.source == PatternText(PagedSuffix, vocabulary.multiFormats, vocabulary.multiViews)
      ensures KEY_VALUE_PATTERN.source == PatternText(KeyValueSuffix, vocabulary.keyValueFormats, vocabulary.keyValueViews)
      ensures SEARCH_PATTERN.source == PatternText(KeyValueSuffix, vocabulary.searchFormats, vocabulary.searchViews)
      ensures Patterns() == PatternsOf(vocabulary)
      ensures Valid()
    {
      var single := CompileShape(IdSuffix, vocabulary.singleFormats, vocabulary.singleViews);
      var multi := CompileShape(PagedSuffix, vocabulary.multiFormats, vocabulary.multiViews);
      var keyValue := CompileShape(KeyValueSuffix, vocabulary.keyValueFormats, vocabulary.keyValueViews);
      var search := CompileShape(KeyValueSuffix, vocabulary.searchFormats, vocabulary.searchViews);
      SINGLE_PATTERN := single;
      MULTI_PATTERN := multi;
      KEY_VALUE_PATTERN := keyValue;
      SEARCH_PATTERN := search;
    }

    /**
     * doGet on an already-decoded path: each pattern is tried only while no
     * request has been built, so at most one request is built, and it is the
     * one RouteRequest names; then the try block decides the response.
     */
    method DoGet(uri: string, execute: ApiRequest -> Outcome) returns (response: Response, built: nat)
      requires Valid()
      ensures built <= 1
      ensures built == 1 <==> RouteRequest(Patterns(), uri).Some?
      ensures response == Respond(RouteRequest(Patterns(), uri), execute)
    {
      var apiRequest: Option<ApiRequest> := None;
      built := 0;
      var m := Match(SINGLE_PATTERN.grammar, uri);
      if apiRequest.None? && m.Some? {
        apiRequest := Some(SingleRequestOf(SINGLE_PATTERN.grammar, uri, m.value));
        built := built + 1;
      }
      if apiRequest.None? {
        m := Match(MULTI_PATTERN.grammar, uri);
        if m.Some? {
          apiRequest := Some(MultiRequestOf(MULTI_PATTERN.grammar, uri, m.value));
          built := built + 1;
        }
      }
      if apiRequest.None? {
        m := Match(KEY_VALUE_PATTERN.grammar, uri);
        if m.Some? {
          apiRequest := Some(KeyValueRequestOf(KEY_VALUE_PATTERN.grammar, uri, m.value));
          built := built + 1;
        }
      }
      if apiRequest.None? {
        m := Match(SEARCH_PATTERN.grammar, uri);
        if m.Some? {
          apiRequest := Some(SearchRequestOf(SEARCH_PATTERN.grammar, uri, m.value));
          built := built + 1;
        }
      }
      if apiRequest.None? {
        response := SentError(SC_NOT_FOUND);
      } else {
        var outcome := execute(apiRequest.value);
        if outcome == ApiRequestException {
          response := SentError(SC_NOT_FOUND);
        } else if outcome == Executed {
          response := Served(apiRequest.value);
        } else {
          response := Propagated(apiRequest.value);
        }
      }
    }
  }

  // ------------------------------------------------------------------
  // What the routing decision promises
  // ------------------------------------------------------------------

  /** Some reading of the path by the pattern is valid, so its find() succeeds. */
  ghost predicate Matches(g: ShapeGrammar, uri: string) {
    exists P :: Valid(g, uri, P)
  }

  /** find() succeeds exactly when some reading is valid. */
  lemma MatchesIsFound(g: ShapeGrammar, uri: string)
    ensures Matches(g, uri) <==> Match(g, uri).Some?
  {
    MatchFindsAny(g, uri);
  }

  /**
   * First match wins: a shape is chosen exactly when its pattern matches and
   * no earlier pattern does, and there is no route exactly when none does.
   */
  lemma RouteOrder(p: PatternSet, uri: string)
    requires WellShaped(p)
    ensures var r := RouteRequest(p, uri);
      && (r.Some? && ShapeOf(r.value) == Single <==> Matches(p.single, uri))
      && (r.Some? && ShapeOf(r.value) == Multi <==> !Matches(p.single, uri) && Matches(p.multi, uri))
      && (r.Some? && ShapeOf(r.value) == KeyValue <==>
            !Matches(p.single, uri) && !Matches(p.multi, uri) && Matches(p.keyValue, uri))
      && (r.Some? && ShapeOf(r.value) == Search <==>
            !Matches(p.single, uri) && !Matches(p.multi, uri) && !Matches(p.keyValue, uri) && Matches(p.search, uri))
      && (r.None? <==>
            !Matches(p.single, uri) && !Matches(p.multi, uri) && !Matches(p.keyValue, uri) && !Matches(p.search, uri))
  {
    MatchesIsFound(p.single, uri);
    MatchesIsFound(p.multi, uri);
    MatchesIsFound(p.keyValue, uri);
    MatchesIsFound(p.search, uri);
  }

  /** The pattern a request came from. */
  function GrammarOf(p: PatternSet, r: ApiRequest): (g: ShapeGrammar) {
    match r
    case SingleViewRequest(_, _, _) => p.single
    case MultiViewRequest(_, _, _, _) => p.multi
    case KeyValueViewRequest(_, _, _, _, _) => p.keyValue
    case SearchRequest(_, _, _, _, _) => p.search
  }

  /** Group 2 of the request: the view type, or the key. */
  function ViewOf(r: ApiRequest): (view: Option<string>) {
    if r.SingleViewRequest? || r.MultiViewRequest? then r.viewType else r.key
  }

  /**
   * What groups 1 and 2 hold, for a reading that passes through "1.0/"
   * exactly when `versioned`: always a view, one of the pattern's views up
   * to case; a format only after "/legislation/api/" or
   * "/legislation/api/1.0/", then one of the pattern's formats up to case,
   * taken from the path right there and followed by '/'; and the view is
   * the path's own text right after "/legislation/", or after that '/'.
   */
  ghost predicate CapturedHead(g: ShapeGrammar, uri: string, format: Option<string>, view: Option<string>, versioned: bool) {
    && LiteralAt(uri, 0, BASE)
    && FormatCaptured(g, uri, format, versioned)
    && ViewCaptured(g, uri, format, view, versioned)
  }

  ghost predicate FormatCaptured(g: ShapeGrammar, uri: string, format: Option<string>, versioned: bool) {
    && (format.None? ==> !versioned)
    && (format.Some? ==> exists i :: 0 <= i < |g.formats| && FoldEqual(format.value, g.formats[i]))
    && (format.Some? ==> LiteralAt(uri, |BASE|, "api/" + (if versioned then "1.0/" else "")))
    && (format.Some? ==> Stretch(uri, FormatStart(versioned), format.value))
    && (format.Some? ==> LiteralAt(uri, FormatStart(versioned) + |format.value|, "/"))
  }

  ghost predicate ViewCaptured(g: ShapeGrammar, uri: string, format: Option<string>, view: Option<string>, versioned: bool) {
    && view.Some?
    && (exists i :: 0 <= i < |g.views| && FoldEqual(view.value, g.views[i]))
    && Stretch(uri, ViewStart(versioned, format), view.value)
  }

  /** Groups 1 and 2 of any valid reading are as CapturedHead says, and the view ends where the literal head does. */
  lemma HeadCaptured(g: ShapeGrammar, uri: string, P: Parse)
    requires Valid(g, uri, P)
    ensures CapturedHead(g, uri, Group(g, uri, P, 1), Group(g, uri, P, 2), Versioned(P.prefix))
    ensures ViewStart(Versioned(P.prefix), Group(g, uri, P, 1)) + |Group(g, uri, P, 2).value| == |Head(g, P.prefix, P.view)|
  {
    HeadLiterals(g, uri, P.prefix, P.view);
    FormatGroupCaptured(g, uri, P);
    ViewGroupCaptured(g, uri, P);
  }

  /** Group 1 is as FormatCaptured says; the view starts right after the prefix. */
  lemma FormatGroupCaptured(g: ShapeGrammar, uri: string, P: Parse)
    requires Valid(g, uri, P)
    ensures FormatCaptured(g, uri, Group(g, uri, P, 1), Versioned(P.prefix))
    ensures ViewStart(Versioned(P.prefix), Group(g, uri, P, 1)) == |BASE| + |PrefixText(g, P.prefix)|
  {
    var versioned := Versioned(P.prefix);
    var format := Group(g, uri, P, 1);
    HeadLiterals(g, uri, P.prefix, P.view);
    if P.prefix.Api? {
      var fmt := g.formats[P.prefix.format];
      ApiLiterals(uri, P.prefix.versioned, fmt);
      assert format == Some(uri[FormatStart(versioned)..FormatStart(versioned) + |fmt|]);
      assert FoldEqual(format.value, fmt);
      assert |PrefixText(g, P.prefix)| == 4 + (if versioned then 4 else 0) + |fmt| + 1;
    }
  }

  /** Group 2 is as ViewCaptured says and ends where the literal head does. */
  lemma ViewGroupCaptured(g: ShapeGrammar, uri: string, P: Parse)
    requires Valid(g, uri, P)
    ensures ViewCaptured(g, uri, Group(g, uri, P, 1), Group(g, uri, P, 2), Versioned(P.prefix))
    ensures ViewStart(Versioned(P.prefix), Group(g, uri, P, 1)) + |Group(g, uri, P, 2).value| == |Head(g, P.prefix, P.view)|
  {
    var view := Group(g, uri, P, 2);
    FormatGroupCaptured(g, uri, P);
    HeadLiterals(g, uri, P.prefix, P.view);
    var v := |BASE| + |PrefixText(g, P.prefix)|;
    assert view == Some(uri[v..|Head(g, P.prefix, P.view)|]);
    assert FoldEqual(view.value, g.views[P.view]);
    assert Stretch(uri, v, view.value);
  }

  /** The head groups of a request built from a reading, and where its view ends. */
  lemma RequestHead(g: ShapeGrammar, uri: string, P: Parse, r: ApiRequest)
    requires Valid(g, uri, P) && TakesGroups(r, g, uri, P)
    ensures CapturedHead(g, uri, r.format, ViewOf(r), Versioned(P.prefix))
    ensures ViewStart(Versioned(P.prefix), r.format) + |ViewOf(r).value| == |Head(g, P.prefix, P.view)|
  {
    assert r.format == Fields(r)[0] == Group(g, uri, P, 1);
    assert ViewOf(r) == Fields(r)[1] == Group(g, uri, P, 2);
    HeadCaptured(g, uri, P);
  }

  /** Every route's format and view groups are as CapturedHead says. */
  lemma RouteHead(p: PatternSet, uri: string)
    requires WellShaped(p) && RouteRequest(p, uri).Some?
    ensures var r := RouteRequest(p, uri).value;
      exists versioned: bool :: CapturedHead(GrammarOf(p, r), uri, r.format, ViewOf(r), versioned)
  {
    var r := RouteRequest(p, uri).value;
    PickedHead(GrammarOf(p, r), uri, r);
  }

  lemma PickedHead(g: ShapeGrammar, uri: string, r: ApiRequest)
    requires Picks(g, uri, r)
    ensures exists versioned: bool :: CapturedHead(g, uri, r.format, ViewOf(r), versioned)
  {
    var P := PickedReading(g, uri, r);
    RequestHead(g, uri, P, r);
  }

  /**
   * The id follows the view that ends at `k`, after a '/': it is non-empty,
   * holds no line terminator and runs to where `$` holds, so it is everything
   * after that '/' and may itself contain '/'.
   */
  predicate IdAfterView(uri: string, id: Option<string>, k: nat) {
    && id.Some? && |id.value| > 0 && NoTerminators(id.value, 0, |id.value|)
    && k < |uri| && uri[k] == '/'
    && Stretch(uri, k + 1, id.value)
    && AtEnd(uri, k + 1 + |id.value|)
  }

  /** A single-view request's id comes right after its view and that view's '/'. */
  lemma SingleId(p: PatternSet, uri: string)
    requires WellShaped(p) && RouteRequest(p, uri).Some? && RouteRequest(p, uri).value.SingleViewRequest?
    ensures var r := RouteRequest(p, uri).value;
      exists versioned: bool ::
        && CapturedHead(p.single, uri, r.format, r.viewType, versioned)
        && IdAfterView(uri, r.id, ViewStart(versioned, r.format) + |r.viewType.value|)
  {
    var r := RouteRequest(p, uri).value;
    var versioned := PickedId(p.single, uri, r);
  }

  lemma PickedId(g: ShapeGrammar, uri: string, r: ApiRequest) returns (versioned: bool)
    requires Picks(g, uri, r) && g.suffix == IdSuffix && r.SingleViewRequest?
    ensures CapturedHead(g, uri, r.format, r.viewType, versioned)
    ensures IdAfterView(uri, r.id, ViewStart(versioned, r.format) + |r.viewType.value|)
  {
    var P := PickedReading(g, uri, r);
    var k;
    versioned, k := RequestId(g, uri, P, r);
    IdAfterSameView(uri, r.id, k, ViewStart(versioned, r.format) + |r.viewType.value|);
  }

  /** The id of a single-view request built from a reading: it follows the view, which ends at k. */
  lemma RequestId(g: ShapeGrammar, uri: string, P: Parse, r: ApiRequest) returns (versioned: bool, k: nat)
    requires Valid(g, uri, P) && g.suffix == IdSuffix && TakesGroups(r, g, uri, P) && r.SingleViewRequest?
    ensures versioned == Versioned(P.prefix)
    ensures CapturedHead(g, uri, r.format, r.viewType, versioned)
    ensures ViewStart(versioned, r.format) + |r.viewType.value| == k
    ensures IdAfterView(uri, r.id, k)
  {
    versioned := Versioned(P.prefix);
    RequestHead(g, uri, P, r);
    assert ViewOf(r) == r.viewType;
    k := |Head(g, P.prefix, P.view)|;
    assert r.id == Fields(r)[2] == Group(g, uri, P, SINGLE_ID);
    SingleIdGroup(g, uri, P);
  }

  lemma IdAfterSameView(uri: string, id: Option<string>, k: nat, k': nat)
    requires IdAfterView(uri, id, k) && k == k'
    ensures IdAfterView(uri, id, k')
  {
  }

  /** Group 3 of a single-view reading starts after the '/' that follows the view's own text. */
  lemma SingleIdGroup(g: ShapeGrammar, uri: string, P: Parse)
    requires Valid(g, uri, P) && g.suffix == IdSuffix
    ensures IdAfterView(uri, Group(g, uri, P, SINGLE_ID), |Head(g, P.prefix, P.view)|)
  {
    IdGroup(g, uri, P);
  }

  /** Every present constructor argument of a request is a stretch of the path. */
  ghost predicate FieldsInPath(uri: string, r: ApiRequest) {
    forall k :: 0 <= k < |Fields(r)| && Fields(r)[k].Some? ==> exists i: nat :: Stretch(uri, i, Fields(r)[k].value)
  }

  /** What a routed request holds is taken from the path itself. */
  lemma RouteCaptures(p: PatternSet, uri: string)
    requires WellShaped(p) && RouteRequest(p, uri).Some?
    ensures FieldsInPath(uri, RouteRequest(p, uri).value)
  {
    var r := RouteRequest(p, uri).value;
    var P := PickedReading(GrammarOf(p, r), uri, r);
  }

  /** Page number and page size are digit strings, and there is no page size without a page number. */
  lemma RoutePaging(p: PatternSet, uri: string)
    requires WellShaped(p) && RouteRequest(p, uri).Some? && !RouteRequest(p, uri).value.SingleViewRequest?
    ensures var r := RouteRequest(p, uri).value;
      && (r.pageNumber.Some? ==> Numeric(r.pageNumber.value))
      && (r.pageSize.Some? ==> Numeric(r.pageSize.value))
      && (r.pageSize.Some? ==> r.pageNumber.Some?)
  {
    var g := GrammarOf(p, RouteRequest(p, uri).value);
    var P := Match(g, uri).value;
    MatchIsFirstParse(g, uri, P);
    PagingGroups(g, uri, P);
  }

  /** Which of the four request kinds. */
  datatype Shape = Single | Multi | KeyValue | Search

  function ShapeOf(r: ApiRequest): (shape: Shape) {
    match r
    case SingleViewRequest(_, _, _) => Single
    case MultiViewRequest(_, _, _, _) => Multi
    case KeyValueViewRequest(_, _, _, _, _) => KeyValue
    case SearchRequest(_, _, _, _, _) => Search
  }

  /** The constructor arguments taken from the groups, in group order. */
  function Fields(r: ApiRequest): (fields: seq<Option<string>>) {
    match r
    case SingleViewRequest(f, t, i) => [f, t, i]
    case MultiViewRequest(f, t, n, z) => [f, t, n, z]
    case KeyValueViewRequest(f, k, v, n, z) => [f, k, v, n, z]
    case SearchRequest(f, k, v, n, z) => [f, k, v, n, z]
  }

  /** The same kind of request with the same groups up to letter case, or no route for both. */
  predicate SameRoute(a: Option<ApiRequest>, b: Option<ApiRequest>) {
    && a.Some? == b.Some?
    && (a.Some? ==> ShapeOf(a.value) == ShapeOf(b.value) && |Fields(a.value)| == |Fields(b.value)|)
    && (a.Some? ==> forall k :: 0 <= k < |Fields(a.value)| ==>
                      k < |Fields(b.value)| && SameCapture(Fields(a.value)[k], Fields(b.value)[k]))
  }

  lemma SingleIgnoresCase(g: ShapeGrammar, u: string, v: string, P: Parse)
    requires FoldEqual(u, v) && Valid(g, u, P) && Valid(g, v, P) && g.suffix == IdSuffix
    ensures SameRoute(Some(SingleRequestOf(g, u, P)), Some(SingleRequestOf(g, v, P)))
  {
    GroupIgnoresCase(g, u, v, P, 1);
    GroupIgnoresCase(g, u, v, P, 2);
    GroupIgnoresCase(g, u, v, P, 3);
  }

  lemma MultiIgnoresCase(g: ShapeGrammar, u: string, v: string, P: Parse)
    requires FoldEqual(u, v) && Valid(g, u, P) && Valid(g, v, P) && g.suffix == PagedSuffix
    ensures SameRoute(Some(MultiRequestOf(g, u, P)), Some(MultiRequestOf(g, v, P)))
  {
    GroupIgnoresCase(g, u, v, P, 1);
    GroupIgnoresCase(g, u, v, P, 2);
    GroupIgnoresCase(g, u, v, P, 3);
    GroupIgnoresCase(g, u, v, P, 4);
  }

  /** Requests with five groups built from captures that are alike are the same route. */
  lemma FiveGroupsAlike(a: seq<Option<string>>, b: seq<Option<string>>)
    requires |a| == 5 && |b| == 5
    requires SameCapture(a[0], b[0]) && SameCapture(a[1], b[1]) && SameCapture(a[2], b[2])
    requires SameCapture(a[3], b[3]) && SameCapture(a[4], b[4])
    ensures SameRoute(Some(KeyValueViewRequest(a[0], a[1], a[2], a[3], a[4])),
                      Some(KeyValueViewRequest(b[0], b[1], b[2], b[3], b[4])))
    ensures SameRoute(Some(SearchRequest(a[0], a[1], a[2], a[3], a[4])),
                      Some(SearchRequest(b[0], b[1], b[2], b[3], b[4])))
  {
    forall k | 0 <= k < 5 ensures SameCapture(a[k], b[k]) {
      if k == 0 {} else if k == 1 {} else if k == 2 {} else if k == 3 {} else {}
    }
    assert Fields(KeyValueViewRequest(a[0], a[1], a[2], a[3], a[4])) == a;
    assert Fields(KeyValueViewRequest(b[0], b[1], b[2], b[3], b[4])) == b;
    assert Fields(SearchRequest(a[0], a[1], a[2], a[3], a[4])) == a;
    assert Fields(SearchRequest(b[0], b[1], b[2], b[3], b[4])) == b;
  }

  /** The five groups of one reading of two case-equal paths, in group order. */
  lemma FiveGroupsIgnoreCase(g: ShapeGrammar, u: string, v: string, P: Parse)
    requires FoldEqual(u, v) && Valid(g, u, P) && Valid(g, v, P) && g.suffix == KeyValueSuffix
    ensures SameRoute(Some(KeyValueRequestOf(g, u, P)), Some(KeyValueRequestOf(g, v, P)))
    ensures SameRoute(Some(SearchRequestOf(g, u, P)), Some(SearchRequestOf(g, v, P)))
  {
    var a := [Group(g, u, P, 1), Group(g, u, P, 2), Group(g, u, P, 3), Group(g, u, P, 4), Group(g, u, P, 5)];
    var b := [Group(g, v, P, 1), Group(g, v, P, 2), Group(g, v, P, 3), Group(g, v, P, 4), Group(g, v, P, 5)];
    GroupIgnoresCase(g, u, v, P, 1);
    GroupIgnoresCase(g, u, v, P, 2);
    GroupIgnoresCase(g, u, v, P, 3);
    GroupIgnoresCase(g, u, v, P, 4);
    GroupIgnoresCase(g, u, v, P, 5);
    FiveGroupsAlike(a, b);
  }

  /**
   * Under (?i) two paths that differ only in ASCII letter case take the same
   * route, and each capture keeps the letters of its own path.
   */
  lemma RouteIgnoresCase(p: PatternSet, u: string, v: string)
    requires WellShaped(p) && FoldEqual(u, v)
    ensures SameRoute(RouteRequest(p, u), RouteRequest(p, v))
    ensures RouteRequest(p, u).Some? ==> FieldsInPath(u, RouteRequest(p, u).value)
    ensures RouteRequest(p, v).Some? ==> FieldsInPath(v, RouteRequest(p, v).value)
  {
    if RouteRequest(p, u).Some? {
      RouteCaptures(p, u);
    }
    if RouteRequest(p, v).Some? {
      RouteCaptures(p, v);
    }
    MatchIgnoresCase(p.single, u, v);
    MatchIgnoresCase(p.multi, u, v);
    MatchIgnoresCase(p.keyValue, u, v);
    MatchIgnoresCase(p.search, u, v);
    if Match(p.single, u).Some? {
      SingleIgnoresCase(p.single, u, v, Match(p.single, u).value);
    } else if Match(p.multi, u).Some? {
      MultiIgnoresCase(p.multi, u, v, Match(p.multi, u).value);
    } else if Match(p.keyValue, u).Some? {
      FiveGroupsIgnoreCase(p.keyValue, u, v, Match(p.keyValue, u).value);
    } else if Match(p.search, u).Some? {
      FiveGroupsIgnoreCase(p.search, u, v, Match(p.search, u).value);
    }
  }
}
