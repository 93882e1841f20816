# ApiServlet routing, modelled in Dafny

This project models the request router of OpenLegislation's `ApiServlet`.

- **Pattern assembly.** The constructor takes the view names and formats of four request shapes: Single, Multi, KeyValue and Search. For each shape it joins the names with `Join.join` and "|". It then appends fixed regex fragments around the joined names and compiles one `java.util.regex.Pattern` per shape.
- **Routing.** `doGet` tries the four patterns in a fixed order. The first whose `find()` succeeds decides the request. The request object is built from that match's capturing groups and then executed. The servlet answers 404 when no pattern matched or when `execute()` throws `ApiRequestException`.

## Modules

- `Wrappers`: `Option`.
- `Text`: the few regex building blocks the patterns use, with java.util.regex semantics.
  - `(?i)` folds ASCII letters only.
  - `\d` is `[0-9]`.
  - `.` refuses the five line terminators.
  - The non-multiline `$` also holds before a final line terminator.
- `Join`: both overloads of `Join.join`, written as loop methods and proved against one specification function, `Joined`. Reading the joined string back as an alternation gives the values again (`SplitJoined`).
- `Grammar`: the fragments `BASE_START`, `BASE_MIDDLE`, `BASE_END`, `PAGING`, `SINGLE_END`, `MULTI_END`, `KEY_VALUE_END` and the pattern text each shape is compiled from. `Holes` reads a pattern text back into the grammar it stands for. `HolesOfPattern` proves that the assembled text and the grammar the matcher uses agree. `Groups` counts the capturing groups of a pattern text, that is, each '(' not followed by '?'. `GroupsOfPattern` proves that each shape's text has exactly as many groups as doGet reads.
- `Matcher`: what `find()` does with one of these patterns.
  - `Valid` says which readings of a path (a `Parse`) the pattern admits.
  - `Before` is the order in which Java's backtracking tries them:
    - leftmost alternative first;
    - greedy `?` and `\d+`;
    - lazy `.*?`;
    - possessive `/?+`.
  - `Match` is a deterministic search. `MatchIsFirstParse` proves it reports exactly the first valid reading in that order.
  - `Group` is `m.group(k)`.
- `Servlet`: the group-number constants, the request kinds, the routing decision (`RouteRequest`), the try block (`Respond`) and the `ApiServlet` class with its constructor and `DoGet`.
- `Scenarios`: routing decisions on concrete paths for a small vocabulary.
  - Formats `json` and `xml`.
  - Views `bill` (single), `bills` (multi), `committee` (key value) and `search`.

## What the code does that is easy to misread

- After `/legislation/api/` a format is mandatory. The group `(?:api/)(?:1\.0/)?(?:(formats)/)` is optional only as a whole. So `/legislation/api/committee/finance` takes no route and gets a 404 (`Scenarios.ApiWithoutFormat`). A format is likewise never accepted without `api/`.
- The constructor does not reject an empty vocabulary. Joining nothing gives "", so that group becomes the single empty alternative. The pattern then matches with an empty view (`Scenarios.EmptyVocabulary`).
- The possessive `/?+` after the key value does not keep a final '/' out of the value. The value ends in '/' only when one more '/' follows it: `/legislation/committee/a//` gives the value `a/` (`Matcher.KeyValueTrailingSlash`, `Scenarios.KeyValueSlashes`).
- A purely numeric key value is read as a page number with an empty value (`Scenarios.KeyValueNumber`), because `.*?` tries the empty value first.
- The request constructors run outside the `try`. Only an `ApiRequestException` from `execute()`, or the absence of a route, becomes a 404. Any other exception leaves `doGet` (`Servlet.Respond`).
- The views are joined with the array overload of `join`, since `values()` returns an array (`Servlet.JoinViews`). The formats are taken to be joined with the `Iterable` overload (`Servlet.JoinFormats`). That presumes `getUniqueFormats` returns a collection; its declaration is not part of this model. Either way the string is the same: both overloads are proved to return `Joined` of the values (`Join.JoinArray`, `Join.JoinIterable`).
- Page numbers and sizes are passed on as digit strings. They are not parsed here.

## Model

| member | source | states |
|---|---|---|
| Join.JoinArray | src/main/java/gov/nysenate/openleg/api/servlets/ApiServlet.java:278-291 | the array overload returns the values of the elements, in order, with `on` between neighbours ("" for an empty array), as specified by `Joined` |
| Join.JoinIterable | src/main/java/gov/nysenate/openleg/api/servlets/ApiServlet.java:262-276 | the Iterable overload returns exactly the same string as the array overload for the same elements |
| Join.SplitJoined | src/main/java/gov/nysenate/openleg/api/servlets/ApiServlet.java:99-145 | when no value contains the separator, splitting the joined string at it gives back the values in order; no values give the single empty alternative |
| Join.SeparatorCount | src/main/java/gov/nysenate/openleg/api/servlets/ApiServlet.java:278-291 | a join of n values without the separator in them holds exactly n-1 separators |
| Join.JoinedLength | src/main/java/gov/nysenate/openleg/api/servlets/ApiServlet.java:262-276 | the joined string is as long as all values together plus n-1 copies of `on` |
| Join.JoinedAvoids | src/main/java/gov/nysenate/openleg/api/servlets/ApiServlet.java:278-291 | a character in no value and not in `on` is not in the joined string |
| Grammar.KindOfEndText | src/main/java/gov/nysenate/openleg/api/servlets/ApiServlet.java:63-83 | the three end sequences (SINGLE_END+BASE_END, MULTI_END+PAGING+BASE_END, KEY_VALUE_END+PAGING+BASE_END) are distinct, so a pattern's end names its shape |
| Grammar.PatternText | src/main/java/gov/nysenate/openleg/api/servlets/ApiServlet.java:147-168 | each shape's pattern text starts with BASE_START and ends with that shape's end fragments (SINGLE_END, MULTI_END or KEY_VALUE_END, then PAGING where the shape pages, then BASE_END) |
| Grammar.FragmentGroups | src/main/java/gov/nysenate/openleg/api/servlets/ApiServlet.java:56-83 | BASE_START opens one capturing group (the format), BASE_MIDDLE one (the view), PAGING two (page number and size), SINGLE_END one (the id), KEY_VALUE_END one (the value), and BASE_END and MULTI_END none |
| Grammar.GroupsOfPattern | src/main/java/gov/nysenate/openleg/api/servlets/ApiServlet.java:147-168 | for tokens free of '(' and '?', the assembled text of each shape has exactly 3 (single), 4 (multi) or 5 (key value, search) capturing groups |
| Grammar.HolesOfPattern | src/main/java/gov/nysenate/openleg/api/servlets/ApiServlet.java:147-168 | with tokens containing neither the bar character nor ')', the text BASE_START + formats + BASE_MIDDLE + views + end reads back to exactly the format and view alternatives in vocabulary order and the shape's suffix |
| Servlet.JoinViews | src/main/java/gov/nysenate/openleg/api/servlets/ApiServlet.java:99-103 | the views of a shape copied into an array and joined with the bar character give the specification `Joined` of the views |
| Servlet.JoinFormats | src/main/java/gov/nysenate/openleg/api/servlets/ApiServlet.java:105-109 | the formats of a shape joined with the bar character through the Iterable overload give the specification `Joined` of the formats |
| Servlet.CompileShape | src/main/java/gov/nysenate/openleg/api/servlets/ApiServlet.java:147-150 | the compiled source is the shape's pattern text, its grammar has the vocabularies' alternatives, and the source reads back to that grammar |
| Servlet.PatternsOf | src/main/java/gov/nysenate/openleg/api/servlets/ApiServlet.java:147-168 | single ends in the id suffix, multi in the paged suffix, key value and search in the key-value suffix |
| Servlet.ApiServlet.constructor | src/main/java/gov/nysenate/openleg/api/servlets/ApiServlet.java:96-170 | each of the four patterns is compiled from its own shape's formats, views and end fragments, with the source text and grammar above |
| Servlet.GroupNumbersInRange | src/main/java/gov/nysenate/openleg/api/servlets/ApiServlet.java:35-48 | each shape's group-number constants are 1, 2, ... up to the number of capturing groups counted in that shape's assembled pattern text (3, 4 and 5), for tokens free of '(' and '?' |
| Servlet.ApiServlet.DoGet | src/main/java/gov/nysenate/openleg/api/servlets/ApiServlet.java:177-254 | at most one request is built, one is built exactly when some pattern matches, and the response is the try block's verdict on the routed request |
| Servlet.Respond | src/main/java/gov/nysenate/openleg/api/servlets/ApiServlet.java:244-253 | SC_NOT_FOUND is sent exactly when there is no route or execute() throws ApiRequestException; the request is served exactly when execute() completes; otherwise the exception propagates |
| Servlet.SingleRequestOf | src/main/java/gov/nysenate/openleg/api/servlets/ApiServlet.java:192-196 | a single-view request whose three arguments are groups 1, 2 and 3 of the reading, in that order |
| Servlet.MultiRequestOf | src/main/java/gov/nysenate/openleg/api/servlets/ApiServlet.java:207-212 | a multi-view request whose four arguments are groups 1 to 4 of the reading, in order |
| Servlet.KeyValueRequestOf | src/main/java/gov/nysenate/openleg/api/servlets/ApiServlet.java:223-229 | a key-value request whose five arguments are groups 1 to 5 of the reading, in order |
| Servlet.SearchRequestOf | src/main/java/gov/nysenate/openleg/api/servlets/ApiServlet.java:235-241 | a search request whose five arguments are groups 1 to 5, taken by the KEY_VALUE_ numbers, so the same arguments a key-value request would get from that reading |
| Servlet.RouteRequest | src/main/java/gov/nysenate/openleg/api/servlets/ApiServlet.java:189-242 | a routed request takes its arguments, in group order, from the reading that its own pattern's `find()` reports, the first valid one in Java's backtracking order |
| Servlet.RouteOrder | src/main/java/gov/nysenate/openleg/api/servlets/ApiServlet.java:189-242 | first match wins: a shape is chosen exactly when its pattern matches and no earlier one does; no route exactly when none of the four matches |
| Servlet.RouteHead | src/main/java/gov/nysenate/openleg/api/servlets/ApiServlet.java:56-61 | a routed request's view or key is one of its shape's views up to case; a format is present only after "/legislation/api/" or "/legislation/api/1.0/", is then one of its shape's formats up to case, is the path's own text at that point and is followed by '/'; the view is the path's own text right after "/legislation/" or after the format's '/' |
| Servlet.HeadCaptured | src/main/java/gov/nysenate/openleg/api/servlets/ApiServlet.java:56-61 | the same for groups 1 and 2 of any valid reading of one pattern, with "1.0/" present exactly when the reading takes it, and the view ending where the literal head ends |
| Servlet.SingleId | src/main/java/gov/nysenate/openleg/api/servlets/ApiServlet.java:189-197 | a single-view id starts right after the '/' that follows the request's own view; it is non-empty, free of line terminators and runs to where `$` holds |
| Servlet.SingleIdGroup | src/main/java/gov/nysenate/openleg/api/servlets/ApiServlet.java:76 | group 3 of a single-view reading starts after the '/' at the end of the literal head, and is the stretch of the path up to `$` |
| Servlet.RoutePaging | src/main/java/gov/nysenate/openleg/api/servlets/ApiServlet.java:204-242 | in a routed multi, key-value or search request, page number and page size are digit strings, and a page size never comes without a page number |
| Servlet.RouteCaptures | src/main/java/gov/nysenate/openleg/api/servlets/ApiServlet.java:189-241 | every argument a routed request holds is a stretch of the path itself |
| Servlet.RouteIgnoresCase | src/main/java/gov/nysenate/openleg/api/servlets/ApiServlet.java:56 | under (?i), two paths differing only in ASCII letter case take the same route, with each capture equal up to case, and each path's captures are stretches of that path, so they keep its own letters |
| Servlet.SingleIgnoresCase | src/main/java/gov/nysenate/openleg/api/servlets/ApiServlet.java:192-196 | the single-view request's three groups are equal up to case for case-equal paths |
| Servlet.MultiIgnoresCase | src/main/java/gov/nysenate/openleg/api/servlets/ApiServlet.java:207-212 | the multi-view request's four groups are equal up to case for case-equal paths |
| Servlet.FiveGroupsIgnoreCase | src/main/java/gov/nysenate/openleg/api/servlets/ApiServlet.java:223-241 | the key-value and search requests' five groups are equal up to case for case-equal paths |
| Matcher.MatchPaging | src/main/java/gov/nysenate/openleg/api/servlets/ApiServlet.java:71 | the reported PAGING reading is valid, has no page size without page number, and its page digits are a whole digit run |
| Matcher.MatchPagingComplete | src/main/java/gov/nysenate/openleg/api/servlets/ApiServlet.java:71 | if PAGING followed by `$` can read the rest at all, the greedy reading succeeds |
| Matcher.MatchPagingFirst | src/main/java/gov/nysenate/openleg/api/servlets/ApiServlet.java:71 | no valid PAGING reading is tried before the reported one (greedy digits, possessive '/') |
| Matcher.MatchId | src/main/java/gov/nysenate/openleg/api/servlets/ApiServlet.java:76 | `/(.+)$` reports '/', then a non-empty id free of line terminators ending where `$` holds |
| Matcher.MatchIdUnique | src/main/java/gov/nysenate/openleg/api/servlets/ApiServlet.java:76 | the id suffix reads a path in at most one way, and MatchId finds it |
| Matcher.MatchMulti | src/main/java/gov/nysenate/openleg/api/servlets/ApiServlet.java:78 | `/?` then PAGING: the reported reading is valid |
| Matcher.MatchMultiFirst | src/main/java/gov/nysenate/openleg/api/servlets/ApiServlet.java:78 | greedy `/?`: no valid multi-view suffix reading is tried before the reported one |
| Matcher.LazyValue | src/main/java/gov/nysenate/openleg/api/servlets/ApiServlet.java:83 | lazy `.*?` tries value lengths upward; a reported length is within the run `.` accepts and lets the possessive '/' and PAGING read the rest |
| Matcher.MatchKeyValue | src/main/java/gov/nysenate/openleg/api/servlets/ApiServlet.java:83 | `/(.*?)/?+` then PAGING: the reported reading is valid |
| Matcher.MatchKeyValueFirst | src/main/java/gov/nysenate/openleg/api/servlets/ApiServlet.java:83 | the reported value is the shortest one after which the rest matches |
| Matcher.MatchTailFirst | src/main/java/gov/nysenate/openleg/api/servlets/ApiServlet.java:76-83 | for each shape's suffix, a valid reading exists only if the matcher finds one, and none is tried before it |
| Matcher.TryAt | src/main/java/gov/nysenate/openleg/api/servlets/ApiServlet.java:56-61 | one attempt at a given prefix and view alternative yields only valid readings at that prefix and view |
| Matcher.Match | src/main/java/gov/nysenate/openleg/api/servlets/ApiServlet.java:189 | what `find()` reports is a valid reading of the path |
| Matcher.SearchSound | src/main/java/gov/nysenate/openleg/api/servlets/ApiServlet.java:56-61 | the backtracking from a prefix rank and view on reports only valid readings tried no earlier |
| Matcher.SearchFirst | src/main/java/gov/nysenate/openleg/api/servlets/ApiServlet.java:56-61 | a valid reading not earlier than the start makes the search succeed with a reading tried no later |
| Matcher.RankOfPrefix | src/main/java/gov/nysenate/openleg/api/servlets/ApiServlet.java:56 | the order of prefixes (api/1.0/ with each format, api/ with each format, none) ranks each valid prefix below 2n+1 (n formats), and the rank determines the prefix |
| Matcher.BeforeTotal | src/main/java/gov/nysenate/openleg/api/servlets/ApiServlet.java:56-83 | of two different valid readings of one pattern, one is tried before the other |
| Matcher.MatchFindsAny | src/main/java/gov/nysenate/openleg/api/servlets/ApiServlet.java:189 | `find()` fails exactly when no reading of the path is valid |
| Matcher.MatchIsFirstParse | src/main/java/gov/nysenate/openleg/api/servlets/ApiServlet.java:189 | `find()` reports P exactly when P is valid and no valid reading comes before it in Java's backtracking order |
| Matcher.ValidIgnoresCase | src/main/java/gov/nysenate/openleg/api/servlets/ApiServlet.java:56 | whether a reading is valid does not depend on the letter case of the path |
| Matcher.MatchIgnoresCase | src/main/java/gov/nysenate/openleg/api/servlets/ApiServlet.java:56 | case-equal paths get the same reading from `find()` |
| Matcher.GroupIgnoresCase | src/main/java/gov/nysenate/openleg/api/servlets/ApiServlet.java:56 | each group of one reading is equal up to case in case-equal paths |
| Matcher.Group | src/main/java/gov/nysenate/openleg/api/servlets/ApiServlet.java:56-83 | `m.group(k)`: group 1 takes part exactly when the reading has the api prefix; group 2, the id group and the value group always take part; every captured group is a stretch of the path |
| Matcher.FormatAndViewGroups | src/main/java/gov/nysenate/openleg/api/servlets/ApiServlet.java:56-61 | group 1 is captured exactly when the reading has the api prefix, and is then a format up to case; group 2 is always a view up to case |
| Matcher.IdGroup | src/main/java/gov/nysenate/openleg/api/servlets/ApiServlet.java:76 | group 3 of a single-view reading is the non-empty, terminator-free stretch after the view's '/' up to `$` |
| Matcher.PagingGroupsShape | src/main/java/gov/nysenate/openleg/api/servlets/ApiServlet.java:71 | PAGING's two groups capture digits only |
| Matcher.PagingShift | src/main/java/gov/nysenate/openleg/api/servlets/ApiServlet.java:71 | digits read as a page size with no page number can be read as the page number, and Java tries that first |
| Matcher.PageSizeNeedsPageNumber | src/main/java/gov/nysenate/openleg/api/servlets/ApiServlet.java:71 | in the reading `find()` reports, a page size is never captured without a page number |
| Matcher.PagingGroups | src/main/java/gov/nysenate/openleg/api/servlets/ApiServlet.java:204-242 | in the reported reading, groups 3 and 4 (multi) or 4 and 5 (key value, search) are digit strings, with the size only beside a number |
| Matcher.KeyValueIsShortest | src/main/java/gov/nysenate/openleg/api/servlets/ApiServlet.java:83 | in the reported reading, no shorter key value lets the rest of the pattern match |
| Matcher.KeyValueTrailingSlash | src/main/java/gov/nysenate/openleg/api/servlets/ApiServlet.java:83 | a reported key value ends in '/' only when another '/' follows it |
| Matcher.ThreeNumbersNoMulti | src/main/java/gov/nysenate/openleg/api/servlets/ApiServlet.java:71-78 | after a multi view, `/d1/d2/d3` has no reading of the multi-view suffix: PAGING holds at most two numbers |
| Matcher.TwoNumbersThenDigit | src/main/java/gov/nysenate/openleg/api/servlets/ApiServlet.java:71 | after "d1/d2/" a further digit leaves PAGING unmatched |
| Scenarios.SingleWithFormat | src/main/java/gov/nysenate/openleg/api/servlets/ApiServlet.java:184-197 | `/legislation/api/json/bill/<id>` routes to a single-view request with format json, view bill and that id |
| Scenarios.SingleVersioned | src/main/java/gov/nysenate/openleg/api/servlets/ApiServlet.java:184-197 | `/legislation/api/1.0/xml/bill/<id>` routes to a single-view request with format xml, view bill and that id |
| Scenarios.MultiPage | src/main/java/gov/nysenate/openleg/api/servlets/ApiServlet.java:199-213 | `/legislation/bills/<n1>/<n2>` is not a single view and routes to a multi-view request with page n1 and size n2 |
| Scenarios.ThreeNumbers | src/main/java/gov/nysenate/openleg/api/servlets/ApiServlet.java:189-253 | `/legislation/bills/<n1>/<n2>/<n3>` matches none of the four patterns, so doGet answers 404 |
| Scenarios.ApiWithoutFormat | src/main/java/gov/nysenate/openleg/api/servlets/ApiServlet.java:56-61 | `/legislation/api/committee/finance` matches none of the four patterns: after api/ a format is required |
| Scenarios.ApiCommitteeUnmatched | src/main/java/gov/nysenate/openleg/api/servlets/ApiServlet.java:56-61 | that path matches no pattern with the formats json and xml and a single view not starting with 'a' |
| Scenarios.KeyValuePlain | src/main/java/gov/nysenate/openleg/api/servlets/ApiServlet.java:215-230 | `/legislation/committee/<value>` with no digit, '/' or terminator in the value routes to a key-value request with that value and no paging |
| Scenarios.KeyValueNumber | src/main/java/gov/nysenate/openleg/api/servlets/ApiServlet.java:215-230 | `/legislation/committee/<digits>` routes to a key-value request with an empty value and the digits as page number |
| Scenarios.KeyValueSlashes | src/main/java/gov/nysenate/openleg/api/servlets/ApiServlet.java:83 | `/legislation/committee/a//` routes to a key-value request with the value "a/" |
| Scenarios.EmptyVocabulary | src/main/java/gov/nysenate/openleg/api/servlets/ApiServlet.java:99-150 | with no views and formats at all, `/legislation//<id>` routes to a single-view request with an empty view and that id |

## Left out

- `URLDecoder.decode(request.getRequestURI(), ENCODING)` on line 180 is not part of this model: `DoGet` takes the path already decoded.
- The logger calls on lines 151-169 and 190-233 are left out. Lines 157 and 163 log the text of SINGLE_PATTERN where the multi and key-value patterns are meant. This affects only log output.
- The HttpServlet plumbing is left out: `HttpServletRequest`, `HttpServletResponse`, `ServletException`, `IOException`. `response.sendError(SC_NOT_FOUND)` is modelled as the response value `SentError(404)`.
- The request classes (`SingleViewRequest`, `MultiViewRequest`, `KeyValueViewRequest`, `SearchRequest`) are modelled as values holding their constructor arguments. What they do is not modelled: `execute()` is a parameter that says how it ends. A request constructor that throws is not modelled.
- The enums `SingleView`, `MultiView`, `KeyValueView`, `SearchView` and `AbstractApiRequest.getUniqueFormats` are not part of this model. Their names and formats are the `Vocabulary` parameter of the constructor, in the order the collections yield them.
- The model does not contain a general regex engine. It models exactly these four patterns and the constructs they use. Each vocabulary token is taken as literal text (`Grammar.PlainTokens` for the read-back). A token containing regex metacharacters would change the pattern in ways not modelled here.
- The lookbehind `(?<=api/)` in BASE_START is always true at that point, since "api/" was just matched. The model drops it.
- `Pattern.compile` failing with `PatternSyntaxException` is not modelled. That cannot happen with plain tokens.
- Concurrency between requests sharing the servlet is not modelled: its patterns are never changed after construction.
- Servlet.GroupNumbersInRange: the group count is proved only for tokens holding no '(' and no '?' (`Grammar.NoGroupChars`). A token with a parenthesis would add or hide groups, and every group number after it would shift.
