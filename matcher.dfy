/**
 * What one compiled shape pattern does to a path under `Matcher.find()`.
 *
 * A `Parse` is one way the path can be read against the pattern: which
 * prefix (nothing, or api/ with or without 1.0/ and which format), which
 * view alternative, and how the suffix splits. `Valid` says which readings
 * the pattern admits; `Before` is the order in which Java's backtracking
 * tries them (leftmost alternative first, `?` and `+` greedy, `*?` lazy,
 * `?+` never giving back); `Match` computes the reading Java reports, and
 * MatchIsFirstParse proves it is the first valid one in that order.
 */
module Matcher {
  import opened Wrappers
  import opened Text
  import opened Grammar

  /** The fixed start every pattern matches, ignoring case. */
  const BASE: string := "/legislation/"

  /**
   * The outer optional group of BASE_START/BASE_MIDDLE: absent, or "api/",
   * an optional "1.0/", the format alternative with index `format`, and "/".
   */
  datatype Prefix = Bare | Api(versioned: bool, format: nat)

  /**
   * How PAGING splits: the length of the page-number digits (0: group
   * absent), of the page-size digits (0: absent), and whether the optional
   * '/' after the page size was taken. The '/' after the page number is
   * possessive, so it is not a choice.
   */
  datatype Paging = Paging(pageLen: nat, sizeLen: nat, sizeSlash: bool)

  /** How the part after the view splits, for each kind of suffix. */
  datatype Tail =
    | IdTail(idLen: nat)
    | PagedTail(slash: bool, paging: Paging)
    | KeyValueTail(valueLen: nat, paging: Paging)

  datatype Parse = Parse(prefix: Prefix, view: nat, tail: Tail)

  // ------------------------------------------------------------------
  // The paging suffix: (?:(\d+)/?+)?(?:(\d+)/?)?$
  // ------------------------------------------------------------------

  /** `/?+`: takes a '/' when there is one and never gives it back. */
  function Possessive(s: string, i: nat): (j: nat)
    requires i <= |s|
    ensures j <= |s|
  {
    if i < |s| && s[i] == '/' then i + 1 else i
  }

  /** Where the page-size group starts: after the page digits and their possessive '/'. */
  function AfterPage(s: string, q: nat, pageLen: nat): (j: nat)
    requires q + pageLen <= |s|
    ensures j <= |s|
  {
    if pageLen > 0 then Possessive(s, q + pageLen) else q
  }

  /** `pg` is a way PAGING followed by `$` reads s from q. */
  predicate ValidPaging(s: string, q: nat, pg: Paging) {
    && q + pg.pageLen <= |s|
    && AllDigits(s, q, q + pg.pageLen)
    && var q1 := AfterPage(s, q, pg.pageLen);
       && q1 + pg.sizeLen <= |s|
       && AllDigits(s, q1, q1 + pg.sizeLen)
       && (pg.sizeSlash ==> pg.sizeLen > 0 && q1 + pg.sizeLen < |s| && s[q1 + pg.sizeLen] == '/')
       && AtEnd(s, q1 + pg.sizeLen + (if pg.sizeSlash then 1 else 0))
  }

  /** The two paging groups of `pg` lie within s. */
  predicate PagingFits(s: string, q: nat, pg: Paging) {
    q + pg.pageLen <= |s| && AfterPage(s, q, pg.pageLen) + pg.sizeLen <= |s|
  }

  /** Java tries `a` before `b`: longer page digits first, then longer size digits, then the '/' taken. */
  predicate PagingBefore(a: Paging, b: Paging) {
    || a.pageLen > b.pageLen
    || (a.pageLen == b.pageLen && a.sizeLen > b.sizeLen)
    || (a.pageLen == b.pageLen && a.sizeLen == b.sizeLen && a.sizeSlash && !b.sizeSlash)
  }

  /**
   * The reading of PAGING Java reports: every group as long as it can be.
   * The page size never appears without a page number, and each digit run
   * it captures is a whole run.
   */
  function MatchPaging(s: string, q: nat): (r: Option<Paging>)
    requires q <= |s|
    ensures r.Some? ==> ValidPaging(s, q, r.value)
    ensures r.Some? && r.value.sizeLen > 0 ==> r.value.pageLen > 0
    ensures r.Some? ==> q + r.value.pageLen == |s| || !IsDigit(s[q + r.value.pageLen])
  {
    var n1 := DigitRun(s, q);
    var q1 := AfterPage(s, q, n1);
    var n2 := DigitRun(s, q1);
    var e2 := q1 + n2;
    var slash := n2 > 0 && e2 < |s| && s[e2] == '/';
    if AtEnd(s, if slash then e2 + 1 else e2) then Some(Paging(n1, n2, slash)) else None
  }

  /** A run of digits cannot be longer than the longest one. */
  lemma DigitRunBound(s: string, q: nat, k: nat)
    requires q + k <= |s| && AllDigits(s, q, q + k)
    ensures k <= DigitRun(s, q)
  {
  }

  /** One digit run of length e-q, an optional '/', then `$`: greedy reads it as the page number. */
  lemma PagingOneRun(s: string, q: nat, e: nat, slash: bool)
    requires q < e <= |s| && AllDigits(s, q, e)
    requires slash ==> e < |s| && s[e] == '/'
    requires AtEnd(s, if slash then e + 1 else e)
    ensures MatchPaging(s, q) == Some(Paging(e - q, 0, false))
  {
    AtEndRest(s, if slash then e + 1 else e);
    if !slash {
      AtEndRest(s, e);
    }
    DigitRunIs(s, q, e - q);
    var q1 := AfterPage(s, q, e - q);
    assert q1 == if slash then e + 1 else e;
    DigitRunIs(s, q1, 0);
  }

  /** A reading whose page number is a whole digit run is the greedy one. */
  lemma PagingMaximal(s: string, q: nat, pg: Paging)
    requires ValidPaging(s, q, pg) && pg.pageLen > 0
    requires q + pg.pageLen == |s| || !IsDigit(s[q + pg.pageLen])
    ensures MatchPaging(s, q) == Some(pg)
  {
    var p1 := AfterPage(s, q, pg.pageLen);
    var e := p1 + pg.sizeLen;
    AtEndRest(s, if pg.sizeSlash then e + 1 else e);
    DigitRunIs(s, q, pg.pageLen);
    DigitRunIs(s, p1, pg.sizeLen);
  }

  /** If PAGING and `$` can read s from q at all, the greedy reading succeeds. */
  lemma MatchPagingComplete(s: string, q: nat, pg: Paging)
    requires ValidPaging(s, q, pg)
    ensures MatchPaging(s, q).Some?
  {
    var k1, k2, b := pg.pageLen, pg.sizeLen, pg.sizeSlash;
    var p1 := AfterPage(s, q, k1);
    var e := p1 + k2;
    AtEndRest(s, if b then e + 1 else e);
    if k1 > 0 && (q + k1 == |s| || !IsDigit(s[q + k1])) {
      PagingMaximal(s, q, pg);
    } else if k1 > 0 {
      // the page digits go on, so the size group holds their rest
      assert p1 == q + k1 && k2 > 0;
      assert AllDigits(s, q, e);
      PagingOneRun(s, q, e, b);
    } else if k2 > 0 {
      PagingOneRun(s, q, e, b);
    } else {
      DigitRunIs(s, q, 0);
    }
  }

  /** No reading of PAGING that Java tries earlier than the reported one is valid. */
  lemma MatchPagingFirst(s: string, q: nat, pg: Paging)
    requires ValidPaging(s, q, pg)
    ensures MatchPaging(s, q).Some? && !PagingBefore(pg, MatchPaging(s, q).value)
  {
    MatchPagingComplete(s, q, pg);
    DigitRunBound(s, q, pg.pageLen);
    if pg.pageLen == DigitRun(s, q) {
      DigitRunBound(s, AfterPage(s, q, pg.pageLen), pg.sizeLen);
    }
  }

  // ------------------------------------------------------------------
  // The three suffixes after the view
  // ------------------------------------------------------------------

  /** SINGLE_END + BASE_END, `/(.+)$`: '/', then an id of n characters `.` accepts, then `$`. */
  predicate ValidId(s: string, p: nat, n: nat) {
    && p < |s| && s[p] == '/'
    && n > 0 && p + 1 + n <= |s|
    && NoTerminators(s, p + 1, p + 1 + n)
    && AtEnd(s, p + 1 + n)
  }

  /** Greedy `.+` then `$`: the id runs to the first line terminator, which must be where `$` holds. */
  function MatchId(s: string, p: nat): (r: Option<Tail>)
    requires p <= |s|
    ensures r.Some? ==> r.value.IdTail? && ValidId(s, p, r.value.idLen)
  {
    if p < |s| && s[p] == '/' && LineRun(s, p + 1) > 0 && AtEnd(s, p + 1 + LineRun(s, p + 1))
    then Some(IdTail(LineRun(s, p + 1)))
    else None
  }

  /** The id suffix reads a path in at most one way, and MatchId finds it. */
  lemma MatchIdUnique(s: string, p: nat, n: nat)
    requires p <= |s| && ValidId(s, p, n)
    ensures MatchId(s, p) == Some(IdTail(n))
  {
    NoTerminatorsWithinLineRun(s, p + 1, n);
    AtEndRest(s, p + 1 + n);
  }

  /** MULTI_END + PAGING + BASE_END, `/?` then PAGING and `$`. */
  predicate ValidMulti(s: string, p: nat, slash: bool, pg: Paging) {
    && (slash ==> p < |s| && s[p] == '/')
    && p + (if slash then 1 else 0) <= |s|
    && ValidPaging(s, p + (if slash then 1 else 0), pg)
  }

  /** Greedy `/?`: with the '/' if the rest then matches, otherwise without it. */
  function MatchMulti(s: string, p: nat): (r: Option<Tail>)
    requires p <= |s|
    ensures r.Some? ==> r.value.PagedTail? && ValidMulti(s, p, r.value.slash, r.value.paging)
  {
    if p < |s| && s[p] == '/' && MatchPaging(s, p + 1).Some? then
      Some(PagedTail(true, MatchPaging(s, p + 1).value))
    else
      match MatchPaging(s, p)
      case Some(pg) => Some(PagedTail(false, pg))
      case None => None
  }

  /**
   * KEY_VALUE_END + PAGING + BASE_END, `/(.*?)/?+` then PAGING and `$`: '/',
   * a value of k characters `.` accepts, a possessive '/', then PAGING.
   */
  predicate ValidKeyValue(s: string, p: nat, k: nat, pg: Paging) {
    && p < |s| && s[p] == '/'
    && p + 1 + k <= |s|
    && NoTerminators(s, p + 1, p + 1 + k)
    && ValueThenPaging(s, p + 1, k, pg)
  }

  /** After a value of k characters from v0, the possessive '/' and then PAGING read the rest. */
  predicate ValueThenPaging(s: string, v0: nat, k: nat, pg: Paging)
    requires v0 + k <= |s|
  {
    ValidPaging(s, Possessive(s, v0 + k), pg)
  }

  /** Lazy `.*?` from v0: value lengths k, k+1, ... until the rest matches or `.` can go no further. */
  function LazyValue(s: string, v0: nat, k: nat): (r: Option<Tail>)
    requires v0 <= |s| && k <= LineRun(s, v0)
    ensures r.Some? ==> r.value.KeyValueTail? && k <= r.value.valueLen <= LineRun(s, v0)
    ensures r.Some? ==> ValueThenPaging(s, v0, r.value.valueLen, r.value.paging)
    decreases LineRun(s, v0) - k
  {
    var here := MatchPaging(s, Possessive(s, v0 + k));
    if here.Some? then Some(KeyValueTail(k, here.value))
    else if k < LineRun(s, v0) then LazyValue(s, v0, k + 1)
    else None
  }

  function MatchKeyValue(s: string, p: nat): (r: Option<Tail>)
    requires p <= |s|
    ensures r.Some? ==> r.value.KeyValueTail? && ValidKeyValue(s, p, r.value.valueLen, r.value.paging)
  {
    if p < |s| && s[p] == '/' then
      var r := LazyValue(s, p + 1, 0);
      if r.Some? then NoTerminatorsWithinLineRun(s, p + 1, r.value.valueLen); r
      else r
    else None
  }

  /** `t` is a way the suffix of kind `kind` reads s from p. */
  predicate ValidTail(kind: SuffixKind, s: string, p: nat, t: Tail) {
    match t
    case IdTail(n) => kind == IdSuffix && ValidId(s, p, n)
    case PagedTail(slash, pg) => kind == PagedSuffix && ValidMulti(s, p, slash, pg)
    case KeyValueTail(k, pg) => kind == KeyValueSuffix && ValidKeyValue(s, p, k, pg)
  }

  /** Java tries tail `a` before tail `b`. */
  predicate TailBefore(a: Tail, b: Tail) {
    match (a, b)
    case (IdTail(m), IdTail(n)) => m > n
    case (PagedTail(sa, pa), PagedTail(sb, pb)) => (sa && !sb) || (sa == sb && PagingBefore(pa, pb))
    case (KeyValueTail(ka, pa), KeyValueTail(kb, pb)) => ka < kb || (ka == kb && PagingBefore(pa, pb))
    case _ => false
  }

  function MatchTail(kind: SuffixKind, s: string, p: nat): (r: Option<Tail>)
    requires p <= |s|
    ensures r.Some? ==> ValidTail(kind, s, p, r.value)
  {
    match kind
    case IdSuffix => MatchId(s, p)
    case PagedSuffix => MatchMulti(s, p)
    case KeyValueSuffix => MatchKeyValue(s, p)
  }

  /** Lazy search from k on finds a value no longer than any valid one from k on. */
  lemma LazyValueFirst(s: string, v0: nat, j: nat, k: nat, pg: Paging)
    requires v0 <= |s| && j <= k <= LineRun(s, v0)
    requires ValueThenPaging(s, v0, k, pg)
    ensures LazyValue(s, v0, j).Some?
    ensures !TailBefore(KeyValueTail(k, pg), LazyValue(s, v0, j).value)
    decreases k - j
  {
    var here := MatchPaging(s, Possessive(s, v0 + j));
    if j == k {
      MatchPagingFirst(s, Possessive(s, v0 + k), pg);
    } else if here.None? {
      LazyValueFirst(s, v0, j + 1, k, pg);
    }
  }

  /** Greedy `/?` before PAGING: the first valid reading of the multi-view suffix. */
  lemma MatchMultiFirst(s: string, p: nat, slash: bool, pg: Paging)
    requires p <= |s| && ValidMulti(s, p, slash, pg)
    ensures MatchMulti(s, p).Some? && !TailBefore(PagedTail(slash, pg), MatchMulti(s, p).value)
  {
    if slash {
      MatchPagingFirst(s, p + 1, pg);
      var m := MatchPaging(s, p + 1).value;
      assert MatchMulti(s, p) == Some(PagedTail(true, m));
      assert !PagingBefore(pg, m);
    } else if p < |s| && s[p] == '/' && MatchPaging(s, p + 1).Some? {
      assert MatchMulti(s, p) == Some(PagedTail(true, MatchPaging(s, p + 1).value));
    } else {
      MatchPagingFirst(s, p, pg);
      var m := MatchPaging(s, p).value;
      assert MatchMulti(s, p) == Some(PagedTail(false, m));
      assert !PagingBefore(pg, m);
    }
  }

  /** Lazy `.*?`: the key-value suffix reports the shortest value after which the rest matches. */
  lemma MatchKeyValueFirst(s: string, p: nat, k: nat, pg: Paging)
    requires p <= |s| && ValidKeyValue(s, p, k, pg)
    ensures MatchKeyValue(s, p).Some? && !TailBefore(KeyValueTail(k, pg), MatchKeyValue(s, p).value)
  {
    NoTerminatorsWithinLineRun(s, p + 1, k);
    LazyValueFirst(s, p + 1, 0, k, pg);
  }

  /** The tail matcher finds the reading of the suffix that Java tries first among the valid ones. */
  lemma MatchTailFirst(kind: SuffixKind, s: string, p: nat, t: Tail)
    requires p <= |s| && ValidTail(kind, s, p, t)
    ensures MatchTail(kind, s, p).Some? && !TailBefore(t, MatchTail(kind, s, p).value)
  {
    match t
    case IdTail(n) => MatchIdUnique(s, p, n);
    case PagedTail(slash, pg) => MatchMultiFirst(s, p, slash, pg);
    case KeyValueTail(k, pg) => MatchKeyValueFirst(s, p, k, pg);
  }

  // ------------------------------------------------------------------
  // The whole pattern
  // ------------------------------------------------------------------

  predicate ValidPrefix(g: ShapeGrammar, pre: Prefix) {
    match pre
    case Bare => true
    case Api(_, i) => i < |g.formats|
  }

  /** The text of the optional api group for a prefix. */
  function PrefixText(g: ShapeGrammar, pre: Prefix): (text: string)
    requires ValidPrefix(g, pre)
  {
    match pre
    case Bare => ""
    case Api(versioned, i) => "api/" + (if versioned then "1.0/" else "") + g.formats[i] + "/"
  }

  /** How many prefixes the backtracking tries: api/1.0/ with each format, api/ with each format, none. */
  function PrefixCount(g: ShapeGrammar): (n: nat) {
    2 * |g.formats| + 1
  }

  /** The position of a prefix in Java's order: the group is greedy, `(?:1\.0/)?` is greedy, formats go left to right. */
  function Rank(g: ShapeGrammar, pre: Prefix): (r: nat) {
    match pre
    case Api(versioned, i) => if versioned then i else |g.formats| + i
    case Bare => 2 * |g.formats|
  }

  function PrefixOfRank(g: ShapeGrammar, r: nat): (pre: Prefix)
    requires r < PrefixCount(g)
    ensures ValidPrefix(g, pre) && Rank(g, pre) == r
  {
    if r < |g.formats| then Api(true, r)
    else if r < 2 * |g.formats| then Api(false, r - |g.formats|)
    else Bare
  }

  lemma RankOfPrefix(g: ShapeGrammar, pre: Prefix)
    requires ValidPrefix(g, pre)
    ensures Rank(g, pre) < PrefixCount(g) && PrefixOfRank(g, Rank(g, pre)) == pre
  {
  }

  /** The literal text up to the end of the view: BASE, the prefix and the view alternative. */
  function Head(g: ShapeGrammar, pre: Prefix, view: nat): (head: string)
    requires ValidPrefix(g, pre) && view < |g.views|
  {
    BASE + PrefixText(g, pre) + g.views[view]
  }

  /** `P` is a way the whole pattern of `g` reads the path s from its start. */
  predicate Valid(g: ShapeGrammar, s: string, P: Parse) {
    && ValidPrefix(g, P.prefix)
    && P.view < |g.views|
    && LiteralAt(s, 0, Head(g, P.prefix, P.view))
    && ValidTail(g.suffix, s, |Head(g, P.prefix, P.view)|, P.tail)
  }

  /** Java tries `P` before `Q`: by prefix, then by view alternative, then by tail. */
  predicate Before(g: ShapeGrammar, P: Parse, Q: Parse) {
    || Rank(g, P.prefix) < Rank(g, Q.prefix)
    || (Rank(g, P.prefix) == Rank(g, Q.prefix) && P.view < Q.view)
    || (Rank(g, P.prefix) == Rank(g, Q.prefix) && P.view == Q.view && TailBefore(P.tail, Q.tail))
  }

  /** `P` is tried at or after prefix rank r, view vi. */
  predicate NotEarlier(g: ShapeGrammar, P: Parse, r: nat, vi: nat) {
    Rank(g, P.prefix) > r || (Rank(g, P.prefix) == r && P.view >= vi)
  }

  /** The attempt at one prefix and one view alternative: the literal head, then the suffix. */
  function TryAt(g: ShapeGrammar, s: string, r: nat, vi: nat): (res: Option<Parse>)
    requires r < PrefixCount(g) && vi < |g.views|
    ensures res.Some? ==> Valid(g, s, res.value)
    ensures res.Some? ==> Rank(g, res.value.prefix) == r && res.value.view == vi
  {
    var pre := PrefixOfRank(g, r);
    var head := Head(g, pre, vi);
    if LiteralAt(s, 0, head) then
      match MatchTail(g.suffix, s, |head|)
      case Some(t) => Some(Parse(pre, vi, t))
      case None => None
    else None
  }

  /** A valid reading at a prefix and view makes the attempt there succeed with a tail not after it. */
  lemma TryAtFirst(g: ShapeGrammar, s: string, P: Parse)
    requires Valid(g, s, P)
    ensures Rank(g, P.prefix) < PrefixCount(g)
    ensures TryAt(g, s, Rank(g, P.prefix), P.view).Some?
    ensures !TailBefore(P.tail, TryAt(g, s, Rank(g, P.prefix), P.view).value.tail)
  {
    RankOfPrefix(g, P.prefix);
    MatchTailFirst(g.suffix, s, |Head(g, P.prefix, P.view)|, P.tail);
  }

  /** The backtracking over prefixes and views, from prefix rank r and view vi on. */
  function Search(g: ShapeGrammar, s: string, r: nat, vi: nat): (res: Option<Parse>)
    requires r <= PrefixCount(g) && vi <= |g.views|
    decreases PrefixCount(g) - r, |g.views| - vi
  {
    if r == PrefixCount(g) then None
    else if vi == |g.views| then Search(g, s, r + 1, 0)
    else
      var here := TryAt(g, s, r, vi);
      if here.Some? then here else Search(g, s, r, vi + 1)
  }

  /** `pattern.matcher(s).find()`: the reading Java reports, or None when find() is false. */
  function Match(g: ShapeGrammar, s: string): (res: Option<Parse>)
    ensures res.Some? ==> Valid(g, s, res.value)
  {
    SearchSound(g, s, 0, 0);
    Search(g, s, 0, 0)
  }

  /** What the backtracking reports is a valid reading, tried no earlier than where it started. */
  lemma {:induction false} SearchSound(g: ShapeGrammar, s: string, r: nat, vi: nat)
    requires r <= PrefixCount(g) && vi <= |g.views|
    ensures var res := Search(g, s, r, vi);
      res.Some? ==> Valid(g, s, res.value) && NotEarlier(g, res.value, r, vi)
    decreases PrefixCount(g) - r, |g.views| - vi
  {
    if r < PrefixCount(g) {
      if vi == |g.views| {
        SearchSound(g, s, r + 1, 0);
      } else if TryAt(g, s, r, vi).None? {
        SearchSound(g, s, r, vi + 1);
      }
    }
  }

  lemma SearchFirst(g: ShapeGrammar, s: string, r: nat, vi: nat, P: Parse)
    requires r <= PrefixCount(g) && vi <= |g.views|
    requires Valid(g, s, P) && NotEarlier(g, P, r, vi)
    ensures Search(g, s, r, vi).Some? && !Before(g, P, Search(g, s, r, vi).value)
    decreases PrefixCount(g) - r, |g.views| - vi
  {
    TryAtFirst(g, s, P);
    if vi == |g.views| {
      SearchFirst(g, s, r + 1, 0, P);
    } else if !(Rank(g, P.prefix) == r && P.view == vi) && TryAt(g, s, r, vi).None? {
      SearchFirst(g, s, r, vi + 1, P);
    }
  }

  /** `P` is valid and Java tries no other valid reading before it. */
  ghost predicate FirstParse(g: ShapeGrammar, s: string, P: Parse) {
    Valid(g, s, P) && forall Q :: Valid(g, s, Q) ==> !Before(g, Q, P)
  }

  /** Java's order is total: of two different readings of one pattern, one is tried first. */
  lemma BeforeTotal(g: ShapeGrammar, s: string, P: Parse, Q: Parse)
    requires Valid(g, s, P) && Valid(g, s, Q) && P != Q
    ensures Before(g, P, Q) || Before(g, Q, P)
  {
    ValidTailKind(g.suffix, s, |Head(g, P.prefix, P.view)|, P.tail);
    ValidTailKind(g.suffix, s, |Head(g, Q.prefix, Q.view)|, Q.tail);
    OrderTotal(g, P, Q);
  }

  /** The suffix kind a tail belongs to. */
  function KindOf(t: Tail): (kind: SuffixKind) {
    match t
    case IdTail(_) => IdSuffix
    case PagedTail(_, _) => PagedSuffix
    case KeyValueTail(_, _) => KeyValueSuffix
  }

  lemma ValidTailKind(kind: SuffixKind, s: string, p: nat, t: Tail)
    requires ValidTail(kind, s, p, t)
    ensures KindOf(t) == kind
  {
  }

  /** Java's order is total on the candidates of one pattern with tails of one kind. */
  lemma OrderTotal(g: ShapeGrammar, P: Parse, Q: Parse)
    requires ValidPrefix(g, P.prefix) && ValidPrefix(g, Q.prefix) && KindOf(P.tail) == KindOf(Q.tail) && P != Q
    ensures Before(g, P, Q) || Before(g, Q, P)
  {
    RankOfPrefix(g, P.prefix);
    RankOfPrefix(g, Q.prefix);
  }

  /** find() succeeds exactly when some reading of the path is valid. */
  lemma MatchFindsAny(g: ShapeGrammar, s: string)
    ensures Match(g, s).None? <==> forall Q :: !Valid(g, s, Q)
  {
    forall Q | Valid(g, s, Q) ensures Match(g, s).Some? {
      SearchFirst(g, s, 0, 0, Q);
    }
  }

  /** The reading find() reports is the first valid one in Java's backtracking order, and only that one. */
  lemma MatchIsFirstParse(g: ShapeGrammar, s: string, P: Parse)
    ensures Match(g, s) == Some(P) <==> FirstParse(g, s, P)
  {
    forall Q | Valid(g, s, Q) ensures Match(g, s).Some? && !Before(g, Q, Match(g, s).value) {
      SearchFirst(g, s, 0, 0, Q);
    }
    if FirstParse(g, s, P) && Match(g, s) != Some(P) {
      BeforeTotal(g, s, P, Match(g, s).value);
      assert false;
    }
  }

  // ------------------------------------------------------------------
  // (?i): letter case in the path does not change the outcome
  // ------------------------------------------------------------------

  lemma PossessiveIgnoresCase(s: string, t: string, i: nat)
    requires FoldEqual(s, t) && i <= |s|
    ensures Possessive(s, i) == Possessive(t, i)
  {
    if i < |s| { FoldAt(s, t, i); }
  }

  /** Whether PAGING and `$` read s from q as `pg` does not depend on letter case. */
  lemma ValidPagingIgnoresCase(s: string, t: string, q: nat, pg: Paging)
    requires FoldEqual(s, t)
    ensures ValidPaging(s, q, pg) <==> ValidPaging(t, q, pg)
  {
    if q + pg.pageLen <= |s| {
      AllDigitsIgnoresCase(s, t, q, q + pg.pageLen);
      PossessiveIgnoresCase(s, t, q + pg.pageLen);
      var q1 := AfterPage(s, q, pg.pageLen);
      assert AfterPage(t, q, pg.pageLen) == q1;
      if q1 + pg.sizeLen <= |s| {
        var e := q1 + pg.sizeLen;
        AllDigitsIgnoresCase(s, t, q1, e);
        AtEndIgnoresCase(s, t, e);
        if e < |s| {
          FoldAt(s, t, e);
          AtEndIgnoresCase(s, t, e + 1);
        }
      }
    }
  }

  /** Whether a suffix reads s from p as `tail` does not depend on letter case. */
  lemma ValidTailIgnoresCase(kind: SuffixKind, s: string, t: string, p: nat, tail: Tail)
    requires FoldEqual(s, t)
    ensures ValidTail(kind, s, p, tail) <==> ValidTail(kind, t, p, tail)
  {
    match tail
    case IdTail(n) => IdTailIgnoresCase(kind, s, t, p, n);
    case PagedTail(slash, pg) =>
      if p < |s| {
        FoldAt(s, t, p);
      }
      ValidPagingIgnoresCase(s, t, p + (if slash then 1 else 0), pg);
    case KeyValueTail(k, pg) => KeyValueTailIgnoresCase(kind, s, t, p, k, pg);
  }

  lemma IdTailIgnoresCase(kind: SuffixKind, s: string, t: string, p: nat, n: nat)
    requires FoldEqual(s, t)
    ensures ValidTail(kind, s, p, IdTail(n)) <==> ValidTail(kind, t, p, IdTail(n))
  {
    if p < |s| {
      FoldAt(s, t, p);
    }
    if p + 1 + n <= |s| {
      NoTerminatorsIgnoresCase(s, t, p + 1, p + 1 + n);
      AtEndIgnoresCase(s, t, p + 1 + n);
    }
  }

  lemma KeyValueTailIgnoresCase(kind: SuffixKind, s: string, t: string, p: nat, k: nat, pg: Paging)
    requires FoldEqual(s, t)
    ensures ValidTail(kind, s, p, KeyValueTail(k, pg)) <==> ValidTail(kind, t, p, KeyValueTail(k, pg))
  {
    if p < |s| {
      FoldAt(s, t, p);
    }
    if p + 1 + k <= |s| {
      NoTerminatorsIgnoresCase(s, t, p + 1, p + 1 + k);
      PossessiveIgnoresCase(s, t, p + 1 + k);
      ValidPagingIgnoresCase(s, t, Possessive(s, p + 1 + k), pg);
    }
  }

  /** Whether P is a reading of the path does not depend on letter case: (?i) makes the literals case-blind. */
  lemma ValidIgnoresCase(g: ShapeGrammar, s: string, t: string, P: Parse)
    requires FoldEqual(s, t)
    ensures Valid(g, s, P) <==> Valid(g, t, P)
  {
    if ValidPrefix(g, P.prefix) && P.view < |g.views| {
      var head := Head(g, P.prefix, P.view);
      LiteralAtIgnoresCase(s, t, 0, head);
      ValidTailIgnoresCase(g.suffix, s, t, |head|, P.tail);
    }
  }

  /**
   * Under (?i) two paths that differ only in ASCII letter case match alike,
   * with the same reading: both have the same valid readings, and Java's
   * order picks the same first one.
   */
  lemma MatchIgnoresCase(g: ShapeGrammar, s: string, t: string)
    requires FoldEqual(s, t)
    ensures Match(g, s) == Match(g, t)
  {
    forall Q ensures Valid(g, s, Q) <==> Valid(g, t, Q) {
      ValidIgnoresCase(g, s, t, Q);
    }
    MatchFindsAny(g, s);
    MatchFindsAny(g, t);
    if Match(g, s).Some? {
      var P := Match(g, s).value;
      MatchIsFirstParse(g, s, P);
      assert FirstParse(g, t, P);
      MatchIsFirstParse(g, t, P);
    }
  }

  // ------------------------------------------------------------------
  // Capturing groups
  // ------------------------------------------------------------------


  /** The two groups of PAGING: the page number (k = 1) and the page size (k = 2); None when the group took no part. */
  function PagingGroup(s: string, q: nat, pg: Paging, k: nat): (r: Option<string>)
    requires PagingFits(s, q, pg) && 1 <= k <= 2
    ensures r.Some? ==> exists i: nat :: Stretch(s, i, r.value)
  {
    if k == 1 then
      if pg.pageLen > 0 then assert Stretch(s, q, s[q..q + pg.pageLen]); Some(s[q..q + pg.pageLen]) else None
    else
      var q1 := AfterPage(s, q, pg.pageLen);
      if pg.sizeLen > 0 then assert Stretch(s, q1, s[q1..q1 + pg.sizeLen]); Some(s[q1..q1 + pg.sizeLen]) else None
  }

  /** Groups 1 and 2, the format and the view, which lie in the literal head. */
  function HeadGroup(g: ShapeGrammar, s: string, pre: Prefix, view: nat, k: nat): (r: Option<string>)
    requires ValidPrefix(g, pre) && view < |g.views| && LiteralAt(s, 0, Head(g, pre, view))
    requires 1 <= k <= 2
    ensures r.Some? <==> k == 2 || pre.Api?
    ensures r.Some? ==> exists i: nat :: Stretch(s, i, r.value)
  {
    if k == 1 then
      match pre
      case Bare => None
      case Api(versioned, i) =>
        HeadLiterals(g, s, pre, view);
        ApiLiterals(s, versioned, g.formats[i]);
        var f := FormatStart(versioned);
        assert Stretch(s, f, s[f..f + |g.formats[i]|]);
        Some(s[f..f + |g.formats[i]|])
    else
      HeadLiterals(g, s, pre, view);
      var v := |BASE| + |PrefixText(g, pre)|;
      assert Stretch(s, v, s[v..|Head(g, pre, view)|]);
      Some(s[v..|Head(g, pre, view)|])
  }

  /** `t` is a tail of the suffix `kind` whose groups, read from p, lie within s. */
  predicate TailFits(kind: SuffixKind, s: string, p: nat, t: Tail) {
    match t
    case IdTail(n) => kind == IdSuffix && p + 1 + n <= |s|
    case PagedTail(slash, pg) =>
      kind == PagedSuffix && p + (if slash then 1 else 0) <= |s| && PagingFits(s, p + (if slash then 1 else 0), pg)
    case KeyValueTail(n, pg) =>
      kind == KeyValueSuffix && p + 1 + n <= |s| && PagingFits(s, Possessive(s, p + 1 + n), pg)
  }

  /** A valid tail has all its groups within the path. */
  lemma ValidTailFits(kind: SuffixKind, s: string, p: nat, t: Tail)
    requires ValidTail(kind, s, p, t)
    ensures TailFits(kind, s, p, t)
  {
  }

  /** The groups after the view, numbered from 1: id; or page, size; or value, page, size. */
  function TailGroup(kind: SuffixKind, s: string, p: nat, t: Tail, k: nat): (r: Option<string>)
    requires TailFits(kind, s, p, t) && 1 <= k <= GroupCount(kind) - 2
    ensures kind != PagedSuffix && k == 1 ==> r.Some?
    ensures r.Some? ==> exists i: nat :: Stretch(s, i, r.value)
  {
    match t
    case IdTail(n) => assert Stretch(s, p + 1, s[p + 1..p + 1 + n]); Some(s[p + 1..p + 1 + n])
    case PagedTail(slash, pg) => PagingGroup(s, p + (if slash then 1 else 0), pg, k)
    case KeyValueTail(n, pg) =>
      if k == 1 then assert Stretch(s, p + 1, s[p + 1..p + 1 + n]); Some(s[p + 1..p + 1 + n])
      else PagingGroup(s, Possessive(s, p + 1 + n), pg, k - 1)
  }

  /**
   * `m.group(k)` for the reading P: group 1 is the format, 2 the view, then
   * the id (single), or page number and size (multi), or the value, page
   * number and size (key value and search). None stands for null.
   */
  function Group(g: ShapeGrammar, s: string, P: Parse, k: nat): (r: Option<string>)
    requires Valid(g, s, P) && 1 <= k <= GroupCount(g.suffix)
    ensures k == 1 ==> (r.Some? <==> P.prefix.Api?)
    ensures k == 2 ==> r.Some?
    ensures k == 3 && g.suffix != PagedSuffix ==> r.Some?
    ensures r.Some? ==> exists i: nat :: Stretch(s, i, r.value)
  {
    if k <= 2 then HeadGroup(g, s, P.prefix, P.view, k)
    else
      ValidTailFits(g.suffix, s, |Head(g, P.prefix, P.view)|, P.tail);
      TailGroup(g.suffix, s, |Head(g, P.prefix, P.view)|, P.tail, k - 2)
  }

  /** Where the format alternative starts in the path, after "/legislation/api/" and the optional "1.0/". */
  function FormatStart(versioned: bool): (n: nat) {
    |BASE| + 4 + (if versioned then 4 else 0)
  }

  /** Where the view alternative starts: after "/legislation/", or after the format and its '/'. */
  function ViewStart(versioned: bool, format: Option<string>): (n: nat) {
    match format
    case None => |BASE|
    case Some(f) => FormatStart(versioned) + |f| + 1
  }

  /** Whether a reading passes through "1.0/". */
  function Versioned(pre: Prefix): (versioned: bool) {
    pre.Api? && pre.versioned
  }

  lemma ApiLiterals(s: string, versioned: bool, f: string)
    requires LiteralAt(s, |BASE|, "api/" + (if versioned then "1.0/" else "") + f + "/")
    ensures LiteralAt(s, |BASE|, "api/")
    ensures LiteralAt(s, |BASE|, "api/" + (if versioned then "1.0/" else ""))
    ensures FormatStart(versioned) + |f| <= |s|
    ensures FoldEqual(s[FormatStart(versioned)..FormatStart(versioned) + |f|], f)
    ensures LiteralAt(s, FormatStart(versioned) + |f|, "/")
  {
    var ver := if versioned then "1.0/" else "";
    LiteralAtConcat(s, |BASE|, "api/" + ver + f, "/");
    LiteralAtConcat(s, |BASE|, "api/" + ver, f);
    LiteralAtConcat(s, |BASE|, "api/", ver);
    LiteralAtSlice(s, FormatStart(versioned), f);
  }

  lemma HeadLiterals(g: ShapeGrammar, s: string, pre: Prefix, view: nat)
    requires ValidPrefix(g, pre) && view < |g.views| && LiteralAt(s, 0, Head(g, pre, view))
    ensures LiteralAt(s, 0, BASE)
    ensures LiteralAt(s, |BASE|, PrefixText(g, pre))
    ensures |Head(g, pre, view)| <= |s|
    ensures FoldEqual(s[|BASE| + |PrefixText(g, pre)|..|Head(g, pre, view)|], g.views[view])
  {
    var text := PrefixText(g, pre);
    var v := g.views[view];
    LiteralAtConcat(s, 0, BASE + text, v);
    LiteralAtConcat(s, 0, BASE, text);
    LiteralAtSlice(s, |BASE| + |text|, v);
  }

  /**
   * Group 1 (the format) is captured exactly when the path continues with
   * "api/" after "/legislation/", and then it is one of the formats up to
   * letter case; group 2 is always the view, one of the view names up to case.
   */
  lemma FormatAndViewGroups(g: ShapeGrammar, s: string, P: Parse)
    requires Valid(g, s, P)
    ensures LiteralAt(s, 0, BASE)
    ensures Group(g, s, P, 1).Some? <==> P.prefix.Api?
    ensures P.prefix.Api? ==> LiteralAt(s, |BASE|, "api/")
    ensures P.prefix.Api? ==> FoldEqual(Group(g, s, P, 1).value, g.formats[P.prefix.format])
    ensures Group(g, s, P, 2).Some? && FoldEqual(Group(g, s, P, 2).value, g.views[P.view])
  {
    HeadLiterals(g, s, P.prefix, P.view);
    if P.prefix.Api? {
      ApiLiterals(s, P.prefix.versioned, g.formats[P.prefix.format]);
    }
  }

  /** Both paging groups capture digits only; when the page size needs a page number, so does its group. */
  lemma PagingGroupsShape(s: string, q: nat, pg: Paging)
    requires ValidPaging(s, q, pg)
    ensures PagingGroup(s, q, pg, 1).Some? ==> Numeric(PagingGroup(s, q, pg, 1).value)
    ensures PagingGroup(s, q, pg, 2).Some? ==> Numeric(PagingGroup(s, q, pg, 2).value)
  {
  }

  // ------------------------------------------------------------------
  // Consequences of Java's order for the readings find() reports
  // ------------------------------------------------------------------

  /** Page digits with no page number can be read as the page number instead, and Java tries that first. */
  lemma PagingShift(s: string, q: nat, pg: Paging)
    requires ValidPaging(s, q, pg) && pg.pageLen == 0 && pg.sizeLen > 0
    ensures ValidPaging(s, q, Paging(pg.sizeLen, 0, false))
    ensures PagingBefore(Paging(pg.sizeLen, 0, false), pg)
  {
    var e := q + pg.sizeLen;
    if !pg.sizeSlash {
      AtEndRest(s, e);
    }
  }

  /** The same shift inside any tail with PAGING. */
  lemma TailPagingShift(kind: SuffixKind, s: string, p: nat, t: Tail)
    requires ValidTail(kind, s, p, t) && !t.IdTail? && t.paging.pageLen == 0 && t.paging.sizeLen > 0
    ensures ValidTail(kind, s, p, t.(paging := Paging(t.paging.sizeLen, 0, false)))
    ensures TailBefore(t.(paging := Paging(t.paging.sizeLen, 0, false)), t)
  {
    match t
    case PagedTail(slash, pg) => PagingShift(s, p + (if slash then 1 else 0), pg);
    case KeyValueTail(n, pg) => KeyValuePagingShift(s, p, n, pg);
  }

  lemma KeyValuePagingShift(s: string, p: nat, n: nat, pg: Paging)
    requires ValidKeyValue(s, p, n, pg) && pg.pageLen == 0 && pg.sizeLen > 0
    ensures ValidKeyValue(s, p, n, Paging(pg.sizeLen, 0, false))
  {
    PagingShift(s, Possessive(s, p + 1 + n), pg);
  }

  /** In the reading find() reports, a page size is never captured without a page number. */
  lemma PageSizeNeedsPageNumber(g: ShapeGrammar, s: string, P: Parse)
    requires FirstParse(g, s, P) && !P.tail.IdTail?
    ensures P.tail.paging.sizeLen > 0 ==> P.tail.paging.pageLen > 0
  {
    var pg := P.tail.paging;
    if pg.sizeLen > 0 && pg.pageLen == 0 {
      TailPagingShift(g.suffix, s, |Head(g, P.prefix, P.view)|, P.tail);
      var Q := P.(tail := P.tail.(paging := Paging(pg.sizeLen, 0, false)));
      assert Valid(g, s, Q);
      assert Before(g, Q, P);
      assert false;
    }
  }

  /**
   * `.*?` is lazy: in the reading find() reports, no shorter key value
   * lets the rest of the pattern match.
   */
  lemma KeyValueIsShortest(g: ShapeGrammar, s: string, P: Parse, j: nat)
    requires FirstParse(g, s, P) && P.tail.KeyValueTail? && j < P.tail.valueLen
    ensures forall pg :: !ValidKeyValue(s, |Head(g, P.prefix, P.view)|, j, pg)
  {
    forall pg | ValidKeyValue(s, |Head(g, P.prefix, P.view)|, j, pg) ensures false {
      var Q := P.(tail := KeyValueTail(j, pg));
      assert Valid(g, s, Q);
      assert Before(g, Q, P);
    }
  }

  /**
   * The possessive `/?+` after the value does not keep a '/' out of it: the
   * reported value ends in '/' only when another '/' follows it, so "a//"
   * after the key gives the value "a/".
   */
  lemma KeyValueTrailingSlash(g: ShapeGrammar, s: string, P: Parse)
    requires FirstParse(g, s, P) && P.tail.KeyValueTail? && P.tail.valueLen > 0
    requires var p := |Head(g, P.prefix, P.view)|; s[p + P.tail.valueLen] == '/'
    ensures var p := |Head(g, P.prefix, P.view)|;
      p + 1 + P.tail.valueLen < |s| && s[p + 1 + P.tail.valueLen] == '/'
  {
    var p := |Head(g, P.prefix, P.view)|;
    if !(p + 1 + P.tail.valueLen < |s| && s[p + 1 + P.tail.valueLen] == '/') {
      var Q := ShorterValueFirst(g, s, P);
      assert false;
    }
  }

  /** Without a second '/', the reading whose value leaves its last '/' to the paging is tried first. */
  lemma ShorterValueFirst(g: ShapeGrammar, s: string, P: Parse) returns (Q: Parse)
    requires Valid(g, s, P) && P.tail.KeyValueTail? && P.tail.valueLen > 0
    requires var p := |Head(g, P.prefix, P.view)|; s[p + P.tail.valueLen] == '/'
    requires var p := |Head(g, P.prefix, P.view)|;
      !(p + 1 + P.tail.valueLen < |s| && s[p + 1 + P.tail.valueLen] == '/')
    ensures Valid(g, s, Q) && Before(g, Q, P)
  {
    var p := |Head(g, P.prefix, P.view)|;
    var k := P.tail.valueLen;
    var pg := P.tail.paging;
    Q := P.(tail := KeyValueTail(k - 1, pg));
    KeyValueOf(g, s, P);
    SlashIntoPaging(s, p, k, pg);
    OtherTail(g, s, P, Q.tail);
  }

  /** No valid reading comes before the one find() reports. */
  lemma FirstParseBeats(g: ShapeGrammar, s: string, P: Parse, Q: Parse)
    requires FirstParse(g, s, P) && Valid(g, s, Q)
    ensures !Before(g, Q, P)
  {
  }

  lemma KeyValueOf(g: ShapeGrammar, s: string, P: Parse)
    requires Valid(g, s, P) && P.tail.KeyValueTail?
    ensures ValidKeyValue(s, |Head(g, P.prefix, P.view)|, P.tail.valueLen, P.tail.paging)
  {
  }

  /** Another reading of the suffix after the same head is another valid reading of the path. */
  lemma OtherTail(g: ShapeGrammar, s: string, P: Parse, t: Tail)
    requires Valid(g, s, P) && ValidTail(g.suffix, s, |Head(g, P.prefix, P.view)|, t)
    ensures Valid(g, s, P.(tail := t))
  {
  }

  /** A value ending in '/' with no '/' after it can give that '/' to the possessive `/?+` instead. */
  lemma SlashIntoPaging(s: string, p: nat, k: nat, pg: Paging)
    requires ValidKeyValue(s, p, k, pg) && k > 0 && s[p + k] == '/'
    requires !(p + 1 + k < |s| && s[p + 1 + k] == '/')
    ensures ValidKeyValue(s, p, k - 1, pg)
  {
    assert Possessive(s, p + k) == Possessive(s, p + 1 + k);
  }


  /** After "/d1/d2/" PAGING has used both groups, and a further digit is not where `$` holds. */
  lemma TwoNumbersThenDigit(s: string, q: nat, n1: nat, n2: nat)
    requires 0 < n1 && 0 < n2 && q + n1 + n2 + 2 < |s|
    requires AllDigits(s, q, q + n1) && s[q + n1] == '/'
    requires AllDigits(s, q + 1 + n1, q + 1 + n1 + n2) && s[q + 1 + n1 + n2] == '/'
    requires IsDigit(s[q + 2 + n1 + n2])
    ensures MatchPaging(s, q).None?
  {
    DigitRunIs(s, q, n1);
    DigitRunIs(s, q + 1 + n1, n2);
  }

  /**
   * Three numeric segments after a multi view, `/d1/d2/d3`: PAGING holds at
   * most two numbers, so no reading of the multi-view suffix exists.
   */
  lemma ThreeNumbersNoMulti(s: string, p: nat, n1: nat, n2: nat)
    requires 0 < n1 && 0 < n2 && p + n1 + n2 + 3 < |s|
    requires s[p] == '/' && AllDigits(s, p + 1, p + 1 + n1) && s[p + 1 + n1] == '/'
    requires AllDigits(s, p + 2 + n1, p + 2 + n1 + n2) && s[p + 2 + n1 + n2] == '/'
    requires IsDigit(s[p + 3 + n1 + n2])
    ensures MatchMulti(s, p).None?
    ensures forall slash, pg :: !ValidMulti(s, p, slash, pg)
  {
    ThreeNumbersNoMatch(s, p, n1, n2);
    forall slash, pg | ValidMulti(s, p, slash, pg) ensures false {
      MatchMultiFirst(s, p, slash, pg);
    }
  }

  /** Neither with nor without the optional '/' does PAGING match the three numbers. */
  lemma ThreeNumbersNoMatch(s: string, p: nat, n1: nat, n2: nat)
    requires 0 < n1 && 0 < n2 && p + n1 + n2 + 3 < |s|
    requires s[p] == '/' && AllDigits(s, p + 1, p + 1 + n1) && s[p + 1 + n1] == '/'
    requires AllDigits(s, p + 2 + n1, p + 2 + n1 + n2) && s[p + 2 + n1 + n2] == '/'
    requires IsDigit(s[p + 3 + n1 + n2])
    ensures MatchMulti(s, p).None?
  {
    TwoNumbersThenDigit(s, p + 1, n1, n2);
    DigitRunIs(s, p, 0);
    assert MatchPaging(s, p).None?;
  }

  // ------------------------------------------------------------------
  // What the groups of the reported reading hold
  // ------------------------------------------------------------------

  /** The single-view id: non-empty, after a '/', free of line terminators, and running up to where `$` holds. */
  lemma IdGroup(g: ShapeGrammar, s: string, P: Parse)
    requires Valid(g, s, P) && g.suffix == IdSuffix
    ensures var id := Group(g, s, P, 3); var k := |Head(g, P.prefix, P.view)| + 1;
      && id.Some? && |id.value| > 0
      && 0 < k && k + |id.value| <= |s| && s[k - 1] == '/'
      && id.value == s[k..k + |id.value|]
      && AtEnd(s, k + |id.value|)
      && NoTerminators(id.value, 0, |id.value|)
  {
    var k := |Head(g, P.prefix, P.view)| + 1;
    var id := Group(g, s, P, 3).value;
    assert forall j :: 0 <= j < |id| ==> id[j] == s[k + j];
  }

  /** The paging groups of a tail in which a page size comes only with a page number. */
  lemma TailPagingGroups(kind: SuffixKind, s: string, p: nat, t: Tail)
    requires ValidTail(kind, s, p, t) && !t.IdTail?
    requires t.paging.sizeLen > 0 ==> t.paging.pageLen > 0
    ensures var n := if kind == PagedSuffix then 1 else 2;
      && (TailGroup(kind, s, p, t, n).Some? ==> Numeric(TailGroup(kind, s, p, t, n).value))
      && (TailGroup(kind, s, p, t, n + 1).Some? ==> Numeric(TailGroup(kind, s, p, t, n + 1).value))
      && (TailGroup(kind, s, p, t, n + 1).Some? ==> TailGroup(kind, s, p, t, n).Some?)
  {
    ValidTailFits(kind, s, p, t);
    match t
    case PagedTail(slash, pg) => MultiPagingGroups(s, p, slash, pg);
    case KeyValueTail(n, pg) => KeyValuePagingGroups(s, p, n, pg);
  }

  lemma MultiPagingGroups(s: string, p: nat, slash: bool, pg: Paging)
    requires TailFits(PagedSuffix, s, p, PagedTail(slash, pg)) && ValidPaging(s, p + (if slash then 1 else 0), pg)
    requires pg.sizeLen > 0 ==> pg.pageLen > 0
    ensures var t := PagedTail(slash, pg);
      && (TailGroup(PagedSuffix, s, p, t, 1).Some? ==> Numeric(TailGroup(PagedSuffix, s, p, t, 1).value))
      && (TailGroup(PagedSuffix, s, p, t, 2).Some? ==> Numeric(TailGroup(PagedSuffix, s, p, t, 2).value))
      && (TailGroup(PagedSuffix, s, p, t, 2).Some? ==> TailGroup(PagedSuffix, s, p, t, 1).Some?)
  {
    PagingGroupsShape(s, p + (if slash then 1 else 0), pg);
  }

  lemma KeyValuePagingGroups(s: string, p: nat, n: nat, pg: Paging)
    requires TailFits(KeyValueSuffix, s, p, KeyValueTail(n, pg)) && ValueThenPaging(s, p + 1, n, pg)
    requires pg.sizeLen > 0 ==> pg.pageLen > 0
    ensures var t := KeyValueTail(n, pg);
      && (TailGroup(KeyValueSuffix, s, p, t, 2).Some? ==> Numeric(TailGroup(KeyValueSuffix, s, p, t, 2).value))
      && (TailGroup(KeyValueSuffix, s, p, t, 3).Some? ==> Numeric(TailGroup(KeyValueSuffix, s, p, t, 3).value))
      && (TailGroup(KeyValueSuffix, s, p, t, 3).Some? ==> TailGroup(KeyValueSuffix, s, p, t, 2).Some?)
  {
    var q := Possessive(s, p + 1 + n);
    var t := KeyValueTail(n, pg);
    assert TailGroup(KeyValueSuffix, s, p, t, 2) == PagingGroup(s, q, pg, 1);
    assert TailGroup(KeyValueSuffix, s, p, t, 3) == PagingGroup(s, q, pg, 2);
    PagingGroupsShape(s, q, pg);
  }

  /**
   * In the reported reading, the page-number and page-size groups (3 and 4
   * for multi views, 4 and 5 for key value and search) capture digits only,
   * and the page size is captured only together with a page number.
   */
  lemma PagingGroups(g: ShapeGrammar, s: string, P: Parse)
    requires FirstParse(g, s, P) && g.suffix != IdSuffix
    ensures var n := if g.suffix == PagedSuffix then 3 else 4;
      && (Group(g, s, P, n).Some? ==> Numeric(Group(g, s, P, n).value))
      && (Group(g, s, P, n + 1).Some? ==> Numeric(Group(g, s, P, n + 1).value))
      && (Group(g, s, P, n + 1).Some? ==> Group(g, s, P, n).Some?)
  {
    PageSizeNeedsPageNumber(g, s, P);
    TailPagingGroups(g.suffix, s, |Head(g, P.prefix, P.view)|, P.tail);
  }

  /** Two captures both absent, or both present and equal up to ASCII letter case. */
  predicate SameCapture(a: Option<string>, b: Option<string>) {
    a.Some? == b.Some? && (a.Some? ==> FoldEqual(a.value, b.value))
  }

  /** The same stretch of two case-equal paths is the same capture. */
  lemma SliceIgnoresCase(s: string, t: string, i: nat, j: nat)
    requires FoldEqual(s, t) && i <= j <= |s|
    ensures SameCapture(Some(s[i..j]), Some(t[i..j]))
  {
    FoldEqualSlice(s, t, i, j);
  }

  lemma PagingGroupIgnoresCase(s: string, t: string, q: nat, pg: Paging, k: nat)
    requires FoldEqual(s, t) && PagingFits(s, q, pg) && PagingFits(t, q, pg) && 1 <= k <= 2
    ensures SameCapture(PagingGroup(s, q, pg, k), PagingGroup(t, q, pg, k))
  {
    if k == 1 {
      PageNumberIgnoresCase(s, t, q, pg);
    } else {
      PageSizeIgnoresCase(s, t, q, pg);
    }
  }

  lemma PageNumberIgnoresCase(s: string, t: string, q: nat, pg: Paging)
    requires FoldEqual(s, t) && PagingFits(s, q, pg) && PagingFits(t, q, pg)
    ensures SameCapture(PagingGroup(s, q, pg, 1), PagingGroup(t, q, pg, 1))
  {
    if pg.pageLen > 0 {
      assert PagingGroup(s, q, pg, 1) == Some(s[q..q + pg.pageLen]);
      assert PagingGroup(t, q, pg, 1) == Some(t[q..q + pg.pageLen]);
      SliceIgnoresCase(s, t, q, q + pg.pageLen);
    }
  }

  lemma PageSizeIgnoresCase(s: string, t: string, q: nat, pg: Paging)
    requires FoldEqual(s, t) && PagingFits(s, q, pg) && PagingFits(t, q, pg)
    ensures SameCapture(PagingGroup(s, q, pg, 2), PagingGroup(t, q, pg, 2))
  {
    if pg.pageLen > 0 { PossessiveIgnoresCase(s, t, q + pg.pageLen); }
    var q1 := AfterPage(s, q, pg.pageLen);
    assert AfterPage(t, q, pg.pageLen) == q1;
    if pg.sizeLen > 0 {
      assert PagingGroup(s, q, pg, 2) == Some(s[q1..q1 + pg.sizeLen]);
      assert PagingGroup(t, q, pg, 2) == Some(t[q1..q1 + pg.sizeLen]);
      SliceIgnoresCase(s, t, q1, q1 + pg.sizeLen);
    }
  }

  lemma HeadGroupIgnoresCase(g: ShapeGrammar, s: string, t: string, pre: Prefix, view: nat, k: nat)
    requires FoldEqual(s, t) && ValidPrefix(g, pre) && view < |g.views|
    requires LiteralAt(s, 0, Head(g, pre, view)) && LiteralAt(t, 0, Head(g, pre, view)) && 1 <= k <= 2
    ensures SameCapture(HeadGroup(g, s, pre, view, k), HeadGroup(g, t, pre, view, k))
  {
    if k == 1 {
      FormatGroupIgnoresCase(g, s, t, pre, view);
    } else {
      ViewGroupIgnoresCase(g, s, t, pre, view);
    }
  }

  lemma FormatGroupIgnoresCase(g: ShapeGrammar, s: string, t: string, pre: Prefix, view: nat)
    requires FoldEqual(s, t) && ValidPrefix(g, pre) && view < |g.views|
    requires LiteralAt(s, 0, Head(g, pre, view)) && LiteralAt(t, 0, Head(g, pre, view))
    ensures SameCapture(HeadGroup(g, s, pre, view, 1), HeadGroup(g, t, pre, view, 1))
  {
    if pre.Api? {
      var n := |g.formats[pre.format]|;
      HeadLiterals(g, s, pre, view);
      ApiLiterals(s, pre.versioned, g.formats[pre.format]);
      var f := FormatStart(pre.versioned);
      assert HeadGroup(g, s, pre, view, 1) == Some(s[f..f + n]);
      assert HeadGroup(g, t, pre, view, 1) == Some(t[f..f + n]);
      SliceIgnoresCase(s, t, f, f + n);
    }
  }

  lemma ViewGroupIgnoresCase(g: ShapeGrammar, s: string, t: string, pre: Prefix, view: nat)
    requires FoldEqual(s, t) && ValidPrefix(g, pre) && view < |g.views|
    requires LiteralAt(s, 0, Head(g, pre, view)) && LiteralAt(t, 0, Head(g, pre, view))
    ensures SameCapture(HeadGroup(g, s, pre, view, 2), HeadGroup(g, t, pre, view, 2))
  {
    HeadLiterals(g, s, pre, view);
    var v := |BASE| + |PrefixText(g, pre)|;
    assert HeadGroup(g, s, pre, view, 2) == Some(s[v..|Head(g, pre, view)|]);
    assert HeadGroup(g, t, pre, view, 2) == Some(t[v..|Head(g, pre, view)|]);
    SliceIgnoresCase(s, t, v, |Head(g, pre, view)|);
  }

  lemma MultiGroupIgnoresCase(s: string, t: string, p: nat, slash: bool, pg: Paging, k: nat)
    requires FoldEqual(s, t) && TailFits(PagedSuffix, s, p, PagedTail(slash, pg)) && TailFits(PagedSuffix, t, p, PagedTail(slash, pg))
    requires 1 <= k <= 2
    ensures SameCapture(TailGroup(PagedSuffix, s, p, PagedTail(slash, pg), k),
                        TailGroup(PagedSuffix, t, p, PagedTail(slash, pg), k))
  {
    PagingGroupIgnoresCase(s, t, p + (if slash then 1 else 0), pg, k);
  }

  lemma KeyValueGroupIgnoresCase(s: string, t: string, p: nat, n: nat, pg: Paging, k: nat)
    requires FoldEqual(s, t) && TailFits(KeyValueSuffix, s, p, KeyValueTail(n, pg)) && TailFits(KeyValueSuffix, t, p, KeyValueTail(n, pg))
    requires 1 <= k <= 3
    ensures SameCapture(TailGroup(KeyValueSuffix, s, p, KeyValueTail(n, pg), k),
                        TailGroup(KeyValueSuffix, t, p, KeyValueTail(n, pg), k))
  {
    if k == 1 {
      SliceIgnoresCase(s, t, p + 1, p + 1 + n);
    } else {
      PossessiveIgnoresCase(s, t, p + 1 + n);
      var q := Possessive(s, p + 1 + n);
      assert TailGroup(KeyValueSuffix, s, p, KeyValueTail(n, pg), k) == PagingGroup(s, q, pg, k - 1);
      assert TailGroup(KeyValueSuffix, t, p, KeyValueTail(n, pg), k) == PagingGroup(t, q, pg, k - 1);
      PagingGroupIgnoresCase(s, t, q, pg, k - 1);
    }
  }

  lemma TailGroupIgnoresCase(kind: SuffixKind, s: string, t: string, p: nat, tail: Tail, k: nat)
    requires FoldEqual(s, t) && TailFits(kind, s, p, tail) && TailFits(kind, t, p, tail)
    requires 1 <= k <= GroupCount(kind) - 2
    ensures SameCapture(TailGroup(kind, s, p, tail, k), TailGroup(kind, t, p, tail, k))
  {
    match tail
    case IdTail(n) => SliceIgnoresCase(s, t, p + 1, p + 1 + n);
    case PagedTail(slash, pg) => MultiGroupIgnoresCase(s, t, p, slash, pg, k);
    case KeyValueTail(n, pg) => KeyValueGroupIgnoresCase(s, t, p, n, pg, k);
  }

  /** The groups of one reading of two case-equal paths are case-equal: captures keep the path's own letters. */
  lemma GroupIgnoresCase(g: ShapeGrammar, s: string, t: string, P: Parse, k: nat)
    requires FoldEqual(s, t) && Valid(g, s, P) && Valid(g, t, P) && 1 <= k <= GroupCount(g.suffix)
    ensures SameCapture(Group(g, s, P, k), Group(g, t, P, k))
  {
    if k <= 2 {
      HeadGroupIgnoresCase(g, s, t, P.prefix, P.view, k);
    } else {
      var p := |Head(g, P.prefix, P.view)|;
      ValidTailFits(g.suffix, s, p, P.tail);
      ValidTailFits(g.suffix, t, p, P.tail);
      TailGroupIgnoresCase(g.suffix, s, t, p, P.tail, k - 2);
    }
  }

  // ------------------------------------------------------------------
  // Stepping through the candidates
  // ------------------------------------------------------------------

  /** A candidate whose prefix or view text is not in the path is passed over. */
  lemma SkipCandidate(g: ShapeGrammar, s: string, r: nat, vi: nat)
    requires r < PrefixCount(g) && vi < |g.views|
    requires var text := PrefixText(g, PrefixOfRank(g, r));
      !LiteralAt(s, |BASE|, text) || !LiteralAt(s, |BASE| + |text|, g.views[vi])
    ensures Search(g, s, r, vi) == Search(g, s, r, vi + 1)
  {
    HeadParts(s, PrefixText(g, PrefixOfRank(g, r)), g.views[vi]);
    SkipHead(g, s, r, vi);
  }

  /** The head literal occurs only where its prefix text and then its view follow "/legislation/". */
  lemma HeadParts(s: string, text: string, view: string)
    ensures LiteralAt(s, 0, BASE + text + view) ==> LiteralAt(s, |BASE|, text) && LiteralAt(s, |BASE| + |text|, view)
  {
    LiteralAtConcat(s, 0, BASE + text, view);
    LiteralAtConcat(s, 0, BASE, text);
  }

  /** A candidate whose head literal is not at the start of the path is passed over. */
  lemma SkipHead(g: ShapeGrammar, s: string, r: nat, vi: nat)
    requires r < PrefixCount(g) && vi < |g.views|
    requires !LiteralAt(s, 0, Head(g, PrefixOfRank(g, r), vi))
    ensures Search(g, s, r, vi) == Search(g, s, r, vi + 1)
  {
  }

  /** A candidate whose suffix does not match is passed over. */
  lemma SkipTail(g: ShapeGrammar, s: string, r: nat, vi: nat)
    requires r < PrefixCount(g) && vi < |g.views|
    requires LiteralAt(s, 0, Head(g, PrefixOfRank(g, r), vi))
    requires MatchTail(g.suffix, s, |Head(g, PrefixOfRank(g, r), vi)|).None?
    ensures Search(g, s, r, vi) == Search(g, s, r, vi + 1)
  {
  }

  /** A candidate whose head and suffix match ends the search. */
  lemma TakeCandidate(g: ShapeGrammar, s: string, r: nat, vi: nat, t: Tail)
    requires r < PrefixCount(g) && vi < |g.views|
    requires LiteralAt(s, 0, Head(g, PrefixOfRank(g, r), vi))
    requires MatchTail(g.suffix, s, |Head(g, PrefixOfRank(g, r), vi)|) == Some(t)
    ensures Search(g, s, r, vi) == Some(Parse(PrefixOfRank(g, r), vi, t))
  {
  }

  /** After the last view of a prefix comes the first view of the next prefix; after the last prefix, failure. */
  lemma NextPrefix(g: ShapeGrammar, s: string, r: nat)
    requires r < PrefixCount(g)
    ensures Search(g, s, r, |g.views|) == Search(g, s, r + 1, 0)
    ensures Search(g, s, PrefixCount(g), 0) == None
  {
  }

  /** A prefix whose text is not in the path is passed over with all its views. */
  lemma {:induction false} SkipPrefix(g: ShapeGrammar, s: string, r: nat, vi: nat)
    requires r < PrefixCount(g) && vi <= |g.views|
    requires !LiteralAt(s, |BASE|, PrefixText(g, PrefixOfRank(g, r)))
    ensures Search(g, s, r, vi) == Search(g, s, r + 1, 0)
    decreases |g.views| - vi
  {
    if vi < |g.views| {
      SkipCandidate(g, s, r, vi);
      SkipPrefix(g, s, r, vi + 1);
    } else {
      NextPrefix(g, s, r);
    }
  }

  /** Without "api/" after "/legislation/", only the bare candidates are left. */
  lemma {:induction false} SkipApi(g: ShapeGrammar, s: string, r: nat)
    requires r <= 2 * |g.formats| && !LiteralAt(s, |BASE|, "api/")
    ensures Search(g, s, r, 0) == Search(g, s, 2 * |g.formats|, 0)
    decreases 2 * |g.formats| - r
  {
    if r < 2 * |g.formats| {
      var pre := PrefixOfRank(g, r);
      var rest := (if pre.versioned then "1.0/" else "") + g.formats[pre.format] + "/";
      assert PrefixText(g, pre) == "api/" + rest;
      LiteralAtConcat(s, |BASE|, "api/", rest);
      SkipPrefix(g, s, r, 0);
      SkipApi(g, s, r + 1);
    }
  }

  /** Without "api/1.0/" after "/legislation/", the versioned candidates are passed over. */
  lemma {:induction false} SkipVersioned(g: ShapeGrammar, s: string, r: nat)
    requires r <= |g.formats| && !LiteralAt(s, |BASE|, "api/1.0/")
    ensures Search(g, s, r, 0) == Search(g, s, |g.formats|, 0)
    decreases |g.formats| - r
  {
    if r < |g.formats| {
      var rest := g.formats[r] + "/";
      assert PrefixText(g, PrefixOfRank(g, r)) == "api/1.0/" + rest;
      LiteralAtConcat(s, |BASE|, "api/1.0/", rest);
      SkipPrefix(g, s, r, 0);
      SkipVersioned(g, s, r + 1);
    }
  }
}
