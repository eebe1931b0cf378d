/**
 * The Hong Kong deals checker (check_hk_deals.py): the parser of the
 * article listing, keyword matching with truncation, and the alert lines.
 */
module HkDeals {
  import opened Wrappers
  import Seqs

  // ------------------------------------------------------------- strings

  /** Python's `str.isspace`, which is also what `\s` matches in a `str` pattern. */
  const PySpaces: set<char> := {
    '\t', '\n', '\U{0B}', '\U{0C}', '\r', '\U{1C}', '\U{1D}', '\U{1E}', '\U{1F}', ' ',
    '\U{85}', '\U{A0}', '\U{1680}',
    '\U{2000}', '\U{2001}', '\U{2002}', '\U{2003}', '\U{2004}', '\U{2005}',
    '\U{2006}', '\U{2007}', '\U{2008}', '\U{2009}', '\U{200A}',
    '\U{2028}', '\U{2029}', '\U{202F}', '\U{205F}', '\U{3000}'
  }

  predicate IsSpace(c: char) {
    c in PySpaces
  }

  predicate AllSpace(s: string) {
    forall k :: 0 <= k < |s| ==> IsSpace(s[k])
  }

  predicate IsDigit(c: char) { '0' <= c <= '9' }

  function LStrip(s: string): (r: string)
    ensures |r| <= |s|
  {
    if s != [] && IsSpace(s[0]) then LStrip(s[1..]) else s
  }

  function RStrip(s: string): (r: string)
    ensures |r| <= |s|
  {
    if s != [] && IsSpace(s[|s| - 1]) then RStrip(s[..|s| - 1]) else s
  }

  lemma {:induction false} LStripFacts(s: string)
    ensures var r := LStrip(s);
            && r == s[|s| - |r|..] && AllSpace(s[..|s| - |r|]) && (r == [] || !IsSpace(r[0]))
  {
    if s != [] && IsSpace(s[0]) {
      var tail := s[1..];
      LStripFacts(tail);
      var r := LStrip(tail);
      assert tail[|tail| - |r|..] == s[|s| - |r|..];
      assert s[..|s| - |r|] == [s[0]] + tail[..|tail| - |r|];
    }
  }

  lemma {:induction false} RStripFacts(s: string)
    ensures var r := RStrip(s);
            && r == s[..|r|] && AllSpace(s[|r|..]) && (r == [] || !IsSpace(r[|r| - 1]))
  {
    if s != [] && IsSpace(s[|s| - 1]) {
      var init := s[..|s| - 1];
      RStripFacts(init);
      var r := RStrip(init);
      assert init[..|r|] == s[..|r|];
      assert s[|r|..] == init[|r|..] + [s[|s| - 1]];
    }
  }

  /** `str.strip()`. */
  function Strip(s: string): (r: string)
    ensures |r| <= |s|
  {
    RStrip(LStrip(s))
  }

  /**
   * What `Strip` keeps is a slice of `s` with no whitespace at either end,
   * and what it removes is whitespace.
   */
  lemma StripIsTrimmedSlice(s: string) returns (i: nat)
    ensures i + |Strip(s)| <= |s| && Strip(s) == s[i..i + |Strip(s)|]
    ensures AllSpace(s[..i]) && AllSpace(s[i + |Strip(s)|..])
    ensures Strip(s) == [] || (!IsSpace(Strip(s)[0]) && !IsSpace(Strip(s)[|Strip(s)| - 1]))
  {
    var l := LStrip(s);
    var r := RStrip(l);
    LStripFacts(s);
    RStripFacts(l);
    i := |s| - |l|;
    assert r == s[i..i + |r|];
    assert s[i + |r|..] == l[|r|..];
    if r != [] {
      assert r[0] == l[0];
    }
  }

  predicate StartsWith(s: string, prefix: string) {
    |prefix| <= |s| && s[..|prefix|] == prefix
  }

  /** The first index from `i` on that is not whitespace. */
  function SkipSpace(s: string, i: nat): (r: nat)
    requires i <= |s|
    ensures i <= r <= |s|
    decreases |s| - i
  {
    if i < |s| && IsSpace(s[i]) then SkipSpace(s, i + 1) else i
  }

  function SkipDigits(s: string, i: nat): (r: nat)
    requires i <= |s|
    ensures i <= r <= |s|
    decreases |s| - i
  {
    if i < |s| && IsDigit(s[i]) then SkipDigits(s, i + 1) else i
  }

  /** `int()` of a run of decimal digits. */
  function DigitsValue(ds: string): int {
    if ds == [] then 0 else DigitsValue(ds[..|ds| - 1]) * 10 + (ds[|ds| - 1] as int - '0' as int)
  }

  lemma {:induction false} DigitsValueNat(ds: string)
    requires forall k :: 0 <= k < |ds| ==> IsDigit(ds[k])
    ensures DigitsValue(ds) >= 0
  {
    if ds != [] {
      DigitsValueNat(ds[..|ds| - 1]);
    }
  }

  // -------------------------------------------------------------- header

  datatype Header = Header(id: int, title: string)

  /**
   * `ARTICLE_HEADER_RE.match(line)`, i.e. `^\s*\[(\d+)\]\s*\[new\]\s*(.*)$`,
   * with the id converted and the title stripped. Stripping the text after
   * `[new]` gives the same title as stripping group 2, whose leading
   * whitespace `\s*` has already consumed.
   */
  function ParseHeader(line: string): (r: Option<Header>)
  {
    var a := SkipSpace(line, 0);
    if a < |line| && line[a] == '[' then
      var b := SkipDigits(line, a + 1);
      if a + 1 < b < |line| && line[b] == ']' then
        var c := SkipSpace(line, b + 1);
        if c + 5 <= |line| && line[c..c + 5] == "[new]" then
          Some(Header(DigitsValue(line[a + 1..b]), Strip(line[c + 5..])))
        else None
      else None
    else None
  }

  lemma SkipSpaceOver(s: string, i: nat, j: nat)
    requires i <= j <= |s| && AllSpace(s[i..j]) && (j == |s| || !IsSpace(s[j]))
    ensures SkipSpace(s, i) == j
    decreases j - i
  {
    if i < j {
      assert IsSpace(s[i]) by { assert s[i..j][0] == s[i]; }
      assert s[i + 1..j] == s[i..j][1..];
      SkipSpaceOver(s, i + 1, j);
    }
  }

  lemma SkipDigitsOver(s: string, i: nat, j: nat)
    requires i <= j <= |s| && (forall k :: i <= k < j ==> IsDigit(s[k])) && (j == |s| || !IsDigit(s[j]))
    ensures SkipDigits(s, i) == j
    decreases j - i
  {
    if i < j {
      SkipDigitsOver(s, i + 1, j);
    }
  }

  /**
   * The layout `^\s*\[(\d+)\]\s*\[new\]` at positions `a` (the `[`), `b`
   * (the `]`) and `c` (the `[new]`): whitespace, `[`, one or more digits,
   * `]`, whitespace, `[new]`.
   */
  predicate HeaderLayout(line: string, a: nat, b: nat, c: nat) {
    && a + 1 < b < c && c + 5 <= |line|
    && AllSpace(line[..a]) && line[a] == '['
    && (forall k :: a + 1 <= k < b ==> IsDigit(line[k]))
    && line[b] == ']' && AllSpace(line[b + 1..c]) && line[c..c + 5] == "[new]"
  }

  /**
   * A line laid out as the listing writes headers parses to the id spelt by
   * the digits and the stripped title.
   */
  lemma HeaderParses(line: string, a: nat, b: nat, c: nat)
    requires HeaderLayout(line, a, b, c)
    ensures ParseHeader(line) == Some(Header(DigitsValue(line[a + 1..b]), Strip(line[c + 5..])))
  {
    assert line[0..a] == line[..a];
    SkipSpaceOver(line, 0, a);
    SkipDigitsOver(line, a + 1, b);
    SkipSpaceOver(line, b + 1, c);
  }

  lemma {:induction false} SkipSpaceSpan(s: string, i: nat)
    requires i <= |s|
    ensures AllSpace(s[i..SkipSpace(s, i)])
    decreases |s| - i
  {
    if i < |s| && IsSpace(s[i]) {
      SkipSpaceSpan(s, i + 1);
      assert s[i..SkipSpace(s, i)] == [s[i]] + s[i + 1..SkipSpace(s, i)];
    }
  }

  lemma {:induction false} SkipDigitsSpan(s: string, i: nat)
    requires i <= |s|
    ensures forall k :: i <= k < SkipDigits(s, i) ==> IsDigit(s[k])
    decreases |s| - i
  {
    if i < |s| && IsDigit(s[i]) {
      SkipDigitsSpan(s, i + 1);
    }
  }

  /**
   * Conversely, only such lines parse: a header comes from the layout, with
   * the id spelt by its digits and the stripped rest as title.  Together with
   * `HeaderParses` this makes `ParseHeader` exactly the regular expression.
   */
  lemma HeaderParsesOnly(line: string)
    requires ParseHeader(line).Some?
    ensures exists a: nat, b: nat, c: nat ::
      && HeaderLayout(line, a, b, c)
      && ParseHeader(line).value == Header(DigitsValue(line[a + 1..b]), Strip(line[c + 5..]))
  {
    var a := SkipSpace(line, 0);
    var b := SkipDigits(line, a + 1);
    var c := SkipSpace(line, b + 1);
    SkipSpaceSpan(line, 0);
    SkipDigitsSpan(line, a + 1);
    SkipSpaceSpan(line, b + 1);
    assert line[0..a] == line[..a];
    assert HeaderLayout(line, a, b, c);
  }

  lemma NotAHeader(line: string)
    requires forall k :: 0 <= k < |line| ==> line[k] != '['
    ensures ParseHeader(line).None?
  {
  }

  // ------------------------------------------------------------ articles

  datatype Article = Article(id: int, title: string, blog: Option<string>, url: Option<string>, published: Option<string>)

  /** What one listing line means to the parser. */
  datatype LineKind = HeaderLine(h: Header) | BlogLine(blog: string) | UrlLine(url: string) | PublishedLine(published: string) | OtherLine

  /** A stripped line starts with at most one of the three tags. */
  lemma TagsExclusive(s: string)
    ensures StartsWith(s, "Blog:") ==> !StartsWith(s, "URL:") && !StartsWith(s, "Published:")
    ensures StartsWith(s, "URL:") ==> !StartsWith(s, "Published:")
  {
    if StartsWith(s, "Blog:") {
      assert s[0] == s[..5][0] == 'B';
    }
    if StartsWith(s, "URL:") {
      assert s[0] == s[..4][0] == 'U';
    }
  }

  /**
   * The header test comes first; otherwise the stripped line is a field
   * line when it starts with `Blog:`, `URL:` or `Published:`, and the value
   * is the rest, stripped.
   */
  function Classify(line: string): (k: LineKind)
    ensures ParseHeader(line).Some? ==> k == HeaderLine(ParseHeader(line).value)
    ensures ParseHeader(line).None? ==> k == FieldKind(Strip(line))
  {
    var m := ParseHeader(line);
    if m.Some? then HeaderLine(m.value)
    else
      FieldKind(Strip(line))
  }

  /** A stripped non-header line: a field when it starts with one of the three tags. */
  function FieldKind(s: string): (k: LineKind)
    ensures !k.HeaderLine?
    ensures k.BlogLine? <==> StartsWith(s, "Blog:")
    ensures k.UrlLine? <==> StartsWith(s, "URL:")
    ensures k.PublishedLine? <==> StartsWith(s, "Published:")
    ensures k.BlogLine? ==> k.blog == Strip(s[5..])
    ensures k.UrlLine? ==> k.url == Strip(s[4..])
    ensures k.PublishedLine? ==> k.published == Strip(s[10..])
  {
    TagsExclusive(s);
    if StartsWith(s, "Blog:") then BlogLine(Strip(s[5..]))
    else if StartsWith(s, "URL:") then UrlLine(Strip(s[4..]))
    else if StartsWith(s, "Published:") then PublishedLine(Strip(s[10..]))
    else OtherLine
  }

  function Kinds(lines: seq<string>): (ks: seq<LineKind>)
    ensures |ks| == |lines| && forall i :: 0 <= i < |lines| ==> ks[i] == Classify(lines[i])
  {
    seq(|lines|, i requires 0 <= i < |lines| => Classify(lines[i]))
  }

  /** The value of the last Blog line of `body`. */
  function LastBlog(body: seq<LineKind>): Option<string>
  {
    if body == [] then None
    else if body[|body| - 1].BlogLine? then Some(body[|body| - 1].blog)
    else LastBlog(body[..|body| - 1])
  }

  function LastUrl(body: seq<LineKind>): Option<string>
  {
    if body == [] then None
    else if body[|body| - 1].UrlLine? then Some(body[|body| - 1].url)
    else LastUrl(body[..|body| - 1])
  }

  function LastPublished(body: seq<LineKind>): Option<string>
  {
    if body == [] then None
    else if body[|body| - 1].PublishedLine? then Some(body[|body| - 1].published)
    else LastPublished(body[..|body| - 1])
  }

  /** An article has a field exactly when some line of its body carries that field. */
  lemma {:induction false} LastFieldsPresent(body: seq<LineKind>)
    ensures LastBlog(body).Some? <==> exists k :: 0 <= k < |body| && body[k].BlogLine?
    ensures LastUrl(body).Some? <==> exists k :: 0 <= k < |body| && body[k].UrlLine?
    ensures LastPublished(body).Some? <==> exists k :: 0 <= k < |body| && body[k].PublishedLine?
  {
    if body != [] {
      var init := body[..|body| - 1];
      LastFieldsPresent(init);
      assert forall k :: 0 <= k < |init| ==> init[k] == body[k];
    }
  }

  /** The article described by a header and the lines that follow it up to the next header. */
  function ArticleOf(h: Header, body: seq<LineKind>): Article {
    Article(h.id, h.title, LastBlog(body), LastUrl(body), LastPublished(body))
  }

  /** The positions of the header lines, in order. */
  function HeaderIdx(ks: seq<LineKind>): (hs: seq<nat>)
    ensures ValidHeads(ks, hs)
  {
    if ks == [] then []
    else
      var init := HeaderIdx(ks[..|ks| - 1]);
      assert ValidHeads(ks, init) by {
        forall k | 0 <= k < |init| ensures ks[init[k]] == ks[..|ks| - 1][init[k]] { }
      }
      if ks[|ks| - 1].HeaderLine? then init + [|ks| - 1] else init
  }

  /** Every header line is listed. */
  lemma {:induction false} HeaderIdxComplete(ks: seq<LineKind>, i: nat)
    requires i < |ks| && ks[i].HeaderLine?
    ensures i in HeaderIdx(ks)
  {
    if i < |ks| - 1 {
      HeaderIdxComplete(ks[..|ks| - 1], i);
    }
  }

  function SegmentEnd(n: nat, hs: seq<nat>, k: nat): nat
    requires k < |hs|
  {
    if k + 1 < |hs| then hs[k + 1] else n
  }

  /**
   * Reference for `parse_articles`: one article per header line, in order,
   * built from the lines between it and the next header (or the end).
   */
  function Expected(ks: seq<LineKind>): (r: seq<Article>)
    ensures |r| == |HeaderIdx(ks)|
  {
    var hs := HeaderIdx(ks);
    seq(|hs|, k requires 0 <= k < |hs| => ExpectedAt(ks, hs, k))
  }

  function ExpectedAt(ks: seq<LineKind>, hs: seq<nat>, k: nat): Article
    requires hs == HeaderIdx(ks) && k < |hs|
  {
    ArticleOf(ks[hs[k]].h, ks[hs[k] + 1..SegmentEnd(|ks|, hs, k)])
  }

  predicate ValidHeads(ks: seq<LineKind>, hs: seq<nat>) {
    && (forall k :: 0 <= k < |hs| ==> hs[k] < |ks| && ks[hs[k]].HeaderLine?)
    && (forall k, m :: 0 <= k < m < |hs| ==> hs[k] < hs[m])
  }

  /** The article opened by header `k`, closed at header `k + 1`. */
  function Segment(ks: seq<LineKind>, hs: seq<nat>, k: nat): Article
    requires ValidHeads(ks, hs) && k + 1 < |hs|
  {
    ArticleOf(ks[hs[k]].h, ks[hs[k] + 1..hs[k + 1]])
  }

  /** The articles of the headers before the last one, each closed at the next header. */
  function Closed(ks: seq<LineKind>, hs: seq<nat>): (r: seq<Article>)
    requires ValidHeads(ks, hs)
    ensures |r| == if hs == [] then 0 else |hs| - 1
  {
    if |hs| <= 1 then []
    else seq(|hs| - 1, k requires 0 <= k < |hs| - 1 => Segment(ks, hs, k))
  }

  lemma ClosedPrefix(p: seq<LineKind>, q: seq<LineKind>, hs: seq<nat>)
    requires |p| <= |q| && p == q[..|p|] && ValidHeads(p, hs)
    ensures ValidHeads(q, hs) && Closed(p, hs) == Closed(q, hs)
  {
    forall k | 0 <= k < |hs| ensures hs[k] < |q| && q[hs[k]].HeaderLine? {
      assert q[hs[k]] == p[hs[k]];
    }
    if |hs| > 1 {
      var a, b := Closed(p, hs), Closed(q, hs);
      forall k | 0 <= k < |hs| - 1 ensures a[k] == b[k] {
        var lo, hi := hs[k], hs[k + 1];
        assert p[lo] == q[lo] && p[lo + 1..hi] == q[lo + 1..hi];
        assert Segment(p, hs, k) == Segment(q, hs, k);
      }
    }
  }

  lemma ClosedAppend(p: seq<LineKind>, hs: seq<nat>, i: nat)
    requires ValidHeads(p, hs + [i]) && hs != []
    ensures ValidHeads(p, hs)
    ensures Closed(p, hs + [i]) == Closed(p, hs) + [Segment(p, hs + [i], |hs| - 1)]
  {
    var hs' := hs + [i];
    assert ValidHeads(p, hs) by {
      forall k | 0 <= k < |hs| ensures hs'[k] == hs[k] { }
    }
    var a, c := Closed(p, hs'), Closed(p, hs);
    var b := c + [Segment(p, hs', |hs| - 1)];
    assert |a| == |b|;
    forall k | 0 <= k < |a| ensures a[k] == b[k] {
      assert a[k] == Segment(p, hs', k);
      if k < |hs| - 1 {
        assert c[k] == Segment(p, hs, k);
        assert hs'[k] == hs[k] && hs'[k + 1] == hs[k + 1];
      }
    }
  }

  /** The article opened by the last header of `hs`, running to the end of `ks`. */
  function OpenArticle(ks: seq<LineKind>, hs: seq<nat>): Article
    requires ValidHeads(ks, hs) && hs != []
  {
    ArticleOf(ks[hs[|hs| - 1]].h, ks[hs[|hs| - 1] + 1..])
  }

  lemma HeaderIdxStep(ks: seq<LineKind>, i: nat)
    requires i < |ks|
    ensures HeaderIdx(ks[..i + 1]) == HeaderIdx(ks[..i]) + (if ks[i].HeaderLine? then [i] else [])
  {
    assert ks[..i + 1][..i] == ks[..i];
  }

  /** The state of `parse_articles` after `i` lines: closed articles in `out`, the open one in `cur`. */
  ghost predicate ParserState(ks: seq<LineKind>, i: nat, out: seq<Article>, cur: Option<Article>) {
    && i <= |ks|
    && var p := ks[..i];
       var hs := HeaderIdx(p);
       && (cur.None? <==> hs == [])
       && out == Closed(p, hs)
       && (cur.Some? ==> cur.value == OpenArticle(p, hs))
  }

  /** Closing the open article at a header line `i` appends it to the closed ones. */
  lemma CloseAtHeader(ks: seq<LineKind>, i: nat, hs: seq<nat>)
    requires i < |ks| && ks[i].HeaderLine? && ValidHeads(ks[..i], hs) && hs != []
    ensures ValidHeads(ks[..i + 1], hs + [i])
    ensures Closed(ks[..i + 1], hs + [i]) == Closed(ks[..i], hs) + [OpenArticle(ks[..i], hs)]
  {
    var p, p' := ks[..i], ks[..i + 1];
    var hs' := hs + [i];
    assert p' == p + [ks[i]] && p'[..i] == p;
    ClosedPrefix(p, p', hs);
    assert ValidHeads(p', hs') by {
      forall k | 0 <= k < |hs| ensures hs'[k] == hs[k] && hs[k] < i { }
    }
    ClosedAppend(p', hs, i);
    var h := hs[|hs| - 1];
    assert hs'[|hs| - 1] == h && hs'[|hs|] == i;
    assert p'[h] == p[h] && p'[h + 1..i] == p[h + 1..];
  }

  lemma StepHeader(ks: seq<LineKind>, i: nat, out: seq<Article>, cur: Option<Article>)
    requires i < |ks| && ParserState(ks, i, out, cur) && ks[i].HeaderLine?
    ensures ParserState(ks, i + 1, out + (if cur.Some? then [cur.value] else []), Some(ArticleOf(ks[i].h, [])))
  {
    var p, p' := ks[..i], ks[..i + 1];
    var hs := HeaderIdx(p);
    HeaderIdxStep(ks, i);
    var hs' := hs + [i];
    assert OpenArticle(p', hs') == ArticleOf(ks[i].h, []) by {
      assert p'[i] == ks[i] && p'[i + 1..] == [];
    }
    if cur.Some? {
      CloseAtHeader(ks, i, hs);
    } else {
      assert Closed(p', hs') == [];
    }
  }

  /** The line update of `parse_articles` for a non-header line (lines 99-105). */
  function ApplyField(cur: Article, k: LineKind): Article {
    match k
    case BlogLine(v) => cur.(blog := Some(v))
    case UrlLine(v) => cur.(url := Some(v))
    case PublishedLine(v) => cur.(published := Some(v))
    case _ => cur
  }

  lemma ApplyFieldExtends(h: Header, body: seq<LineKind>, k: LineKind)
    ensures ApplyField(ArticleOf(h, body), k) == ArticleOf(h, body + [k])
  {
    assert (body + [k])[..|body|] == body;
  }

  lemma OpenExtends(p: seq<LineKind>, hs: seq<nat>, x: LineKind)
    requires ValidHeads(p, hs) && hs != []
    ensures ValidHeads(p + [x], hs)
    ensures OpenArticle(p + [x], hs) == ApplyField(OpenArticle(p, hs), x)
  {
    var p' := p + [x];
    assert forall k :: 0 <= k < |hs| ==> p'[hs[k]] == p[hs[k]];
    var h := hs[|hs| - 1];
    ApplyFieldExtends(p[h].h, p[h + 1..], x);
    assert p'[h + 1..] == p[h + 1..] + [x];
  }

  lemma StepOther(ks: seq<LineKind>, i: nat, out: seq<Article>, cur: Option<Article>)
    requires i < |ks| && ParserState(ks, i, out, cur) && !ks[i].HeaderLine?
    ensures ParserState(ks, i + 1, out, if cur.Some? then Some(ApplyField(cur.value, ks[i])) else None)
  {
    var p, p' := ks[..i], ks[..i + 1];
    var hs := HeaderIdx(p);
    HeaderIdxStep(ks, i);
    assert p' == p + [ks[i]] && p'[..i] == p;
    ClosedPrefix(p, p', hs);
    if cur.Some? {
      OpenExtends(p, hs, ks[i]);
    }
  }

  /** The article at position `k` of the reference, closed or still open. */
  lemma ExpectedAtIs(ks: seq<LineKind>, hs: seq<nat>, k: nat)
    requires hs == HeaderIdx(ks) && k < |hs|
    ensures k + 1 < |hs| ==> ExpectedAt(ks, hs, k) == Segment(ks, hs, k)
    ensures k + 1 == |hs| ==> ExpectedAt(ks, hs, k) == OpenArticle(ks, hs)
  {
    var lo := hs[k] + 1;
    if k + 1 == |hs| {
      assert ks[lo..|ks|] == ks[lo..];
    }
  }

  /** The closed articles followed by the open one are the reference articles. */
  lemma ClosedThenOpen(ks: seq<LineKind>)
    ensures var hs := HeaderIdx(ks);
            (if hs == [] then [] else Closed(ks, hs) + [OpenArticle(ks, hs)]) == Expected(ks)
  {
    var hs := HeaderIdx(ks);
    var e := Expected(ks);
    if hs != [] {
      var c := Closed(ks, hs);
      var r := c + [OpenArticle(ks, hs)];
      assert |r| == |e|;
      forall k | 0 <= k < |e| ensures r[k] == e[k] {
        ExpectedAtIs(ks, hs, k);
        if k + 1 < |hs| {
          assert r[k] == c[k];
        }
      }
    }
  }

  lemma FinalState(ks: seq<LineKind>, out: seq<Article>, cur: Option<Article>)
    requires ParserState(ks, |ks|, out, cur)
    ensures out + (if cur.Some? then [cur.value] else []) == Expected(ks)
  {
    assert ks[..|ks|] == ks;
    var hs := HeaderIdx(ks);
    assert out == Closed(ks, hs);
    ClosedThenOpen(ks);
    if cur.None? {
      Seqs.ConcatEmpty(out);
    }
  }

  /** The field update of `parse_articles` for a line that is not a header. */
  method UpdateFields(cur: Article, line: string) returns (next: Article)
    requires ParseHeader(line).None?
    ensures next == ApplyField(cur, Classify(line))
  {
    var s := Strip(line);
    ghost var fk := FieldKind(s);
    TagsExclusive(s);
    next := cur;
    if StartsWith(s, "Blog:") {
      next := cur.(blog := Some(Strip(s[5..])));
    } else if StartsWith(s, "URL:") {
      next := cur.(url := Some(Strip(s[4..])));
    } else if StartsWith(s, "Published:") {
      next := cur.(published := Some(Strip(s[10..])));
    }
  }

  /** One line of `parse_articles`: a header closes the current article and opens a new one, a field line updates it. */
  method ParseLine(ghost ks: seq<LineKind>, ghost i: nat, line: string, out0: seq<Article>, cur0: Option<Article>)
    returns (out: seq<Article>, cur: Option<Article>)
    requires i < |ks| && ks[i] == Classify(line) && ParserState(ks, i, out0, cur0)
    ensures ParserState(ks, i + 1, out, cur)
  {
    out, cur := out0, cur0;
    var m := ParseHeader(line);
    if m.Some? {
      StepHeader(ks, i, out, cur);
      if cur.Some? {
        out := out + [cur.value];
      }
      cur := Some(Article(m.value.id, m.value.title, None, None, None));
      assert cur == Some(ArticleOf(ks[i].h, []));
      return;
    }
    StepOther(ks, i, out, cur);
    if cur.Some? {
      var next := UpdateFields(cur.value, line);
      cur := Some(next);
    }
  }

  /**
   * `parse_articles` over the lines of the listing: a header closes the
   * current article and opens a new one; field lines update the current
   * article; lines before the first header are ignored.
   */
  method ParseArticles(lines: seq<string>) returns (out: seq<Article>)
    ensures out == Expected(Kinds(lines))
  {
    ghost var ks := Kinds(lines);
    out := [];
    var cur: Option<Article> := None;
    var i := 0;
    assert ks[..0] == [];
    while i < |lines|
      invariant 0 <= i <= |lines|
      invariant ParserState(ks, i, out, cur)
    {
      out, cur := ParseLine(ks, i, lines[i], out, cur);
      i := i + 1;
    }
    FinalState(ks, out, cur);
    if cur.Some? {
      out := out + [cur.value];
    }
  }

  // ------------------------------------------------------------- matching

  /** The text the keyword patterns are searched in: title, blog and url on three lines. */
  function Haystack(a: Article): (r: string)
    ensures |r| == |a.title| + |OrEmpty(a.blog)| + |OrEmpty(a.url)| + 2
    ensures r[..|a.title|] == a.title && r[|a.title|] == '\n'
  {
    a.title + "\n" + OrEmpty(a.blog) + "\n" + OrEmpty(a.url)
  }

  /**
   * The articles some keyword pattern finds in the haystack, in listing
   * order, and then `matched[:max]`.  `hit` stands for "some compiled
   * pattern's search succeeds".
   */
  method SelectMatches(articles: seq<Article>, hit: string -> bool, maxN: int) returns (all: seq<Article>, matched: seq<Article>)
    ensures all == Seqs.Filter(articles, a => hit(Haystack(a)))
    ensures matched == Seqs.SliceTo(all, maxN)
  {
    all := [];
    var i := 0;
    while i < |articles|
      invariant 0 <= i <= |articles|
      invariant all == Seqs.Filter(articles[..i], a => hit(Haystack(a)))
    {
      assert articles[..i + 1][..i] == articles[..i];
      if hit(Haystack(articles[i])) {
        all := all + [articles[i]];
      }
      i := i + 1;
    }
    assert articles[..i] == articles;
    if maxN >= 0 {
      matched := all[..Seqs.Min(maxN, |all|)];
    } else {
      matched := all[..Seqs.Max(0, |all| + maxN)];
    }
  }

  /** Every reported article is one of the listing's articles whose haystack a pattern hits. */
  lemma MatchedAreHits(articles: seq<Article>, hit: string -> bool, maxN: int, a: Article)
    requires a in Seqs.SliceTo(Seqs.Filter(articles, a => hit(Haystack(a))), maxN)
    ensures a in articles && hit(Haystack(a))
  {
    var all := Seqs.Filter(articles, a => hit(Haystack(a)));
    var m := Seqs.SliceTo(all, maxN);
    var k :| 0 <= k < |m| && m[k] == a;
    assert all[k] == a;
  }

  // --------------------------------------------------------------- alert

  const AlertHeading: string := "香港机票/酒店情报：发现可能相关的新优惠/文章（来自监控源）"

  /** The blog and published date that are present and non-empty, joined with " · ". */
  function MetaOf(a: Article): (r: string)
    ensures r == "" <==> !Truthy(a.blog) && !Truthy(a.published)
    ensures Truthy(a.blog) && !Truthy(a.published) ==> r == a.blog.value
    ensures !Truthy(a.blog) && Truthy(a.published) ==> r == a.published.value
    ensures Truthy(a.blog) && Truthy(a.published) ==> r == a.blog.value + " · " + a.published.value
  {
    var meta := (if Truthy(a.blog) then [a.blog.value] else []) + (if Truthy(a.published) then [a.published.value] else []);
    JoinWith(meta, " · ")
  }

  /** `sep.join(parts)`. */
  function JoinWith(parts: seq<string>, sep: string): (r: string)
    ensures parts == [] ==> r == ""
    ensures |parts| == 1 ==> r == parts[0]
    ensures |parts| == 2 ==> r == parts[0] + sep + parts[1]
  {
    if parts == [] then ""
    else if |parts| == 1 then parts[0]
    else parts[0] + sep + JoinWith(parts[1..], sep)
  }

  /** The lines printed for one article: the title with its meta in full-width parentheses, then the url. */
  function ArticleLines(a: Article): (r: seq<string>)
    ensures |r| == if Truthy(a.url) then 2 else 1
    ensures MetaOf(a) == "" ==> r[0] == "- " + a.title
    ensures MetaOf(a) != "" ==> r[0] == "- " + a.title + "（" + MetaOf(a) + "）"
    ensures Truthy(a.url) ==> r[1] == "  " + a.url.value
  {
    var meta := MetaOf(a);
    var first := if meta != "" then "- " + a.title + "（" + meta + "）" else "- " + a.title;
    [first] + (if Truthy(a.url) then ["  " + a.url.value] else [])
  }

  function AlertBody(matched: seq<Article>): (r: seq<string>)
    ensures |r| >= |matched|
  {
    if matched == [] then [] else AlertBody(matched[..|matched| - 1]) + ArticleLines(matched[|matched| - 1])
  }

  function IdsOf(matched: seq<Article>): (r: seq<int>)
    ensures |r| == |matched| && forall k :: 0 <= k < |r| ==> r[k] == matched[k].id
  {
    seq(|matched|, k requires 0 <= k < |matched| => matched[k].id)
  }

  // ---------------------------------------------------------------- main

  const BlogsToScan: seq<string> := ["The Flight Deal", "Travel-Dealz", "One Mile at a Time"]

  /** How one `blogwatcher scan` call ended. */
  datatype ScanOutcome = Scanned | ScanTimedOut | ScanFailed(output: Option<string>)

  /**
   * How `blogwatcher articles` ended: its output split into lines, a failure
   * with its output, or the 30-second timeout, which `main` does not catch.
   */
  datatype Listing = Listed(lines: seq<string>) | ListingFailed(output: string) | ListingTimedOut

  /**
   * How one `blogwatcher read` call ended.  A failure is ignored; the
   * 45-second timeout is not caught and ends the script.
   */
  datatype ReadOutcome = ReadOk | ReadFailed | ReadTimedOut

  /** The exit status of a Python script that ends with an uncaught exception. */
  const UncaughtStatus := 1

  /** The exit status, the printed lines, and the ids passed to `blogwatcher read`. */
  datatype Outcome = Outcome(status: int, printed: seq<string>, markedRead: seq<int>)

  function ScanMessage(blog: string, o: ScanOutcome): (r: seq<string>)
    ensures o.Scanned? <==> r == []
  {
    match o
    case Scanned => []
    case ScanTimedOut => ["HK-DEALS: scan timeout for blog: " + blog]
    case ScanFailed(out) => ["HK-DEALS: scan failed for blog: " + blog + "\n" + OrEmpty(out)]
  }

  function ScanMessages(blogs: seq<string>, outcomes: seq<ScanOutcome>): (r: seq<string>)
    requires |outcomes| == |blogs|
    ensures |r| <= |blogs|
  {
    if blogs == [] then []
    else ScanMessages(blogs[..|blogs| - 1], outcomes[..|blogs| - 1]) + ScanMessage(blogs[|blogs| - 1], outcomes[|blogs| - 1])
  }

  /** The listed articles some keyword pattern hits, in listing order. */
  function Hits(lines: seq<string>, hit: string -> bool): seq<Article> {
    Seqs.Filter(Expected(Kinds(lines)), a => hit(Haystack(a)))
  }

  /** The scan step of `main`: one `blogwatcher scan` per blog, reporting timeouts and failures. */
  method ScanBlogs(blogs: seq<string>, scans: seq<ScanOutcome>) returns (printed: seq<string>)
    requires |scans| == |blogs|
    ensures printed == ScanMessages(blogs, scans)
  {
    printed := [];
    var b := 0;
    while b < |blogs|
      invariant 0 <= b <= |blogs|
      invariant printed == ScanMessages(blogs[..b], scans[..b])
    {
      assert blogs[..b + 1][..b] == blogs[..b] && scans[..b + 1][..b] == scans[..b];
      printed := printed + ScanMessage(blogs[b], scans[b]);
      b := b + 1;
    }
    assert blogs[..b] == blogs && scans[..b] == scans;
  }

  lemma AlertBodyStep(matched: seq<Article>, i: nat)
    requires i < |matched|
    ensures AlertBody(matched[..i + 1]) == AlertBody(matched[..i]) + ArticleLines(matched[i])
  {
    assert matched[..i + 1][..i] == matched[..i];
  }

  /**
   * The position of the first `blogwatcher read` call among the first `n`
   * that times out, or `n` when none does.
   */
  function FirstTimeout(n: nat, readOf: nat -> ReadOutcome): (k: nat)
    ensures k <= n
    ensures forall i :: 0 <= i < k ==> !readOf(i).ReadTimedOut?
    ensures k < n ==> readOf(k).ReadTimedOut?
  {
    if n == 0 then 0
    else
      var k := FirstTimeout(n - 1, readOf);
      if k < n - 1 || readOf(n - 1).ReadTimedOut? then k else n
  }

  /**
   * The marking loop: one `blogwatcher read` per matched article, in order;
   * `readOf(i)` is how the `i`-th call ends.  A failed call is skipped, a
   * timed-out one escapes the loop.  Returns the ids passed to the command
   * and whether a timeout escaped.
   */
  method MarkRead(matched: seq<Article>, readOf: nat -> ReadOutcome) returns (ids: seq<int>, timedOut: bool)
    ensures timedOut <==> FirstTimeout(|matched|, readOf) < |matched|
    ensures ids == IdsOf(matched[..if timedOut then FirstTimeout(|matched|, readOf) + 1 else |matched|])
  {
    ids := [];
    var i := 0;
    while i < |matched|
      invariant 0 <= i <= |matched|
      invariant forall k :: 0 <= k < i ==> !readOf(k).ReadTimedOut?
      invariant ids == IdsOf(matched[..i])
    {
      ids := ids + [matched[i].id];
      if readOf(i).ReadTimedOut? {
        FirstTimeoutAt(|matched|, readOf, i);
        return ids, true;
      }
      i := i + 1;
    }
    FirstTimeoutNone(|matched|, readOf);
    assert matched[..i] == matched;
    timedOut := false;
  }

  /** The first timeout is at `i` when call `i` times out and none before it does. */
  lemma {:induction false} FirstTimeoutAt(n: nat, readOf: nat -> ReadOutcome, i: nat)
    requires i < n && readOf(i).ReadTimedOut?
    requires forall k :: 0 <= k < i ==> !readOf(k).ReadTimedOut?
    ensures FirstTimeout(n, readOf) == i
  {
    if n - 1 > i {
      FirstTimeoutAt(n - 1, readOf, i);
    } else if i > 0 {
      FirstTimeoutNone(i, readOf);
    }
  }

  /** With no timeout among the first `n` calls, all `n` are made. */
  lemma {:induction false} FirstTimeoutNone(n: nat, readOf: nat -> ReadOutcome)
    requires forall k :: 0 <= k < n ==> !readOf(k).ReadTimedOut?
    ensures FirstTimeout(n, readOf) == n
  {
    if n > 0 {
      FirstTimeoutNone(n - 1, readOf);
    }
  }

  /** The alert: the heading, then each article's lines in order. */
  method AlertLines(matched: seq<Article>) returns (printed: seq<string>)
    ensures printed == [AlertHeading] + AlertBody(matched)
  {
    printed := [AlertHeading];
    var i := 0;
    while i < |matched|
      invariant 0 <= i <= |matched|
      invariant printed == [AlertHeading] + AlertBody(matched[..i])
    {
      AlertBodyStep(matched, i);
      Seqs.ConcatAssoc([AlertHeading], AlertBody(matched[..i]), ArticleLines(matched[i]));
      printed := printed + ArticleLines(matched[i]);
      i := i + 1;
    }
    assert matched[..i] == matched;
  }

  /**
   * The end of `main` once something matched: the alert is printed, then,
   * unless `noMarkRead`, one `read` per match until a call times out.  The
   * status is 1 exactly when some call times out; the ids passed are then
   * those up to and including the first one that timed out.
   */
  function AlertOutcome(printed0: seq<string>, matched: seq<Article>, noMarkRead: bool, readOf: nat -> ReadOutcome): (o: Outcome)
    ensures o.printed == printed0 + [AlertHeading] + AlertBody(matched)
    ensures o.status == UncaughtStatus <==> !noMarkRead && exists i :: 0 <= i < |matched| && readOf(i).ReadTimedOut?
    ensures o.status != UncaughtStatus ==> o.status == 0
    ensures noMarkRead ==> o.markedRead == []
    ensures !noMarkRead && o.status == 0 ==> o.markedRead == IdsOf(matched)
    ensures o.status == UncaughtStatus ==>
      && 1 <= |o.markedRead| <= |matched| && o.markedRead == IdsOf(matched[..|o.markedRead|])
      && readOf(|o.markedRead| - 1).ReadTimedOut?
      && forall i :: 0 <= i < |o.markedRead| - 1 ==> !readOf(i).ReadTimedOut?
  {
    var k := FirstTimeout(|matched|, readOf);
    assert matched[..|matched|] == matched;
    var ids := if noMarkRead then [] else IdsOf(matched[..if k < |matched| then k + 1 else |matched|]);
    Outcome(if !noMarkRead && k < |matched| then UncaughtStatus else 0, printed0 + [AlertHeading] + AlertBody(matched), ids)
  }

  /** The alert and the marking loop. */
  method ReportMatches(printed0: seq<string>, matched: seq<Article>, noMarkRead: bool, readOf: nat -> ReadOutcome)
    returns (out: Outcome)
    ensures out == AlertOutcome(printed0, matched, noMarkRead, readOf)
  {
    var alert := AlertLines(matched);
    Seqs.ConcatAssoc(printed0, [AlertHeading], AlertBody(matched));
    if noMarkRead {
      return Outcome(0, printed0 + alert, []);
    }
    var ids, timedOut := MarkRead(matched, readOf);
    return Outcome(if timedOut then UncaughtStatus else 0, printed0 + alert, ids);
  }

  /**
   * `main`: scan the three blogs (failures only reported), list the unread
   * articles, and when some match print the heading and the first `maxN`
   * matches, then mark those as read unless `noMarkRead`.  A timeout of the
   * listing or of a `read` call is not caught: the script stops with status 1,
   * after the alert in the second case, with the later ids left unmarked.
   */
  method CheckDeals(scans: seq<ScanOutcome>, listing: Listing, hit: string -> bool, maxN: int, noMarkRead: bool,
                    readOf: nat -> ReadOutcome)
    returns (out: Outcome)
    requires |scans| == |BlogsToScan|
    ensures listing.ListingFailed? ==>
      out == Outcome(2, ScanMessages(BlogsToScan, scans) + ["HK-DEALS: blogwatcher articles failed:\n" + listing.output], [])
    ensures listing.ListingTimedOut? ==> out == Outcome(UncaughtStatus, ScanMessages(BlogsToScan, scans), [])
    ensures listing.Listed? && Hits(listing.lines, hit) == [] ==> out == Outcome(0, ScanMessages(BlogsToScan, scans), [])
    ensures listing.Listed? && Hits(listing.lines, hit) != [] ==>
      out == AlertOutcome(ScanMessages(BlogsToScan, scans), Seqs.SliceTo(Hits(listing.lines, hit), maxN), noMarkRead, readOf)
  {
    var printed := ScanBlogs(BlogsToScan, scans);
    if listing.ListingFailed? {
      return Outcome(2, printed + ["HK-DEALS: blogwatcher articles failed:\n" + listing.output], []);
    }
    if listing.ListingTimedOut? {
      return Outcome(UncaughtStatus, printed, []);
    }
    var articles := ParseArticles(listing.lines);
    if articles == [] {
      return Outcome(0, printed, []);
    }
    var all, matched := SelectMatches(articles, hit, maxN);
    if all == [] {
      return Outcome(0, printed, []);
    }
    assert all == Hits(listing.lines, hit);
    out := ReportMatches(printed, matched, noMarkRead, readOf);
  }
}
