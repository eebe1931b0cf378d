/**
 * The item formatter and the date guard of the US news tool
 * (tools/us-news/src/lib.js): `toMdItem` renders a stored item as three
 * Markdown lines, and `parseDateMaybe` turns a falsy value into null.
 */
module NewsLib {
  import opened Wrappers
  import Seqs

  // ---------------------------------------------------------- whitespace

  /** ECMAScript WhiteSpace and LineTerminator: what `\s` matches and `trim` strips. */
  const JsSpaces: set<char> := {
    '\t', '\n', '\U{000B}', '\U{000C}', '\r', ' ', '\U{00A0}', '\U{1680}',
    '\U{2000}', '\U{2001}', '\U{2002}', '\U{2003}', '\U{2004}', '\U{2005}',
    '\U{2006}', '\U{2007}', '\U{2008}', '\U{2009}', '\U{200A}',
    '\U{2028}', '\U{2029}', '\U{202F}', '\U{205F}', '\U{3000}', '\U{FEFF}'
  }

  predicate IsJsSpace(c: char) {
    c in JsSpaces
  }

  /** Drops the leading whitespace. */
  function TrimStart(s: string): (r: string)
    ensures |r| <= |s| && r == s[|s| - |r|..]
    ensures r != [] ==> !IsJsSpace(r[0])
    ensures forall i :: 0 <= i < |s| - |r| ==> IsJsSpace(s[i])
  {
    if s != [] && IsJsSpace(s[0]) then TrimStart(s[1..]) else s
  }

  /** Drops the trailing whitespace. */
  function TrimEnd(s: string): (r: string)
    ensures |r| <= |s| && r == s[..|r|]
    ensures r != [] ==> !IsJsSpace(r[|r| - 1])
    ensures forall i :: |r| <= i < |s| ==> IsJsSpace(s[i])
  {
    if s != [] && IsJsSpace(s[|s| - 1]) then TrimEnd(s[..|s| - 1]) else s
  }

  /** `s.trim()`. */
  function Trim(s: string): (r: string)
    ensures r == [] || (!IsJsSpace(r[0]) && !IsJsSpace(r[|r| - 1]))
  {
    TrimEnd(TrimStart(s))
  }

  /**
   * `s.replace(/\s+/g, ' ')` on the rest of a string, where `inRun` says the
   * character before it was whitespace that has already become a space.
   */
  function CollapseAfter(s: string, inRun: bool): string {
    if s == [] then []
    else if !IsJsSpace(s[0]) then [s[0]] + CollapseAfter(s[1..], false)
    else if inRun then CollapseAfter(s[1..], true)
    else [' '] + CollapseAfter(s[1..], true)
  }

  /** `s.replace(/\s+/g, ' ')`: every maximal run of whitespace becomes one space. */
  function Collapse(s: string): string {
    CollapseAfter(s, false)
  }

  /** The characters of `s` that are not whitespace, in order. */
  function Visible(s: string): (r: string)
    ensures |r| <= |s|
  {
    if s == [] then []
    else (if IsJsSpace(s[0]) then [] else [s[0]]) + Visible(s[1..])
  }

  /** No whitespace but the plain space, and never two spaces in a row. */
  ghost predicate SingleSpaced(s: string) {
    && (forall i :: 0 <= i < |s| && IsJsSpace(s[i]) ==> s[i] == ' ')
    && (forall i, j :: 0 <= i < j < |s| && j == i + 1 ==> !(IsJsSpace(s[i]) && IsJsSpace(s[j])))
  }

  /** A character put in front of a single-spaced string keeps it single-spaced unless it makes a second space. */
  lemma ConsSingleSpaced(c: char, t: string)
    requires SingleSpaced(t)
    requires !IsJsSpace(c) || (c == ' ' && (t == [] || !IsJsSpace(t[0])))
    ensures SingleSpaced([c] + t)
  {
    var s := [c] + t;
    forall i, j | 0 <= i < j < |s| && j == i + 1 ensures !(IsJsSpace(s[i]) && IsJsSpace(s[j])) {
      if i > 0 {
        assert s[i] == t[i - 1] && s[j] == t[j - 1];
      }
    }
  }

  /** A collapsed string is single-spaced, and after a run it starts with a visible character. */
  lemma {:induction false} CollapseSingleSpaced(s: string, inRun: bool)
    ensures SingleSpaced(CollapseAfter(s, inRun))
    ensures inRun && CollapseAfter(s, inRun) != [] ==> !IsJsSpace(CollapseAfter(s, inRun)[0])
    decreases |s|
  {
    if s != [] {
      if !IsJsSpace(s[0]) {
        CollapseSingleSpaced(s[1..], false);
        ConsSingleSpaced(s[0], CollapseAfter(s[1..], false));
      } else if inRun {
        CollapseSingleSpaced(s[1..], true);
      } else {
        CollapseSingleSpaced(s[1..], true);
        ConsSingleSpaced(' ', CollapseAfter(s[1..], true));
      }
    }
  }

  /** Visible characters of a concatenation. */
  lemma {:induction false} VisibleConcat(a: string, b: string)
    ensures Visible(a + b) == Visible(a) + Visible(b)
    decreases |a|
  {
    if a == [] {
      assert a + b == b;
    } else {
      assert (a + b)[0] == a[0] && (a + b)[1..] == a[1..] + b;
      VisibleConcat(a[1..], b);
    }
  }

  /** Collapsing keeps the visible characters. */
  lemma {:induction false} CollapseVisible(s: string, inRun: bool)
    ensures Visible(CollapseAfter(s, inRun)) == Visible(s)
    decreases |s|
  {
    if s != [] {
      CollapseVisible(s[1..], IsJsSpace(s[0]));
      if !IsJsSpace(s[0]) {
        VisibleConcat([s[0]], CollapseAfter(s[1..], false));
      } else if !inRun {
        VisibleConcat([' '], CollapseAfter(s[1..], true));
      }
    }
  }

  /** A single-spaced string is its own collapse (after a run, it must not start with whitespace). */
  lemma {:induction false} CollapseIdentity(s: string, inRun: bool)
    requires SingleSpaced(s)
    requires inRun && s != [] ==> !IsJsSpace(s[0])
    ensures CollapseAfter(s, inRun) == s
    decreases |s|
  {
    if s != [] {
      SliceSingleSpaced(s, 1, |s|);
      if |s| > 1 {
        assert !(IsJsSpace(s[0]) && IsJsSpace(s[1]));
      }
      CollapseIdentity(s[1..], IsJsSpace(s[0]));
      assert s == [s[0]] + s[1..];
    }
  }

  /** All-whitespace strings have nothing visible. */
  lemma {:induction false} AllSpaceInvisible(s: string)
    requires forall i :: 0 <= i < |s| ==> IsJsSpace(s[i])
    ensures Visible(s) == []
  {
    if s != [] {
      AllSpaceInvisible(s[1..]);
    }
  }

  /** A slice of a single-spaced string is single-spaced. */
  lemma SliceSingleSpaced(s: string, i: nat, j: nat)
    requires i <= j <= |s| && SingleSpaced(s)
    ensures SingleSpaced(s[i..j])
  {
    var t := s[i..j];
    forall k, m | 0 <= k < m < |t| && m == k + 1 ensures !(IsJsSpace(t[k]) && IsJsSpace(t[m])) {
      assert t[k] == s[i + k] && t[m] == s[i + m];
    }
  }

  /** Trimming keeps a string single-spaced. */
  lemma TrimSingleSpaced(s: string)
    requires SingleSpaced(s)
    ensures SingleSpaced(Trim(s))
  {
    var a := TrimStart(s);
    SliceSingleSpaced(s, |s| - |a|, |s|);
    SliceSingleSpaced(a, 0, |TrimEnd(a)|);
  }

  /** Trimming drops only whitespace. */
  lemma TrimVisible(s: string)
    ensures Visible(Trim(s)) == Visible(s)
  {
    TrimStartVisible(s);
    TrimEndVisible(TrimStart(s));
  }

  lemma TrimStartVisible(s: string)
    ensures Visible(TrimStart(s)) == Visible(s)
  {
    var n := |s| - |TrimStart(s)|;
    assert s == s[..n] + TrimStart(s);
    VisibleConcat(s[..n], TrimStart(s));
    AllSpaceInvisible(s[..n]);
  }

  lemma TrimEndVisible(s: string)
    ensures Visible(TrimEnd(s)) == Visible(s)
  {
    var r := TrimEnd(s);
    assert s == r + s[|r|..];
    VisibleConcat(r, s[|r|..]);
    AllSpaceInvisible(s[|r|..]);
  }

  // ---------------------------------------------------------- formatting

  /** `(title || '(no title)').replace(/\s+/g, ' ').trim()`. */
  function RenderTitle(title: string): string {
    Trim(Collapse(if title == "" then "(no title)" else title))
  }

  /**
   * The rendered title keeps every visible character of the title, in order,
   * has no whitespace at either end and uses only plain spaces, one at a time;
   * for a missing title those are the characters of `(no title)`.
   */
  lemma RenderTitleFacts(title: string)
    ensures var r := RenderTitle(title);
      && SingleSpaced(r)
      && (r == [] || (!IsJsSpace(r[0]) && !IsJsSpace(r[|r| - 1])))
      && Visible(r) == Visible(if title == "" then "(no title)" else title)
  {
    var src := if title == "" then "(no title)" else title;
    CollapseSingleSpaced(src, false);
    TrimSingleSpaced(Collapse(src));
    CollapseVisible(src, false);
    TrimVisible(Collapse(src));
  }

  /** A missing title shows as `(no title)`, which rendering leaves as it is. */
  lemma NoTitle()
    ensures RenderTitle("") == "(no title)"
  {
    var s := "(no title)";
    assert forall i :: 0 <= i < |s| && i != 3 ==> !IsJsSpace(s[i]);
    assert SingleSpaced(s);
    CollapseIdentity(s, false);
    assert TrimStart(s) == s && TrimEnd(s) == s;
  }

  /** A title made only of whitespace is present (so no placeholder) but renders empty. */
  lemma BlankTitle(title: string)
    requires title != "" && forall i :: 0 <= i < |title| ==> IsJsSpace(title[i])
    ensures RenderTitle(title) == ""
  {
    RenderTitleFacts(title);
    AllSpaceInvisible(title);
  }

  /** The ` · iso` segment, present exactly when `iso` is truthy. */
  function When(iso: Option<string>): (r: string)
    ensures r != "" <==> Truthy(iso)
    ensures Truthy(iso) ==> r == " · " + iso.value
  {
    if Truthy(iso) then " · " + iso.value else ""
  }

  /** `parts.join(sep)`. */
  function Join(parts: seq<string>, sep: string): string {
    if parts == [] then ""
    else if |parts| == 1 then parts[0]
    else Join(parts[..|parts| - 1], sep) + sep + parts[|parts| - 1]
  }

  /** The ` _(a, b)_` tag suffix, present exactly when there are tags. */
  function TagSuffix(tags: seq<string>): (r: string)
    ensures r != "" <==> tags != []
    ensures tags != [] ==> r == " _(" + Join(tags, ", ") + ")_"
  {
    if tags != [] then " _(" + Join(tags, ", ") + ")_" else ""
  }

  /** The first line of an item: `- **feed**`, then the date and the tags. */
  function ItemHeader(feedName: string, iso: Option<string>, tags: seq<string>): string {
    "- **" + feedName + "**" + When(iso) + TagSuffix(tags)
  }

  /** `toMdItem({ feedName, title, link, iso, tags })`. */
  function ToMdItem(feedName: string, title: string, link: string, iso: Option<string>, tags: seq<string>): string {
    ItemHeader(feedName, iso, tags) + "\n" + ("  - " + RenderTitle(title)) + "\n" + ("  - " + link)
  }

  // ---------------------------------------------------------- line structure

  /** `s.split('\n')`. */
  function Lines(s: string): (r: seq<string>)
    ensures |r| >= 1
  {
    if s == [] then [""]
    else if s[0] == '\n' then [""] + Lines(s[1..])
    else
      var rest := Lines(s[1..]);
      [[s[0]] + rest[0]] + rest[1..]
  }

  lemma {:induction false} LinesOfLine(a: string)
    requires '\n' !in a
    ensures Lines(a) == [a]
  {
    if a != [] {
      assert '\n' !in a[1..] by {
        forall i | 0 <= i < |a[1..]| ensures a[1..][i] != '\n' {
          assert a[1..][i] == a[i + 1];
        }
      }
      LinesOfLine(a[1..]);
      assert [a[0]] + a[1..] == a;
    }
  }

  /** A line without a newline, a newline, and the rest: the line comes first. */
  lemma {:induction false} LinesCons(a: string, b: string)
    requires '\n' !in a
    ensures Lines(a + "\n" + b) == [a] + Lines(b)
  {
    if a == [] {
      assert a + "\n" + b == "\n" + b;
      assert ("\n" + b)[1..] == b;
    } else {
      var s := a + "\n" + b;
      assert s[0] == a[0] && s[1..] == a[1..] + "\n" + b;
      assert '\n' !in a[1..] by {
        forall i | 0 <= i < |a[1..]| ensures a[1..][i] != '\n' {
          assert a[1..][i] == a[i + 1];
        }
      }
      LinesCons(a[1..], b);
      assert [a[0]] + a[1..] == a;
    }
  }

  /** Without a newline in the parts, joining them keeps out newlines. */
  lemma {:induction false} JoinNoNewline(parts: seq<string>, sep: string)
    requires '\n' !in sep && forall i :: 0 <= i < |parts| ==> '\n' !in parts[i]
    ensures '\n' !in Join(parts, sep)
  {
    if |parts| > 1 {
      JoinNoNewline(parts[..|parts| - 1], sep);
    }
  }

  /** A rendered title is one line. */
  lemma TitleIsOneLine(title: string)
    ensures '\n' !in RenderTitle(title)
  {
    RenderTitleFacts(title);
    var r := RenderTitle(title);
    forall i | 0 <= i < |r| ensures r[i] != '\n' {
      assert IsJsSpace(r[i]) ==> r[i] == ' ';
    }
  }

  /** The first line holds no newline when the feed name, date and tags hold none. */
  lemma HeaderIsOneLine(feedName: string, iso: Option<string>, tags: seq<string>)
    requires '\n' !in feedName && (iso.Some? ==> '\n' !in iso.value)
    requires forall i :: 0 <= i < |tags| ==> '\n' !in tags[i]
    ensures '\n' !in ItemHeader(feedName, iso, tags)
  {
    JoinNoNewline(tags, ", ");
  }

  /**
   * An item is exactly three lines: the feed header, the title and the link,
   * as long as the feed name, date, tags and link hold no newline.
   */
  lemma MdItemLines(feedName: string, title: string, link: string, iso: Option<string>, tags: seq<string>)
    requires '\n' !in feedName && '\n' !in link && (iso.Some? ==> '\n' !in iso.value)
    requires forall i :: 0 <= i < |tags| ==> '\n' !in tags[i]
    ensures Lines(ToMdItem(feedName, title, link, iso, tags)) ==
      [ItemHeader(feedName, iso, tags), "  - " + RenderTitle(title), "  - " + link]
  {
    HeaderIsOneLine(feedName, iso, tags);
    TitleIsOneLine(title);
    ThreeLines(ItemHeader(feedName, iso, tags), "  - " + RenderTitle(title), "  - " + link);
  }

  /** Three newline-free strings joined by newlines split back into those three. */
  lemma ThreeLines(h: string, t: string, l: string)
    requires '\n' !in h && '\n' !in t && '\n' !in l
    ensures Lines(h + "\n" + t + "\n" + l) == [h, t, l]
  {
    assert h + "\n" + t + "\n" + l == h + "\n" + (t + "\n" + l);
    LinesCons(h, t + "\n" + l);
    LinesCons(t, l);
    LinesOfLine(l);
  }

  // ---------------------------------------------------------- dates

  /**
   * `parseDateMaybe(v)`: null for a falsy `v`, otherwise what the date
   * parser makes of it (`None` standing for an invalid date).
   */
  function ParseDateMaybe(v: Option<string>, parse: string -> Option<int>): (r: Option<int>)
    ensures !Truthy(v) ==> r.None?
    ensures Truthy(v) ==> r == parse(v.value)
  {
    if !Truthy(v) then None else parse(v.value)
  }
}
