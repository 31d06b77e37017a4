/**
 * The Sina news crawler: text cleaning, publish-time handling, item and
 * whole-page article extraction, and next-page discovery (pagination links,
 * then URL-pattern inference).
 */
module SinaCrawler {
  import opened Wrappers
  import opened Text
  import opened CrawlTypes

  const SourceName: string := "新浪新闻"

  /**
   * A Sina crawler's fixed parts: its source id, the URL library, and the
   * character class Python's Unicode `\w` denotes.
   */
  datatype Sina = Sina(sourceId: string, lib: UrlLib, word: char -> bool)

  // ---------------------------------------------------------------------------
  // Text cleaning

  /** Drops leading whitespace. */
  function TrimStart(s: string): (r: string)
    ensures |r| <= |s| && r == s[|s| - |r|..]
    ensures r == [] || !IsSpace(r[0])
    ensures forall i :: 0 <= i < |s| - |r| ==> IsSpace(s[i])
    ensures s != [] && IsSpace(s[0]) ==> |r| < |s|
    decreases |s|
  {
    if s != [] && IsSpace(s[0]) then TrimStart(s[1..]) else s
  }

  /** Drops trailing whitespace. */
  function TrimEnd(s: string): (r: string)
    ensures |r| <= |s| && r == s[..|r|]
    ensures r == [] || !IsSpace(r[|r| - 1])
    ensures forall i :: |r| <= i < |s| ==> IsSpace(s[i])
    decreases |s|
  {
    if s != [] && IsSpace(s[|s| - 1]) then TrimEnd(s[..|s| - 1]) else s
  }

  /** `r` is the slice of `s` at `k` with only whitespace before and after it. */
  predicate StrippedAt(s: string, k: nat, r: string) {
    k + |r| <= |s| && r == s[k..k + |r|] && AllSpace(s[..k]) && AllSpace(s[k + |r|..])
  }

  /** `str.strip()`: the input less its leading and trailing whitespace, no whitespace at either end. */
  function Strip(s: string): (r: string)
    ensures |r| <= |s|
    ensures exists k: nat :: StrippedAt(s, k, r)
    ensures r == [] || (!IsSpace(r[0]) && !IsSpace(r[|r| - 1]))
  {
    var t := TrimStart(s);
    var r := TrimEnd(t);
    TrimmedSlice(s, |s| - |t|, t, r);
    r
  }

  /** A text cut at `k` into whitespace and `t`, with `t` ending in `r` and whitespace, strips to `r`. */
  lemma TrimmedSlice(s: string, k: nat, t: string, r: string)
    requires k <= |s| && t == s[k..] && |r| <= |t| && r == t[..|r|]
    requires forall i :: 0 <= i < k ==> IsSpace(s[i])
    requires forall i :: |r| <= i < |t| ==> IsSpace(t[i])
    ensures StrippedAt(s, k, r)
  {
    assert r == s[k..k + |r|];
    var head := s[..k];
    forall i | 0 <= i < |head|
      ensures IsSpace(head[i])
    {
      assert head[i] == s[i];
    }
    var tail := s[k + |r|..];
    forall i | 0 <= i < |tail|
      ensures IsSpace(tail[i])
    {
      assert tail[i] == t[|r| + i];
    }
  }

  /** The characters of `s` that are not whitespace, in order. */
  function Unspaced(s: string): string
    decreases |s|
  {
    if s == [] then []
    else (if IsSpace(s[0]) then [] else [s[0]]) + Unspaced(s[1..])
  }

  lemma UnspacedCons(c: char, y: string)
    ensures Unspaced([c] + y) == (if IsSpace(c) then [] else [c]) + Unspaced(y)
  {
    assert ([c] + y)[1..] == y;
  }

  /** Dropping leading whitespace keeps the non-whitespace characters. */
  lemma {:induction false} UnspacedTrimStart(s: string)
    ensures Unspaced(TrimStart(s)) == Unspaced(s)
    decreases |s|
  {
    if s != [] && IsSpace(s[0]) {
      UnspacedTrimStart(s[1..]);
    }
  }

  /** Replaces every run of whitespace by one space (`\s+` to `' '`). */
  function CollapseSpaces(s: string): (r: string)
    ensures |r| <= |s|
    ensures r == [] <==> s == []
    ensures forall i :: 0 <= i < |r| && IsSpace(r[i]) ==> r[i] == ' '
    ensures r != [] ==> (IsSpace(r[0]) <==> IsSpace(s[0]))
    decreases |s|
  {
    if s == [] then []
    else if IsSpace(s[0]) then
      [' '] + CollapseSpaces(TrimStart(s))
    else
      [s[0]] + CollapseSpaces(s[1..])
  }

  /** No two whitespace characters are adjacent in `s`. */
  predicate NoDoubleSpace(s: string) {
    forall i :: 0 <= i < |s| - 1 ==> !(IsSpace(s[i]) && IsSpace(s[i + 1]))
  }

  /** Collapsing keeps the non-whitespace characters, in order. */
  lemma {:induction false} CollapseKeepsText(s: string)
    ensures Unspaced(CollapseSpaces(s)) == Unspaced(s)
    decreases |s|
  {
    if s == [] {
    } else if IsSpace(s[0]) {
      var t := TrimStart(s);
      CollapseKeepsText(t);
      UnspacedTrimStart(s);
      UnspacedCons(' ', CollapseSpaces(t));
      assert IsSpace(' ');
    } else {
      CollapseKeepsText(s[1..]);
      assert s == [s[0]] + s[1..];
      UnspacedCons(s[0], s[1..]);
      UnspacedCons(s[0], CollapseSpaces(s[1..]));
    }
  }

  /** After collapsing, no two whitespace characters are side by side. */
  lemma {:induction false} CollapseNoDoubleSpace(s: string)
    ensures NoDoubleSpace(CollapseSpaces(s))
    decreases |s|
  {
    if s != [] {
      var c := if IsSpace(s[0]) then ' ' else s[0];
      var t := if IsSpace(s[0]) then TrimStart(s) else s[1..];
      CollapseNoDoubleSpace(t);
      var rest := CollapseSpaces(t);
      var r := [c] + rest;
      assert CollapseSpaces(s) == r;
      assert IsSpace(s[0]) ==> t == [] || !IsSpace(t[0]);
      forall i | 0 <= i < |r| - 1
        ensures !(IsSpace(r[i]) && IsSpace(r[i + 1]))
      {
        if i > 0 {
          assert r[i] == rest[i - 1] && r[i + 1] == rest[i];
        }
      }
    }
  }

  /** Collapsing ends with whitespace exactly when the input does. */
  lemma {:induction false} CollapseKeepsEnd(s: string)
    requires s != []
    ensures IsSpace(CollapseSpaces(s)[|CollapseSpaces(s)| - 1]) <==> IsSpace(s[|s| - 1])
    decreases |s|
  {
    var t := if IsSpace(s[0]) then TrimStart(s) else s[1..];
    assert t != [] ==> t[|t| - 1] == s[|s| - 1];
    if t != [] {
      CollapseKeepsEnd(t);
    } else if IsSpace(s[0]) {
      assert IsSpace(' ');
    }
  }

  /** The characters `[\w\s一-鿿\-\.\,\!\?]` lets through. */
  predicate Kept(c: char, word: char -> bool) {
    word(c) || IsSpace(c) || ('\U{4e00}' <= c <= '\U{9fff}') || c == '-' || c == '.' || c == ',' || c == '!' || c == '?'
  }

  /** Removes every character outside the kept class, keeping the order of the rest. */
  function RemoveDisallowed(s: string, word: char -> bool): (r: string)
    ensures |r| <= |s|
    ensures forall i :: 0 <= i < |r| ==> Kept(r[i], word)
    ensures forall c :: c in r ==> c in s
    ensures (forall i :: 0 <= i < |s| ==> Kept(s[i], word)) ==> r == s
    decreases |s|
  {
    if s == [] then []
    else (if Kept(s[0], word) then [s[0]] else []) + RemoveDisallowed(s[1..], word)
  }

  /** Filtering distributes over concatenation, so the kept characters keep their order. */
  lemma {:induction false} RemoveDisallowedAppend(x: string, y: string, word: char -> bool)
    ensures RemoveDisallowed(x + y, word) == RemoveDisallowed(x, word) + RemoveDisallowed(y, word)
    decreases |x|
  {
    if x == [] {
      assert x + y == y;
    } else {
      assert x + y == [x[0]] + (x[1..] + y);
      RemoveCons(x[0], x[1..] + y, word);
      RemoveDisallowedAppend(x[1..], y, word);
      assert x == [x[0]] + x[1..];
      RemoveCons(x[0], x[1..], word);
    }
  }

  /**
   * Strips, collapses whitespace runs to one space, then removes every
   * character outside the kept class.
   */
  function CleanText(text: string, word: char -> bool): (r: string)
    ensures text == "" ==> r == ""
    ensures |r| <= |text|
    ensures forall i :: 0 <= i < |r| && IsSpace(r[i]) ==> r[i] == ' '
    ensures forall i :: 0 <= i < |r| ==> Kept(r[i], word)
  {
    if text == "" then ""
    else
      var collapsed := CollapseSpaces(Strip(text));
      var r := RemoveDisallowed(collapsed, word);
      assert forall i :: 0 <= i < |r| ==> r[i] in collapsed;
      r
  }

  /**
   * Removing a character can leave a trailing space behind, so cleaning is not
   * idempotent: a kept non-space character, a whitespace character and a removed
   * character clean to the first character and one space, which cleans again to
   * the first character alone.
   */
  lemma CleanTextNotIdempotent(x: char, sp: char, y: char, word: char -> bool)
    requires Kept(x, word) && !IsSpace(x) && IsSpace(sp) && !Kept(y, word)
    ensures CleanText([x, sp, y], word) == [x, ' ']
    ensures CleanText(CleanText([x, sp, y], word), word) == [x]
  {
    CleanFirstPass(x, sp, y, word);
    CleanSecondPass(x, word);
  }

  lemma CleanFirstPass(x: char, sp: char, y: char, word: char -> bool)
    requires Kept(x, word) && !IsSpace(x) && IsSpace(sp) && !Kept(y, word)
    ensures CleanText([x, sp, y], word) == [x, ' ']
  {
    var s := [x, sp, y];
    StripUntouched(s);
    CollapseGap(x, sp, y);
    RemoveLast(x, y, word);
    CleanTextUnfold(s, word);
  }

  /** The whitespace between two non-space characters collapses to one space. */
  lemma CollapseGap(x: char, sp: char, y: char)
    requires !IsSpace(x) && IsSpace(sp) && !IsSpace(y)
    ensures CollapseSpaces([x, sp, y]) == [x, ' ', y]
  {
    assert [x, sp, y] == [x] + ([sp] + [y]);
    CollapseCons(x, [sp] + [y]);
    CollapseSpaceRun([sp], [y]);
    assert [y] == [y] + [];
    CollapseCons(y, []);
    assert [x] + ([' '] + [y]) == [x, ' ', y];
  }

  /** Removing a disallowed last character keeps the two before it. */
  lemma RemoveLast(x: char, y: char, word: char -> bool)
    requires Kept(x, word) && !Kept(y, word)
    ensures RemoveDisallowed([x, ' ', y], word) == [x, ' ']
  {
    assert RemoveDisallowed([y], word) == [] by {
      assert [y] == [y] + [];
      RemoveCons(y, [], word);
    }
    assert RemoveDisallowed([' '] + [y], word) == [' '] by {
      assert Kept(' ', word) by {
        assert IsSpace(' ');
      }
      RemoveCons(' ', [y], word);
    }
    assert [x, ' ', y] == [x] + ([' '] + [y]);
    RemoveCons(x, [' '] + [y], word);
    assert [x] + [' '] == [x, ' '];
  }

  lemma CleanSecondPass(x: char, word: char -> bool)
    requires Kept(x, word) && !IsSpace(x)
    ensures CleanText([x, ' '], word) == [x]
  {
    var s := [x, ' '];
    assert Strip(s) == [x] by {
      assert IsSpace(' ');
      assert s == [x] + [' '];
      assert TrimStart(s) == s;
      TrimEndSpaces([x], [' ']);
    }
    assert CollapseSpaces([x]) == [x] by {
      assert [x] == [x] + [];
      CollapseCons(x, []);
    }
    assert RemoveDisallowed([x], word) == [x] by {
      assert [x] == [x] + [];
      RemoveCons(x, [], word);
    }
    CleanTextUnfold(s, word);
  }

  /** A non-empty text cleans in three stages. */
  lemma CleanTextUnfold(text: string, word: char -> bool)
    requires text != ""
    ensures CleanText(text, word) == RemoveDisallowed(CollapseSpaces(Strip(text)), word)
  {
  }

  /** A text without whitespace at either end is its own strip. */
  lemma StripUntouched(s: string)
    requires s != [] && !IsSpace(s[0]) && !IsSpace(s[|s| - 1])
    ensures Strip(s) == s
  {
    assert TrimStart(s) == s;
  }

  lemma RemoveCons(c: char, y: string, word: char -> bool)
    ensures RemoveDisallowed([c] + y, word) == (if Kept(c, word) then [c] else []) + RemoveDisallowed(y, word)
  {
    assert ([c] + y)[1..] == y;
  }

  predicate AllSpace(s: string) { forall i :: 0 <= i < |s| ==> IsSpace(s[i]) }
  predicate NoSpace(s: string) { forall i :: 0 <= i < |s| ==> !IsSpace(s[i]) }

  lemma {:induction false} TrimStartSpaces(w: string, a: string)
    requires AllSpace(w) && (a == [] || !IsSpace(a[0]))
    ensures TrimStart(w + a) == a
    decreases |w|
  {
    if w != [] {
      assert (w + a)[1..] == w[1..] + a;
      TrimStartSpaces(w[1..], a);
    }
  }

  lemma {:induction false} TrimEndSpaces(a: string, w: string)
    requires AllSpace(w) && (a == [] || !IsSpace(a[|a| - 1]))
    ensures TrimEnd(a + w) == a
    decreases |w|
  {
    if w != [] {
      assert (a + w)[..|a + w| - 1] == a + w[..|w| - 1];
      TrimEndSpaces(a, w[..|w| - 1]);
    }
  }

  lemma CollapseCons(c: char, y: string)
    requires !IsSpace(c)
    ensures CollapseSpaces([c] + y) == [c] + CollapseSpaces(y)
  {
    assert ([c] + y)[1..] == y;
  }

  lemma {:induction false} CollapseKeepsWord(a: string, x: string)
    requires NoSpace(a)
    ensures CollapseSpaces(a + x) == a + CollapseSpaces(x)
    decreases |a|
  {
    if a == [] {
      assert a + x == x;
    } else {
      ConsParts(a, x, CollapseSpaces(x));
      CollapseCons(a[0], a[1..] + x);
      CollapseKeepsWord(a[1..], x);
    }
  }

  lemma ConsParts(a: string, x: string, y: string)
    requires a != []
    ensures a + x == [a[0]] + (a[1..] + x)
    ensures [a[0]] + (a[1..] + y) == a + y
  {
    assert a == [a[0]] + a[1..];
  }

  lemma StripAround(w1: string, m: string, w3: string)
    requires AllSpace(w1) && AllSpace(w3) && m != [] && !IsSpace(m[0]) && !IsSpace(m[|m| - 1])
    ensures Strip(w1 + m + w3) == m
  {
    assert w1 + m + w3 == w1 + (m + w3);
    TrimStartSpaces(w1, m + w3);
    TrimEndSpaces(m, w3);
  }

  lemma CollapseSpaceRun(w: string, b: string)
    requires AllSpace(w) && w != [] && (b == [] || !IsSpace(b[0]))
    ensures CollapseSpaces(w + b) == [' '] + CollapseSpaces(b)
  {
    var wb := w + b;
    assert wb[0] == w[0] && IsSpace(wb[0]);
    TrimStartSpaces(w, b);
  }

  lemma CollapseTwoWords(a: string, w2: string, b: string)
    requires AllSpace(w2) && w2 != [] && b != [] && NoSpace(a) && NoSpace(b)
    ensures CollapseSpaces(a + w2 + b) == a + " " + b
  {
    assert a + w2 + b == a + (w2 + b);
    CollapseKeepsWord(a, w2 + b);
    CollapseSpaceRun(w2, b);
    CollapseKeepsWord(b, []);
    assert b + [] == b;
  }

  /** Leading whitespace is trimmed inside the first part when that part ends in a non-space. */
  lemma {:induction false} TrimStartAppend(a: string, x: string)
    requires a != [] && !IsSpace(a[|a| - 1])
    ensures TrimStart(a + x) == TrimStart(a) + x
    decreases |a|
  {
    if IsSpace(a[0]) {
      assert (a + x)[1..] == a[1..] + x;
      TrimStartAppend(a[1..], x);
    }
  }

  /**
   * A whitespace run between a part that does not end in whitespace and a part
   * that does not start with it collapses to one space, and each part collapses
   * on its own.
   */
  lemma {:induction false} CollapseJoin(a: string, w: string, b: string)
    requires AllSpace(w) && w != []
    requires a == [] || !IsSpace(a[|a| - 1])
    requires b == [] || !IsSpace(b[0])
    ensures CollapseSpaces(a + w + b) == CollapseSpaces(a) + " " + CollapseSpaces(b)
    decreases |a|
  {
    if a == [] {
      assert a + w + b == w + b;
      CollapseSpaceRun(w, b);
    } else if IsSpace(a[0]) {
      var t := TrimStart(a);
      assert t != [] && t[|t| - 1] == a[|a| - 1];
      CollapseJoin(t, w, b);
      JoinAfterSpace(a, t, w, b);
    } else {
      CollapseJoin(a[1..], w, b);
      JoinAfterWord(a, w, b);
    }
  }

  lemma CollapseLeadSpace(x: string)
    requires x != [] && IsSpace(x[0])
    ensures CollapseSpaces(x) == [' '] + CollapseSpaces(TrimStart(x))
  {
  }

  /** The step of CollapseJoin for a first part that starts with whitespace. */
  lemma JoinAfterSpace(a: string, t: string, w: string, b: string)
    requires a != [] && IsSpace(a[0]) && !IsSpace(a[|a| - 1]) && t == TrimStart(a)
    requires CollapseSpaces(t + w + b) == CollapseSpaces(t) + " " + CollapseSpaces(b)
    ensures CollapseSpaces(a + w + b) == CollapseSpaces(a) + " " + CollapseSpaces(b)
  {
    Assoc3(a, w, b);
    Assoc3(t, w, b);
    TrimStartAppend(a, w + b);
    CollapseLeadSpace(a + w + b);
    CollapseLeadSpace(a);
    ConsAssoc(' ', CollapseSpaces(t), CollapseSpaces(b));
  }

  /** The step of CollapseJoin for a first part that starts with a non-space. */
  lemma JoinAfterWord(a: string, w: string, b: string)
    requires a != [] && !IsSpace(a[0])
    requires CollapseSpaces(a[1..] + w + b) == CollapseSpaces(a[1..]) + " " + CollapseSpaces(b)
    ensures CollapseSpaces(a + w + b) == CollapseSpaces(a) + " " + CollapseSpaces(b)
  {
    HeadSplit(a, w, b);
    CollapseCons(a[0], a[1..] + w + b);
    HeadSplit(a, [], []);
    CollapseCons(a[0], a[1..] + [] + []);
    ConsAssoc(a[0], CollapseSpaces(a[1..]), CollapseSpaces(b));
  }

  lemma Assoc3(a: string, w: string, b: string)
    ensures a + w + b == a + (w + b) && (a + w + b)[..|a|] == a
    ensures a != [] ==> (a + w + b)[0] == a[0]
  {
  }

  lemma HeadSplit(a: string, w: string, b: string)
    requires a != []
    ensures a + w + b == [a[0]] + (a[1..] + w + b)
    ensures a + [] + [] == a && a[1..] + [] + [] == a[1..]
  {
    assert a == [a[0]] + a[1..];
  }

  lemma ConsAssoc(c: char, l: string, m: string)
    ensures [c] + (l + " " + m) == ([c] + l) + " " + m
  {
  }

  /** Every kept character occurs as often in the result as in the input; no other occurs. */
  lemma {:induction false} RemoveKeepsCounts(s: string, word: char -> bool)
    ensures forall c :: Kept(c, word) ==> multiset(RemoveDisallowed(s, word))[c] == multiset(s)[c]
    ensures forall c :: !Kept(c, word) ==> multiset(RemoveDisallowed(s, word))[c] == 0
    decreases |s|
  {
    if s != [] {
      RemoveKeepsCounts(s[1..], word);
      assert s == [s[0]] + s[1..];
      assert multiset(s) == multiset([s[0]]) + multiset(s[1..]);
    }
  }

  /** Two words of kept characters joined by one space consist of kept characters only. */
  lemma JoinedKept(a: string, b: string, word: char -> bool)
    requires forall i :: 0 <= i < |a| ==> Kept(a[i], word)
    requires forall i :: 0 <= i < |b| ==> Kept(b[i], word)
    ensures forall i :: 0 <= i < |a + " " + b| ==> Kept((a + " " + b)[i], word)
  {
    var r := a + " " + b;
    forall i | 0 <= i < |r|
      ensures Kept(r[i], word)
    {
      if i < |a| {
        assert r[i] == a[i];
      } else if i > |a| {
        assert r[i] == b[i - |a| - 1];
      } else {
        assert r[i] == ' ' && IsSpace(' ');
      }
    }
  }

  /**
   * Two space-free words surrounded and separated by whitespace runs clean to
   * the two words joined by one space.
   */
  lemma CleanTwoWords(w1: string, a: string, w2: string, b: string, w3: string, word: char -> bool)
    requires AllSpace(w1) && AllSpace(w2) && AllSpace(w3) && w2 != []
    requires a != [] && b != [] && NoSpace(a) && NoSpace(b)
    requires forall i :: 0 <= i < |a| ==> Kept(a[i], word)
    requires forall i :: 0 <= i < |b| ==> Kept(b[i], word)
    ensures CleanText(w1 + a + w2 + b + w3, word) == a + " " + b
  {
    var m := a + w2 + b;
    assert m[0] == a[0] && m[|m| - 1] == b[|b| - 1];
    var text := w1 + a + w2 + b + w3;
    assert text == w1 + m + w3;
    CleanTextUnfold(text, word);
    StripAround(w1, m, w3);
    CollapseTwoWords(a, w2, b);
    JoinedKept(a, b, word);
  }

  /** The cleaning example: surrounding whitespace goes and the inner run becomes one space. */
  lemma CleanTextExample(word: char -> bool)
    ensures CleanText("  测试文本  \n\n  包含换行  ", word) == "测试文本 包含换行"
  {
    var a := "测试文本";
    var b := "包含换行";
    assert "  测试文本  \n\n  包含换行  " == "  " + a + "  \n\n  " + b + "  ";
    assert "测试文本 包含换行" == a + " " + b;
    CleanTwoWords("  ", a, "  \n\n  ", b, "  ", word);
  }

  // ---------------------------------------------------------------------------
  // Publish time

  /**
   * Empty input has no time; otherwise every time pattern, and the no-match
   * path, hand back the input unchanged.
   */
  function ParsePublishTime(timeStr: string): (r: Option<string>)
    ensures r.None? <==> timeStr == ""
    ensures r.Some? ==> r.value == timeStr
  {
    if timeStr == "" then None else Some(timeStr)
  }

  // ---------------------------------------------------------------------------
  // Article extraction

  /** What calling the missing per-item helpers raises. */
  const MissingHelperError: string := "'SinaCrawler' object has no attribute 'extract_text'"

  /** The per-item helpers as the crawler has them: undefined, so the first call raises. */
  function MissingHelpers(item: ItemFields): Outcome<ItemFields> {
    Raised(MissingHelperError)
  }

  /** The per-item helpers as intended: they give back the item's text fields and link. */
  function ItemHelpers(item: ItemFields): Outcome<ItemFields> {
    Returned(item)
  }

  /**
   * One list item's record. `fields` is what the helper calls produced (a raise
   * is caught and yields None). The raw title and link must both be non-empty;
   * the text fields are cleaned only afterwards.
   */
  function ExtractArticleData(c: Sina, fields: Outcome<ItemFields>, now: string): (r: Option<Article>)
    ensures r.Some? <==> fields.Returned? && fields.value.title != "" && fields.value.link != ""
    ensures r.Some? ==>
      r.value.ItemArticle? && r.value.url == fields.value.link
      && r.value.sourceId == c.sourceId && r.value.sourceName == SourceName && r.value.extractedAt == now
      && |r.value.title| <= |fields.value.title|
      && r.value.publishedAt == ParsePublishTime(fields.value.publishTime)
  {
    match fields
    case Raised(_) => None
    case Returned(f) =>
      if f.title == "" || f.link == "" then None
      else
        Some(ItemArticle(
          CleanText(f.title, c.word), CleanText(f.content, c.word), f.link, CleanText(f.author, c.word),
          ParsePublishTime(f.publishTime), CleanText(f.category, c.word), c.sourceId, SourceName, now))
  }

  /** The primary list selector's items, or the secondary selector's when the primary finds none. */
  function ItemsOf(page: Page): seq<ItemFields> {
    if page.listItems != [] then page.listItems else page.otherItems
  }

  /** The records of the items that yield one, in item order. */
  function ItemArticles(c: Sina, helpers: ItemFields -> Outcome<ItemFields>, items: seq<ItemFields>, now: string): (r: seq<Article>)
    ensures |r| <= |items|
    decreases |items|
  {
    if items == [] then []
    else
      ItemArticles(c, helpers, items[..|items| - 1], now) + Yielded(ExtractArticleData(c, helpers(items[|items| - 1]), now))
  }

  /** Every record is an item article for a non-empty link, stamped with this crawler's source. */
  predicate ItemRecords(c: Sina, r: seq<Article>) {
    forall i :: 0 <= i < |r| ==>
      r[i].ItemArticle? && r[i].url != "" && r[i].sourceId == c.sourceId && r[i].sourceName == SourceName
  }

  /** The item records are item articles for non-empty links, stamped with this crawler's source. */
  lemma {:induction false} ItemArticlesAreItemRecords(c: Sina, helpers: ItemFields -> Outcome<ItemFields>, items: seq<ItemFields>, now: string)
    ensures ItemRecords(c, ItemArticles(c, helpers, items, now))
    decreases |items|
  {
    if items != [] {
      var init := items[..|items| - 1];
      ItemArticlesAreItemRecords(c, helpers, init, now);
      var prev := ItemArticles(c, helpers, init, now);
      var o := ExtractArticleData(c, helpers(items[|items| - 1]), now);
      var r := ItemArticles(c, helpers, items, now);
      assert r == prev + Yielded(o);
      forall i | 0 <= i < |r|
        ensures r[i].ItemArticle? && r[i].url != "" && r[i].sourceId == c.sourceId && r[i].sourceName == SourceName
      {
        if i < |prev| {
          assert r[i] == prev[i];
        } else {
          assert r[i] == o.value;
        }
      }
    }
  }

  /** The records an extraction result contributes: its record, or none. */
  function Yielded(o: Option<Article>): (r: seq<Article>)
    ensures o.None? ==> r == []
    ensures o.Some? ==> r == [o.value]
  {
    match o
    case Some(a) => [a]
    case None => []
  }

  /** The text of the first content selector that matched an element ("" when none did). */
  function FirstContent(containers: seq<Option<string>>): string {
    if containers == [] then ""
    else if containers[0].Some? then containers[0].value
    else FirstContent(containers[1..])
  }

  /** The whole-page record: the page title and the first content container, both non-empty. */
  function ExtractFromPage(c: Sina, page: Page, pageUrl: string, now: string): (r: Option<Article>)
    ensures r.Some? <==> page.title.GetOr("") != "" && FirstContent(page.containers) != ""
    ensures r.Some? ==>
      r.value.PageArticle? && r.value.url == pageUrl
      && r.value.sourceId == c.sourceId && r.value.sourceName == SourceName
  {
    var titleText := page.title.GetOr("");
    var content := FirstContent(page.containers);
    if titleText != "" && content != "" then
      Some(PageArticle(CleanText(titleText, c.word), CleanText(content, c.word), pageUrl, c.sourceId, SourceName, now))
    else None
  }

  /** The item records, or the whole-page record when no item yielded one. */
  function ExtractArticlesWith(c: Sina, helpers: ItemFields -> Outcome<ItemFields>, page: Page, pageUrl: string, now: string): seq<Article> {
    var arts := ItemArticles(c, helpers, ItemsOf(page), now);
    if arts != [] then arts
    else Yielded(ExtractFromPage(c, page, pageUrl, now))
  }

  /**
   * Extraction with working per-item helpers: item records, or else the single
   * whole-page record; nothing only when the page fallback fails too.
   */
  function ExtractArticles(c: Sina, page: Page, pageUrl: string, now: string): (r: seq<Article>)
    ensures ItemRecords(c, r) || (|r| == 1 && ExtractFromPage(c, page, pageUrl, now) == Some(r[0]))
    ensures r == [] ==> ExtractFromPage(c, page, pageUrl, now).None?
    ensures |r| <= Max1(|ItemsOf(page)|)
  {
    ExtractArticlesShape(c, ItemHelpers, page, pageUrl, now);
    ExtractArticlesWith(c, ItemHelpers, page, pageUrl, now)
  }

  /**
   * Extraction as the crawler is written: every per-item call raises, so at most
   * the whole-page record comes out.
   */
  function ExtractArticlesAsWritten(c: Sina, page: Page, pageUrl: string, now: string): (r: seq<Article>)
    ensures |r| <= 1
    ensures forall i :: 0 <= i < |r| ==> r[i].PageArticle? && r[i].url == pageUrl
  {
    MissingHelpersYieldNothing(c, ItemsOf(page), now);
    ExtractArticlesWith(c, MissingHelpers, page, pageUrl, now)
  }

  /**
   * Either every record comes from an item, or there is exactly one record and
   * it is the whole-page record for the page URL; never more records than items
   * (or one).
   */
  lemma ExtractArticlesShape(c: Sina, helpers: ItemFields -> Outcome<ItemFields>, page: Page, pageUrl: string, now: string)
    ensures var r := ExtractArticlesWith(c, helpers, page, pageUrl, now);
      ItemRecords(c, r)
      || (ExtractFromPage(c, page, pageUrl, now).Some? && r == [ExtractFromPage(c, page, pageUrl, now).value]
          && r[0].PageArticle? && r[0].url == pageUrl && ItemArticles(c, helpers, ItemsOf(page), now) == [])
    ensures |ExtractArticlesWith(c, helpers, page, pageUrl, now)| <= Max1(|ItemsOf(page)|)
  {
    ItemArticlesAreItemRecords(c, helpers, ItemsOf(page), now);
  }

  function Max1(n: nat): nat { if n < 1 then 1 else n }

  /** The loop over the list items: each item's record, when it yields one, is appended. */
  method CollectItemArticles(c: Sina, helpers: ItemFields -> Outcome<ItemFields>, items: seq<ItemFields>, now: string)
    returns (articles: seq<Article>)
    ensures articles == ItemArticles(c, helpers, items, now)
  {
    articles := [];
    var i := 0;
    while i < |items|
      invariant 0 <= i <= |items|
      invariant articles == ItemArticles(c, helpers, items[..i], now)
    {
      var article := ExtractArticleData(c, helpers(items[i]), now);
      assert items[..i + 1][..i] == items[..i];
      articles := articles + Yielded(article);
      i := i + 1;
    }
    assert items[..i] == items;
  }

  /** Collects the item records, then falls back to the whole page. */
  method CollectArticles(c: Sina, helpers: ItemFields -> Outcome<ItemFields>, page: Page, pageUrl: string, now: string)
    returns (articles: seq<Article>)
    ensures articles == ExtractArticlesWith(c, helpers, page, pageUrl, now)
  {
    articles := CollectItemArticles(c, helpers, ItemsOf(page), now);
    if articles == [] {
      var article := ExtractFromPage(c, page, pageUrl, now);
      if article.Some? {
        articles := [article.value];
      }
    }
  }

  /** With the helpers missing no item ever yields a record. */
  lemma {:induction false} MissingHelpersYieldNothing(c: Sina, items: seq<ItemFields>, now: string)
    ensures ItemArticles(c, MissingHelpers, items, now) == []
    decreases |items|
  {
    if items != [] {
      MissingHelpersYieldNothing(c, items[..|items| - 1], now);
    }
  }

  /** As written, only the whole-page record can ever be produced. */
  lemma AsWrittenOnlyPageRecord(c: Sina, page: Page, pageUrl: string, now: string)
    ensures ExtractArticlesAsWritten(c, page, pageUrl, now)
      == Yielded(ExtractFromPage(c, page, pageUrl, now))
  {
    MissingHelpersYieldNothing(c, ItemsOf(page), now);
  }

  /** A list page with one titled, linked item and no page title. */
  function ReportPage(): Page {
    Page([], [ItemFields("Report A", "https://x.test/a1", "", "", "", "")], [], None, [], [])
  }

  /**
   * On a list page with one titled and linked item, the intended extraction
   * yields that item's record, while the code as written yields nothing.
   */
  lemma ItemRecordLostAsWritten(c: Sina, now: string)
    ensures |ExtractArticles(c, ReportPage(), "https://x.test/list/1.html", now)| == 1
    ensures ExtractArticles(c, ReportPage(), "https://x.test/list/1.html", now)[0].url == "https://x.test/a1"
    ensures ExtractArticlesAsWritten(c, ReportPage(), "https://x.test/list/1.html", now) == []
  {
    var items := ItemsOf(ReportPage());
    assert items[..0] == [];
    assert ExtractArticleData(c, ItemHelpers(items[0]), now).Some?;
    AsWrittenOnlyPageRecord(c, ReportPage(), "https://x.test/list/1.html", now);
  }

  // ---------------------------------------------------------------------------
  // Next-page discovery

  /**
   * A next-page URL is accepted when both URLs parse, share the host, the
   * lower-cased path of the candidate contains "news", and it differs from the
   * current URL.
   */
  predicate IsValidNextPageUrl(lib: UrlLib, next: string, cur: string) {
    match (lib.parse(cur), lib.parse(next))
    case (Some(cp), Some(np)) => cp.netloc == np.netloc && Contains(Lower(np.path), "news") && next != cur
    case _ => false
  }

  /** The maximal run of digits ending at `j` starts here. */
  function DigitRunStart(s: string, j: nat): (k: nat)
    requires j <= |s|
    ensures k <= j && AllDigits(s[k..j]) && (k == 0 || !IsDigit(s[k - 1]))
  {
    if j > 0 && IsDigit(s[j - 1]) then
      var k := DigitRunStart(s, j - 1);
      assert s[k..j] == s[k..j - 1] + [s[j - 1]];
      k
    else j
  }

  /** The maximal run of digits starting at `i` ends here. */
  function DigitRunEnd(s: string, i: nat): (k: nat)
    requires i <= |s|
    ensures i <= k <= |s| && AllDigits(s[i..k]) && (k == |s| || !IsDigit(s[k]))
    decreases |s| - i
  {
    if i < |s| && IsDigit(s[i]) then
      var k := DigitRunEnd(s, i + 1);
      assert forall m :: 0 <= m < k - i ==> s[i..k][m] == s[i + m];
      k
    else i
  }

  /** Where `$` matches: the end of the string, or just before one final newline. */
  function EndAnchor(s: string): (e: nat)
    ensures e <= |s|
  {
    if s != [] && s[|s| - 1] == '\n' then |s| - 1 else |s|
  }

  /** The length of the `\.s?html?` text that ends `t`, or 0 when it does not end with one. */
  function PageSuffixLength(t: string): nat {
    if EndsWith(t, ".shtml") then 6
    else if EndsWith(t, ".html") || EndsWith(t, ".shtm") then 5
    else if EndsWith(t, ".htm") then 4
    else 0
  }

  /** A match's extent: the whole match is `[start, end)`, its number `[digitsStart, digitsEnd)`. */
  datatype Span = Span(start: nat, digitsStart: nat, digitsEnd: nat, end: nat)

  predicate SpanIn(s: string, m: Span) {
    m.start <= m.digitsStart < m.digitsEnd <= m.end <= |s| && AllDigits(s[m.digitsStart..m.digitsEnd])
  }

  /** The match of `(\d+)\.s?html?$`. */
  function TrailingMatch(s: string): (r: Option<Span>)
    ensures r.Some? ==> SpanIn(s, r.value)
  {
    var e := EndAnchor(s);
    var n := PageSuffixLength(s[..e]);
    if n == 0 || n >= e || !IsDigit(s[e - n - 1]) then None
    else
      var k := DigitRunStart(s, e - n);
      Some(Span(k, k, e - n, e))
  }

  /** `key` followed by a digit starts at `i`. */
  predicate KeyAt(s: string, key: string, i: nat) {
    i + |key| < |s| && s[i..i + |key|] == key && IsDigit(s[i + |key|])
  }

  /** The first position at or after `from` where `key` followed by a digit starts. */
  function FindKey(s: string, key: string, from: nat): (r: Option<nat>)
    requires from <= |s|
    ensures r.Some? ==> from <= r.value && KeyAt(s, key, r.value)
    ensures r.Some? ==> forall j :: from <= j < r.value ==> !KeyAt(s, key, j)
    ensures r.None? ==> forall j :: from <= j <= |s| ==> !KeyAt(s, key, j)
    decreases |s| - from
  {
    if KeyAt(s, key, from) then Some(from)
    else if from == |s| then None
    else FindKey(s, key, from + 1)
  }

  /** The match of `key(\d+)`: the leftmost key followed by its whole digit run. */
  function KeyMatch(s: string, key: string): (r: Option<Span>)
    requires key != []
    ensures r.Some? ==> SpanIn(s, r.value)
  {
    match FindKey(s, key, 0)
    case None => None
    case Some(i) =>
      var e := DigitRunEnd(s, i + |key|);
      Some(Span(i, i + |key|, e, e))
  }

  /**
   * `re.sub(key + r'(\d+)', repl, s)`: scanning left to right, every
   * non-overlapping occurrence of the key with its whole digit run is replaced.
   */
  function SubAll(s: string, key: string, repl: string): string
    requires key != []
    decreases |s|
  {
    if s == [] then []
    else if KeyAt(s, key, 0) then repl + SubAll(s[DigitRunEnd(s, |key|)..], key, repl)
    else [s[0]] + SubAll(s[1..], key, repl)
  }

  /** The number after the matched text, as `str(int(group(1)) + 1)`. */
  function NextNumber(s: string, m: Span): string
    requires SpanIn(s, m)
  {
    DecimalString(DecimalValue(s[m.digitsStart..m.digitsEnd]) + 1)
  }

  /** The rewrite under the first pattern; the single match is replaced, extension included. */
  function TrailingCandidate(s: string): Option<string> {
    match TrailingMatch(s)
    case None => None
    case Some(m) => Some(s[..m.start] + NextNumber(s, m) + s[m.end..])
  }

  /** The rewrite under a `key(\d+)` pattern: every occurrence becomes the first number plus one. */
  function KeyCandidate(s: string, key: string): Option<string>
    requires key != []
  {
    match KeyMatch(s, key)
    case None => None
    case Some(m) => Some(SubAll(s, key, NextNumber(s, m)))
  }

  /** The three patterns' rewrites, in the order they are tried. */
  function PatternCandidates(cur: string): seq<Option<string>> {
    [TrailingCandidate(cur), KeyCandidate(cur, "page="), KeyCandidate(cur, "p=")]
  }

  /** A pattern rewrite that exists and validates. */
  predicate CandidateHit(lib: UrlLib, cur: string, c: Option<string>) {
    c.Some? && IsValidNextPageUrl(lib, c.value, cur)
  }

  /** The first rewrite that exists and validates; None exactly when none does. */
  function FirstValidCandidate(lib: UrlLib, cands: seq<Option<string>>, cur: string): (r: Option<string>)
    ensures r.None? <==> forall i :: 0 <= i < |cands| ==> !CandidateHit(lib, cur, cands[i])
    ensures r.Some? ==> exists i :: (0 <= i < |cands| && CandidateHit(lib, cur, cands[i]) && r == cands[i]
      && forall j :: 0 <= j < i ==> !CandidateHit(lib, cur, cands[j]))
  {
    if cands == [] then None
    else if CandidateHit(lib, cur, cands[0]) then cands[0]
    else
      var r := FirstValidCandidate(lib, cands[1..], cur);
      assert forall i :: 1 <= i < |cands| ==> cands[i] == cands[1..][i - 1];
      r
  }

  /**
   * Next-page inference from the current URL's page number: the first of the
   * three pattern rewrites, in pattern order, that validates; None exactly when
   * none does.
   */
  function InferNextPageUrl(lib: UrlLib, cur: string): (r: Option<string>)
    ensures r.None? <==> forall i :: 0 <= i < 3 ==> !CandidateHit(lib, cur, PatternCandidates(cur)[i])
    ensures r.Some? ==> exists i :: (0 <= i < 3 && CandidateHit(lib, cur, PatternCandidates(cur)[i])
      && r == PatternCandidates(cur)[i] && forall j :: 0 <= j < i ==> !CandidateHit(lib, cur, PatternCandidates(cur)[j]))
    ensures r.Some? ==> IsValidNextPageUrl(lib, r.value, cur) && r.value != cur
  {
    FirstValidCandidate(lib, PatternCandidates(cur), cur)
  }

  /** A pagination href that is present, non-empty, and joins to a valid next page. */
  predicate LinkHit(lib: UrlLib, cur: string, link: Option<string>) {
    link.Some? && link.value != "" && lib.join(cur, link.value).Some?
    && IsValidNextPageUrl(lib, lib.join(cur, link.value).value, cur)
  }

  /** A pagination href that is present and non-empty, on which `urljoin` raises. */
  predicate LinkRaises(lib: UrlLib, cur: string, link: Option<string>) {
    link.Some? && link.value != "" && lib.join(cur, link.value).None?
  }

  /** A link that ends the scan over the pagination selectors, one way or the other. */
  predicate Decisive(lib: UrlLib, cur: string, link: Option<string>) {
    LinkHit(lib, cur, link) || LinkRaises(lib, cur, link)
  }

  /** How the scan over the pagination links ends. */
  datatype LinkScan = Hit(url: string) | Exhausted | JoinRaised

  /**
   * Scans the pagination links in selector order. The first link that joins to
   * a valid next page gives a hit; a link on which `urljoin` raises before that
   * ends the scan with the raise; no link of either kind leaves the scan exhausted.
   */
  function FirstValidLink(lib: UrlLib, links: seq<Option<string>>, cur: string): (r: LinkScan)
    ensures r == Exhausted <==> forall i :: 0 <= i < |links| ==> !Decisive(lib, cur, links[i])
    ensures forall i :: 0 <= i < |links| && LinkHit(lib, cur, links[i]) && (forall j :: 0 <= j < i ==> !Decisive(lib, cur, links[j])) ==>
      r == Hit(lib.join(cur, links[i].value).value)
    ensures forall i :: 0 <= i < |links| && LinkRaises(lib, cur, links[i]) && (forall j :: 0 <= j < i ==> !Decisive(lib, cur, links[j])) ==>
      r == JoinRaised
    ensures r.Hit? ==> IsValidNextPageUrl(lib, r.url, cur)
  {
    if links == [] then Exhausted
    else if LinkHit(lib, cur, links[0]) then Hit(lib.join(cur, links[0].value).value)
    else if LinkRaises(lib, cur, links[0]) then JoinRaised
    else
      var r := FirstValidLink(lib, links[1..], cur);
      assert forall i :: 1 <= i < |links| ==> links[i] == links[1..][i - 1];
      r
  }

  /**
   * The next page: the first pagination link that validates when there is one;
   * None when `urljoin` raises on a link before it (the handler's return);
   * otherwise the inferred URL when it is non-empty. Never the current URL.
   */
  function GetNextPageUrl(c: Sina, page: Page, cur: string): (r: Option<string>)
    ensures r.Some? ==> IsValidNextPageUrl(c.lib, r.value, cur) && r.value != cur
    ensures forall i :: (0 <= i < |page.pageLinks| && LinkHit(c.lib, cur, page.pageLinks[i])
      && (forall j :: 0 <= j < i ==> !Decisive(c.lib, cur, page.pageLinks[j]))) ==>
      r == Some(c.lib.join(cur, page.pageLinks[i].value).value)
    ensures forall i :: (0 <= i < |page.pageLinks| && LinkRaises(c.lib, cur, page.pageLinks[i])
      && (forall j :: 0 <= j < i ==> !Decisive(c.lib, cur, page.pageLinks[j]))) ==>
      r == None
    ensures (forall i :: 0 <= i < |page.pageLinks| ==> !Decisive(c.lib, cur, page.pageLinks[i])) ==>
      r == (match InferNextPageUrl(c.lib, cur) { case Some(u) => if u != "" then Some(u) else None case None => None })
  {
    match FirstValidLink(c.lib, page.pageLinks, cur)
    case Hit(u) => Some(u)
    case JoinRaised => None
    case Exhausted =>
      match InferNextPageUrl(c.lib, cur)
      case Some(u) => if u != "" then Some(u) else None
      case None => None
  }

  /** The Sina variant as a crawl plugin; its extraction and pagination never raise. */
  function SinaPlugin(c: Sina, now: string): (r: Plugin)
    ensures NeverRaises(r)
  {
    Plugin((page, url) => Returned(ExtractArticles(c, page, url, now)),
           (page, url) => Returned(GetNextPageUrl(c, page, url)))
  }

  // ---------------------------------------------------------------------------
  // Properties of next-page discovery

  lemma {:induction false} DigitRunStartAt(s: string, k: nat, j: nat)
    requires k <= j <= |s| && AllDigits(s[k..j]) && (k == 0 || !IsDigit(s[k - 1]))
    ensures DigitRunStart(s, j) == k
    decreases j
  {
    if j > k {
      assert s[k..j][j - 1 - k] == s[j - 1];
      assert IsDigit(s[j - 1]);
      assert s[k..j - 1] == s[k..j][..j - 1 - k];
      DigitRunStartAt(s, k, j - 1);
    }
  }

  /** After a number, each extension spelling is recognised with its own length. */
  lemma PageSuffixAfterNumber(x: string, sfx: string)
    requires x != [] && IsDigit(x[|x| - 1])
    requires IsPageSuffix(sfx)
    ensures PageSuffixLength(x + sfx) == |sfx|
  {
    var t := x + sfx;
    assert t[|x| - 1] == x[|x| - 1];
    assert t[|x|..] == sfx;
    if sfx == ".html" {
      assert t[|t| - 6] == x[|x| - 1];
      assert !EndsWith(t, ".shtml");
    } else if sfx == ".htm" {
      assert t[|t| - 1] == 'm';
      assert t[|t| - 5] == x[|x| - 1];
      assert !EndsWith(t, ".shtml") && !EndsWith(t, ".html") && !EndsWith(t, ".shtm");
    } else if sfx == ".shtm" {
      assert t[|t| - 1] == 'm';
      assert !EndsWith(t, ".shtml") && !EndsWith(t, ".html");
    }
  }

  predicate IsPageSuffix(sfx: string) {
    sfx == ".html" || sfx == ".htm" || sfx == ".shtml" || sfx == ".shtm"
  }

  lemma TrailingMatchAt(s: string, k: nat, j: nat)
    requires k < j < |s| && IsPageSuffix(s[j..])
    requires AllDigits(s[k..j]) && (k == 0 || !IsDigit(s[k - 1]))
    ensures TrailingMatch(s) == Some(Span(k, k, j, |s|))
  {
    var sfx := s[j..];
    assert EndAnchor(s) == |s| by {
      assert s[|s| - 1] == sfx[|sfx| - 1];
    }
    assert PageSuffixLength(s[..|s|]) == |sfx| by {
      assert s[..|s|] == s[..j] + sfx;
      assert s[..j][j - 1] == s[k..j][j - 1 - k];
      PageSuffixAfterNumber(s[..j], sfx);
    }
    assert IsDigit(s[j - 1]) by {
      assert s[j - 1] == s[k..j][j - 1 - k];
    }
    DigitRunStartAt(s, k, j);
  }

  /** In a number followed by an html extension, the trailing pattern matches the number and the extension. */
  lemma TrailingMatchOfParts(p: string, d: string, sfx: string)
    requires d != [] && AllDigits(d) && (p == [] || !IsDigit(p[|p| - 1]))
    requires IsPageSuffix(sfx)
    ensures TrailingMatch(p + d + sfx) == Some(Span(|p|, |p|, |p| + |d|, |p| + |d| + |sfx|))
  {
    var s := p + d + sfx;
    var j := |p| + |d|;
    assert s[j..] == sfx;
    assert s[|p|..j] == d;
    assert p != [] ==> s[|p| - 1] == p[|p| - 1];
    TrailingMatchAt(s, |p|, j);
  }

  /**
   * A URL ending in a number and an html extension is rewritten to the prefix
   * followed by the next number: the extension is dropped.
   */
  lemma TrailingRewrite(p: string, d: string, sfx: string)
    requires d != [] && AllDigits(d) && (p == [] || !IsDigit(p[|p| - 1]))
    requires IsPageSuffix(sfx)
    ensures TrailingCandidate(p + d + sfx) == Some(p + DecimalString(DecimalValue(d) + 1))
  {
    var s := p + d + sfx;
    var m := Span(|p|, |p|, |p| + |d|, |s|);
    TrailingMatchOfParts(p, d, sfx);
    var x := NextNumber(s, m);
    CandidateOfMatch(s, m);
    assert s[m.digitsStart..m.digitsEnd] == d;
    assert s[..m.start] == p;
    assert s[m.end..] == [];
    assert p + x + [] == p + x;
  }

  lemma CandidateOfMatch(s: string, m: Span)
    requires TrailingMatch(s) == Some(m)
    ensures SpanIn(s, m) && TrailingCandidate(s) == Some(s[..m.start] + NextNumber(s, m) + s[m.end..])
  {
  }

  /** The Sina list URL `.../news/1.html` is inferred to continue at `.../news/2`. */
  lemma SinaInferExample(lib: UrlLib)
    requires lib.parse("https://news.sina.com.cn/news/1.html") == Some(ParsedUrl("https", "news.sina.com.cn", "/news/1.html"))
    requires lib.parse("https://news.sina.com.cn/news/2") == Some(ParsedUrl("https", "news.sina.com.cn", "/news/2"))
    ensures InferNextPageUrl(lib, "https://news.sina.com.cn/news/1.html") == Some("https://news.sina.com.cn/news/2")
  {
    var cur := "https://news.sina.com.cn/news/1.html";
    var next := "https://news.sina.com.cn/news/2";
    SinaTrailingCandidate();
    assert PatternCandidates(cur)[0] == Some(next);
    SinaNextIsNewsPage(lib);
  }

  lemma SinaTrailingCandidate()
    ensures TrailingCandidate("https://news.sina.com.cn/news/1.html") == Some("https://news.sina.com.cn/news/2")
  {
    var p := "https://news.sina.com.cn/news/";
    SinaUrlParts();
    OneToTwo();
    assert !IsDigit(p[|p| - 1]);
    TrailingRewrite(p, "1", ".html");
  }

  lemma SinaUrlParts()
    ensures "https://news.sina.com.cn/news/1.html" == "https://news.sina.com.cn/news/" + "1" + ".html"
    ensures "https://news.sina.com.cn/news/2" == "https://news.sina.com.cn/news/" + "2"
  {
  }

  lemma OneToTwo()
    ensures DecimalString(DecimalValue("1") + 1) == "2"
  {
    assert "1"[..0] == [];
  }

  lemma SinaNextIsNewsPage(lib: UrlLib)
    requires lib.parse("https://news.sina.com.cn/news/1.html") == Some(ParsedUrl("https", "news.sina.com.cn", "/news/1.html"))
    requires lib.parse("https://news.sina.com.cn/news/2") == Some(ParsedUrl("https", "news.sina.com.cn", "/news/2"))
    ensures IsValidNextPageUrl(lib, "https://news.sina.com.cn/news/2", "https://news.sina.com.cn/news/1.html")
  {
    LowerIdentity("/news/2");
    assert "/news/2"[1..5] == "news";
    ContainsAt("/news/2", "news", 1);
  }

  /** Validation as the crawler tests exercise it: same-host news page accepted, other host refused. */
  lemma NextPageValidationExamples(lib: UrlLib)
    requires lib.parse("https://news.sina.com.cn/news/1.html") == Some(ParsedUrl("https", "news.sina.com.cn", "/news/1.html"))
    requires lib.parse("https://news.sina.com.cn/news/2.html") == Some(ParsedUrl("https", "news.sina.com.cn", "/news/2.html"))
    requires lib.parse("https://other.com/news/2.html") == Some(ParsedUrl("https", "other.com", "/news/2.html"))
    ensures IsValidNextPageUrl(lib, "https://news.sina.com.cn/news/2.html", "https://news.sina.com.cn/news/1.html")
    ensures !IsValidNextPageUrl(lib, "https://other.com/news/2.html", "https://news.sina.com.cn/news/1.html")
  {
    LowerIdentity("/news/2.html");
    assert "/news/2.html"[1..5] == "news";
    ContainsAt("/news/2.html", "news", 1);
  }

  /**
   * A pagination href on which `urljoin` raises ends the search with None, even
   * when a later selector offers a usable link and without trying inference.
   */
  lemma JoinRaiseEndsSearch(c: Sina, cur: string, later: string)
    requires c.lib.join(cur, "http://[x") == None
    ensures GetNextPageUrl(c, Page([], [], [], None, [], [Some("http://[x"), Some(later)]), cur) == None
  {
  }

  /** A page number behind a key: every occurrence of the key with its number is replaced. */
  lemma KeyRewriteEveryOccurrence()
    ensures KeyCandidate("page=1&page=1", "page=") == Some("2&2")
  {
    var s := "page=1&page=1";
    assert KeyAt(s, "page=", 0) by {
      assert s[0..5] == "page=";
    }
    assert DigitRunEnd(s, 5) == 6 by {
      assert DigitRunEnd(s, 6) == 6;
    }
    assert DecimalValue(s[5..6]) == 1 by {
      assert s[5..6] == "1";
      assert "1"[..0] == [];
    }
    assert DecimalString(2) == "2";
    var rest := s[6..];
    assert rest == "&page=1";
    assert !KeyAt(rest, "page=", 0);
    var tail := rest[1..];
    assert tail == "page=1";
    assert KeyAt(tail, "page=", 0) by {
      assert tail[0..5] == "page=";
    }
    assert DigitRunEnd(tail, 5) == 6 by {
      assert DigitRunEnd(tail, 6) == 6;
    }
    assert tail[6..] == [];
    assert SubAll(tail, "page=", "2") == "2";
    assert SubAll(rest, "page=", "2") == "&2";
    assert SubAll(s, "page=", "2") == "2&2";
    assert FindKey(s, "page=", 0) == Some(0);
    assert KeyMatch(s, "page=") == Some(Span(0, 5, 6, 6));
    assert NextNumber(s, Span(0, 5, 6, 6)) == "2";
  }
}
