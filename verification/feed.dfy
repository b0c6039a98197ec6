/**
 * The item loop of `onRequest` (functions/rss.js:36-52): the listed objects
 * are walked in order, those whose key ends in `.mp3` whatever its case are
 * kept, and one `<item>` block per kept object is appended to `rssItems`.
 * The specification is written as two steps, a filter (`Kept`) and a map
 * (`Items`), rendered by `RenderAll`; `BuildItems` is the loop itself.
 */
module Feed {
  import opened Xml
  import Decimal

  /**
   * One entry of the storage listing. `uploaded` is the upload time already
   * rendered as the HTTP date `new Date(object.uploaded).toUTCString()` gives.
   */
  datatype StorageObject = StorageObject(key: string, size: nat, uploaded: string)

  /** What the loop derives from one kept object, before escaping. */
  datatype FeedItem = FeedItem(title: string, url: string, length: nat, pubDate: string)

  /** `toLowerCase` on one character, restricted to ASCII letters. */
  function LowerChar(c: char): char {
    if 'A' <= c <= 'Z' then (c as int + 32) as char else c
  }

  function Lower(s: string): string {
    seq(|s|, i requires 0 <= i < |s| => LowerChar(s[i]))
  }

  /** `object.key.toLowerCase().endsWith('.mp3')` (functions/rss.js:38). */
  predicate IsMp3(key: string) {
    var k := Lower(key);
    |k| >= 4 && k[|k| - 4..] == ".mp3"
  }

  /** The filter accepts exactly the keys whose last four characters spell `.mp3` in any case. */
  lemma IsMp3Iff(key: string)
    ensures IsMp3(key) <==>
      |key| >= 4 && key[|key| - 4] == '.' &&
      (key[|key| - 3] == 'm' || key[|key| - 3] == 'M') &&
      (key[|key| - 2] == 'p' || key[|key| - 2] == 'P') &&
      key[|key| - 1] == '3'
  {
    var k := Lower(key);
    if |key| >= 4 {
      var n := |key|;
      assert k[n - 4..] == [k[n - 4], k[n - 3], k[n - 2], k[n - 1]];
    }
  }

  /** `String.prototype.substring` with one non-negative argument: a start past the end gives "". */
  function SubstringFrom(s: string, start: nat): (r: string)
    ensures start <= |s| ==> s == s[..start] + r
    ensures start >= |s| ==> r == []
  {
    if start <= |s| then s[start..] else []
  }

  /** The item derived from a kept object (functions/rss.js:39-41). */
  function MakeItem(o: StorageObject, prefix: string, base: string): FeedItem {
    FeedItem(SubstringFrom(o.key, |prefix|), base + "/" + o.key, o.size, o.uploaded)
  }

  /**
   * The text one item appends to `rssItems` (functions/rss.js:43-50),
   * whitespace included; nested at each field so that the fixed text after a
   * field is one piece.
   */
  function RenderItem(it: FeedItem): string {
    "\n            <item>\n              <title>" + (Escape(it.title)
    + ("</title>\n              <link>" + (Escape(it.url)
    + ("</link>\n              <enclosure url=\"" + (Escape(it.url)
    + ("\" length=\"" + (Decimal.Show(it.length)
    + ("\" type=\"audio/mpeg\"/>\n" + ("              <pubDate>" + (it.pubDate
    + "</pubDate>\n            </item>\n          "))))))))))
  }

  /** The filter step: the `.mp3` objects, in listing order. */
  function Kept(objs: seq<StorageObject>): (r: seq<StorageObject>)
    ensures |r| <= |objs|
    ensures forall o :: o in r <==> o in objs && IsMp3(o.key)
  {
    if objs == [] then []
    else (if IsMp3(objs[0].key) then [objs[0]] else []) + Kept(objs[1..])
  }

  /** The map step: one item per kept object. */
  function Items(objs: seq<StorageObject>, prefix: string, base: string): seq<FeedItem> {
    var k := Kept(objs);
    seq(|k|, j requires 0 <= j < |k| => MakeItem(k[j], prefix, base))
  }

  /** The items' text, concatenated in order. */
  function RenderAll(items: seq<FeedItem>): string {
    if items == [] then "" else RenderItem(items[0]) + RenderAll(items[1..])
  }

  /** Positions of the listing that hold an `.mp3` object. */
  ghost function Mp3Positions(objs: seq<StorageObject>): set<int> {
    set i | 0 <= i < |objs| && IsMp3(objs[i].key)
  }

  /** Filtering commutes with concatenation, so the relative order of the listing survives. */
  lemma {:induction false} KeptAppend(a: seq<StorageObject>, b: seq<StorageObject>)
    ensures Kept(a + b) == Kept(a) + Kept(b)
  {
    if a == [] {
      assert a + b == b;
    } else {
      assert (a + b)[0] == a[0];
      assert (a + b)[1..] == a[1..] + b;
      KeptAppend(a[1..], b);
    }
  }

  lemma ItemsAppendOne(objs: seq<StorageObject>, o: StorageObject, prefix: string, base: string)
    ensures Items(objs + [o], prefix, base)
         == Items(objs, prefix, base) + (if IsMp3(o.key) then [MakeItem(o, prefix, base)] else [])
  {
    KeptAppend(objs, [o]);
    assert Kept([o]) == (if IsMp3(o.key) then [o] else []) + Kept([]);
  }

  lemma {:induction false} RenderAllAppend(a: seq<FeedItem>, b: seq<FeedItem>)
    ensures RenderAll(a + b) == RenderAll(a) + RenderAll(b)
  {
    if a == [] {
      assert a + b == b;
    } else {
      assert (a + b)[0] == a[0];
      assert (a + b)[1..] == a[1..] + b;
      RenderAllAppend(a[1..], b);
    }
  }

  /** There are exactly as many items as `.mp3` objects in the listing. */
  lemma {:induction false} ItemCount(objs: seq<StorageObject>, prefix: string, base: string)
    ensures |Items(objs, prefix, base)| == |Mp3Positions(objs)|
    decreases |objs|
  {
    if objs != [] {
      var n := |objs| - 1;
      var init, last := objs[..n], objs[n];
      assert objs == init + [last];
      ItemCount(init, prefix, base);
      ItemsAppendOne(init, last, prefix, base);
      Mp3PositionsAppendOne(init, last);
    }
  }

  lemma Mp3PositionsAppendOne(objs: seq<StorageObject>, o: StorageObject)
    ensures Mp3Positions(objs + [o]) == Mp3Positions(objs) + (if IsMp3(o.key) then {|objs|} else {})
    ensures |objs| !in Mp3Positions(objs)
  {
  }

  /**
   * The `.mp3` object at position `i` yields the item at the position equal to
   * the number of `.mp3` objects before it: items follow the listing's order.
   */
  lemma ItemAt(objs: seq<StorageObject>, i: int, prefix: string, base: string)
    requires 0 <= i < |objs| && IsMp3(objs[i].key)
    ensures |Mp3Positions(objs[..i])| < |Items(objs, prefix, base)|
    ensures Items(objs, prefix, base)[|Mp3Positions(objs[..i])|] == MakeItem(objs[i], prefix, base)
  {
    var before, rest := objs[..i], objs[i + 1..];
    assert objs == before + [objs[i]] + rest;
    KeptAppend(before + [objs[i]], rest);
    KeptAppend(before, [objs[i]]);
    assert Kept([objs[i]]) == [objs[i]] + Kept([]);
    ItemCount(before, prefix, base);
  }

  /** A listing without `.mp3` keys yields no item at all, and conversely. */
  lemma NoItemsIff(objs: seq<StorageObject>, prefix: string, base: string)
    ensures Items(objs, prefix, base) == [] <==> forall i :: 0 <= i < |objs| ==> !IsMp3(objs[i].key)
  {
    ItemCount(objs, prefix, base);
    if exists i :: 0 <= i < |objs| && IsMp3(objs[i].key) {
      var i :| 0 <= i < |objs| && IsMp3(objs[i].key);
      assert i in Mp3Positions(objs);
    } else {
      assert Mp3Positions(objs) == {};
    }
  }

  /**
   * For a key `prefix + rest` the title is `rest`, the enclosure URL is the
   * base, a slash and the whole key, and the length is the object's size.
   */
  lemma ItemOfPrefixedKey(o: StorageObject, prefix: string, rest: string, base: string)
    requires o.key == prefix + rest
    ensures MakeItem(o, prefix, base) == FeedItem(rest, base + "/" + prefix + rest, o.size, o.uploaded)
  {
  }

  /** A key shorter than the prefix gets an empty title, as `substring` clamps its start. */
  lemma ShortKeyEmptyTitle(o: StorageObject, prefix: string, base: string)
    requires |o.key| <= |prefix|
    ensures MakeItem(o, prefix, base).title == ""
  {
  }

  /** Index of the first `m` in `s`, or `|s|` when there is none. */
  function Find(s: string, m: char): nat {
    if s == [] || s[0] == m then 0 else 1 + Find(s[1..], m)
  }

  lemma {:induction false} FindAfter(x: string, u: string, m: char)
    requires forall i :: 0 <= i < |x| ==> x[i] != m
    requires u != [] && u[0] == m
    ensures Find(x + u, m) == |x|
  {
    if x == [] {
      assert x + u == u;
    } else {
      assert (x + u)[0] == x[0];
      assert (x + u)[1..] == x[1..] + u;
      FindAfter(x[1..], u, m);
    }
  }

  lemma CancelPrefix(p: string, x: string, y: string)
    requires p + x == p + y
    ensures x == y
  {
    assert x == (p + x)[|p|..] && y == (p + y)[|p|..];
  }

  lemma DigitsHaveNoQuote(s: string)
    requires Decimal.AllDigits(s)
    ensures forall i :: 0 <= i < |s| ==> s[i] != '"'
  {
  }

  /**
   * Two texts that agree up to a marker character the fields before it do not
   * hold agree on those fields and on what follows.
   */
  lemma SplitAtMarker(x: string, u: string, y: string, v: string, m: char)
    requires x + u == y + v
    requires forall i :: 0 <= i < |x| ==> x[i] != m
    requires forall i :: 0 <= i < |y| ==> y[i] != m
    requires u != [] && u[0] == m && v != [] && v[0] == m
    ensures x == y && u == v
  {
    FindAfter(x, u, m);
    FindAfter(y, v, m);
    assert x == (x + u)[..|x|] && y == (y + v)[..|y|];
    assert u == (x + u)[|x|..] && v == (y + v)[|y|..];
  }

  /**
   * The rendered `<item>` block determines the item: title, URL, length and
   * date can each be read back from it. The escaped title and URL hold no
   * `<` or `"`, the length is digits only, and the fixed text after each of
   * them starts with `<` or `"`.
   */
  lemma RenderItemInjective(a: FeedItem, b: FeedItem)
    requires RenderItem(a) == RenderItem(b)
    ensures a == b
  {
    var head := "\n            <item>\n              <title>";
    var s1 := "</title>\n              <link>";
    var s2 := "</link>\n              <enclosure url=\"";
    var s3 := "\" length=\"";
    var s4 := "\" type=\"audio/mpeg\"/>\n";
    var s5 := "              <pubDate>";
    assert s1[0] == '<' && s2[0] == '<' && s4[0] == '"';
    var tail := "</pubDate>\n            </item>\n          ";
    var ta, ua, la := Escape(a.title), Escape(a.url), Decimal.Show(a.length);
    var tb, ub, lb := Escape(b.title), Escape(b.url), Decimal.Show(b.length);
    var da, db := s5 + (a.pubDate + tail), s5 + (b.pubDate + tail);
    var ra := s3 + (la + (s4 + da));
    var rb := s3 + (lb + (s4 + db));
    assert RenderItem(a) == head + (ta + (s1 + (ua + (s2 + (ua + ra)))));
    assert RenderItem(b) == head + (tb + (s1 + (ub + (s2 + (ub + rb)))));
    CancelPrefix(head, ta + (s1 + (ua + (s2 + (ua + ra)))), tb + (s1 + (ub + (s2 + (ub + rb)))));
    SplitAtMarker(ta, s1 + (ua + (s2 + (ua + ra))), tb, s1 + (ub + (s2 + (ub + rb))), '<');
    CancelPrefix(s1, ua + (s2 + (ua + ra)), ub + (s2 + (ub + rb)));
    SplitAtMarker(ua, s2 + (ua + ra), ub, s2 + (ub + rb), '<');
    CancelPrefix(s2, ua + ra, ub + rb);
    CancelPrefix(ua, ra, rb);
    CancelPrefix(s3, la + (s4 + da), lb + (s4 + db));
    DigitsHaveNoQuote(la);
    DigitsHaveNoQuote(lb);
    SplitAtMarker(la, s4 + da, lb, s4 + db, '"');
    CancelPrefix(s4, da, db);
    CancelPrefix(s5, a.pubDate + tail, b.pubDate + tail);
    assert a.pubDate == (a.pubDate + tail)[..|a.pubDate|];
    assert b.pubDate == (b.pubDate + tail)[..|b.pubDate|];
    EscapeInjective(a.title, b.title);
    EscapeInjective(a.url, b.url);
    Decimal.ShowInjective(a.length, b.length);
  }

  /** What one more listed object adds to the rendered items. */
  lemma RenderAllStep(objs: seq<StorageObject>, o: StorageObject, prefix: string, base: string)
    ensures RenderAll(Items(objs + [o], prefix, base))
         == RenderAll(Items(objs, prefix, base)) + (if IsMp3(o.key) then RenderItem(MakeItem(o, prefix, base)) else "")
  {
    var done := Items(objs, prefix, base);
    ItemsAppendOne(objs, o, prefix, base);
    if IsMp3(o.key) {
      var item := MakeItem(o, prefix, base);
      RenderAllAppend(done, [item]);
      assert RenderAll([item]) == RenderItem(item) + RenderAll([]);
    } else {
      assert done + [] == done;
    }
  }

  /** The filter keeps `a.mp3` and `b.MP3` and drops `notes.txt`. */
  lemma MixedCaseKept(a: StorageObject, b: StorageObject, n: StorageObject)
    requires a.key == "showA/a.mp3" && b.key == "showA/b.MP3" && n.key == "showA/notes.txt"
    ensures Kept([a, b, n]) == [a, b]
  {
    IsMp3Iff(a.key);
    IsMp3Iff(b.key);
    IsMp3Iff(n.key);
    assert Kept([n]) == [];
    assert Kept([b, n]) == [b] by { assert [b, n][1..] == [n]; }
    assert [a, b, n][1..] == [b, n];
  }

  /**
   * A listing of `showA/a.mp3`, `showA/b.MP3` and `showA/notes.txt` under the
   * prefix `showA/` gives two items, titled `a.mp3` and `b.MP3`, in that order.
   */
  lemma MixedCaseListing(base: string, t1: string, t2: string, t3: string)
    ensures Items([StorageObject("showA/a.mp3", 100, t1), StorageObject("showA/b.MP3", 200, t2),
                   StorageObject("showA/notes.txt", 5, t3)], "showA/", base)
         == [FeedItem("a.mp3", base + "/showA/a.mp3", 100, t1), FeedItem("b.MP3", base + "/showA/b.MP3", 200, t2)]
  {
    var a, b, n := StorageObject("showA/a.mp3", 100, t1), StorageObject("showA/b.MP3", 200, t2),
                   StorageObject("showA/notes.txt", 5, t3);
    MixedCaseKept(a, b, n);
    assert a.key == "showA/" + "a.mp3";
    assert b.key == "showA/" + "b.MP3";
    ItemOfPrefixedKey(a, "showA/", "a.mp3", base);
    ItemOfPrefixedKey(b, "showA/", "b.MP3", base);
    assert base + "/" + "showA/" + "a.mp3" == base + "/showA/a.mp3";
    assert base + "/" + "showA/" + "b.MP3" == base + "/showA/b.MP3";
  }

  /** The loop of functions/rss.js:36-52, appending to `rssItems` one kept object at a time. */
  method BuildItems(objs: seq<StorageObject>, prefix: string, base: string) returns (rssItems: string)
    ensures rssItems == RenderAll(Items(objs, prefix, base))
  {
    rssItems := "";
    assert Items(objs[..0], prefix, base) == [];
    for i := 0 to |objs|
      invariant rssItems == RenderAll(Items(objs[..i], prefix, base))
    {
      var o := objs[i];
      assert objs[..i + 1] == objs[..i] + [o];
      RenderAllStep(objs[..i], o, prefix, base);
      if IsMp3(o.key) {
        var mp3Url := base + "/" + o.key;
        var itemTitle := SubstringFrom(o.key, |prefix|);
        rssItems := rssItems + RenderItem(FeedItem(itemTitle, mp3Url, o.size, o.uploaded));
      }
    }
    assert objs[..|objs|] == objs;
  }
}
