/**
 * The page-selection logic of the grain-price scraper. For one calendar
 * page (a year, a crop and optionally a class) it collects the links to
 * daily price pages, reads each link's date from its path, keeps at most
 * two pages per month (the latest on or before the 15th and the latest
 * after it), and picks the table column holding the class's price.
 *
 * The browser is an oracle: the calendar page's link targets arrive as a
 * list of optional `href` values, and resolving a link against the site's
 * base address is a function parameter.
 */
module PriceScraper {
  import opened Wrappers
  import Strings
  import Sorting

  const DateMarker := "cerealspricesdate"

  // ---------------------------------------------------------------------
  // Collecting the date links
  // ---------------------------------------------------------------------

  predicate OccursAt(s: string, t: string, i: int) {
    0 <= i <= |s| - |t| && s[i..i + |t|] == t
  }

  /** Python's `t in s` on strings: `t` occurs somewhere in `s`. */
  predicate Contains(s: string, t: string) {
    exists i :: 0 <= i <= |s| && OccursAt(s, t, i)
  }

  /** A link is followed when its `href` is present, non-empty and mentions the date marker. */
  predicate Qualifies(href: Option<string>) {
    href.Some? && href.value != "" && Contains(href.value, DateMarker)
  }

  /** The resolved address of every qualifying link, in page order, repeats included. */
  function Resolved(hrefs: seq<Option<string>>, resolve: string -> string): (r: seq<string>)
    ensures forall u :: u in r <==> exists k :: 0 <= k < |hrefs| && Qualifies(hrefs[k]) && resolve(hrefs[k].value) == u
  {
    if hrefs == [] then []
    else
      var init := Resolved(hrefs[..|hrefs| - 1], resolve);
      var last := hrefs[|hrefs| - 1];
      assert forall k :: 0 <= k < |hrefs| - 1 ==> hrefs[..|hrefs| - 1][k] == hrefs[k];
      if Qualifies(last) then init + [resolve(last.value)] else init
  }

  /** The elements of `xs` without repeats, each where it first occurs. */
  function Dedup<T(==,!new)>(xs: seq<T>): (r: seq<T>)
    ensures forall i, j :: 0 <= i < j < |r| ==> r[i] != r[j]
    ensures forall x :: x in r <==> x in xs
  {
    if xs == [] then []
    else
      var init := Dedup(xs[..|xs| - 1]);
      var x := xs[|xs| - 1];
      assert xs == xs[..|xs| - 1] + [x];
      if x in init then init else init + [x]
  }

  function FirstIndex<T(==)>(xs: seq<T>, x: T): (i: nat)
    requires x in xs
    ensures i < |xs| && xs[i] == x
    ensures forall j :: 0 <= j < i ==> xs[j] != x
  {
    if xs[0] == x then 0 else 1 + FirstIndex(xs[1..], x)
  }

  lemma {:induction false} FirstIndexAppend<T>(xs: seq<T>, y: T, x: T)
    requires x in xs
    ensures FirstIndex(xs + [y], x) == FirstIndex(xs, x)
  {
    var i := FirstIndex(xs, x);
    var k := FirstIndex(xs + [y], x);
    assert (xs + [y])[i] == x;
    assert k <= i;
    assert xs[k] == x;
  }

  /** `Dedup` keeps first-seen order: earlier in the result means seen first in the input. */
  lemma {:induction false} DedupKeepsFirstSeenOrder<T(!new)>(xs: seq<T>)
    ensures forall i, j :: 0 <= i < j < |Dedup(xs)| ==>
              FirstIndex(xs, Dedup(xs)[i]) < FirstIndex(xs, Dedup(xs)[j])
  {
    if xs != [] {
      var init := xs[..|xs| - 1];
      var x := xs[|xs| - 1];
      var d := Dedup(init);
      assert xs == init + [x];
      DedupKeepsFirstSeenOrder(init);
      forall y | y in init
        ensures FirstIndex(xs, y) == FirstIndex(init, y)
      {
        FirstIndexAppend(init, x, y);
      }
      if x !in d {
        assert FirstIndex(xs, x) == |init|;
      }
    }
  }

  /** The calendar's date pages: resolved qualifying links, repeats dropped, in first-seen order. */
  function Collected(hrefs: seq<Option<string>>, resolve: string -> string): seq<string> {
    Dedup(Resolved(hrefs, resolve))
  }

  /** Collects the date-page addresses of a calendar page, skipping repeats. */
  method CollectUrls(hrefs: seq<Option<string>>, resolve: string -> string) returns (urls: seq<string>)
    ensures urls == Collected(hrefs, resolve)
  {
    urls := [];
    for i := 0 to |hrefs|
      invariant urls == Dedup(Resolved(hrefs[..i], resolve))
    {
      ResolvedStep(hrefs, resolve, i);
      var href := hrefs[i];
      if href.Some? && href.value != "" && Contains(href.value, DateMarker) {
        var fullUrl := resolve(href.value);
        assert Qualifies(hrefs[i]);
        assert Resolved(hrefs[..i + 1], resolve) == Resolved(hrefs[..i], resolve) + [fullUrl];
        DedupStep(Resolved(hrefs[..i], resolve), fullUrl);
        if fullUrl !in urls {
          urls := urls + [fullUrl];
        }
        assert urls == Dedup(Resolved(hrefs[..i + 1], resolve));
      } else {
        assert !Qualifies(hrefs[i]);
        assert Resolved(hrefs[..i + 1], resolve) == Resolved(hrefs[..i], resolve);
        assert urls == Dedup(Resolved(hrefs[..i + 1], resolve));
      }
    }
    assert hrefs[..|hrefs|] == hrefs;
  }

  lemma ResolvedStep(hrefs: seq<Option<string>>, resolve: string -> string, i: nat)
    requires i < |hrefs|
    ensures Resolved(hrefs[..i + 1], resolve) ==
      Resolved(hrefs[..i], resolve) + (if Qualifies(hrefs[i]) then [resolve(hrefs[i].value)] else [])
  {
    assert hrefs[..i + 1][..i] == hrefs[..i];
  }

  lemma DedupStep<T(!new)>(xs: seq<T>, x: T)
    ensures Dedup(xs + [x]) == if x in Dedup(xs) then Dedup(xs) else Dedup(xs) + [x]
  {
    assert (xs + [x])[..|xs|] == xs;
  }

  /** The optional page limit, applied before the half-month selection. */
  function Truncate(urls: seq<string>, maxPages: Option<nat>): (r: seq<string>)
    ensures maxPages.None? ==> r == urls
    ensures maxPages.Some? ==> |r| == (if maxPages.value < |urls| then maxPages.value else |urls|)
    ensures r == urls[..|r|]
  {
    if maxPages.None? || maxPages.value >= |urls| then urls else urls[..maxPages.value]
  }

  // ---------------------------------------------------------------------
  // Reading a date from a page address
  // ---------------------------------------------------------------------

  /** Python's `int()` on an optional sign followed by decimal digits. */
  function PyInt(s: string): (r: Option<int>)
    ensures Strings.AllDigits(s) && s != [] ==> r == Some(Strings.DigitsValue(s))
  {
    if s != [] && (s[0] == '+' || s[0] == '-') then
      var digits := s[1..];
      if digits != [] && Strings.AllDigits(digits) then
        var v: int := Strings.DigitsValue(digits);
        Some(if s[0] == '-' then -v else v)
      else None
    else if s != [] && Strings.AllDigits(s) then Some(Strings.DigitsValue(s))
    else None
  }

  /** `str.zfill(2)`: zeros inserted after any sign until the text is two characters long. */
  function ZFill2(s: string): (r: string)
    ensures |r| == (if |s| >= 2 then |s| else 2)
    ensures |s| >= 2 ==> r == s
    ensures |s| == 1 && Strings.IsDigit(s[0]) ==> r == ['0', s[0]]
  {
    if |s| >= 2 then s
    else if |s| == 1 && (s[0] == '+' || s[0] == '-') then [s[0], '0']
    else if |s| == 1 then ['0', s[0]]
    else "00"
  }

  /** A page's month bucket (`year-month`, month zero-padded) and its day. */
  datatype PageDate = PageDate(monthKey: string, day: int)

  /**
   * The date of a page address: the path segment after the first segment
   * equal to the marker, split on '-' into exactly three integers.
   * Anything else yields no date.
   */
  function DateOf(url: string): (r: Option<PageDate>)
    ensures r.Some? ==> DateMarker in Strings.SplitAll(url, '/')
  {
    var parts := Strings.SplitAll(url, '/');
    if DateMarker !in parts then None
    else
      var idx := FirstIndex(parts, DateMarker);
      if |parts| <= idx + 1 then None
      else
        var components := Strings.SplitAll(parts[idx + 1], '-');
        if |components| != 3 then None
        else
          var year := PyInt(components[0]);
          var month := PyInt(components[1]);
          var day := PyInt(components[2]);
          if year.None? || month.None? || day.None? then None
          else Some(PageDate(components[0] + "-" + ZFill2(components[1]), day.value))
  }

  /** Splitting at a separator splits each side on its own. */
  lemma {:induction false} SplitAllConcat(a: string, b: string, sep: char)
    ensures Strings.SplitAll(a + [sep] + b, sep) == Strings.SplitAll(a, sep) + Strings.SplitAll(b, sep)
  {
    var s := a + [sep] + b;
    if a == [] {
      assert s[1..] == b;
    } else {
      assert s[1..] == a[1..] + [sep] + b;
      SplitAllConcat(a[1..], b, sep);
      var tailA := Strings.SplitAll(a[1..], sep);
      var rest := Strings.SplitAll(s[1..], sep);
      assert rest == tailA + Strings.SplitAll(b, sep);
      var tailB := Strings.SplitAll(b, sep);
      if a[0] == sep {
        assert Strings.SplitAll(s, sep) == [""] + rest;
        assert Strings.SplitAll(a, sep) == [""] + tailA;
        ConsAppend("", tailA, tailB);
      } else {
        var first := [a[0]] + tailA[0];
        assert Strings.SplitAll(s, sep) == [[a[0]] + rest[0]] + rest[1..];
        assert Strings.SplitAll(a, sep) == [first] + tailA[1..];
        assert rest[0] == tailA[0];
        assert rest[1..] == tailA[1..] + tailB;
        ConsAppend(first, tailA[1..], tailB);
      }
    }
  }

  lemma ConsAppend<T>(x: T, u: seq<T>, v: seq<T>)
    ensures [x] + (u + v) == ([x] + u) + v
  {
  }

  lemma DigitsHaveNoSeparators(s: string)
    requires Strings.AllDigits(s)
    ensures '/' !in s && '-' !in s
  {
    assert forall i :: 0 <= i < |s| ==> Strings.IsDigit(s[i]);
  }

  /** A `Y-M-D` text of digit strings splits on '-' into its three parts. */
  lemma DateSplits(y: string, m: string, d: string)
    requires Strings.AllDigits(y) && Strings.AllDigits(m) && Strings.AllDigits(d)
    ensures '/' !in y + "-" + m + "-" + d
    ensures Strings.SplitAll(y + "-" + m + "-" + d, '-') == [y, m, d]
  {
    DigitsHaveNoSeparators(y);
    DigitsHaveNoSeparators(m);
    DigitsHaveNoSeparators(d);
    var date := y + "-" + m + "-" + d;
    assert date == y + ['-'] + (m + ['-'] + d);
    SplitAllConcat(y, m + ['-'] + d, '-');
    SplitAllConcat(m, d, '-');
    Strings.SplitAllWithoutSep(y, '-');
    Strings.SplitAllWithoutSep(m, '-');
    Strings.SplitAllWithoutSep(d, '-');
  }

  /** The path segments of `<prefix>/<marker>/<date>/<rest>` when neither `marker` nor `date` has a '/'. */
  lemma SiteAddressSegments(prefix: string, marker: string, date: string, rest: string)
    requires '/' !in marker && '/' !in date
    ensures Strings.SplitAll(prefix + ['/'] + (marker + ['/'] + (date + ['/'] + rest)), '/')
            == Strings.SplitAll(prefix, '/') + ([marker] + ([date] + Strings.SplitAll(rest, '/')))
  {
    var t3 := date + ['/'] + rest;
    var t2 := marker + ['/'] + t3;
    SplitAllConcat(date, rest, '/');
    Strings.SplitAllWithoutSep(date, '/');
    assert Strings.SplitAll(t3, '/') == [date] + Strings.SplitAll(rest, '/');
    SplitAllConcat(marker, t3, '/');
    Strings.SplitAllWithoutSep(marker, '/');
    assert Strings.SplitAll(t2, '/') == [marker] + Strings.SplitAll(t3, '/');
    SplitAllConcat(prefix, t2, '/');
  }

  lemma {:induction false} FirstIndexAfter<T>(pre: seq<T>, x: T, post: seq<T>)
    requires x !in pre
    ensures x in pre + ([x] + post) && FirstIndex(pre + ([x] + post), x) == |pre|
  {
    var xs := pre + ([x] + post);
    assert xs[|pre|] == x;
    assert forall j :: 0 <= j < |pre| ==> xs[j] == pre[j];
  }

  /** `DateOf` read off the segments: the marker's first occurrence is followed by a three-part date. */
  lemma {:induction false} DateOfSegments(url: string, pre: seq<string>, date: string, post: seq<string>,
                                          y: string, m: string, d: string)
    requires Strings.SplitAll(url, '/') == pre + ([DateMarker] + ([date] + post))
    requires DateMarker !in pre
    requires Strings.SplitAll(date, '-') == [y, m, d]
    requires PyInt(y).Some? && PyInt(m).Some? && PyInt(d).Some?
    ensures DateOf(url) == Some(PageDate(y + "-" + ZFill2(m), PyInt(d).value))
  {
    var parts := pre + ([DateMarker] + ([date] + post));
    FirstIndexAfter(pre, DateMarker, [date] + post);
    assert parts[|pre| + 1] == date;
  }

  /** The segments `DateOf` reads a date from. */
  lemma DateOfParts(url: string) returns (pre: seq<string>, date: string, post: seq<string>, c: seq<string>)
    requires DateOf(url).Some?
    ensures Strings.SplitAll(url, '/') == pre + ([DateMarker] + ([date] + post))
    ensures DateMarker !in pre
    ensures Strings.SplitAll(date, '-') == c && |c| == 3
    ensures PyInt(c[0]).Some? && PyInt(c[1]).Some? && PyInt(c[2]).Some?
  {
    var parts := Strings.SplitAll(url, '/');
    var idx := FirstIndex(parts, DateMarker);
    assert idx + 1 < |parts|;
    pre, date, post := SplitAtFirst(parts, DateMarker);
    c := Strings.SplitAll(date, '-');
  }

  /** A list cut around the first occurrence of `x` and the element after it. */
  lemma SplitAtFirst<T>(xs: seq<T>, x: T) returns (pre: seq<T>, next: T, post: seq<T>)
    requires x in xs && FirstIndex(xs, x) + 1 < |xs|
    ensures xs == pre + ([x] + ([next] + post)) && x !in pre
    ensures pre == xs[..FirstIndex(xs, x)] && next == xs[FirstIndex(xs, x) + 1]
  {
    var i := FirstIndex(xs, x);
    pre, next, post := xs[..i], xs[i + 1], xs[i + 2..];
    assert xs == pre + ([x] + ([next] + post));
    assert forall j :: 0 <= j < |pre| ==> pre[j] == xs[j];
  }

  /**
   * Conversely, an address has a date only in that form: the marker's first
   * occurrence is followed by a segment of three integer parts, which give
   * the bucket and the day.
   */
  lemma DateOfOnlyIf(url: string)
    requires DateOf(url).Some?
    ensures exists pre, date, post, y, m, d ::
              && Strings.SplitAll(url, '/') == pre + ([DateMarker] + ([date] + post))
              && DateMarker !in pre
              && Strings.SplitAll(date, '-') == [y, m, d]
              && PyInt(y).Some? && PyInt(m).Some? && PyInt(d).Some?
              && DateOf(url) == Some(PageDate(y + "-" + ZFill2(m), PyInt(d).value))
  {
    var pre, date, post, c := DateOfParts(url);
    assert c == [c[0], c[1], c[2]];
    DateOfSegments(url, pre, date, post, c[0], c[1], c[2]);
  }

  /** The address of a date page: `<prefix>/cerealspricesdate/<date>/<rest>`. */
  function SiteAddress(prefix: string, date: string, rest: string): string {
    prefix + "/" + (DateMarker + "/" + (date + "/" + rest))
  }

  /**
   * A page address of the site's form, `<prefix>/cerealspricesdate/Y-M-D/<rest>`
   * with digit strings Y, M, D and no marker segment in the prefix, falls in
   * bucket "Y-M" (M padded to two digits) with day D.
   */
  lemma {:induction false} DateOfSiteAddress(prefix: string, y: string, m: string, d: string, rest: string)
    requires DateMarker !in Strings.SplitAll(prefix, '/')
    requires y != [] && m != [] && d != []
    requires Strings.AllDigits(y) && Strings.AllDigits(m) && Strings.AllDigits(d)
    ensures DateOf(SiteAddress(prefix, y + "-" + m + "-" + d, rest))
            == Some(PageDate(y + "-" + ZFill2(m), Strings.DigitsValue(d)))
  {
    var date := y + "-" + m + "-" + d;
    DateSplits(y, m, d);
    assert '/' !in DateMarker;
    SiteAddressSegments(prefix, DateMarker, date, rest);
    DateOfSegments(SiteAddress(prefix, date, rest), Strings.SplitAll(prefix, '/'), date,
                   Strings.SplitAll(rest, '/'), y, m, d);
  }

  // ---------------------------------------------------------------------
  // Grouping the pages by month
  // ---------------------------------------------------------------------

  datatype Entry = Entry(day: int, url: string)

  /**
   * The grouping takes the date reader as a parameter; the selection of a
   * calendar page instantiates it with `DateOf`.
   */
  type DateReader = string -> Option<PageDate>

  /** The month bucket of every dated page, in page order, repeats included. */
  function MonthKeys(urls: seq<string>, date: DateReader): (r: seq<string>)
    ensures forall k :: k in r <==> exists i :: 0 <= i < |urls| && date(urls[i]).Some? && date(urls[i]).value.monthKey == k
  {
    if urls == [] then []
    else
      var init := MonthKeys(urls[..|urls| - 1], date);
      var d := date(urls[|urls| - 1]);
      assert forall i :: 0 <= i < |urls| - 1 ==> urls[..|urls| - 1][i] == urls[i];
      if d.Some? then init + [d.value.monthKey] else init
  }

  /** The pages dated in bucket `key`, as (day, address) pairs in page order. */
  function Entries(urls: seq<string>, key: string, date: DateReader): seq<Entry> {
    if urls == [] then []
    else
      var init := Entries(urls[..|urls| - 1], key, date);
      var u := urls[|urls| - 1];
      var d := date(u);
      if d.Some? && d.value.monthKey == key then init + [Entry(d.value.day, u)] else init
  }

  /** Every entry of a bucket is a page of the list dated in that bucket. */
  lemma {:induction false} EntriesAreDated(urls: seq<string>, key: string, date: DateReader)
    ensures forall e :: e in Entries(urls, key, date) ==> e.url in urls && date(e.url) == Some(PageDate(key, e.day))
  {
    if urls != [] {
      var init := urls[..|urls| - 1];
      EntriesAreDated(init, key, date);
      assert urls == init + [urls[|urls| - 1]];
    }
  }

  /** A bucket is empty exactly when no page of the list falls in it. */
  lemma {:induction false} EntriesEmptyIff(urls: seq<string>, key: string, date: DateReader)
    ensures Entries(urls, key, date) == [] <==> key !in MonthKeys(urls, date)
  {
    if urls != [] {
      EntriesEmptyIff(urls[..|urls| - 1], key, date);
    }
  }

  /** Files one page under its month bucket, creating the bucket on first use. */
  method FileUnderMonth(ghost done: seq<string>, url: string, order: seq<string>, groups: map<string, seq<Entry>>, date: DateReader)
    returns (order': seq<string>, groups': map<string, seq<Entry>>)
    requires order == Dedup(MonthKeys(done, date))
    requires forall k :: k in groups <==> k in order
    requires forall k :: k in groups ==> groups[k] == Entries(done, k, date)
    ensures order' == Dedup(MonthKeys(done + [url], date))
    ensures forall k :: k in groups' <==> k in order'
    ensures forall k :: k in groups' ==> groups'[k] == Entries(done + [url], k, date)
  {
    MonthKeysStep(done, url, date);
    order', groups' := order, groups;
    var d := date(url);
    if d.Some? {
      var key := d.value.monthKey;
      DedupStep(MonthKeys(done, date), key);
      if key !in groups' {
        EntriesEmptyIff(done, key, date);
        order' := order' + [key];
        groups' := groups'[key := []];
      }
      groups' := groups'[key := groups'[key] + [Entry(d.value.day, url)]];
    } else {
      assert MonthKeys(done + [url], date) == MonthKeys(done, date);
    }
    forall k | k in groups'
      ensures groups'[k] == Entries(done + [url], k, date)
    {
      EntriesStep(done, url, k, date);
    }
  }

  lemma MonthKeysStep(done: seq<string>, url: string, date: DateReader)
    ensures MonthKeys(done + [url], date) ==
      MonthKeys(done, date) + (if date(url).Some? then [date(url).value.monthKey] else [])
  {
    assert (done + [url])[..|done|] == done;
  }

  lemma EntriesStep(done: seq<string>, url: string, key: string, date: DateReader)
    ensures Entries(done + [url], key, date) ==
      if date(url).Some? && date(url).value.monthKey == key
      then Entries(done, key, date) + [Entry(date(url).value.day, url)]
      else Entries(done, key, date)
  {
    assert (done + [url])[..|done|] == done;
  }

  /**
   * Fills the month buckets, an insertion-ordered dictionary: `order` lists
   * the buckets as first created and `groups` holds each bucket's pages.
   */
  method GroupByMonth(urls: seq<string>, date: DateReader) returns (order: seq<string>, groups: map<string, seq<Entry>>)
    ensures order == Dedup(MonthKeys(urls, date))
    ensures forall k :: k in groups <==> k in order
    ensures forall k :: k in groups ==> groups[k] == Entries(urls, k, date)
  {
    order := [];
    groups := map[];
    for i := 0 to |urls|
      invariant order == Dedup(MonthKeys(urls[..i], date))
      invariant forall k :: k in groups <==> k in order
      invariant forall k :: k in groups ==> groups[k] == Entries(urls[..i], k, date)
    {
      assert urls[..i + 1] == urls[..i] + [urls[i]];
      order, groups := FileUnderMonth(urls[..i], urls[i], order, groups, date);
    }
    assert urls[..|urls|] == urls;
  }

  // ---------------------------------------------------------------------
  // Choosing two pages per month
  // ---------------------------------------------------------------------

  /** Python's ordering of strings: lexicographic by code point, a prefix first. */
  predicate LexLeq(a: string, b: string) {
    a == [] || (b != [] && (a[0] < b[0] || (a[0] == b[0] && LexLeq(a[1..], b[1..]))))
  }

  lemma {:induction false} LexTotal(a: string, b: string)
    ensures LexLeq(a, b) || LexLeq(b, a)
  {
    if a != [] && b != [] && a[0] == b[0] {
      LexTotal(a[1..], b[1..]);
    }
  }

  lemma {:induction false} LexTransitive(a: string, b: string, c: string)
    requires LexLeq(a, b) && LexLeq(b, c)
    ensures LexLeq(a, c)
  {
    if a != [] && b != [] && c != [] && a[0] == b[0] && b[0] == c[0] {
      LexTransitive(a[1..], b[1..], c[1..]);
    }
  }

  lemma {:induction false} LexAntisymmetric(a: string, b: string)
    requires LexLeq(a, b) && LexLeq(b, a)
    ensures a == b
  {
    if a != [] && b != [] {
      LexAntisymmetric(a[1..], b[1..]);
      assert a == [a[0]] + a[1..] && b == [b[0]] + b[1..];
    }
  }

  /** Python's ordering of `(day, url)` tuples. */
  predicate EntryLeq(a: Entry, b: Entry) {
    a.day < b.day || (a.day == b.day && LexLeq(a.url, b.url))
  }

  const EntryKey := (e: Entry) => e
  const EntryOrder := (a: Entry, b: Entry) => EntryLeq(a, b)
  const KeyOf := (k: string) => k
  const KeyOrder := (a: string, b: string) => LexLeq(a, b)

  lemma KeyOrderTotal()
    ensures Sorting.TotalOrder(KeyOrder)
  {
    forall a: string, b: string
      ensures KeyOrder(a, b) || KeyOrder(b, a)
    {
      LexTotal(a, b);
    }
    forall a: string, b: string, c: string | KeyOrder(a, b) && KeyOrder(b, c)
      ensures KeyOrder(a, c)
    {
      LexTransitive(a, b, c);
    }
  }

  lemma EntryOrderTotal()
    ensures Sorting.TotalOrder(EntryOrder)
  {
    forall a: Entry, b: Entry
      ensures EntryOrder(a, b) || EntryOrder(b, a)
    {
      LexTotal(a.url, b.url);
    }
    forall a: Entry, b: Entry, c: Entry | EntryOrder(a, b) && EntryOrder(b, c)
      ensures EntryOrder(a, c)
    {
      if a.day == b.day == c.day {
        LexTransitive(a.url, b.url, c.url);
      }
    }
  }

  /** Which half of the month a day falls in: on or before the 15th, or after it. */
  predicate InHalf(e: Entry, early: bool) {
    (e.day <= 15) == early
  }

  /** The entries of one half, in order. */
  function Half(entries: seq<Entry>, early: bool): (r: seq<Entry>)
    ensures forall e :: e in r <==> e in entries && InHalf(e, early)
  {
    if entries == [] then []
    else
      var init := Half(entries[..|entries| - 1], early);
      var e := entries[|entries| - 1];
      assert entries == entries[..|entries| - 1] + [e];
      if InHalf(e, early) then init + [e] else init
  }

  /** The last address of a half of the day-sorted bucket, if that half is not empty. */
  function Pick(entries: seq<Entry>, early: bool): seq<string> {
    var half := Half(Sorting.SortBy(entries, EntryKey, EntryOrder), early);
    if half == [] then [] else [half[|half| - 1].url]
  }

  /** A bucket's contribution: its early pick, then its late pick. */
  function MonthPicks(entries: seq<Entry>): seq<string> {
    Pick(entries, true) + Pick(entries, false)
  }

  /** The picks of the buckets `keys`, in that order. */
  function Picks(keys: seq<string>, groups: map<string, seq<Entry>>): seq<string>
    requires forall k :: k in keys ==> k in groups
  {
    if keys == [] then []
    else Picks(keys[..|keys| - 1], groups) + MonthPicks(groups[keys[|keys| - 1]])
  }

  /** Sorting the bucket keys keeps exactly the same keys. */
  lemma SortedKeysSame(order: seq<string>)
    ensures forall k :: k in Sorting.SortBy(order, KeyOf, KeyOrder) <==> k in order
  {
    Sorting.SortPermutes(order, KeyOf, KeyOrder);
    assert forall k :: k in Sorting.SortBy(order, KeyOf, KeyOrder) <==> k in multiset(Sorting.SortBy(order, KeyOf, KeyOrder));
    assert forall k :: k in order <==> k in multiset(order);
  }

  /** The selected pages: the buckets in ascending key order, each contributing its picks. */
  function Selection(order: seq<string>, groups: map<string, seq<Entry>>): seq<string>
    requires forall k :: k in order ==> k in groups
  {
    SortedKeysSame(order);
    Picks(Sorting.SortBy(order, KeyOf, KeyOrder), groups)
  }

  /** One bucket: sort by (day, address), then keep the last page of each half. */
  method PicksOfMonth(entries: seq<Entry>) returns (picked: seq<string>)
    ensures picked == MonthPicks(entries)
  {
    var dates := Sorting.SortBy(entries, EntryKey, EntryOrder);
    picked := [];
    var before := Half(dates, true);
    if before != [] {
      picked := picked + [before[|before| - 1].url];
    }
    var after := Half(dates, false);
    if after != [] {
      picked := picked + [after[|after| - 1].url];
    }
  }

  /** Walks the buckets in sorted key order and keeps each one's early and late page. */
  method SelectHalfMonths(order: seq<string>, groups: map<string, seq<Entry>>) returns (filtered: seq<string>)
    requires forall k :: k in order ==> k in groups
    ensures filtered == Selection(order, groups)
  {
    var keys := Sorting.SortBy(order, KeyOf, KeyOrder);
    SortedKeysSame(order);
    filtered := [];
    for i := 0 to |keys|
      invariant forall k :: k in keys[..i] ==> k in groups
      invariant filtered == Picks(keys[..i], groups)
    {
      PicksStep(keys, groups, i);
      var picked := PicksOfMonth(groups[keys[i]]);
      filtered := filtered + picked;
    }
    assert keys[..|keys|] == keys;
  }

  lemma PicksStep(keys: seq<string>, groups: map<string, seq<Entry>>, i: nat)
    requires forall k :: k in keys ==> k in groups
    requires i < |keys|
    ensures forall k :: k in keys[..i + 1] ==> k in groups
    ensures keys[i] in groups
    ensures Picks(keys[..i + 1], groups) == Picks(keys[..i], groups) + MonthPicks(groups[keys[i]])
  {
    assert keys[..i + 1][..i] == keys[..i];
    assert keys[i] in keys;
  }

  /** The last element of a half of an ascending list is the largest of that half. */
  lemma {:induction false} LastOfHalfIsLargest(s: seq<Entry>, early: bool, e: Entry)
    requires Sorting.SortedBy(s, EntryKey, EntryOrder)
    requires e in s && InHalf(e, early)
    ensures Half(s, early) != []
    ensures EntryLeq(e, Half(s, early)[|Half(s, early)| - 1])
  {
    var init := s[..|s| - 1];
    var last := s[|s| - 1];
    assert s == init + [last];
    if InHalf(last, early) {
      var i :| 0 <= i < |s| && s[i] == e;
      if i < |s| - 1 {
        assert EntryOrder(s[i], s[|s| - 1]);
      } else {
        LexTotal(e.url, e.url);
      }
    } else {
      assert e in init;
      LastOfHalfIsLargest(init, early, e);
    }
  }

  /** Sorting a bucket keeps its entries. */
  lemma SortKeepsEntries(entries: seq<Entry>)
    ensures forall e :: e in entries <==> e in Sorting.SortBy(entries, EntryKey, EntryOrder)
  {
    var sorted := Sorting.SortBy(entries, EntryKey, EntryOrder);
    Sorting.SortPermutes(entries, EntryKey, EntryOrder);
    assert forall e :: e in entries <==> e in multiset(entries);
    assert forall e :: e in sorted <==> e in multiset(sorted);
  }

  /** After sorting a bucket by (day, address), each non-empty half ends with its largest entry. */
  lemma HalfEndsWithLatest(entries: seq<Entry>, early: bool)
    ensures var half := Half(Sorting.SortBy(entries, EntryKey, EntryOrder), early);
      half != [] ==> forall e :: e in entries && InHalf(e, early) ==> EntryLeq(e, half[|half| - 1])
  {
    var sorted := Sorting.SortBy(entries, EntryKey, EntryOrder);
    SortKeepsEntries(entries);
    EntryOrderTotal();
    Sorting.SortSorted(entries, EntryKey, EntryOrder);
    forall e | e in entries && InHalf(e, early)
      ensures EntryLeq(e, Half(sorted, early)[|Half(sorted, early)| - 1])
    {
      LastOfHalfIsLargest(sorted, early, e);
    }
  }

  /**
   * A bucket's pick for a half exists iff some page falls in that half,
   * and then it is the page with the latest day there (ties broken by the
   * larger address).
   */
  lemma PickIsLatest(entries: seq<Entry>, early: bool)
    ensures Pick(entries, early) == [] <==> forall e :: e in entries ==> !InHalf(e, early)
    ensures Pick(entries, early) != [] ==>
              exists p :: p in entries && InHalf(p, early) && Pick(entries, early) == [p.url] &&
                forall e :: e in entries && InHalf(e, early) ==> EntryLeq(e, p)
  {
    var half := Half(Sorting.SortBy(entries, EntryKey, EntryOrder), early);
    HalfEmptyIff(entries, early);
    HalfEndsWithLatest(entries, early);
    if half != [] {
      var p := half[|half| - 1];
      HalfLastIsEntry(entries, early);
      assert Pick(entries, early) == [p.url];
    }
  }

  /** A half of the sorted bucket is empty iff no entry of the bucket falls in it. */
  lemma HalfEmptyIff(entries: seq<Entry>, early: bool)
    ensures Half(Sorting.SortBy(entries, EntryKey, EntryOrder), early) == [] <==> forall e :: e in entries ==> !InHalf(e, early)
  {
    var sorted := Sorting.SortBy(entries, EntryKey, EntryOrder);
    var half := Half(sorted, early);
    SortKeepsEntries(entries);
    if half != [] {
      assert half[0] in half;
      assert half[0] in entries && InHalf(half[0], early);
    } else {
      forall e | e in entries
        ensures !InHalf(e, early)
      {
        assert e in sorted;
      }
    }
  }

  /** The last entry of a non-empty half of the sorted bucket is an entry of the bucket in that half. */
  lemma HalfLastIsEntry(entries: seq<Entry>, early: bool)
    requires Half(Sorting.SortBy(entries, EntryKey, EntryOrder), early) != []
    ensures var half := Half(Sorting.SortBy(entries, EntryKey, EntryOrder), early);
      half[|half| - 1] in entries && InHalf(half[|half| - 1], early)
  {
    var half := Half(Sorting.SortBy(entries, EntryKey, EntryOrder), early);
    SortKeepsEntries(entries);
    assert half[|half| - 1] in half;
  }

  /** Every month contributes at most two pages. */
  lemma MonthPicksAtMostTwo(entries: seq<Entry>)
    ensures |MonthPicks(entries)| <= 2
  {
  }

  // ---------------------------------------------------------------------
  // The whole selection for one calendar page
  // ---------------------------------------------------------------------

  /** The date pages visited for one calendar page. */
  function PagesFor(hrefs: seq<Option<string>>, resolve: string -> string, maxPages: Option<nat>): seq<string> {
    var urls := Truncate(Collected(hrefs, resolve), maxPages);
    var order := Dedup(MonthKeys(urls, DateOf));
    Selection(order, map k | k in order :: Entries(urls, k, DateOf))
  }

  /** Collects, limits, groups and selects the date pages of one calendar page. */
  method SelectPages(hrefs: seq<Option<string>>, resolve: string -> string, maxPages: Option<nat>)
    returns (urls: seq<string>)
    ensures urls == PagesFor(hrefs, resolve, maxPages)
  {
    var collected := CollectUrls(hrefs, resolve);
    if collected == [] {
      NoLinksNoPages(hrefs, resolve, maxPages);
      return [];
    }
    collected := Truncate(collected, maxPages);
    var order, groups := GroupByMonth(collected, DateOf);
    assert groups == map k | k in order :: Entries(collected, k, DateOf);
    urls := SelectHalfMonths(order, groups);
  }

  lemma NoLinksNoPages(hrefs: seq<Option<string>>, resolve: string -> string, maxPages: Option<nat>)
    requires Collected(hrefs, resolve) == []
    ensures PagesFor(hrefs, resolve, maxPages) == []
  {
    var none: seq<string> := [];
    assert Truncate(Collected(hrefs, resolve), maxPages) == none;
    assert Dedup(MonthKeys(none, DateOf)) == none;
    assert Sorting.SortBy(none, KeyOf, KeyOrder) == none;
  }

  /** Every selected page is a followed link of the calendar page, and among the first `maxPages` of them. */
  lemma {:induction false} PicksAreCollected(keys: seq<string>, groups: map<string, seq<Entry>>, urls: seq<string>, date: DateReader)
    requires forall k :: k in keys ==> k in groups
    requires forall k :: k in groups ==> groups[k] == Entries(urls, k, date)
    ensures forall u :: u in Picks(keys, groups) ==> u in urls
  {
    if keys != [] {
      PicksAreCollected(keys[..|keys| - 1], groups, urls, date);
      var entries := groups[keys[|keys| - 1]];
      PickIsLatest(entries, true);
      PickIsLatest(entries, false);
      EntriesAreDated(urls, keys[|keys| - 1], date);
    }
  }

  lemma SelectedPagesAreLinks(hrefs: seq<Option<string>>, resolve: string -> string, maxPages: Option<nat>)
    ensures forall u :: u in PagesFor(hrefs, resolve, maxPages) ==>
              u in Truncate(Collected(hrefs, resolve), maxPages) && u in Resolved(hrefs, resolve)
  {
    var urls := Truncate(Collected(hrefs, resolve), maxPages);
    var order := Dedup(MonthKeys(urls, DateOf));
    var groups := map k | k in order :: Entries(urls, k, DateOf);
    var keys := Sorting.SortBy(order, KeyOf, KeyOrder);
    SortedKeysSame(order);
    PicksAreCollected(keys, groups, urls, DateOf);
  }

  // ---------------------------------------------------------------------
  // The price column
  // ---------------------------------------------------------------------

  /** Column 2 holds the class-3 price, 6 the class-4 price, 10 the class-5 price. */
  function PriceColumn(cropClass: Option<int>): (col: nat)
    ensures col == 6 <==> cropClass == Some(4)
    ensures col == 10 <==> cropClass == Some(5)
    ensures col == 2 <==> cropClass != Some(4) && cropClass != Some(5)
  {
    if cropClass.Some? && cropClass.value == 4 then 6
    else if cropClass.Some? && cropClass.value == 5 then 10
    else 2
  }

  /** A price table is read only when it has at least three columns and the price column exists. */
  predicate TableUsable(columns: nat, cropClass: Option<int>) {
    columns >= 3 && columns > PriceColumn(cropClass)
  }

  /** Per class, the smallest table whose rows are read: 11 columns for class 5, 7 for class 4, 3 otherwise. */
  lemma TableUsableIff(columns: nat, cropClass: Option<int>)
    ensures cropClass != Some(4) && cropClass != Some(5) ==> (TableUsable(columns, cropClass) <==> columns >= 3)
    ensures cropClass == Some(5) ==> (TableUsable(columns, cropClass) <==> columns >= 11)
    ensures cropClass == Some(4) ==> (TableUsable(columns, cropClass) <==> columns >= 7)
  {
  }
}
