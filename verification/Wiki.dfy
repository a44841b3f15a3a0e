/**
 Wiki generation with checkpoints (deepwiki/internal/service/executors.go, the wiki Execute; deepwiki/internal/store/wiki_store.go):
 pages are generated one by one, the wiki is saved whole after each, and a rerun takes up an unfinished wiki whose table of
 contents has the same slugs.
 */
module Wiki {
  import opened Options

  datatype TocItem = TocItem(slug: string, title: string, sortOrder: int)

  datatype Page = Page(slug: string, title: string, content: string, sortOrder: int)

  datatype WikiRow = TocRow(toc: seq<TocItem>) | PageRow(title: string, content: string, sortOrder: int)

  const TOC_SLUG := "_toc"

  predicate DistinctSlugs(toc: seq<TocItem>) {
    forall i, j :: 0 <= i < j < |toc| ==> toc[i].slug != toc[j].slug
  }

  predicate DistinctPages(pages: seq<Page>) {
    forall i, j :: 0 <= i < j < |pages| ==> pages[i].slug != pages[j].slug
  }

  /** Slugs the table can hold: no two alike, none the contents row's. */
  predicate Savable(pages: seq<Page>) {
    DistinctPages(pages) && forall i :: 0 <= i < |pages| ==> pages[i].slug != TOC_SLUG
  }

  function RowOf(p: Page): WikiRow {
    PageRow(p.title, p.content, p.sortOrder)
  }

  predicate HasPage(pages: seq<Page>, slug: string) {
    exists i :: 0 <= i < |pages| && pages[i].slug == slug
  }

  lemma HasPageAfter(pages: seq<Page>, p: Page)
    ensures forall s :: HasPage(pages + [p], s) <==> HasPage(pages, s) || p.slug == s
  {
    forall s ensures HasPage(pages + [p], s) <==> HasPage(pages, s) || p.slug == s {
      if HasPage(pages, s) {
        var i :| 0 <= i < |pages| && pages[i].slug == s;
        assert (pages + [p])[i].slug == s;
      }
      assert (pages + [p])[|pages|] == p;
    }
  }

  /** The rows of a saved wiki: its contents row and one row per page. */
  ghost predicate Stores(rows: map<string, WikiRow>, toc: seq<TocItem>, pages: seq<Page>) {
    && TOC_SLUG in rows && rows[TOC_SLUG] == TocRow(toc)
    && (forall i :: 0 <= i < |pages| ==> pages[i].slug in rows && rows[pages[i].slug] == RowOf(pages[i]))
    && (forall s :: s in rows && s != TOC_SLUG ==> HasPage(pages, s))
  }

  predicate InToc(toc: seq<TocItem>, slug: string) {
    exists i :: 0 <= i < |toc| && toc[i].slug == slug
  }

  /** How a transaction's commit ends: done, undone, or done without the caller hearing of it. */
  datatype Commit = Committed | RolledBack | Unheard

  class WikiTable {
    var rows: map<string, WikiRow>

    /** Nothing saved yet, or a contents row with pages for some of its slugs. */
    ghost predicate Valid()
      reads this
    {
      rows == map[] ||
      (&& TOC_SLUG in rows && rows[TOC_SLUG].TocRow?
       && forall s :: s in rows && s != TOC_SLUG ==> rows[s].PageRow? && InToc(rows[TOC_SLUG].toc, s))
    }

    constructor ()
      ensures Valid() && rows == map[]
    {
      rows := map[];
    }

    /** `Save`: one transaction that deletes everything and inserts the contents row and the page rows; a repeated slug violates the key and undoes it. */
    method Save(toc: seq<TocItem>, pages: seq<Page>, commit: Commit) returns (ok: bool)
      modifies this
      ensures ok <==> commit.Committed? && Savable(pages)
      ensures if !commit.RolledBack? && Savable(pages) then Stores(rows, toc, pages) else rows == old(rows)
    {
      var tx: map<string, WikiRow> := map[TOC_SLUG := TocRow(toc)];
      for i := 0 to |pages|
        invariant Stores(tx, toc, pages[..i]) && Savable(pages[..i]) && rows == old(rows)
      {
        if pages[i].slug in tx {
          Repeated(tx, toc, pages, i);
          return false;
        }
        OneMorePage(tx, toc, pages, i);
        tx := tx[pages[i].slug := RowOf(pages[i])];
      }
      assert pages[..|pages|] == pages;
      if commit.RolledBack? {
        return false;
      }
      rows := tx;
      return commit.Committed?;
    }

    /** `Get`: the contents and the pages in sort order; nothing if there is no row. */
    method Get() returns (found: bool, toc: seq<TocItem>, pages: seq<Page>)
      requires Valid()
      ensures found <==> rows != map[]
      ensures found ==> TOC_SLUG in rows && rows[TOC_SLUG] == TocRow(toc) && Stores(rows, toc, pages) && Savable(pages)
      ensures found ==> forall i, j :: 0 <= i < j < |pages| ==> pages[i].sortOrder <= pages[j].sortOrder
    {
      toc, pages := [], [];
      if |rows| == 0 {
        return false, toc, pages;
      }
      toc := rows[TOC_SLUG].toc;
      pages := InOrder(rows, rows.Keys - {TOC_SLUG});
      return true, toc, pages;
    }
  }

  /** The pages are these rows, each once. */
  ghost predicate Lists(rows: map<string, WikiRow>, slugs: set<string>, pages: seq<Page>) {
    && DistinctPages(pages)
    && (forall i :: 0 <= i < |pages| ==> pages[i].slug in slugs && pages[i].slug in rows && rows[pages[i].slug] == RowOf(pages[i]))
    && (forall s :: s in slugs ==> HasPage(pages, s))
  }

  lemma NothingListed(rows: map<string, WikiRow>)
    ensures Lists(rows, {}, [])
  {
  }

  lemma OneMoreListed(rows: map<string, WikiRow>, done: set<string>, pages: seq<Page>, page: Page)
    requires Lists(rows, done, pages) && page.slug !in done && page.slug in rows && rows[page.slug] == RowOf(page)
    ensures Lists(rows, done + {page.slug}, pages + [page])
  {
    HasPageAfter(pages, page);
  }

  /** The query's order. */
  method InOrder(rows: map<string, WikiRow>, slugs: set<string>) returns (pages: seq<Page>)
    requires slugs <= rows.Keys && forall s :: s in slugs ==> rows[s].PageRow?
    ensures Lists(rows, slugs, pages)
    ensures forall i, j :: 0 <= i < j < |pages| ==> pages[i].sortOrder <= pages[j].sortOrder
  {
    hide Lists;
    pages := [];
    var rest := slugs;
    assert Lists(rows, slugs - rest, pages) by { NothingListed(rows); assert slugs - rest == {}; }
    while rest != {}
      invariant rest <= slugs && Lists(rows, slugs - rest, pages)
      invariant forall i, j :: 0 <= i < j < |pages| ==> pages[i].sortOrder <= pages[j].sortOrder
      invariant forall i, s :: 0 <= i < |pages| && s in rest ==> pages[i].sortOrder <= rows[s].sortOrder
      decreases rest
    {
      LeastExists(rows, rest);
      var s :| s in rest && forall u :: u in rest ==> rows[s].sortOrder <= rows[u].sortOrder;
      var page := Page(s, rows[s].title, rows[s].content, rows[s].sortOrder);
      OneMoreListed(rows, slugs - rest, pages, page);
      assert slugs - rest + {s} == slugs - (rest - {s});
      ghost var before := pages;
      pages := pages + [page];
      rest := rest - {s};
      assert forall i :: 0 <= i < |before| ==> pages[i] == before[i];
    }
    assert slugs - rest == slugs;
  }

  lemma Repeated(tx: map<string, WikiRow>, toc: seq<TocItem>, pages: seq<Page>, i: nat)
    requires i < |pages| && Stores(tx, toc, pages[..i]) && pages[i].slug in tx
    ensures !Savable(pages)
  {
    if pages[i].slug != TOC_SLUG {
      var j :| 0 <= j < i && pages[..i][j].slug == pages[i].slug;
      assert pages[j].slug == pages[i].slug;
    }
  }

  lemma OneMorePage(tx: map<string, WikiRow>, toc: seq<TocItem>, pages: seq<Page>, i: nat)
    requires i < |pages| && Stores(tx, toc, pages[..i]) && Savable(pages[..i]) && pages[i].slug !in tx
    ensures Stores(tx[pages[i].slug := RowOf(pages[i])], toc, pages[..i + 1]) && Savable(pages[..i + 1])
  {
    assert pages[..i + 1] == pages[..i] + [pages[i]];
    HasPageAfter(pages[..i], pages[i]);
  }

  lemma {:induction false} LeastExists(rows: map<string, WikiRow>, slugs: set<string>)
    requires slugs != {} && slugs <= rows.Keys && forall s :: s in slugs ==> rows[s].PageRow?
    ensures exists s :: s in slugs && forall u :: u in slugs ==> rows[s].sortOrder <= rows[u].sortOrder
    decreases slugs
  {
    var s :| s in slugs;
    if slugs == {s} {
      assert forall u :: u in slugs ==> u == s;
    } else {
      LeastExists(rows, slugs - {s});
      var o :| o in slugs - {s} && forall u :: u in slugs - {s} ==> rows[o].sortOrder <= rows[u].sortOrder;
      var best := if rows[s].sortOrder <= rows[o].sortOrder then s else o;
      assert forall u :: u in slugs ==> rows[best].sortOrder <= rows[u].sortOrder;
    }
  }

  /** `sameTOCSlugs`. */
  method SameTocSlugs(a: seq<TocItem>, b: seq<TocItem>) returns (same: bool)
    ensures same == SameSlugs(a, b)
  {
    if |a| != |b| {
      return false;
    }
    for i := 0 to |a|
      invariant forall j :: 0 <= j < i ==> a[j].slug == b[j].slug
    {
      if a[i].slug != b[i].slug {
        return false;
      }
    }
    return true;
  }

  predicate SameSlugs(a: seq<TocItem>, b: seq<TocItem>) {
    |a| == |b| && forall i :: 0 <= i < |a| ==> a[i].slug == b[i].slug
  }

  // ---------- the executor ----------

  /** Contents whose slugs the table can hold. */
  predicate GoodToc(toc: seq<TocItem>) {
    DistinctSlugs(toc) && forall i :: 0 <= i < |toc| ==> toc[i].slug != TOC_SLUG
  }

  /** A saved wiki is taken up when it has fewer pages than contents, with the same slugs. */
  ghost predicate Resumes(rows: map<string, WikiRow>, toc: seq<TocItem>) {
    && TOC_SLUG in rows && rows[TOC_SLUG].TocRow?
    && |rows| - 1 < |rows[TOC_SLUG].toc|
    && SameSlugs(rows[TOC_SLUG].toc, toc)
  }

  function SlugSet(toc: seq<TocItem>): set<string> {
    set i | 0 <= i < |toc| :: toc[i].slug
  }

  function PageSlugs(pages: seq<Page>): set<string> {
    set i | 0 <= i < |pages| :: pages[i].slug
  }

  lemma {:induction false} FewSlugs(toc: seq<TocItem>)
    ensures |SlugSet(toc)| <= |toc| && (DistinctSlugs(toc) ==> |SlugSet(toc)| == |toc|)
  {
    if toc == [] {
      assert SlugSet(toc) == {};
    } else {
      var init := toc[..|toc| - 1];
      FewSlugs(init);
      assert SlugSet(toc) == SlugSet(init) + {toc[|toc| - 1].slug};
    }
  }

  lemma {:induction false} DistinctPageCount(pages: seq<Page>)
    requires DistinctPages(pages)
    ensures |PageSlugs(pages)| == |pages|
  {
    if pages == [] {
      assert PageSlugs(pages) == {};
    } else {
      var init := pages[..|pages| - 1];
      DistinctPageCount(init);
      assert PageSlugs(pages) == PageSlugs(init) + {pages[|pages| - 1].slug};
      assert pages[|pages| - 1].slug !in PageSlugs(init);
    }
  }

  lemma StoredCount(rows: map<string, WikiRow>, toc: seq<TocItem>, pages: seq<Page>)
    requires Stores(rows, toc, pages) && Savable(pages)
    ensures |rows| == |pages| + 1
  {
    DistinctPageCount(pages);
    assert rows.Keys == PageSlugs(pages) + {TOC_SLUG};
    assert |rows| == |rows.Keys|;
  }

  lemma SmallerSet(a: set<string>, b: set<string>)
    requires a <= b
    ensures |a| <= |b|
  {
    assert b == a + (b - a);
  }

  /** 15 percent when generation starts, 95 when the last page is done. */
  function Percent(done: nat, total: nat): (p: nat)
    requires done <= total && total > 0
    ensures 15 <= p <= 95
  {
    AtMostEighty(done, total);
    15 + 80 * done / total
  }

  lemma AtMostEighty(done: nat, total: nat)
    requires done <= total && total > 0
    ensures 0 <= 80 * done / total <= 80
  {
    var q := 80 * done / total;
    assert q * total <= 80 * done <= 80 * total < 81 * total;
    CancelFactor(q, 81, total);
  }

  lemma CancelFactor(a: nat, b: nat, n: nat)
    requires a * n < b * n
    ensures a < b
  {
  }

  lemma PercentGrows(a: nat, b: nat, total: nat)
    requires a <= b <= total && total > 0
    ensures Percent(a, total) <= Percent(b, total)
  {
    var q := 80 * a / total;
    var r := 80 * b / total;
    assert q * total <= 80 * a && 80 * b < (r + 1) * total;
    CancelFactor(q, r + 1, total);
  }

  datatype Outcome = Completed | Interrupted | GenerationFailed | ReportRefused | NotSaved

  /** What happens along the way: whether the process ends before or after item `k`, what the model writes, which calls fail. */
  datatype Fate = Fate(
    readFails: bool,
    diesBefore: nat -> bool,
    diesAfter: nat -> bool,
    written: nat -> Option<string>,
    commits: nat -> Commit,
    reportFails: nat -> bool)

  const DEFAULT_TOC := [
    TocItem("overview", "项目概览", 1),
    TocItem("architecture", "架构设计", 2),
    TocItem("getting-started", "快速开始", 3)]

  /** The pages so far: those taken up, and one for each item up to `k` that was not. */
  ghost predicate PagesSoFar(toc: seq<TocItem>, taken: seq<Page>, k: nat, pages: seq<Page>)
    requires k <= |toc|
  {
    && |taken| <= |pages| && pages[..|taken|] == taken
    && (forall s :: HasPage(pages, s) <==> HasPage(taken, s) || InToc(toc[..k], s))
    && (DistinctSlugs(toc) ==> DistinctPages(pages))
  }

  /** What was taken up fits the contents. */
  ghost predicate FitsToc(toc: seq<TocItem>, taken: seq<Page>) {
    DistinctPages(taken) && forall s :: HasPage(taken, s) ==> InToc(toc, s)
  }

  lemma TakenSoFar(toc: seq<TocItem>, taken: seq<Page>)
    requires FitsToc(toc, taken)
    ensures PagesSoFar(toc, taken, 0, taken)
  {
  }

  lemma InTocAfter(toc: seq<TocItem>, k: nat)
    requires k < |toc|
    ensures forall s :: InToc(toc[..k + 1], s) <==> InToc(toc[..k], s) || toc[k].slug == s
    ensures InToc(toc, toc[k].slug)
    ensures forall s :: InToc(toc[..k], s) ==> InToc(toc, s)
  {
    forall s ensures InToc(toc[..k + 1], s) <==> InToc(toc[..k], s) || toc[k].slug == s {
      if InToc(toc[..k], s) {
        var i :| 0 <= i < k && toc[..k][i].slug == s;
        assert toc[..k + 1][i].slug == s;
      }
      assert toc[..k + 1][k] == toc[k];
    }
  }

  lemma SkippedItem(toc: seq<TocItem>, taken: seq<Page>, k: nat, pages: seq<Page>)
    requires k < |toc| && PagesSoFar(toc, taken, k, pages) && HasPage(taken, toc[k].slug)
    ensures PagesSoFar(toc, taken, k + 1, pages)
  {
    InTocAfter(toc, k);
  }

  lemma GeneratedItem(toc: seq<TocItem>, taken: seq<Page>, k: nat, pages: seq<Page>, page: Page)
    requires k < |toc| && PagesSoFar(toc, taken, k, pages) && !HasPage(taken, toc[k].slug) && page.slug == toc[k].slug
    ensures PagesSoFar(toc, taken, k + 1, pages + [page])
  {
    InTocAfter(toc, k);
    HasPageAfter(pages, page);
    if DistinctSlugs(toc) {
      assert !InToc(toc[..k], toc[k].slug);
      assert !HasPage(pages, page.slug);
      assert forall i :: 0 <= i < |pages| ==> (pages + [page])[i] == pages[i];
    }
  }

  /** Pages that cover part of distinct contents are no more than the contents, and fit the table if the slugs do. */
  lemma PagesWithinToc(toc: seq<TocItem>, taken: seq<Page>, k: nat, pages: seq<Page>)
    requires k <= |toc| && PagesSoFar(toc, taken, k, pages) && FitsToc(toc, taken)
    ensures forall s :: HasPage(pages, s) ==> InToc(toc, s)
    ensures GoodToc(toc) ==> |pages| <= |toc| && Savable(pages)
    ensures GoodToc(toc) && k == |toc| ==> |pages| == |toc|
  {
    forall s | HasPage(pages, s) ensures InToc(toc, s) {
      if InToc(toc[..k], s) {
        var i :| 0 <= i < k && toc[..k][i].slug == s;
        assert toc[i].slug == s;
      }
    }
    if GoodToc(toc) {
      forall i | 0 <= i < |pages| ensures InToc(toc, pages[i].slug) {
        assert HasPage(pages, pages[i].slug);
      }
      DistinctPageCount(pages);
      FewSlugs(toc);
      assert PageSlugs(pages) <= SlugSet(toc);
      SmallerSet(PageSlugs(pages), SlugSet(toc));
      if k == |toc| {
        assert toc[..k] == toc;
        forall s | s in SlugSet(toc) ensures s in PageSlugs(pages) {
          assert InToc(toc, s);
          assert HasPage(pages, s);
        }
        SmallerSet(SlugSet(toc), PageSlugs(pages));
      }
    }
  }

  /** A saved wiki of pages from its contents leaves the table valid. */
  lemma SavedIsValid(rows: map<string, WikiRow>, toc: seq<TocItem>, pages: seq<Page>)
    requires Stores(rows, toc, pages) && forall s :: HasPage(pages, s) ==> InToc(toc, s)
    ensures forall s :: s in rows && s != TOC_SLUG ==> rows[s].PageRow? && InToc(toc, s)
  {
    forall s | s in rows && s != TOC_SLUG ensures rows[s].PageRow? && InToc(toc, s) {
      assert HasPage(pages, s);
      var i :| 0 <= i < |pages| && pages[i].slug == s;
    }
  }

  /** The pages to take up: those of a saved, unfinished wiki with the same slugs; a read that fails counts as no wiki. */
  method TakeUp(table: WikiTable, toc: seq<TocItem>, readFails: bool) returns (taken: seq<Page>)
    requires table.Valid()
    ensures FitsToc(toc, taken)
    ensures TakesUp(table.rows, toc, readFails, taken)
  {
    hide DistinctPages, Savable, SameSlugs;
    taken := [];
    assert FitsToc(toc, []) by { NothingTaken(toc); }
    if readFails {
      return;
    }
    var found, oldToc, oldPages := table.Get();
    if found {
      StoredCount(table.rows, oldToc, oldPages);
      var same := SameTocSlugs(oldToc, toc);
      if |oldPages| < |oldToc| && same {
        taken := oldPages;
        OldPagesFit(table.rows, oldToc, toc, oldPages);
      }
    }
  }

  lemma NothingTaken(toc: seq<TocItem>)
    ensures FitsToc(toc, [])
  {
  }

  lemma OldPagesFit(rows: map<string, WikiRow>, oldToc: seq<TocItem>, toc: seq<TocItem>, pages: seq<Page>)
    requires Stores(rows, oldToc, pages) && Savable(pages) && SameSlugs(oldToc, toc)
    requires forall s :: s in rows && s != TOC_SLUG ==> InToc(oldToc, s)
    ensures FitsToc(toc, pages)
  {
    forall s | HasPage(pages, s) ensures InToc(toc, s) {
      var i :| 0 <= i < |pages| && pages[i].slug == s;
      var j :| 0 <= j < |oldToc| && oldToc[j].slug == s;
      assert toc[j].slug == s;
    }
  }

  // ---------- what a run does ----------

  function Has(pages: seq<Page>, slug: string): (has: bool)
    ensures has == HasPage(pages, slug)
  {
    exists i :: 0 <= i < |pages| && pages[i].slug == slug
  }

  function PageOf(item: TocItem, content: string): Page {
    Page(item.slug, item.title, content, item.sortOrder)
  }

  /** The pages after the first `k` items: those taken up, and the ones written since. */
  function PagesAfter(toc: seq<TocItem>, taken: seq<Page>, fate: Fate, k: nat): (pages: seq<Page>)
    requires k <= |toc|
    ensures |taken| <= |pages| && pages[..|taken|] == taken
  {
    if k == 0 then taken
    else
      var before := PagesAfter(toc, taken, fate, k - 1);
      if Has(taken, toc[k - 1].slug) || fate.written(k - 1).None? then before else before + [PageOf(toc[k - 1], fate.written(k - 1).value)]
  }

  /** Where a run ends, and how: `stop` items are behind it, and `saves` tells whether it then saves once more. */
  datatype Course = Course(stop: nat, saves: bool, outcome: Outcome)

  /** The course from item `k` on; save and report number `|toc|` are the final ones. */
  function CourseFrom(toc: seq<TocItem>, taken: seq<Page>, fate: Fate, k: nat): (c: Course)
    requires k <= |toc|
    ensures k <= c.stop <= |toc|
    decreases |toc| - k
  {
    if k == |toc| then
      Course(k, true, if fate.diesAfter(k) then Interrupted
                      else if !fate.commits(k).Committed? || !Savable(PagesAfter(toc, taken, fate, k)) then NotSaved
                      else if fate.reportFails(k) then ReportRefused else Completed)
    else if Has(taken, toc[k].slug) then CourseFrom(toc, taken, fate, k + 1)
    else if fate.diesBefore(k) then Course(k, false, Interrupted)
    else if fate.written(k).None? then Course(k, true, GenerationFailed)
    else if fate.diesAfter(k) then Course(k + 1, false, Interrupted)
    else if fate.reportFails(k) then Course(k + 1, false, ReportRefused)
    else CourseFrom(toc, taken, fate, k + 1)
  }

  /** Save number `k` takes effect with the pages after the first `n` items. */
  predicate Takes(toc: seq<TocItem>, taken: seq<Page>, fate: Fate, k: nat, n: nat)
    requires n <= |toc|
  {
    !fate.commits(k).RolledBack? && Savable(PagesAfter(toc, taken, fate, n))
  }

  /** The last of the first `k` items after which the checkpoint took effect. */
  function LastSaved(toc: seq<TocItem>, taken: seq<Page>, fate: Fate, k: nat): (n: Option<nat>)
    requires k <= |toc|
    ensures n.Some? ==> n.value <= k
  {
    if k == 0 then None
    else if !Has(taken, toc[k - 1].slug) && Takes(toc, taken, fate, k - 1, k) then Some(k)
    else LastSaved(toc, taken, fate, k - 1)
  }

  /** What the table holds in the end: the pages after so many items, or what it held before. */
  function Left(toc: seq<TocItem>, taken: seq<Page>, fate: Fate, c: Course): (n: Option<nat>)
    requires c.stop <= |toc|
    ensures n.Some? ==> n.value <= c.stop
  {
    if c.saves && Takes(toc, taken, fate, c.stop, c.stop) then Some(c.stop) else LastSaved(toc, taken, fate, c.stop)
  }

  ghost predicate Holds(rows: map<string, WikiRow>, before: map<string, WikiRow>, toc: seq<TocItem>, taken: seq<Page>, fate: Fate, n: Option<nat>)
    requires n.Some? ==> n.value <= |toc|
  {
    if n.None? then rows == before else Stores(rows, toc, PagesAfter(toc, taken, fate, n.value))
  }

  /** What the next run takes up of these rows. */
  ghost predicate TakesUp(rows: map<string, WikiRow>, toc: seq<TocItem>, readFails: bool, taken: seq<Page>) {
    if !readFails && Resumes(rows, toc) then Stores(rows, rows[TOC_SLUG].toc, taken) && Savable(taken) else taken == []
  }

  /** Before the first item. */
  lemma CourseStarts(toc: seq<TocItem>, taken: seq<Page>, fate: Fate)
    ensures PagesAfter(toc, taken, fate, 0) == taken && LastSaved(toc, taken, fate, 0) == None
  {
  }

  /** An item that was taken up. */
  lemma CourseSkips(toc: seq<TocItem>, taken: seq<Page>, fate: Fate, k: nat)
    requires k < |toc| && Has(taken, toc[k].slug)
    ensures CourseFrom(toc, taken, fate, k) == CourseFrom(toc, taken, fate, k + 1)
    ensures PagesAfter(toc, taken, fate, k + 1) == PagesAfter(toc, taken, fate, k)
    ensures LastSaved(toc, taken, fate, k + 1) == LastSaved(toc, taken, fate, k)
  {
    hide Takes;
  }

  /** An item that was not. */
  lemma CourseGoes(toc: seq<TocItem>, taken: seq<Page>, fate: Fate, k: nat)
    requires k < |toc| && !Has(taken, toc[k].slug)
    ensures CourseFrom(toc, taken, fate, k) ==
              if fate.diesBefore(k) then Course(k, false, Interrupted)
              else if fate.written(k).None? then Course(k, true, GenerationFailed)
              else if fate.diesAfter(k) then Course(k + 1, false, Interrupted)
              else if fate.reportFails(k) then Course(k + 1, false, ReportRefused)
              else CourseFrom(toc, taken, fate, k + 1)
  {
  }

  lemma CourseEnds(toc: seq<TocItem>, taken: seq<Page>, fate: Fate)
    ensures var c := CourseFrom(toc, taken, fate, |toc|);
            && c.stop == |toc| && c.saves
            && c.outcome == (if fate.diesAfter(|toc|) then Interrupted
                             else if !fate.commits(|toc|).Committed? || !Savable(PagesAfter(toc, taken, fate, |toc|)) then NotSaved
                             else if fate.reportFails(|toc|) then ReportRefused else Completed)
  {
    hide Savable;
  }

  /** Up to where a run ends, every item was taken up or written. */
  lemma {:induction false} WrittenUpToStop(toc: seq<TocItem>, taken: seq<Page>, fate: Fate, k: nat, i: nat)
    requires k <= |toc| && k <= i < CourseFrom(toc, taken, fate, k).stop
    ensures fate.written(i).Some? || Has(taken, toc[i].slug)
    decreases |toc| - k
  {
    if k < i {
      WrittenUpToStop(toc, taken, fate, k + 1, i);
    }
  }

  /** Of the first `n` items, each that was not taken up has its page: its slug, its title, what was written for it, its place. */
  ghost predicate PagesAsWritten(toc: seq<TocItem>, taken: seq<Page>, fate: Fate, n: nat, pages: seq<Page>)
    requires n <= |toc|
  {
    forall k :: 0 <= k < n && !HasPage(taken, toc[k].slug) ==>
      fate.written(k).Some? && Page(toc[k].slug, toc[k].title, fate.written(k).value, toc[k].sortOrder) in pages
  }

  /** The table holds the same for all items, and the pages taken up as they were. */
  ghost predicate RowsAsWritten(toc: seq<TocItem>, taken: seq<Page>, fate: Fate, rows: map<string, WikiRow>) {
    && (forall k :: 0 <= k < |toc| && !HasPage(taken, toc[k].slug) ==>
          && fate.written(k).Some? && toc[k].slug in rows
          && rows[toc[k].slug] == PageRow(toc[k].title, fate.written(k).value, toc[k].sortOrder))
    && (forall p :: p in taken ==> p.slug in rows && rows[p.slug] == PageRow(p.title, p.content, p.sortOrder))
  }

  lemma {:induction false} OwnPages(toc: seq<TocItem>, taken: seq<Page>, fate: Fate, n: nat)
    requires n <= |toc| && forall k :: 0 <= k < n ==> fate.written(k).Some? || Has(taken, toc[k].slug)
    ensures PagesAsWritten(toc, taken, fate, n, PagesAfter(toc, taken, fate, n))
    decreases n
  {
    if n > 0 {
      OwnPages(toc, taken, fate, n - 1);
    }
  }

  lemma CourseWrites(toc: seq<TocItem>, taken: seq<Page>, fate: Fate)
    ensures var c := CourseFrom(toc, taken, fate, 0); PagesAsWritten(toc, taken, fate, c.stop, PagesAfter(toc, taken, fate, c.stop))
  {
    hide CourseFrom, PagesAfter, PagesAsWritten;
    var c := CourseFrom(toc, taken, fate, 0);
    forall k | 0 <= k < c.stop ensures fate.written(k).Some? || Has(taken, toc[k].slug) { WrittenUpToStop(toc, taken, fate, 0, k); }
    OwnPages(toc, taken, fate, c.stop);
  }

  lemma StoredAsWritten(toc: seq<TocItem>, taken: seq<Page>, fate: Fate, pages: seq<Page>, rows: map<string, WikiRow>)
    requires Stores(rows, toc, pages) && PagesAsWritten(toc, taken, fate, |toc|, pages) && KeepsTaken(taken, pages)
    ensures RowsAsWritten(toc, taken, fate, rows)
  {
    hide HasPage;
    forall p | p in pages ensures p.slug in rows && rows[p.slug] == PageRow(p.title, p.content, p.sortOrder) {
      var i :| 0 <= i < |pages| && pages[i] == p;
    }
    forall p | p in taken ensures p in pages {
      var i :| 0 <= i < |taken| && taken[i] == p;
      assert pages[..|taken|][i] == p;
      assert pages[i] == p;
    }
  }

  // ---------- the generating stage ----------

  /** A checkpoint: the wiki so far is saved; a failing save is only logged. */
  method Checkpoint(table: WikiTable, toc: seq<TocItem>, pages: seq<Page>, commit: Commit) returns (ok: bool)
    requires table.Valid() && forall s :: HasPage(pages, s) ==> InToc(toc, s)
    modifies table
    ensures table.Valid()
    ensures ok <==> commit.Committed? && Savable(pages)
    ensures if !commit.RolledBack? && Savable(pages) then Stores(table.rows, toc, pages) else table.rows == old(table.rows)
  {
    ok := table.Save(toc, pages, commit);
    if !commit.RolledBack? && Savable(pages) {
      SavedIsValid(table.rows, toc, pages);
    }
  }

  /** One item that was not taken up: the page is written and the wiki saved; when writing fails, the pages before it are saved. */
  method OneItem(table: WikiTable, toc: seq<TocItem>, taken: seq<Page>, k: nat, pages: seq<Page>, fate: Fate, ghost before: map<string, WikiRow>)
    returns (more: seq<Page>, written: bool)
    requires table.Valid() && k < |toc| && PagesSoFar(toc, taken, k, pages) && FitsToc(toc, taken) && !HasPage(taken, toc[k].slug)
    requires pages == PagesAfter(toc, taken, fate, k) && Holds(table.rows, before, toc, taken, fate, LastSaved(toc, taken, fate, k))
    modifies table
    ensures table.Valid() && written == fate.written(k).Some?
    ensures !written ==> more == pages
    ensures !written ==> Holds(table.rows, before, toc, taken, fate, Left(toc, taken, fate, Course(k, true, GenerationFailed)))
    ensures written ==> more == PagesAfter(toc, taken, fate, k + 1) == pages + [PageOf(toc[k], fate.written(k).value)]
    ensures written ==> PagesSoFar(toc, taken, k + 1, more) && Holds(table.rows, before, toc, taken, fate, LastSaved(toc, taken, fate, k + 1))
    ensures GoodToc(toc) ==> |more| <= |toc|
  {
    hide DistinctPages, Savable, GoodToc, Stores, FitsToc, PagesSoFar;
    var content := fate.written(k);
    PagesWithinToc(toc, taken, k, pages);
    if content.None? {
      var _ := Checkpoint(table, toc, pages, fate.commits(k));
      return pages, false;
    }
    var page := PageOf(toc[k], content.value);
    GeneratedItem(toc, taken, k, pages, page);
    more := pages + [page];
    PagesWithinToc(toc, taken, k + 1, more);
    var _ := Checkpoint(table, toc, more, fate.commits(k));
    return more, true;
  }

  /**
   The generating stage of `Execute`, after its first report. What a run writes, how it ends and what it leaves in the table are
   those of its course, whatever fails along the way. A completed wiki has exactly one page per item of its contents; pages taken
   up from a checkpoint are kept as they are and not written again; and the reported percentages rise from 15 to at most 95.
   */
  method Generate(table: WikiTable, toc0: seq<TocItem>, fate: Fate)
    returns (outcome: Outcome, toc: seq<TocItem>, ghost taken: seq<Page>, pages: seq<Page>, percents: seq<nat>)
    requires table.Valid()
    modifies table
    ensures table.Valid()
    ensures toc == if toc0 == [] then DEFAULT_TOC else toc0
    ensures TakesUp(old(table.rows), toc, fate.readFails, taken) && FitsToc(toc, taken)
    ensures var c := CourseFrom(toc, taken, fate, 0);
            && outcome == c.outcome && pages == PagesAfter(toc, taken, fate, c.stop) && PagesSoFar(toc, taken, c.stop, pages)
            && Holds(table.rows, old(table.rows), toc, taken, fate, Left(toc, taken, fate, c))
    ensures KeepsTaken(taken, pages) && PagesAsWritten(toc, taken, fate, CourseFrom(toc, taken, fate, 0).stop, pages)
    ensures outcome.Completed? ==> RowsAsWritten(toc, taken, fate, table.rows)
    ensures outcome.Completed? ==> Stores(table.rows, toc, pages) && forall s :: HasPage(pages, s) <==> InToc(toc, s)
    ensures outcome.Completed? && GoodToc(toc) ==> |pages| == |toc| && DistinctPages(pages)
    ensures GoodToc(toc) ==> Rising(percents)
    ensures PercentsAre(percents, |taken|, |toc|)
  {
    hide DistinctPages, Savable, GoodToc, Stores, FitsToc, PagesSoFar, Resumes, KeepsTaken, Rising, ReportsRise, Reported, HasPage, InToc, SameSlugs, CourseFrom, PagesAfter, LastSaved, Has, TakesUp, PagesAsWritten, RowsAsWritten, PercentsAre;
    toc := if |toc0| == 0 then DEFAULT_TOC else toc0;
    percents := [15];
    var start := TakeUp(table, toc, fate.readFails);
    taken, pages := start, start;
    TakenSoFar(toc, start);
    NothingNew(start);
    PagesWithinToc(toc, start, 0, start);
    FirstPercent(toc, |pages|);
    CourseStarts(toc, start, fate);
    CourseWrites(toc, start, fate);
    for k := 0 to |toc|
      invariant table.Valid() && PagesSoFar(toc, start, k, pages) && FitsToc(toc, start) && KeepsTaken(start, pages)
      invariant pages == PagesAfter(toc, start, fate, k) && CourseFrom(toc, start, fate, 0) == CourseFrom(toc, start, fate, k)
      invariant Holds(table.rows, old(table.rows), toc, start, fate, LastSaved(toc, start, fate, k))
      invariant ReportsRise(toc, percents, |pages|) && (GoodToc(toc) ==> Rising(percents))
      invariant |percents| == |pages| - |start| + 1
      invariant PercentsAre(percents, |start|, |toc|)
    {
      if Has(start, toc[k].slug) {
        SkippedItem(toc, start, k, pages);
        CourseSkips(toc, start, fate, k);
        continue;
      }
      CourseGoes(toc, start, fate, k);
      if fate.diesBefore(k) {
        outcome := Interrupted;
        return;
      }
      ghost var before := pages;
      var written;
      pages, written := OneItem(table, toc, start, k, pages, fate, old(table.rows));
      if !written {
        outcome := GenerationFailed;
        return;
      }
      OneMoreNew(start, before, pages);
      if fate.diesAfter(k) {
        outcome := Interrupted;
        return;
      }
      NextPercent(toc, percents, |before|);
      OneMorePercent(percents, |start|, |toc|);
      percents := percents + [Reported(|pages|, |toc|)];
      if fate.reportFails(k) {
        outcome := ReportRefused;
        return;
      }
    }
    PagesWithinToc(toc, start, |toc|, pages);
    var saved := Checkpoint(table, toc, pages, fate.commits(|toc|));
    AllCovered(toc, start, pages);
    CourseEnds(toc, start, fate);
    if saved { StoredAsWritten(toc, start, fate, pages, table.rows); }
    outcome := if fate.diesAfter(|toc|) then Interrupted else if !saved then NotSaved else if fate.reportFails(|toc|) then ReportRefused else Completed;
  }

  /** The pages begin with those taken up, and none of the others has a slug that was taken up. */
  predicate KeepsTaken(taken: seq<Page>, pages: seq<Page>) {
    && |taken| <= |pages| && pages[..|taken|] == taken
    && forall i :: |taken| <= i < |pages| ==> !HasPage(taken, pages[i].slug)
  }

  lemma NothingNew(taken: seq<Page>)
    ensures KeepsTaken(taken, taken)
  {
  }

  lemma OneMoreNew(taken: seq<Page>, before: seq<Page>, pages: seq<Page>)
    requires KeepsTaken(taken, before) && |pages| == |before| + 1 && pages[..|before|] == before && !HasPage(taken, pages[|before|].slug)
    ensures KeepsTaken(taken, pages)
  {
    assert forall i :: 0 <= i < |before| ==> pages[i] == before[i];
  }

  /** Never falling, and always between 15 and 95. */
  predicate Rising(percents: seq<nat>) {
    && (forall i :: 0 <= i < |percents| ==> 15 <= percents[i] <= 95)
    && (forall i, j :: 0 <= i < j < |percents| ==> percents[i] <= percents[j])
  }

  /** The percentage reported after a page. */
  function Reported(done: nat, total: nat): nat
    requires total > 0
  {
    15 + 80 * done / total
  }

  /** The first report, then one after each page written: 15 percent and the share of 80 that the pages so far are. */
  ghost predicate PercentsAre(percents: seq<nat>, taken: nat, total: nat) {
    percents != [] && percents[0] == 15 && forall i :: 0 < i < |percents| && total > 0 ==> percents[i] == 15 + 80 * (taken + i) / total
  }

  lemma OneMorePercent(percents: seq<nat>, taken: nat, total: nat)
    requires PercentsAre(percents, taken, total) && total > 0
    ensures PercentsAre(percents + [Reported(taken + |percents|, total)], taken, total)
  {
  }

  /** For contents the table can hold, the percentages so far rise, the last one that of `done` pages or less. */
  ghost predicate ReportsRise(toc: seq<TocItem>, percents: seq<nat>, done: nat) {
    GoodToc(toc) ==> PercentsRise(percents, done, |toc|)
  }

  lemma FirstPercent(toc: seq<TocItem>, done: nat)
    requires toc != [] && (GoodToc(toc) ==> done <= |toc|)
    ensures ReportsRise(toc, [15], done) && Rising([15]) && forall taken :: PercentsAre([15], taken, |toc|)
  {
    hide GoodToc;
  }

  /** Rising percentages, the last one that of `done` pages or less. */
  ghost predicate PercentsRise(percents: seq<nat>, done: nat, total: nat) {
    && done <= total && total > 0 && percents != []
    && (forall i :: 0 <= i < |percents| ==> 15 <= percents[i] <= Percent(done, total))
    && (forall i, j :: 0 <= i < j < |percents| ==> percents[i] <= percents[j])
  }

  lemma NextPercent(toc: seq<TocItem>, percents: seq<nat>, done: nat)
    requires toc != [] && ReportsRise(toc, percents, done) && (GoodToc(toc) ==> done < |toc|)
    ensures var more := percents + [Reported(done + 1, |toc|)];
            ReportsRise(toc, more, done + 1) && (GoodToc(toc) ==> Rising(more))
  {
    hide GoodToc;
    if GoodToc(toc) {
      PercentGrows(done, done + 1, |toc|);
      assert Percent(done + 1, |toc|) == Reported(done + 1, |toc|);
    }
  }

  lemma AllCovered(toc: seq<TocItem>, taken: seq<Page>, pages: seq<Page>)
    requires PagesSoFar(toc, taken, |toc|, pages) && FitsToc(toc, taken)
    ensures forall s :: HasPage(pages, s) <==> InToc(toc, s)
    ensures DistinctSlugs(toc) ==> DistinctPages(pages)
  {
    assert toc[..|toc|] == toc;
  }

  /**
   A checkpoint with the same slugs is taken up exactly when it is unfinished. A run that ends after the last page's checkpoint
   and before its completion is recorded therefore leaves a finished checkpoint, and its rerun generates every page again.
   */
  lemma TakenUpExactlyWhenUnfinished(rows: map<string, WikiRow>, saved: seq<TocItem>, pages: seq<Page>, toc: seq<TocItem>)
    requires Stores(rows, saved, pages) && Savable(pages) && SameSlugs(saved, toc)
    ensures Resumes(rows, toc) <==> |pages| < |toc|
  {
    StoredCount(rows, saved, pages);
  }

  /** What a run that died after the last page's checkpoint leaves is a complete wiki that the next run will not take up. */
  lemma LastCheckpointIsNotTakenUp(rows: map<string, WikiRow>, toc: seq<TocItem>, taken: seq<Page>, pages: seq<Page>)
    requires Stores(rows, toc, pages) && GoodToc(toc) && FitsToc(toc, taken) && PagesSoFar(toc, taken, |toc|, pages)
    ensures (forall s :: HasPage(pages, s) <==> InToc(toc, s)) && !Resumes(rows, toc)
  {
    PagesWithinToc(toc, taken, |toc|, pages);
    AllCovered(toc, taken, pages);
    StoredCount(rows, toc, pages);
  }
}
