/**
 Wiki generation over any number of runs (deepwiki/internal/service/executors.go, the generating stage): what crashes, failing
 saves and reruns do to the pages saved so far.
 */
module WikiRuns {
  import opened Options
  import opened Wiki

  /** One run: the contents it was given, what it took up, and what happened along the way. */
  datatype Attempt = Attempt(toc: seq<TocItem>, taken: seq<Page>, fate: Fate) {
    function Course(): Wiki.Course {
      CourseFrom(toc, taken, fate, 0)
    }

    /** The pages the run ends with: those taken up, then those it wrote. */
    function Pages(): (pages: seq<Page>)
      ensures |taken| <= |pages|
    {
      PagesAfter(toc, taken, fate, Course().stop)
    }
  }

  ghost predicate ValidRows(rows: map<string, WikiRow>) {
    rows == map[] ||
    (&& TOC_SLUG in rows && rows[TOC_SLUG].TocRow?
     && forall s :: s in rows && s != TOC_SLUG ==> rows[s].PageRow? && InToc(rows[TOC_SLUG].toc, s))
  }

  /** The run takes the rows from `before` to `after`. */
  ghost predicate Ran(before: map<string, WikiRow>, a: Attempt, after: map<string, WikiRow>) {
    && ValidRows(before) && ValidRows(after)
    && TakesUp(before, a.toc, a.fate.readFails, a.taken) && FitsToc(a.toc, a.taken) && KeepsTaken(a.taken, a.Pages())
    && Holds(after, before, a.toc, a.taken, a.fate, Left(a.toc, a.taken, a.fate, a.Course()))
  }

  ghost predicate Runs(trace: seq<map<string, WikiRow>>, attempts: seq<Attempt>) {
    && |trace| == |attempts| + 1
    && forall i :: 0 <= i < |attempts| ==> Ran(trace[i], attempts[i], trace[i + 1])
  }

  /** Runs one after another on one table, each with its own contents and fate. */
  method RunAll(table: WikiTable, tocs: seq<seq<TocItem>>, fates: seq<Fate>) returns (ghost trace: seq<map<string, WikiRow>>, ghost attempts: seq<Attempt>)
    requires table.Valid() && |tocs| == |fates|
    modifies table
    ensures table.Valid() && Runs(trace, attempts) && |attempts| == |fates|
    ensures trace[0] == old(table.rows) && trace[|attempts|] == table.rows
    ensures forall i :: 0 <= i < |fates| ==> attempts[i].fate == fates[i] && attempts[i].toc == if tocs[i] == [] then DEFAULT_TOC else tocs[i]
  {
    trace, attempts := [table.rows], [];
    for n := 0 to |fates|
      invariant table.Valid() && Runs(trace, attempts) && |attempts| == n
      invariant trace[0] == old(table.rows) && trace[n] == table.rows
      invariant forall i :: 0 <= i < n ==> attempts[i].fate == fates[i] && attempts[i].toc == if tocs[i] == [] then DEFAULT_TOC else tocs[i]
    {
      hide Ran;
      ghost var a := RunOnce(table, tocs[n], fates[n]);
      trace, attempts := trace + [table.rows], attempts + [a];
    }
  }

  method RunOnce(table: WikiTable, toc0: seq<TocItem>, fate: Fate) returns (ghost a: Attempt)
    requires table.Valid()
    modifies table
    ensures table.Valid() && Ran(old(table.rows), a, table.rows)
    ensures a.fate == fate && a.toc == if toc0 == [] then DEFAULT_TOC else toc0
  {
    hide TakesUp, FitsToc, Holds, Left, PagesSoFar, CourseFrom, PagesAfter, KeepsTaken;
    var outcome, toc, taken, pages, percents := Generate(table, toc0, fate);
    a := Attempt(toc, taken, fate);
  }

  // ---------- a saved page stays ----------

  predicate IsSaved(rows: map<string, WikiRow>, s: string) {
    s in rows && s != TOC_SLUG
  }

  /** The run goes on from what is saved: it can read it, and a page is missing. */
  predicate GoesOn(rows: map<string, WikiRow>, a: Attempt) {
    !a.fate.readFails && |rows| - 1 < |a.toc|
  }

  ghost predicate SameContents(rows: map<string, WikiRow>, toc: seq<TocItem>) {
    TOC_SLUG in rows && rows[TOC_SLUG].TocRow? && SameSlugs(rows[TOC_SLUG].toc, toc)
  }

  /** With the contents' slugs unchanged, a run takes up a saved page if and only if it goes on from what is saved. */
  lemma TakenUpWhenGoingOn(before: map<string, WikiRow>, a: Attempt, after: map<string, WikiRow>, s: string)
    requires Ran(before, a, after) && SameContents(before, a.toc) && IsSaved(before, s)
    ensures HasPage(a.taken, s) <==> GoesOn(before, a)
  {
    hide Holds, Left, CourseFrom, PagesAfter, FitsToc, SameSlugs, DistinctPages;
    assert |before[TOC_SLUG].toc| == |a.toc| by { SameLength(before[TOC_SLUG].toc, a.toc); }
  }

  lemma SameLength(a: seq<TocItem>, b: seq<TocItem>)
    requires SameSlugs(a, b)
    ensures |a| == |b|
  {
  }

  /** The row of a page that was taken up is the same in every save of the run. */
  lemma TakenRow(rows: map<string, WikiRow>, toc: seq<TocItem>, taken: seq<Page>, pages: seq<Page>, before: map<string, WikiRow>, oldToc: seq<TocItem>, s: string)
    requires Stores(before, oldToc, taken) && Stores(rows, toc, pages)
    requires |taken| <= |pages| && pages[..|taken|] == taken && HasPage(taken, s)
    ensures s in rows && s in before && rows[s] == before[s]
  {
    var i :| 0 <= i < |taken| && taken[i].slug == s;
    assert pages[i] == taken[i];
  }

  /** A run that goes on keeps every saved page as it is and does not write it again. */
  lemma RunKeepsPage(before: map<string, WikiRow>, a: Attempt, after: map<string, WikiRow>, s: string)
    requires Ran(before, a, after) && SameContents(before, a.toc) && IsSaved(before, s) && GoesOn(before, a)
    ensures IsSaved(after, s) && after[s] == before[s] && SameContents(after, a.toc)
    ensures HasPage(a.taken, s) && forall i :: |a.taken| <= i < |a.Pages()| ==> a.Pages()[i].slug != s
  {
    hide CourseFrom, PagesAfter, FitsToc, SameSlugs, DistinctPages, Left, Stores;
    TakenUpWhenGoingOn(before, a, after, s);
    assert Resumes(before, a.toc) by { assert |before[TOC_SLUG].toc| == |a.toc| by { SameLength(before[TOC_SLUG].toc, a.toc); } }
    var n := Left(a.toc, a.taken, a.fate, a.Course());
    if n.Some? {
      TakenRow(after, a.toc, a.taken, PagesAfter(a.toc, a.taken, a.fate, n.value), before, before[TOC_SLUG].toc, s);
      ContentsRow(after, a.toc, PagesAfter(a.toc, a.taken, a.fate, n.value));
      Reflexive(a.toc);
    }
    forall i | |a.taken| <= i < |a.Pages()| ensures a.Pages()[i].slug != s {
      assert !HasPage(a.taken, a.Pages()[i].slug);
    }
  }

  lemma ContentsRow(rows: map<string, WikiRow>, toc: seq<TocItem>, pages: seq<Page>)
    requires Stores(rows, toc, pages)
    ensures TOC_SLUG in rows && rows[TOC_SLUG] == TocRow(toc)
  {
  }

  lemma Reflexive(toc: seq<TocItem>)
    ensures SameSlugs(toc, toc)
  {
  }

  lemma SameSlugsTransitive(a: seq<TocItem>, b: seq<TocItem>, c: seq<TocItem>)
    requires SameSlugs(a, b) && SameSlugs(a, c)
    ensures SameSlugs(b, c)
  {
  }

  /**
   Over any number of crashes, failing saves and reruns with the same slugs: a page once saved stays saved, unchanged, and no run
   writes it again, as long as every run can read the saved wiki and finds a page missing.
   */
  lemma {:induction false} SavedPageStays(trace: seq<map<string, WikiRow>>, attempts: seq<Attempt>, i: nat, j: nat, s: string, slugs: seq<TocItem>)
    requires Runs(trace, attempts) && i <= j < |trace| && IsSaved(trace[i], s) && SameContents(trace[i], slugs)
    requires forall x :: i <= x < j ==> SameSlugs(slugs, attempts[x].toc) && GoesOn(trace[x], attempts[x])
    ensures IsSaved(trace[j], s) && trace[j][s] == trace[i][s] && SameContents(trace[j], slugs)
    ensures forall x :: i <= x < j ==> var a := attempts[x];
              HasPage(a.taken, s) && forall y :: |a.taken| <= y < |a.Pages()| ==> a.Pages()[y].slug != s
    decreases j
  {
    hide Ran, GoesOn, SameSlugs, HasPage;
    if i < j {
      SavedPageStays(trace, attempts, i, j - 1, s, slugs);
      assert Ran(trace[j - 1], attempts[j - 1], trace[j]);
      var toc := attempts[j - 1].toc;
      ThroughSlugs(trace[j - 1], slugs, toc);
      RunKeepsPage(trace[j - 1], attempts[j - 1], trace[j], s);
      BackToSlugs(trace[j], toc, slugs);
    }
  }

  lemma ThroughSlugs(rows: map<string, WikiRow>, slugs: seq<TocItem>, toc: seq<TocItem>)
    requires SameContents(rows, slugs) && SameSlugs(slugs, toc)
    ensures SameContents(rows, toc)
  {
  }

  lemma BackToSlugs(rows: map<string, WikiRow>, toc: seq<TocItem>, slugs: seq<TocItem>)
    requires SameContents(rows, toc) && SameSlugs(slugs, toc)
    ensures SameContents(rows, slugs)
  {
  }

  // ---------- every written page is saved ----------

  /** The page of item `k` was written by the run. */
  predicate Wrote(a: Attempt, k: nat) {
    k < a.Course().stop && !Has(a.taken, a.toc[k].slug) && a.fate.written(k).Some?
  }

  lemma {:induction false} LastSavedIsLate(toc: seq<TocItem>, taken: seq<Page>, fate: Fate, k: nat, n: nat)
    requires k < n <= |toc| && !Has(taken, toc[k].slug) && Takes(toc, taken, fate, k, k + 1)
    ensures LastSaved(toc, taken, fate, n).Some? && LastSaved(toc, taken, fate, n).value > k
    decreases n
  {
    hide Takes;
    if n > k + 1 {
      LastSavedIsLate(toc, taken, fate, k, n - 1);
    }
  }

  lemma {:induction false} PagesGrow(toc: seq<TocItem>, taken: seq<Page>, fate: Fate, k: nat, n: nat)
    requires k <= n <= |toc|
    ensures PagesAfter(toc, taken, fate, k) <= PagesAfter(toc, taken, fate, n)
    decreases n
  {
    if k < n {
      PagesGrow(toc, taken, fate, k, n - 1);
    }
  }

  lemma {:induction false} AllSavable(toc: seq<TocItem>, taken: seq<Page>, fate: Fate, k: nat)
    requires GoodToc(toc) && FitsToc(toc, taken) && k <= |toc|
    requires forall i :: 0 <= i < k ==> fate.written(i).Some? || Has(taken, toc[i].slug)
    ensures PagesSoFar(toc, taken, k, PagesAfter(toc, taken, fate, k)) && Savable(PagesAfter(toc, taken, fate, k))
    decreases k
  {
    hide GoodToc, FitsToc, PagesSoFar, Savable;
    if k == 0 {
      TakenSoFar(toc, taken);
    } else {
      AllSavable(toc, taken, fate, k - 1);
      var pages := PagesAfter(toc, taken, fate, k - 1);
      if Has(taken, toc[k - 1].slug) {
        SkippedItem(toc, taken, k - 1, pages);
      } else {
        GeneratedItem(toc, taken, k - 1, pages, PageOf(toc[k - 1], fate.written(k - 1).value));
      }
    }
    PagesWithinToc(toc, taken, k, PagesAfter(toc, taken, fate, k));
  }

  /** A page whose own checkpoint took effect is in the table when the run ends, however it ends. */
  lemma CheckpointedPageIsSaved(before: map<string, WikiRow>, a: Attempt, after: map<string, WikiRow>, k: nat)
    requires Ran(before, a, after) && GoodToc(a.toc) && Wrote(a, k) && !a.fate.commits(k).RolledBack?
    ensures IsSaved(after, a.toc[k].slug) && after[a.toc[k].slug] == PageRow(a.toc[k].title, a.fate.written(k).value, a.toc[k].sortOrder)
  {
    hide CourseFrom, GoodToc, FitsToc, Savable, PagesSoFar, TakesUp, KeepsTaken, Stores, ValidRows;
    var toc, taken, fate, c := a.toc, a.taken, a.fate, a.Course();
    forall i | 0 <= i < k + 1 ensures fate.written(i).Some? || Has(taken, toc[i].slug) {
      WrittenUpToStop(toc, taken, fate, 0, i);
    }
    AllSavable(toc, taken, fate, k + 1);
    LastSavedIsLate(toc, taken, fate, k, c.stop);
    var n := Left(toc, taken, fate, c).value;
    assert n > k;
    PagesGrow(toc, taken, fate, k + 1, n);
    var mine := PagesAfter(toc, taken, fate, k + 1);
    assert mine[|mine| - 1] == PageOf(toc[k], fate.written(k).value);
    StoredPage(after, toc, PagesAfter(toc, taken, fate, n), |mine| - 1);
    NotContents(toc, k);
  }

  lemma StoredPage(rows: map<string, WikiRow>, toc: seq<TocItem>, pages: seq<Page>, i: nat)
    requires Stores(rows, toc, pages) && i < |pages|
    ensures pages[i].slug in rows && rows[pages[i].slug] == RowOf(pages[i])
  {
  }

  lemma NotContents(toc: seq<TocItem>, k: nat)
    requires GoodToc(toc) && k < |toc|
    ensures toc[k].slug != TOC_SLUG
  {
  }

  /** With no save undone, a run that wrote a page leaves all its pages in the table, wherever it was interrupted. */
  lemma NothingWrittenIsLost(before: map<string, WikiRow>, a: Attempt, after: map<string, WikiRow>)
    requires Ran(before, a, after) && GoodToc(a.toc) && |a.Pages()| > |a.taken| && forall k :: !a.fate.commits(k).RolledBack?
    ensures Stores(after, a.toc, a.Pages())
  {
    hide CourseFrom, GoodToc, FitsToc, Savable, PagesSoFar, TakesUp, KeepsTaken, Stores, ValidRows;
    var toc, taken, fate, c := a.toc, a.taken, a.fate, a.Course();
    forall i | 0 <= i < c.stop ensures fate.written(i).Some? || Has(taken, toc[i].slug) {
      WrittenUpToStop(toc, taken, fate, 0, i);
    }
    AllSavable(toc, taken, fate, c.stop);
    LastIsSaved(toc, taken, fate, c.stop);
  }

  /** And if writing a page fails, the save that follows leaves all pages before it, even where no earlier one took effect. */
  lemma SavedWhenWritingFails(before: map<string, WikiRow>, a: Attempt, after: map<string, WikiRow>)
    requires Ran(before, a, after) && GoodToc(a.toc) && a.Course().outcome.GenerationFailed? && !a.fate.commits(a.Course().stop).RolledBack?
    ensures Stores(after, a.toc, a.Pages())
  {
    hide CourseFrom, GoodToc, FitsToc, Savable, PagesSoFar, TakesUp, KeepsTaken, Stores, ValidRows;
    var toc, taken, fate, c := a.toc, a.taken, a.fate, a.Course();
    forall i | 0 <= i < c.stop ensures fate.written(i).Some? || Has(taken, toc[i].slug) {
      WrittenUpToStop(toc, taken, fate, 0, i);
    }
    AllSavable(toc, taken, fate, c.stop);
    FailureSaves(toc, taken, fate, 0);
  }

  lemma {:induction false} FailureSaves(toc: seq<TocItem>, taken: seq<Page>, fate: Fate, k: nat)
    requires k <= |toc| && CourseFrom(toc, taken, fate, k).outcome.GenerationFailed?
    ensures CourseFrom(toc, taken, fate, k).saves
    decreases |toc| - k
  {
    hide PagesAfter, Savable;
    if k < |toc| && (Has(taken, toc[k].slug) || fate.written(k).Some?) {
      FailureSaves(toc, taken, fate, k + 1);
    }
  }

  lemma {:induction false} LastIsSaved(toc: seq<TocItem>, taken: seq<Page>, fate: Fate, n: nat)
    requires n <= |toc| && |PagesAfter(toc, taken, fate, n)| > |taken| && (forall k :: !fate.commits(k).RolledBack?)
    requires Savable(PagesAfter(toc, taken, fate, n))
    ensures LastSaved(toc, taken, fate, n).Some?
    ensures PagesAfter(toc, taken, fate, LastSaved(toc, taken, fate, n).value) == PagesAfter(toc, taken, fate, n)
    decreases n
  {
    hide Savable;
    if Has(taken, toc[n - 1].slug) {
      LastIsSaved(toc, taken, fate, n - 1);
    } else {
      assert Takes(toc, taken, fate, n - 1, n);
    }
  }

  // ---------- pages that are lost ----------

  /** Everything goes well until the run dies after the checkpoint of item `last`. */
  function DyingAfter(last: nat, readFails: bool): Fate {
    Fate(readFails, _ => false, k => k == last, k => Some("text"), _ => Committed, _ => false)
  }

  lemma {:induction false} DiesThere(toc: seq<TocItem>, last: nat, readFails: bool, k: nat)
    requires k <= last < |toc|
    ensures CourseFrom(toc, [], DyingAfter(last, readFails), k) == Course(last + 1, false, Interrupted)
    decreases last - k
  {
    hide Savable, PagesAfter;
    if k < last {
      DiesThere(toc, last, readFails, k + 1);
    }
  }

  lemma {:induction false} OnePageEach(toc: seq<TocItem>, fate: Fate, n: nat)
    requires n <= |toc| && forall k :: fate.written(k).Some?
    ensures var pages := PagesAfter(toc, [], fate, n); |pages| == n && forall i :: 0 <= i < n ==> pages[i].slug == toc[i].slug
  {
    if n > 0 {
      OnePageEach(toc, fate, n - 1);
    }
  }

  /** Such a run from nothing taken up leaves the first pages, one for each item. */
  lemma LeavesFirstPages(toc: seq<TocItem>, last: nat, readFails: bool, before: map<string, WikiRow>, a: Attempt, after: map<string, WikiRow>)
    requires GoodToc(toc) && last < |toc| && a == Attempt(toc, [], DyingAfter(last, readFails)) && Ran(before, a, after)
    ensures Stores(after, toc, a.Pages()) && Savable(a.Pages()) && |a.Pages()| == last + 1
    ensures forall i :: 0 <= i <= last ==> a.Pages()[i].slug == toc[i].slug
  {
    hide GoodToc, Savable, Stores, TakesUp, ValidRows, FitsToc, PagesAfter, CourseFrom, PagesSoFar;
    DiesThere(toc, last, readFails, 0);
    OnePageEach(toc, a.fate, last + 1);
    NothingWrittenIsLost(before, a, after);
    NothingFits(toc);
    AllSavable(toc, [], a.fate, last + 1);
  }

  lemma NothingFits(toc: seq<TocItem>)
    ensures FitsToc(toc, [])
  {
    NothingTaken(toc);
  }

  /**
   A run from an empty table that dies between its last checkpoint and its completion leaves a complete wiki, and the next run
   takes none of it up: it starts writing from the first item again.
   */
  method DiesBeforeCompletion(toc: seq<TocItem>, fate: Fate) returns (table: WikiTable, ghost mid: map<string, WikiRow>, ghost first: Attempt, ghost second: Attempt)
    requires toc != [] && GoodToc(toc)
    ensures fresh(table) && Runs([map[], mid, table.rows], [first, second])
    ensures first.Course().outcome.Interrupted? && Stores(mid, toc, first.Pages()) && |first.Pages()| == |toc|
    ensures forall i :: 0 <= i < |toc| ==> IsSaved(mid, toc[i].slug)
    ensures second.toc == toc && second.fate == fate && second.taken == []
  {
    hide GoodToc, PagesAfter, CourseFrom, Left, FitsToc, Savable;
    table := new WikiTable();
    first := RunOnce(table, toc, DyingAfter(|toc| - 1, false));
    mid := table.rows;
    EmptyResumesNothing(toc);
    LeavesFirstPages(toc, |toc| - 1, false, map[], first, mid);
    DiesThere(toc, |toc| - 1, false, 0);
    StoredCount(mid, toc, first.Pages());
    forall i | 0 <= i < |toc| ensures IsSaved(mid, toc[i].slug) {
      StoredPage(mid, toc, first.Pages(), i);
      NotContents(toc, i);
    }
    second := RunOnce(table, toc, fate);
  }

  lemma EmptyResumesNothing(toc: seq<TocItem>)
    ensures !Resumes(map[], toc)
  {
  }

  /** A read of the saved wiki that fails counts as no wiki, and the next checkpoint overwrites the pages that were there. */
  method FailingReadLosesPages(toc: seq<TocItem>) returns (table: WikiTable, ghost mid: map<string, WikiRow>, ghost first: Attempt, ghost second: Attempt)
    requires |toc| >= 3 && GoodToc(toc)
    ensures fresh(table) && Runs([map[], mid, table.rows], [first, second])
    ensures IsSaved(mid, toc[1].slug) && |mid| - 1 < |toc| && second.fate.readFails && second.toc == toc
    ensures toc[1].slug !in table.rows
  {
    hide PagesAfter, CourseFrom, Left, FitsToc, Savable, Stores;
    table := new WikiTable();
    first := RunOnce(table, toc, DyingAfter(1, false));
    mid := table.rows;
    EmptyResumesNothing(toc);
    LeavesFirstPages(toc, 1, false, map[], first, mid);
    StoredPage(mid, toc, first.Pages(), 1);
    StoredCount(mid, toc, first.Pages());
    second := RunOnce(table, toc, DyingAfter(0, true));
    LeavesFirstPages(toc, 0, true, mid, second, table.rows);
    OnlyFirst(table.rows, toc, second.Pages());
  }

  lemma OnlyFirst(rows: map<string, WikiRow>, toc: seq<TocItem>, pages: seq<Page>)
    requires Stores(rows, toc, pages) && |toc| >= 2 && GoodToc(toc) && |pages| == 1 && pages[0].slug == toc[0].slug
    ensures toc[1].slug !in rows
  {
  }
}
