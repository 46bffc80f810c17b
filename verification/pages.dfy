/** The two page locators: `page_for_offset` of apps/api/pdi/intelligence/providers.py searches,
    `evidence_for` of apps/api/pdi/knowledge/extraction.py counts. */
module Pages {
  import opened Common
  import opened Normalization

  /** Where a page starts in the joined text. */
  function PageStart(pages: seq<string>, k: nat): nat
    requires k < |pages|
  {
    if k == 0 then 0 else PageStart(pages, k - 1) + |pages[k - 1]| + 2
  }

  function PageEnd(pages: seq<string>, k: nat): nat
    requires k < |pages|
  {
    PageStart(pages, k) + |pages[k]|
  }

  /** The offset is on page `k`, or in the blank line before it. Pages count from one. */
  predicate OnPage(pages: seq<string>, offset: nat, page: nat) {
    && 1 <= page <= |pages|
    && offset <= PageEnd(pages, page - 1)
    && (page > 1 ==> PageEnd(pages, page - 2) < offset)
  }

  predicate OccursAt(text: string, page: string, at: nat) {
    at + |page| <= |text| && text[at..at + |page|] == page
  }

  /** The first occurrence at or after a position. */
  method Find(text: string, page: string, from: nat) returns (found: Option<nat>)
    ensures found.Some? ==> from <= found.value && OccursAt(text, page, found.value)
                            && forall k: nat :: from <= k < found.value ==> !OccursAt(text, page, k)
    ensures found.None? ==> forall k: nat :: from <= k ==> !OccursAt(text, page, k)
  {
    var at := from;
    while at + |page| <= |text|
      invariant from <= at
      invariant forall k: nat :: from <= k < at ==> !OccursAt(text, page, k)
    {
      if text[at..at + |page|] == page {
        return Some(at);
      }
      at := at + 1;
    }
    return None;
  }

  // ---------- the joined text ----------

  /** Each page stands at its start, and two newlines stand before it. */
  lemma {:induction false} PageStands(pages: seq<string>, k: nat)
    requires k < |pages|
    ensures OccursAt(Joined(pages), pages[k], PageStart(pages, k))
    ensures k > 0 ==> PageStart(pages, k) >= 2
                      && Joined(pages)[PageStart(pages, k) - 2] == Joined(pages)[PageStart(pages, k) - 1] == '\n'
  {
    var text := Joined(pages);
    if k == 0 {
      assert text[0..|pages[0]|] == pages[0];
    } else {
      var rest := Joined(pages[1..]);
      assert text == pages[0] + "\n\n" + rest;
      PageStands(pages[1..], k - 1);
      StartInRest(pages, k);
      var at := PageStart(pages[1..], k - 1);
      var n := |pages[0]| + 2;
      assert text[n..] == rest;
      assert text[n + at..n + at + |pages[k]|] == rest[at..at + |pages[k]|];
    }
  }

  lemma {:induction false} StartInRest(pages: seq<string>, k: nat)
    requires 0 < k < |pages|
    ensures PageStart(pages, k) == |pages[0]| + 2 + PageStart(pages[1..], k - 1)
  {
    if k > 1 { StartInRest(pages, k - 1); }
  }

  /** A normalized page does not start with white space, so it is found exactly where it stands. */
  lemma FoundAtStart(pages: seq<string>, k: nat, from: nat, found: nat)
    requires NormalPages(pages) && k < |pages|
    requires from == if k == 0 then 0 else PageEnd(pages, k - 1)
    requires from <= found && OccursAt(Joined(pages), pages[k], found)
    requires forall i: nat :: from <= i < found ==> !OccursAt(Joined(pages), pages[k], i)
    ensures found == PageStart(pages, k)
  {
    hide NormalPages, Joined, OccursAt, PageStart;
    PageStands(pages, k);
    StartAfterEnd(pages, k);
    PageIsInk(pages, k);
    OccursWithFirst(Joined(pages), pages[k], found);
  }

  lemma PageIsInk(pages: seq<string>, k: nat)
    requires NormalPages(pages) && k < |pages|
    ensures pages[k] != "" && pages[k][0] != '\n'
  {
    hide Space, NoReturns, LinesTrimmed, NoTripleNewline;
    LineEndsAreSpace();
    assert pages[k] in pages;
  }

  lemma OccursWithFirst(text: string, page: string, at: nat)
    requires OccursAt(text, page, at) && page != ""
    ensures at < |text| && text[at] == page[0]
  {
  }

  // ---------- the locators ----------

  /** Searches for each page after the one before it, and takes the first that ends at or after
      the offset. */
  method PageForOffset(text: string, pages: seq<string>, offset: nat) returns (page: nat)
    ensures 1 <= page && (pages != [] ==> page <= |pages|)
    ensures NormalPages(pages) && text == Joined(pages) && offset <= |text| && pages != [] ==> OnPage(pages, offset, page)
  {
    hide Joined, PageStart, NormalPages;
    var cursor: nat := 0;
    for k := 0 to |pages|
      invariant NormalPages(pages) && text == Joined(pages) ==>
                  && cursor == (if k == 0 then 0 else PageEnd(pages, k - 1))
                  && (k > 0 ==> cursor < offset)
    {
      var start := cursor;
      if pages[k] != "" {
        var found := Find(text, pages[k], cursor);
        start := if found.Some? then found.value else cursor;
        if NormalPages(pages) && text == Joined(pages) {
          PageStands(pages, k);
          StartAfterEnd(pages, k);
          if found.Some? {
            FoundAtStart(pages, k, cursor, found.value);
          }
        }
      } else {
        NoEmptyPage(pages, k);
      }
      var end := start + |pages[k]|;
      if offset <= end {
        return k + 1;
      }
      cursor := end;
    }
    LastEnd(pages);
    return if |pages| == 0 then 1 else |pages|;
  }

  lemma StartAfterEnd(pages: seq<string>, k: nat)
    requires k < |pages|
    ensures PageStart(pages, k) == if k == 0 then 0 else PageEnd(pages, k - 1) + 2
  {
  }

  lemma NoEmptyPage(pages: seq<string>, k: nat)
    requires k < |pages| && pages[k] == ""
    ensures !NormalPages(pages)
  {
    assert pages[k] in pages;
  }

  lemma {:induction false} LastEnd(pages: seq<string>)
    ensures pages != [] ==> PageEnd(pages, |pages| - 1) == |Joined(pages)|
  {
    if |pages| > 1 {
      LastEnd(pages[1..]);
      StartInRest(pages, |pages| - 1);
    }
  }

  /** Counts the pages' lengths; page one when no page reaches so far. */
  method PageByCounting(pages: seq<string>, offset: nat) returns (page: nat)
    ensures 1 <= page && (pages != [] ==> page <= |pages|)
    ensures pages != [] && offset <= PageEnd(pages, |pages| - 1) ==> OnPage(pages, offset, page)
    ensures pages == [] || offset > PageEnd(pages, |pages| - 1) ==> page == 1
  {
    hide PageStart;
    page := 1;
    var cursor: nat := 0;
    if pages != [] { StartAfterEnd(pages, 0); }
    for k := 0 to |pages|
      invariant k < |pages| ==> cursor == PageStart(pages, k)
      invariant k > 0 ==> PageEnd(pages, k - 1) < offset
      invariant page == 1
    {
      var end := cursor + |pages[k]|;
      StartAfterEnd(pages, k);
      if offset <= end {
        EndsAscend(pages, k, |pages| - 1);
        return k + 1;
      }
      if k + 1 < |pages| { StartAfterEnd(pages, k + 1); }
      cursor := end + 2;
    }
  }

  /** An offset is on one page only, so the locators agree wherever both are right. */
  lemma OnePage(pages: seq<string>, offset: nat, p: nat, q: nat)
    requires OnPage(pages, offset, p) && OnPage(pages, offset, q)
    ensures p == q
  {
    if p < q {
      EndsAscend(pages, p - 1, q - 2);
    } else if q < p {
      EndsAscend(pages, q - 1, p - 2);
    }
  }

  lemma {:induction false} EndsAscend(pages: seq<string>, i: nat, j: nat)
    requires i <= j < |pages|
    ensures PageEnd(pages, i) <= PageEnd(pages, j)
    decreases j
  {
    if i < j { EndsAscend(pages, i, j - 1); }
  }

  /** An offset within a page is on that page. */
  lemma WithinPage(pages: seq<string>, offset: nat, k: nat)
    requires k < |pages| && PageStart(pages, k) <= offset <= PageEnd(pages, k)
    ensures OnPage(pages, offset, k + 1)
  {
  }

  /** Main result: on every offset of a joined text both locators give the same, true page. */
  method LocatorsAgree(pages: seq<string>, offset: nat) returns (searched: nat, counted: nat)
    requires NormalPages(pages) && pages != [] && offset <= |Joined(pages)|
    ensures searched == counted && OnPage(pages, offset, searched)
    ensures forall k :: 0 <= k < |pages| && PageStart(pages, k) <= offset <= PageEnd(pages, k) ==> searched == k + 1
  {
    hide NormalPages, Joined, PageStart;
    LastEnd(pages);
    searched := PageForOffset(Joined(pages), pages, offset);
    counted := PageByCounting(pages, offset);
    OnePage(pages, offset, searched, counted);
    forall k | 0 <= k < |pages| && PageStart(pages, k) <= offset <= PageEnd(pages, k) ensures searched == k + 1 {
      WithinPage(pages, offset, k);
      OnePage(pages, offset, searched, k + 1);
    }
  }
}
