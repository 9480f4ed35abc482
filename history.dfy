/**
 * Per-tab navigation history: an array of entries with a cursor
 * (apps/desktop/src/history.rs).
 */
module History {
  import opened Wrappers

  /** One visited page. `visitTime` is the clock reading, in milliseconds, when it was pushed. */
  datatype HistoryEntry = HistoryEntry(url: string, title: Option<string>, visitTime: nat)

  class TabHistory {
    var entries: seq<HistoryEntry>
    /** Index of the current entry; `None` exactly when there are no entries. */
    var currentIndex: Option<nat>

    ghost predicate Valid()
      reads this
    {
      && (currentIndex.None? <==> |entries| == 0)
      && (currentIndex.Some? ==> currentIndex.value < |entries|)
    }

    /** A new history is empty and has no current entry. */
    constructor ()
      ensures Valid()
      ensures entries == [] && currentIndex == None
      ensures IsEmpty() && Len() == 0 && Current() == None
      ensures !CanGoBack() && !CanGoForward()
    {
      entries := [];
      currentIndex := None;
    }

    /**
     * Navigates to a new page: every entry after the cursor is discarded,
     * the new entry is appended and becomes current.
     */
    method Push(url: string, title: Option<string>, now: nat)
      requires Valid()
      modifies this
      ensures Valid()
      ensures old(currentIndex).None? ==>
        entries == [HistoryEntry(url, title, now)] && currentIndex == Some(0)
      ensures old(currentIndex).Some? ==>
        var i := old(currentIndex).value;
        entries == old(entries)[..i + 1] + [HistoryEntry(url, title, now)] &&
        currentIndex == Some(i + 1)
      ensures Current() == Some(HistoryEntry(url, title, now))
      ensures CurrentUrl() == Some(url) && CurrentTitle() == title
      ensures !CanGoForward()
      ensures old(currentIndex).Some? ==>
        forall k :: 0 <= k <= old(currentIndex).value ==> entries[k] == old(entries)[k]
    {
      var entry := HistoryEntry(url, title, now);
      match currentIndex {
        case None =>
          entries := entries + [entry];
          currentIndex := Some(0);
        case Some(index) =>
          entries := entries[..index + 1];
          entries := entries + [entry];
          currentIndex := Some(index + 1);
      }
    }

    /** There is an entry before the current one. */
    function CanGoBack(): (can: bool)
      reads this
      ensures can <==> currentIndex.Some? && currentIndex.value > 0
      ensures Valid() && can ==> |entries| >= 2 && Current().Some?
    {
      match currentIndex
      case None => false
      case Some(idx) => idx > 0
    }

    /** There is an entry after the current one (`len - 1` saturates at 0). */
    function CanGoForward(): (can: bool)
      reads this
      ensures can <==> currentIndex.Some? && currentIndex.value + 1 < |entries|
    {
      match currentIndex
      case None => false
      case Some(idx) => idx < SaturatingPred(|entries|)
    }

    /** Moves the cursor one entry back and returns the entry now current. */
    method GoBack() returns (entry: Option<HistoryEntry>)
      requires Valid()
      modifies this`currentIndex
      ensures Valid()
      ensures old(CanGoBack()) ==>
        currentIndex == Some(old(currentIndex).value - 1) &&
        entry == Some(entries[old(currentIndex).value - 1])
      ensures !old(CanGoBack()) ==> currentIndex == old(currentIndex) && entry == None
      ensures entry.Some? ==> Current() == entry && CanGoForward()
    {
      entry := None;
      if currentIndex.Some? {
        var index := currentIndex.value;
        if index > 0 {
          currentIndex := Some(index - 1);
          entry := Some(entries[index - 1]);
        }
      }
    }

    /** Moves the cursor one entry forward and returns the entry now current. */
    method GoForward() returns (entry: Option<HistoryEntry>)
      requires Valid()
      modifies this`currentIndex
      ensures Valid()
      ensures old(CanGoForward()) ==>
        currentIndex == Some(old(currentIndex).value + 1) &&
        entry == Some(entries[old(currentIndex).value + 1])
      ensures !old(CanGoForward()) ==> currentIndex == old(currentIndex) && entry == None
      ensures entry.Some? ==> Current() == entry && CanGoBack()
    {
      entry := None;
      if currentIndex.Some? {
        var index := currentIndex.value;
        if index < |entries| - 1 {
          currentIndex := Some(index + 1);
          entry := Some(entries[index + 1]);
        }
      }
    }

    /** The entry at the cursor, if the cursor points at one. */
    function Current(): (entry: Option<HistoryEntry>)
      reads this
      ensures Valid() ==> (entry.None? <==> |entries| == 0)
      ensures entry.Some? ==>
        currentIndex.Some? && currentIndex.value < |entries| && entry.value == entries[currentIndex.value]
    {
      match currentIndex
      case None => None
      case Some(idx) => if idx < |entries| then Some(entries[idx]) else None
    }

    function CurrentUrl(): (url: Option<string>)
      reads this
      ensures url.Some? <==> Current().Some?
      ensures url.Some? ==> url.value == Current().value.url
      ensures Valid() ==> (url.Some? <==> |entries| > 0)
    {
      match Current()
      case None => None
      case Some(e) => Some(e.url)
    }

    /** The current entry's title; `None` also when that entry has no title. */
    function CurrentTitle(): (title: Option<string>)
      reads this
      ensures title.Some? <==> Current().Some? && Current().value.title.Some?
      ensures title.Some? ==> title == Current().value.title
    {
      match Current()
      case None => None
      case Some(e) => e.title
    }

    function Len(): (n: nat)
      reads this
      ensures n == |entries|
      ensures Valid() ==> (n == 0 <==> currentIndex.None?)
    {
      |entries|
    }

    function IsEmpty(): (empty: bool)
      reads this
      ensures empty <==> |entries| == 0
      ensures Valid() ==> (empty <==> Current().None?)
    {
      |entries| == 0
    }

    function CurrentIndex(): (idx: Option<nat>)
      reads this
      ensures Valid() ==> (idx.None? <==> IsEmpty())
      ensures Valid() && idx.Some? ==> idx.value < Len()
    {
      currentIndex
    }
  }

  /** `n.saturating_sub(1)` on an unsigned length. */
  function SaturatingPred(n: nat): (m: nat)
    ensures m + 1 >= n && m <= n
    ensures n > 0 ==> m + 1 == n
  {
    if n == 0 then 0 else n - 1
  }

  /**
   * The first push into a new history: one entry, whose url and title are
   * current, and neither back nor forward is possible.
   */
  method PushFirstEntry(url: string, title: Option<string>, now: nat) returns (h: TabHistory)
    ensures h.Valid()
    ensures h.Len() == 1 && h.CurrentIndex() == Some(0)
    ensures h.CurrentUrl() == Some(url) && h.CurrentTitle() == title
    ensures !h.CanGoBack() && !h.CanGoForward()
  {
    h := new TabHistory();
    h.Push(url, title, now);
  }

  /**
   * Going back and then forward again lands on the entry it started from,
   * and neither step changes the entries.
   */
  method BackThenForward(h: TabHistory) returns (back: Option<HistoryEntry>, forward: Option<HistoryEntry>)
    requires h.Valid() && h.CanGoBack()
    modifies h
    ensures h.Valid()
    ensures h.entries == old(h.entries) && h.currentIndex == old(h.currentIndex)
    ensures back.Some? && forward == old(h.Current()) && h.Current() == old(h.Current())
  {
    back := h.GoBack();
    forward := h.GoForward();
  }

  /**
   * Push a, b, c; go back once and push d. The history is then exactly
   * [a, b, d] with d current and nothing ahead; going back twice passes
   * b and reaches a, so c is gone for good.
   */
  method TruncationScenario(t0: nat, t1: nat, t2: nat, t3: nat)
    returns (h: TabHistory, afterPush: Option<string>, backOnce: Option<string>, backTwice: Option<string>)
    ensures h.Valid()
    ensures |h.entries| == 3
    ensures h.entries[0].url == "https://a.com" && h.entries[1].url == "https://b.com"
    ensures h.entries[2].url == "https://d.com"
    ensures afterPush == Some("https://d.com")
    ensures backOnce == Some("https://b.com") && backTwice == Some("https://a.com")
    ensures h.CurrentUrl() == Some("https://a.com") && !h.CanGoBack()
  {
    h := new TabHistory();
    h.Push("https://a.com", Some("A"), t0);
    h.Push("https://b.com", Some("B"), t1);
    h.Push("https://c.com", Some("C"), t2);
    var e := h.GoBack();
    assert h.CurrentUrl() == Some("https://b.com") && h.Len() == 3;
    h.Push("https://d.com", Some("D"), t3);
    assert h.Len() == 3 && h.CanGoBack() && !h.CanGoForward();
    afterPush := h.CurrentUrl();
    e := h.GoBack();
    backOnce := h.CurrentUrl();
    e := h.GoBack();
    backTwice := h.CurrentUrl();
  }
}
