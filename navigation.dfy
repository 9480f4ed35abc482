/**
 * Navigation bookkeeping (apps/desktop/src/navigation.rs): derive a title,
 * report the storage outcome to the metrics collector, remember the url.
 * The history save is an input outcome; the elapsed time and the clock
 * reading are inputs in milliseconds.
 */
module Navigation {
  import opened Wrappers
  import State
  import Errors
  import M = Metrics

  datatype NavigationResult = NavigationResult(url: string, title: string, shouldAddHistory: bool)

  /** What the history store answered; a failure carries the storage error's text. */
  datatype SaveOutcome = Saved | SaveFailed(reason: string)

  /** The message recorded when the history save fails. */
  function SaveFailureMessage(reason: string): string
  {
    "History save failed: " + Errors.Database(reason).ToString()
  }

  class NavigationService {
    var currentUrl: Option<string>
    const metrics: M.Metrics
    /** Every url navigated to so far, oldest first (specification only). */
    ghost var visited: seq<string>

    /** The current url is the last url navigated to, if any. */
    ghost predicate Valid()
      reads this
    {
      currentUrl == if |visited| == 0 then None else Some(visited[|visited| - 1])
    }

    constructor (metrics: M.Metrics)
      ensures Valid() && visited == []
      ensures this.metrics == metrics && currentUrl == None && CurrentUrl() == None
    {
      this.metrics := metrics;
      currentUrl := None;
      visited := [];
    }

    /**
     * Navigates to `url`. A saved visit counts as one successful navigation
     * taking `elapsedMs`; a failed save records an error instead. Either way
     * the url becomes current and the navigation succeeds.
     */
    method Navigate(url: string, save: SaveOutcome, elapsedMs: nat, now: nat)
      returns (r: Result<NavigationResult, Errors.BrowserError>)
      requires Valid() && metrics.Valid()
      modifies this`currentUrl, this`visited, metrics
      ensures Valid() && visited == old(visited) + [url]
      ensures metrics.Valid()
      ensures r == Ok(NavigationResult(url, State.ExtractTitle(url), true))
      ensures currentUrl == Some(url) && CurrentUrl() == Some(url)
      ensures save.Saved? ==>
        && metrics.navigationCount == old(metrics.navigationCount) + 1
        && metrics.navigationErrors == old(metrics.navigationErrors)
        && metrics.pageLoadTimes == M.KeepLast(old(metrics.pageLoadTimes) + [elapsedMs], M.MaxSamples)
        && metrics.lastRecovery == Some(now)
        && metrics.lastError == old(metrics.lastError)
      ensures save.SaveFailed? ==>
        && metrics.navigationCount == old(metrics.navigationCount)
        && metrics.navigationErrors == old(metrics.navigationErrors) + 1
        && metrics.pageLoadTimes == old(metrics.pageLoadTimes)
        && metrics.lastRecovery == old(metrics.lastRecovery)
        && metrics.lastError == Some((now, SaveFailureMessage(save.reason)))
    {
      var title := State.ExtractTitle(url);
      match save {
        case Saved =>
          metrics.RecordNavigation(true, elapsedMs, now);
        case SaveFailed(reason) =>
          metrics.RecordError(SaveFailureMessage(reason), now);
      }
      currentUrl := Some(url);
      visited := visited + [url];
      r := Ok(NavigationResult(url, title, true));
    }

    /** The url of the last navigation; absent before the first one. */
    function CurrentUrl(): (url: Option<string>)
      reads this
      ensures Valid() ==> (url.None? <==> |visited| == 0)
      ensures Valid() && url.Some? ==> url.value == visited[|visited| - 1]
    {
      currentUrl
    }
  }

  /**
   * A new service has no current url; navigating to "https://example.com"
   * succeeds with title "example.com", asks for a history entry, and makes
   * the url current.
   */
  method FirstNavigation(url: string, elapsedMs: nat, now: nat)
    returns (service: NavigationService, before: Option<string>, r: Result<NavigationResult, Errors.BrowserError>)
    requires url == "https:" + "//" + "example.com"
    ensures before == None
    ensures r == Ok(NavigationResult(url, "example.com", true))
    ensures service.CurrentUrl() == Some(url)
  {
    var m := new M.Metrics();
    service := new NavigationService(m);
    before := service.CurrentUrl();
    r := service.Navigate(url, Saved, elapsedMs, now);
    State.ExtractTitleOfHost("https:", "example.com", "");
    assert "https:" + "//" + "example.com" + "" == url;
  }

  /** Two saved navigations count two successes, no failure and both load times; the last url is current. */
  method TwoSavedNavigations(url1: string, url2: string, d1: nat, d2: nat, now: nat)
    returns (service: NavigationService, m: M.Metrics)
    ensures service.Valid() && service.visited == [url1, url2]
    ensures service.metrics == m && m.Valid()
    ensures m.navigationCount == 2 && m.navigationErrors == 0
    ensures m.pageLoadTimes == [d1, d2]
    ensures service.CurrentUrl() == Some(url2)
  {
    m := new M.Metrics();
    service := new NavigationService(m);
    var r := service.Navigate(url1, Saved, d1, now);
    assert m.pageLoadTimes == [d1];
    r := service.Navigate(url2, Saved, d2, now);
  }
}
