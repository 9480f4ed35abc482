/**
 * Typed browser errors and the post-incident ("COE") report built from
 * them (apps/desktop/src/error.rs).
 */
module Errors {

  datatype BrowserError =
    | WebViewCreation(detail: string)
    | NavigationFailed(url: string, reason: string)
    | Database(detail: string)
    | IpcError(detail: string)
    | ConfigError(detail: string)
    | WindowError(detail: string)
    | Unexpected(detail: string)
  {
    /** The error's `Display` text. */
    function ToString(): (s: string)
      ensures |s| > 0
    {
      match this
      case WebViewCreation(d) => "WebView creation failed: " + d
      case NavigationFailed(u, r) => "Navigation failed: url=" + u + ", reason=" + r
      case Database(d) => "Database error: " + d
      case IpcError(d) => "IPC error: " + d
      case ConfigError(d) => "Configuration error: " + d
      case WindowError(d) => "Window error: " + d
      case Unexpected(d) => "Unexpected error: " + d
    }

    /** The metrics category of the error: one fixed tag per variant. */
    function ErrorType(): (tag: string)
      ensures |tag| > 0
    {
      match this
      case WebViewCreation(_) => "webview_creation"
      case NavigationFailed(_, _) => "navigation_failed"
      case Database(_) => "database"
      case IpcError(_) => "ipc"
      case ConfigError(_) => "config"
      case WindowError(_) => "window"
      case Unexpected(_) => "unexpected"
    }

    /** The message shown to the user. */
    function UserMessage(): (msg: string)
      ensures |msg| > 0
    {
      match this
      case WebViewCreation(_) => "Failed to create browser window. Please restart the application."
      case NavigationFailed(u, _) => "Failed to load " + u + ". Please check your internet connection."
      case Database(_) => "Browser data error. Your history and bookmarks may not be saved."
      case IpcError(_) => "Internal communication error. Please reload the page."
      case ConfigError(_) => "Configuration error. Please check your settings."
      case WindowError(_) => "Window error. Please restart the application."
      case Unexpected(_) => "An unexpected error occurred. Please try again."
    }

    /** The remediation proposed in the report. */
    function SuggestedFix(): (fix: string)
      ensures |fix| > 0
    {
      match this
      case WebViewCreation(_) => "Check platform WebView availability (WKWebView/WebView2/WebKitGTK)"
      case NavigationFailed(_, _) => "Verify URL validity, check network connectivity"
      case Database(_) => "Check database file permissions, verify disk space"
      case IpcError(_) => "Investigate IPC message format, check serialization"
      case ConfigError(_) => "Validate configuration file, reset to defaults"
      case WindowError(_) => "Check windowing system, verify graphics drivers"
      case Unexpected(_) => "Enable debug logging, capture full stack trace"
    }

    /** Debugging context: url and reason for a failed navigation, the display text otherwise. */
    function GetContext(): (ctx: string)
      ensures NavigationFailed? ==> ctx == "URL: " + url + ", Reason: " + reason
      ensures !NavigationFailed? ==> ctx == ToString()
      ensures |ctx| > 0
      ensures NavigationFailed? ==>
        "URL: " <= ctx && ctx[5..5 + |url|] == url && ctx[|ctx| - |reason|..] == reason
    {
      match this
      case NavigationFailed(u, r) => "URL: " + u + ", Reason: " + r
      case _ => ToString()
    }

    /** The report of this error, stamped with `timestamp` (an RFC 3339 text). */
    function ToCoeReport(timestamp: string): (r: ErrorReport)
      ensures r.errorType == ErrorType() && r.errorMessage == ToString()
      ensures r.userMessage == UserMessage() && r.suggestedFix == SuggestedFix()
      ensures r.context == GetContext() && r.timestamp == timestamp
    {
      ErrorReport(ErrorType(), ToString(), UserMessage(), timestamp, SuggestedFix(), GetContext())
    }
  }

  datatype ErrorReport = ErrorReport(
    errorType: string,
    errorMessage: string,
    userMessage: string,
    timestamp: string,
    suggestedFix: string,
    context: string)
  {
    /** `[COE] type=<type> time=<timestamp> msg="<message>" fix="<fix>"`. */
    function ToLogEntry(): string
    {
      "[COE] type=" + errorType + " time=" + timestamp
        + " msg=\"" + errorMessage + "\" fix=\"" + suggestedFix + "\""
    }
  }

  /** Any error from the generic error library becomes `Unexpected` with its text. */
  function FromAnyhow(message: string): (e: BrowserError)
    ensures e.Unexpected? && e.detail == message
    ensures e.ErrorType() == "unexpected"
  {
    Unexpected(message)
  }

  /** Both errors are of the same variant, whatever their payloads. */
  predicate SameVariant(a: BrowserError, b: BrowserError)
  {
    match (a, b)
    case (WebViewCreation(_), WebViewCreation(_)) => true
    case (NavigationFailed(_, _), NavigationFailed(_, _)) => true
    case (Database(_), Database(_)) => true
    case (IpcError(_), IpcError(_)) => true
    case (ConfigError(_), ConfigError(_)) => true
    case (WindowError(_), WindowError(_)) => true
    case (Unexpected(_), Unexpected(_)) => true
    case _ => false
  }

  /** Two errors share a type tag exactly when they are of the same variant. */
  lemma ErrorTypeDistinct(a: BrowserError, b: BrowserError)
    ensures a.ErrorType() == b.ErrorType() <==> SameVariant(a, b)
  {
  }

  /** A failed navigation's user message names the url it could not load. */
  lemma NavigationFailedMessage(url: string, reason: string)
    ensures NavigationFailed(url, reason).UserMessage()
      == "Failed to load " + url + ". Please check your internet connection."
    ensures "Failed to load " <= NavigationFailed(url, reason).UserMessage()
  {
  }

  /**
   * A report's log line opens with "[COE] type=", the tag, " time=" and the
   * timestamp, carries the error text in quotes, and ends with the
   * suggested fix in quotes.
   */
  lemma LogEntryShape(r: ErrorReport)
    ensures var line := r.ToLogEntry();
      var head := "[COE] type=" + r.errorType + " time=" + r.timestamp + " msg=\"";
      var tail := "\" fix=\"" + r.suggestedFix + "\"";
      && head <= line
      && line[|head|..|line| - |tail|] == r.errorMessage
      && line[|line| - |tail|..] == tail
  {
    var head := "[COE] type=" + r.errorType + " time=" + r.timestamp + " msg=\"";
    var tail := "\" fix=\"" + r.suggestedFix + "\"";
    assert r.ToLogEntry() == head + r.errorMessage + tail;
    ConcatSlices(head, r.errorMessage, tail);
  }

  /** The three parts of a concatenation can be sliced back out of it. */
  lemma ConcatSlices(a: string, b: string, c: string)
    ensures a <= a + b + c
    ensures (a + b + c)[|a|..|a| + |b|] == b
    ensures (a + b + c)[|a| + |b|..] == c
  {
    var s := a + b + c;
    assert s[..|a|] == a;
    assert s[|a|..|a| + |b|] == b;
  }
}
