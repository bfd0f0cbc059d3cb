/** The sample page object. Its driver is the one the driver manager handed
    out when the page was constructed; element lookups and clicks go through
    the element utilities (not modelled), so an operation here is modelled
    by the locator it builds and by how it folds the device's answers into
    its result. */
module SamplePage {
  import opened Common
  import opened BrowserStackCapabilities
  import opened Drivers

  /** An XPath locator. */
  datatype Locator = XPath(expression: string)

  /** `capabilities.getCapability("platformName").toString()`; an absent
      capability prints as "null". */
  function PlatformNameOf(d: Driver): string {
    if "platformName" in d.capabilities then
      match d.capabilities["platformName"]
      case Text(s) => s
      case Flag(b) => if b then "true" else "false"
    else "null"
  }

  /** textLocator: match the `text` attribute on Android, the `name` or
      `label` attribute anywhere else; `text` is pasted in unescaped, so the
      XPath literal reads back as the text only when it has no single quote. */
  function TextLocator(d: Driver, text: string): (l: Locator)
    ensures Lower(PlatformNameOf(d)) == "android" ==> l == XPath("//*[@text='" + text + "']")
    ensures Lower(PlatformNameOf(d)) != "android" ==> l == XPath("//*[@name='" + text + "' or @label='" + text + "']")
    ensures '\'' !in text ==> QuotedArgument(l.expression) == Some(text)
  {
    if Lower(PlatformNameOf(d)) == "android" then
      AndroidExpressionQuotesText(text);
      XPath("//*[@text='" + text + "']")
    else
      OtherExpressionQuotesText(text);
      XPath("//*[@name='" + text + "' or @label='" + text + "']")
  }

  /** The string between the first two single quotes of an expression. */
  function QuotedArgument(e: string): Option<string> {
    match IndexOf(e, '\'', 0)
    case None => None
    case Some(i) =>
      match IndexOf(e, '\'', i + 1)
      case None => None
      case Some(j) => Some(e[i + 1..j])
  }

  /** Reading back a quoted argument: `p` ends in the opening quote and has
      no other, `t` has none, `q` starts with the closing quote. */
  lemma QuotedArgumentOf(p: string, t: string, q: string)
    requires |p| > 0 && p[|p| - 1] == '\'' && forall k :: 0 <= k < |p| - 1 ==> p[k] != '\''
    requires '\'' !in t
    requires |q| > 0 && q[0] == '\''
    ensures QuotedArgument(p + t + q) == Some(t)
  {
    var e := p + t + q;
    assert forall k :: 0 <= k < |p| ==> e[k] == p[k];
    assert forall k :: |p| <= k < |p| + |t| ==> e[k] == t[k - |p|];
    assert e[|p| + |t|] == '\'';
    var first := IndexOf(e, '\'', 0);
    assert first == Some(|p| - 1);
    var second := IndexOf(e, '\'', |p|);
    assert second == Some(|p| + |t|);
    assert e[|p|..|p| + |t|] == t;
  }

  lemma AndroidExpressionQuotesText(text: string)
    ensures '\'' !in text ==> QuotedArgument("//*[@text='" + text + "']") == Some(text)
  {
    if '\'' !in text {
      QuotedArgumentOf("//*[@text='", text, "']");
    }
  }

  lemma OtherExpressionQuotesText(text: string)
    ensures '\'' !in text ==> QuotedArgument("//*[@name='" + text + "' or @label='" + text + "']") == Some(text)
  {
    if '\'' !in text {
      var p, q := "//*[@name='", "' or @label='" + text + "']";
      QuotedArgumentOf(p, text, q);
      assert p + text + "' or @label='" + text + "']" == p + text + q;
    }
  }

  /** Nothing is escaped: a quote in the text ends the XPath literal early,
      so the locator matches on the text up to its first quote only: the
      text "it's", say, is looked up as "it". */
  lemma TextLocatorStopsAtQuote(d: Driver, a: string, b: string)
    requires '\'' !in a
    ensures QuotedArgument(TextLocator(d, a + "'" + b).expression) == Some(a)
  {
    var text := a + "'" + b;
    if Lower(PlatformNameOf(d)) == "android" {
      var p, q := "//*[@text='", "'" + b + "']";
      QuotedArgumentOf(p, a, q);
      assert p + text + "']" == p + a + q;
    } else {
      var p, q := "//*[@name='", "'" + b + "' or @label='" + text + "']";
      QuotedArgumentOf(p, a, q);
      assert p + text + "' or @label='" + text + "']" == p + a + q;
    }
  }

  /** Which attribute the locator matches for the sessions this harness
      opens: the Android capability map selects `@text`, the iOS one
      `@name`/`@label`. */
  lemma TextLocatorForSession(d: Driver, s: Settings, app: string, text: string)
    ensures d.capabilities == AndroidCapabilityMap(s, app) ==>
      TextLocator(d, text) == XPath("//*[@text='" + text + "']")
    ensures d.capabilities == IosCapabilityMap(s, app) ==>
      TextLocator(d, text) == XPath("//*[@name='" + text + "' or @label='" + text + "']")
  {
    if d.capabilities == AndroidCapabilityMap(s, app) {
      AndroidPlatformEntries(s, app);
      assert PlatformNameOf(d) == "Android";
    }
    if d.capabilities == IosCapabilityMap(s, app) {
      IosPlatformEntries(s, app);
      assert PlatformNameOf(d) == "iOS";
      assert Lower("iOS") == "ios";
    }
  }

  // ---------------------------------------------------------------------
  // Operations

  /** An interaction the page issues through the element utilities. */
  datatype Interaction = Click(target: Locator)

  /** clickElementWithText: a click on the element the text locator finds,
      which carries exactly that text when the text has no single quote. */
  function ClickElementWithText(d: Driver, text: string): (i: Interaction)
    ensures '\'' !in text ==> QuotedArgument(i.target.expression) == Some(text)
  {
    Click(TextLocator(d, text))
  }

  /** isTextDisplayed: the device's answer for the text locator, where an
      exception (no such element, among others) reads as "not displayed".
      `displayed` is what the device answers for each locator. */
  function IsTextDisplayed(d: Driver, text: string, displayed: Locator -> Reply<bool>): (b: bool)
    ensures b <==> displayed(TextLocator(d, text)) == Returned(true)
  {
    match displayed(TextLocator(d, text))
    case Returned(v) => v
    case Threw(_) => false
  }

  /** Clicking and checking a text look at the same element: the display
      check depends on the device's answer for the clicked locator only. */
  lemma ClickAndDisplayShareLocator(d: Driver, text: string, probe1: Locator -> Reply<bool>, probe2: Locator -> Reply<bool>)
    requires probe1(ClickElementWithText(d, text).target) == probe2(ClickElementWithText(d, text).target)
    ensures IsTextDisplayed(d, text, probe1) == IsTextDisplayed(d, text, probe2)
  {
  }

  /** isPageLoaded: reads the current activity and, only when it is null,
      the title; the values read do not matter, only whether a read threw. */
  function IsPageLoaded(activity: Reply<Option<string>>, title: Reply<Option<string>>): (b: bool)
    ensures !b <==> activity.Threw? || (activity == Returned(None) && title.Threw?)
  {
    match activity
    case Threw(_) => false
    case Returned(a) =>
      if a.Some? then true
      else
        match title
        case Threw(_) => false
        case Returned(_) => true
  }

  function FromReply(reply: Reply<string>): Result<string> {
    match reply
    case Returned(v) => Ok(v)
    case Threw(msg) => Err(RemoteFailure(msg))
  }

  /** getCurrentScreen: the current activity when there is one, the page
      source otherwise. `source` is the answer to the first page-source read
      and `retrySource` to the second, made by the catch block when the
      first read inside the try threw. An exception there propagates. */
  function GetCurrentScreen(activity: Reply<Option<string>>, source: Reply<string>, retrySource: Reply<string>): (r: Result<string>)
    ensures activity.Returned? && activity.value.Some? ==> r == Ok(activity.value.value)
    ensures activity.Threw? ==> r == FromReply(source)
    ensures activity == Returned(None) && source.Returned? ==> r == Ok(source.value)
    ensures activity == Returned(None) && source.Threw? ==> r == FromReply(retrySource)
  {
    match activity
    case Threw(_) => FromReply(source)
    case Returned(Some(a)) => Ok(a)
    case Returned(None) =>
      match source
      case Returned(s) => Ok(s)
      case Threw(_) => FromReply(retrySource)
  }
}
