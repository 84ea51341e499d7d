/** PageBase.java: the parts of the page-object base class that decide something
    themselves rather than forward to the browser library: the guard on a missing page,
    window selection and its bounds checks, the click-type dispatch, the idempotent
    checkbox actions, text verification, the shape of random test data and the default
    wait. The open windows, element texts and random draws are given as inputs. */
module Pages {
  import opened Common
  import opened Text
  import opened Config
  import Registry

  const PageMissingMessage := "Page is not initialized in ThreadLocal!"
  const InvalidIndexPrefix := "Invalid window index: "
  const TitleNotFoundPrefix := "Window not found with title: "
  const UrlNotFoundPrefix := "Window not found with URL: "
  const InvalidClickPrefix := "Invalid click type: "
  const VerificationFailedMessage := "Text verification failed"

  /** `getPage()`: the registry's page for the thread, or an exception when it has none. */
  function CurrentPage(s: Registry.Slots, t: ThreadId): (r: Result<Page>)
    ensures r.Ok? <==> Registry.PageOf(s, t).Some?
    ensures r.Ok? ==> r.value == Registry.PageOf(s, t).value
    ensures r.Err? ==> r.error == PageMissingMessage
  {
    match Registry.PageOf(s, t)
    case Some(p) => Ok(p)
    case None => Err(PageMissingMessage)
  }

  // ---------------------------------------------------------------------------------
  // Window selection

  /** An open page of the current context, with its title and URL at the time of the
      call. */
  datatype Window = Window(page: Page, title: string, url: string)

  /** The index switching by title picks: the first window whose title equals it. */
  function TitleIndex(windows: seq<Window>, title: string): (r: Option<nat>)
    ensures r.Some? ==> r.value < |windows| && windows[r.value].title == title
    ensures r.Some? ==> forall j | 0 <= j < r.value :: windows[j].title != title
    ensures r.None? ==> forall j | 0 <= j < |windows| :: windows[j].title != title
    decreases |windows|
  {
    if windows == [] then None
    else if windows[0].title == title then Some(0)
    else match TitleIndex(windows[1..], title)
      case Some(i) => Some(i + 1)
      case None => None
  }

  /** The index switching by URL picks: the first window whose URL contains it. */
  function UrlIndex(windows: seq<Window>, url: string): (r: Option<nat>)
    ensures r.Some? ==> r.value < |windows| && Contains(windows[r.value].url, url)
    ensures r.Some? ==> forall j | 0 <= j < r.value :: !Contains(windows[j].url, url)
    ensures r.None? ==> forall j | 0 <= j < |windows| :: !Contains(windows[j].url, url)
    decreases |windows|
  {
    if windows == [] then None
    else if Contains(windows[0].url, url) then Some(0)
    else match UrlIndex(windows[1..], url)
      case Some(i) => Some(i + 1)
      case None => None
  }

  /** A window whose URL is exactly the one asked for is always found by URL, and the
      window found comes no later than it. */
  lemma UrlFindsExactMatch(windows: seq<Window>, i: nat)
    requires i < |windows|
    ensures UrlIndex(windows, windows[i].url).Some?
    ensures UrlIndex(windows, windows[i].url).value <= i
  {
    ContainsSelf(windows[i].url);
  }

  /** The bounds check shared by switching and closing by index. */
  function CheckIndex(index: int, count: nat): (r: Result<nat>)
    ensures r.Ok? <==> 0 <= index < count
    ensures r.Ok? ==> r.value == index
    ensures r.Err? ==> r.error == InvalidIndexPrefix + IntToString(index)
  {
    if index < 0 || index >= count then Err(InvalidIndexPrefix + IntToString(index)) else Ok(index)
  }

  // ---------------------------------------------------------------------------------
  // clickWithType

  /** The four click kinds, each dispatched to its own script. */
  datatype ClickKind = Click | DoubleClick | RightClick | AtIndex(index: int)

  /** The dispatch of `clickWithType` on the lower-cased type. */
  function ClickDispatch(clickType: string, index: int): (r: Result<ClickKind>)
    ensures r.Err? ==> r.error == InvalidClickPrefix + clickType
    ensures r.Ok? && r.value.AtIndex? ==> r.value.index == index
  {
    match ToLower(clickType)
    case "click" => Ok(Click)
    case "doubleclick" => Ok(DoubleClick)
    case "rightclick" => Ok(RightClick)
    case "index" => Ok(AtIndex(index))
    case _ => Err(InvalidClickPrefix + clickType)
  }

  /** The dispatch as a table, ignoring letter case ("doubleClick" and "DOUBLECLICK"
      alike); every other type is refused, and the message quotes the type as given. */
  lemma ClickTable(clickType: string, index: int)
    ensures var r := ClickDispatch(clickType, index);
      && (EqualsIgnoreCase(clickType, "click") <==> r == Ok(Click))
      && (EqualsIgnoreCase(clickType, "doubleclick") <==> r == Ok(DoubleClick))
      && (EqualsIgnoreCase(clickType, "rightclick") <==> r == Ok(RightClick))
      && (EqualsIgnoreCase(clickType, "index") <==> r == Ok(AtIndex(index)))
      && (r.Err? <==> !EqualsIgnoreCase(clickType, "click") && !EqualsIgnoreCase(clickType, "doubleclick")
                      && !EqualsIgnoreCase(clickType, "rightclick") && !EqualsIgnoreCase(clickType, "index"))
  {
    assert IsLower("click") && IsLower("doubleclick") && IsLower("rightclick") && IsLower("index");
  }

  // ---------------------------------------------------------------------------------
  // check / uncheck

  /** `check`: the box is clicked only when it is not yet checked. Returns the state
      afterwards and whether the library's click was issued. */
  function Check(checked: bool): (r: (bool, bool))
    ensures r.0
    ensures r.1 <==> !checked
  {
    if !checked then (true, true) else (checked, false)
  }

  /** `uncheck`: the box is clicked only when it is checked. */
  function Uncheck(checked: bool): (r: (bool, bool))
    ensures !r.0
    ensures r.1 <==> checked
  {
    if checked then (false, true) else (checked, false)
  }

  /** Checking twice is checking once: the second call issues no click, and likewise
      for unchecking. */
  lemma CheckIdempotent(checked: bool)
    ensures Check(Check(checked).0) == (Check(checked).0, false)
    ensures Uncheck(Uncheck(checked).0) == (Uncheck(checked).0, false)
  {
  }

  // ---------------------------------------------------------------------------------
  // Text verification

  /** `verifyTextEquals` on the element's text. */
  function VerifyTextEquals(actual: string, expected: string): (r: Result<()>)
    ensures r.Err? <==> actual != expected
    ensures r.Err? ==> r.error == VerificationFailedMessage
  {
    if actual != expected then Err(VerificationFailedMessage) else Ok(())
  }

  /** `verifyTextContains` on the element's text: it fails exactly when the expected
      text occurs at no position of the actual one. */
  function VerifyTextContains(actual: string, expected: string): (r: Result<()>)
    ensures r.Err? <==> forall i :: !OccursAt(actual, expected, i)
    ensures r.Err? ==> r.error == VerificationFailedMessage
  {
    ContainsIff(actual, expected);
    if !Contains(actual, expected) then Err(VerificationFailedMessage) else Ok(())
  }

  /** A text that passes the equality check passes the containment check. */
  lemma EqualsPassesContains(actual: string, expected: string)
    requires VerifyTextEquals(actual, expected).Ok?
    ensures VerifyTextContains(actual, expected).Ok?
  {
    assert OccursAt(actual, expected, 0);
  }

  // ---------------------------------------------------------------------------------
  // Random data

  predicate IsAlphanumeric(c: char) {
    'A' <= c <= 'Z' || 'a' <= c <= 'z' || '0' <= c <= '9'
  }

  /** Entry `i` of the alphabet: upper-case letters, then lower-case, then digits. */
  function AlphabetChar(i: nat): char
    requires i < 62
  {
    if i < 26 then ('A' as int + i) as char
    else if i < 52 then ('a' as int + i - 26) as char
    else ('0' as int + i - 52) as char
  }

  /** The 62 characters `getRandomText` draws from: A to Z, a to z, 0 to 9, in that order. */
  const Alphabet: string := seq(62, i requires 0 <= i < 62 => AlphabetChar(i))

  /** The alphabet is exactly the ASCII letters and digits: every entry is one, and
      every one is an entry, so each can be drawn. */
  lemma AlphabetIsAlphanumeric()
    ensures |Alphabet| == 62
    ensures forall i | 0 <= i < |Alphabet| :: IsAlphanumeric(Alphabet[i])
    ensures forall c | IsAlphanumeric(c) :: c in Alphabet
  {
    forall c | IsAlphanumeric(c)
      ensures c in Alphabet
    {
      if 'A' <= c <= 'Z' {
        assert Alphabet[c as int - 'A' as int] == c;
      } else if 'a' <= c <= 'z' {
        assert Alphabet[26 + c as int - 'a' as int] == c;
      } else {
        assert Alphabet[52 + c as int - '0' as int] == c;
      }
    }
  }

  /** A Java `int` argument. */
  predicate IsInt32(n: int) {
    IntMin <= n <= IntMax
  }

  /** `getRandomText(length)`, where `draws` are the successive `nextInt(62)` results. A
      negative length makes the buffer allocation throw. */
  method RandomText(length: int, draws: seq<nat>) returns (r: Result<string>)
    requires forall i | 0 <= i < |draws| :: draws[i] < |Alphabet|
    requires length <= |draws|
    ensures r.Err? <==> length < 0
    ensures r.Ok? ==> |r.value| == length
    ensures r.Ok? ==> forall i | 0 <= i < length :: r.value[i] == Alphabet[draws[i]] && IsAlphanumeric(r.value[i])
  {
    if length < 0 {
      return Err("java.lang.NegativeArraySizeException: " + IntToString(length));
    }
    AlphabetIsAlphanumeric();
    var sb := "";
    for i := 0 to length
      invariant |sb| == i
      invariant forall k | 0 <= k < i :: sb[k] == Alphabet[draws[k]] && IsAlphanumeric(sb[k])
    {
      sb := sb + [Alphabet[draws[i]]];
    }
    r := Ok(sb);
  }

  const EmailPrefix := "auto_"
  const EmailDomain := "@testmail.com"

  /** `getRandomEmail()`: eight random letters or digits between the fixed prefix and
      domain. */
  method RandomEmail(draws: seq<nat>) returns (email: string)
    requires forall i | 0 <= i < |draws| :: draws[i] < |Alphabet|
    requires 8 <= |draws|
    ensures |email| == |EmailPrefix| + 8 + |EmailDomain|
    ensures StartsWith(email, EmailPrefix) && EndsWith(email, EmailDomain)
    ensures forall i | |EmailPrefix| <= i < |EmailPrefix| + 8 :: IsAlphanumeric(email[i])
  {
    var text := RandomText(8, draws);
    email := EmailPrefix + text.value + EmailDomain;
    assert email[..|EmailPrefix|] == EmailPrefix;
    assert email[|email| - |EmailDomain|..] == EmailDomain;
    assert forall i | |EmailPrefix| <= i < |EmailPrefix| + 8 :: email[i] == text.value[i - |EmailPrefix|];
  }

  /** `getRandomNumber(digits)`, where `draws` are the successive `nextInt(10)` results,
      each appended as its decimal digit. Leading zeros are kept, so the result is a
      string of exactly `digits` digits rather than a number of that many digits. */
  method RandomNumber(digits: int, draws: seq<nat>) returns (r: Result<string>)
    requires forall i | 0 <= i < |draws| :: draws[i] < 10
    requires digits <= |draws|
    ensures r.Err? <==> digits < 0
    ensures r.Ok? ==> |r.value| == digits && AllDigits(r.value)
    ensures r.Ok? ==> forall i | 0 <= i < digits :: r.value[i] == DigitChar(draws[i])
  {
    if digits < 0 {
      return Err("java.lang.NegativeArraySizeException: " + IntToString(digits));
    }
    var sb := "";
    for i := 0 to digits
      invariant |sb| == i
      invariant forall k | 0 <= k < i :: sb[k] == DigitChar(draws[k])
    {
      sb := sb + IntToString(draws[i]);
    }
    r := Ok(sb);
  }

  /** Read as a number, a random digit string of length `d` is below 10^d. */
  lemma {:induction false} DigitStringBelow(s: string)
    requires AllDigits(s)
    ensures DigitsValue(s) < Pow10(|s|)
    decreases |s|
  {
    if s != [] {
      DigitStringBelow(s[..|s| - 1]);
    }
  }

  function Pow10(n: nat): (r: nat)
    ensures r >= 1
  {
    if n == 0 then 1 else 10 * Pow10(n - 1)
  }

  // ---------------------------------------------------------------------------------
  // Default wait

  const DefaultWaitKey := "explicitWait"

  /** `getDefaultTimeout()`: the configured wait parsed as an int, 5000 when absent; a
      value that is not a 32-bit decimal integer throws NumberFormatException. */
  function DefaultTimeout(prop: Option<Properties>): (r: Result<int>)
    ensures prop.None? ==> r == Err(NotLoadedMessage)
    ensures prop.Some? && DefaultWaitKey !in prop.value ==> r == Ok(5000)
    ensures prop.Some? && DefaultWaitKey in prop.value ==>
              (r.Ok? <==> ParseInt(prop.value[DefaultWaitKey]).Some?)
    ensures prop.Some? && DefaultWaitKey in prop.value && r.Ok? ==>
              ParseInt(prop.value[DefaultWaitKey]) == Some(r.value)
    ensures r.Ok? ==> IsInt32(r.value)
  {
    match LookupOr(prop, DefaultWaitKey, "5000")
    case Err(e) => Err(e)
    case Ok(v) =>
      DefaultWaitLiteral();
      match ParseInt(v)
      case Some(n) => Ok(n)
      case None => Err("java.lang.NumberFormatException: For input string: \"" + v + "\"")
  }

  lemma DefaultWaitLiteral()
    ensures ParseInt("5000") == Some(5000)
  {
    assert AllDigits("5000");
    assert DigitsValue("5000") == 5000 by {
      assert "5000"[..3] == "500" && "500"[..2] == "50" && "50"[..1] == "5";
    }
  }

  /** A wait written out as an int is read back unchanged. */
  lemma DefaultTimeoutReadsBack(table: Properties, n: int)
    requires IsInt32(n)
    requires DefaultWaitKey in table && table[DefaultWaitKey] == IntToString(n)
    ensures DefaultTimeout(Some(table)) == Ok(n)
  {
    ParseIntRoundTrip(n);
  }

  // ---------------------------------------------------------------------------------
  // The class

  /** A page object's base; the registry is the shared per-thread page registry. */
  class PageBase {
    const registry: Registry.PageManager
    const config: ConfigReader

    constructor (registry: Registry.PageManager, config: ConfigReader)
      ensures this.registry == registry && this.config == config
    {
      this.registry, this.config := registry, config;
    }

    method GetPage(t: ThreadId) returns (r: Result<Page>)
      ensures r == CurrentPage(registry.State(), t)
    {
      var page := registry.GetPage(t);
      if page.None? {
        return Err(PageMissingMessage);
      }
      r := Ok(page.value);
    }

    /** `switchToDefaultFrame()`: forget the chosen frame. */
    method SwitchToDefaultFrame(t: ThreadId)
      modifies registry
      ensures registry.State() == Registry.WithFrame(old(registry.State()), t, None)
    {
      registry.SetFrame(t, None);
    }

    /** `switchToWindowByTitle(title)` over the current context's windows. */
    method SwitchToWindowByTitle(t: ThreadId, windows: seq<Window>, title: string) returns (r: Result<()>)
      modifies registry
      ensures CurrentPage(old(registry.State()), t).Err? ==> r == Err(PageMissingMessage) && registry.State() == old(registry.State())
      ensures CurrentPage(old(registry.State()), t).Ok? && TitleIndex(windows, title).None? ==>
                r == Err(TitleNotFoundPrefix + title) && registry.State() == old(registry.State())
      ensures CurrentPage(old(registry.State()), t).Ok? && TitleIndex(windows, title).Some? ==>
                r == Ok(()) && registry.State() == Registry.WithPage(old(registry.State()), t, windows[TitleIndex(windows, title).value].page)
    {
      var current := GetPage(t);
      if current.Err? {
        return Err(current.error);
      }
      var i := 0;
      while i < |windows|
        invariant i <= |windows|
        invariant forall j | 0 <= j < i :: windows[j].title != title
      {
        if windows[i].title == title {
          registry.SetPage(t, windows[i].page);
          return Ok(());
        }
        i := i + 1;
      }
      r := Err(TitleNotFoundPrefix + title);
    }

    /** `switchToWindowByUrl(url)` over the current context's windows. */
    method SwitchToWindowByUrl(t: ThreadId, windows: seq<Window>, url: string) returns (r: Result<()>)
      modifies registry
      ensures CurrentPage(old(registry.State()), t).Err? ==> r == Err(PageMissingMessage) && registry.State() == old(registry.State())
      ensures CurrentPage(old(registry.State()), t).Ok? && UrlIndex(windows, url).None? ==>
                r == Err(UrlNotFoundPrefix + url) && registry.State() == old(registry.State())
      ensures CurrentPage(old(registry.State()), t).Ok? && UrlIndex(windows, url).Some? ==>
                r == Ok(()) && registry.State() == Registry.WithPage(old(registry.State()), t, windows[UrlIndex(windows, url).value].page)
    {
      var current := GetPage(t);
      if current.Err? {
        return Err(current.error);
      }
      var i := 0;
      while i < |windows|
        invariant i <= |windows|
        invariant forall j | 0 <= j < i :: !Contains(windows[j].url, url)
      {
        if Contains(windows[i].url, url) {
          registry.SetPage(t, windows[i].page);
          return Ok(());
        }
        i := i + 1;
      }
      r := Err(UrlNotFoundPrefix + url);
    }

    /** `switchToWindowByIndex(index)`. */
    method SwitchToWindowByIndex(t: ThreadId, windows: seq<Window>, index: int) returns (r: Result<()>)
      modifies registry
      ensures CurrentPage(old(registry.State()), t).Err? ==> r == Err(PageMissingMessage)
      ensures CurrentPage(old(registry.State()), t).Ok? && CheckIndex(index, |windows|).Err? ==>
                r == Err(CheckIndex(index, |windows|).error)
      ensures r.Ok? <==> CurrentPage(old(registry.State()), t).Ok? && 0 <= index < |windows|
      ensures r.Ok? ==> registry.State() == Registry.WithPage(old(registry.State()), t, windows[index].page)
      ensures r.Err? ==> registry.State() == old(registry.State())
    {
      var current := GetPage(t);
      if current.Err? {
        return Err(current.error);
      }
      var checked := CheckIndex(index, |windows|);
      if checked.Err? {
        return Err(checked.error);
      }
      registry.SetPage(t, windows[index].page);
      r := Ok(());
    }

    /** `closeWindowByIndex(index)`: returns the window to close; the registry is left
        as it was, even when that window is the current page. */
    method CloseWindowByIndex(t: ThreadId, windows: seq<Window>, index: int) returns (r: Result<Page>)
      ensures CurrentPage(registry.State(), t).Err? ==> r == Err(PageMissingMessage)
      ensures CurrentPage(registry.State(), t).Ok? && CheckIndex(index, |windows|).Err? ==>
                r == Err(CheckIndex(index, |windows|).error)
      ensures r.Ok? <==> CurrentPage(registry.State(), t).Ok? && 0 <= index < |windows|
      ensures r.Ok? ==> r.value == windows[index].page
    {
      var current := GetPage(t);
      if current.Err? {
        return Err(current.error);
      }
      var checked := CheckIndex(index, |windows|);
      if checked.Err? {
        return Err(checked.error);
      }
      r := Ok(windows[index].page);
    }

    /** `getDefaultTimeout()`. */
    method GetDefaultTimeout() returns (r: Result<int>)
      ensures r == DefaultTimeout(config.prop)
    {
      var v := config.GetPropertyOr(DefaultWaitKey, "5000");
      if v.Err? {
        return Err(v.error);
      }
      var n := ParseInt(v.value);
      if n.None? {
        return Err("java.lang.NumberFormatException: For input string: \"" + v.value + "\"");
      }
      r := Ok(n.value);
    }
  }
}
