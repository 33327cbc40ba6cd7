/** The site footer (src/components/Footer.jsx): section links, the
    contact links it opens and the newsletter form. */
module Footer {
  import opened Options
  import opened JsText
  import opened Browser

  /** Whether a link's `section` is truthy: present and not empty. */
  predicate HasSection(section: Option<string>) {
    section.Some? && section.value != ""
  }

  /** The scroll an effect ends in, once its timer has run. */
  function Settled(e: Effect): Effect {
    match e
    case After(_, inner) => Settled(inner)
    case _ => e
  }

  /** `handleSectionNavigation(path, section)` on the page at `pathname`:
      the effects it requests, in order. Already on the home page, a home
      section is only scrolled to; otherwise the router goes to `path`
      first and the scroll follows on a timer, to the section if there is
      one and to the top if not. */
  function SectionNavigation(path: string, section: Option<string>, pathname: string): (r: seq<Effect>)
    ensures path == "/" && HasSection(section) && pathname == "/" ==> r == [ScrollToSection(section.value)]
    ensures !(path == "/" && HasSection(section) && pathname == "/") ==>
      |r| == 2 && r[0] == Navigate(path) &&
      r[1] == After(if HasSection(section) then 500 else 100, Settled(r[1]))
    ensures |r| >= 1 && Settled(r[|r| - 1]) == if HasSection(section) then ScrollToSection(section.value) else ScrollToTop
  {
    if path == "/" && HasSection(section) then
      if pathname == "/" then [ScrollToSection(section.value)]
      else [Navigate("/"), After(500, ScrollToSection(section.value))]
    else if HasSection(section) then [Navigate(path), After(500, ScrollToSection(section.value))]
    else [Navigate(path), After(100, ScrollToTop)]
  }

  /** A link never navigates when it only has to scroll the page it is on. */
  lemma SectionNavigationNavigatesIffElsewhere(path: string, section: Option<string>, pathname: string)
    ensures (exists i :: 0 <= i < |SectionNavigation(path, section, pathname)| &&
               SectionNavigation(path, section, pathname)[i].Navigate?) <==>
            !(path == "/" && HasSection(section) && pathname == "/")
  {
    var r := SectionNavigation(path, section, pathname);
    if !(path == "/" && HasSection(section) && pathname == "/") {
      assert r[0].Navigate?;
    }
  }

  const FooterChatText: string := "Hi! I'm interested in your premium properties in Delhi NCR."
  const FooterEmailSuffix: string := "?subject=Inquiry about Premium Properties&body=Hi, I'm interested in learning more about your luxury real estate services in Delhi NCR."

  /** `handleExternalLink(type, value)`: the window it opens, in a new tab
      without opener or referrer, or nothing for any other type. */
  function ExternalLink(linkType: string, value: string): (r: Option<WindowOpen>)
    ensures r.None? <==> linkType !in {"whatsapp", "phone", "email"}
    ensures r.Some? ==> r.value.target == "_blank" && r.value.features == "noopener,noreferrer"
    ensures linkType == "whatsapp" ==> r.value.url == WaMe(value, FooterChatText)
    ensures linkType == "phone" ==> r.value.url == "tel:" + value
    ensures linkType == "email" ==> r.value.url == "mailto:" + value + FooterEmailSuffix
  {
    var url :=
      if linkType == "whatsapp" then Some(WaMe(value, FooterChatText))
      else if linkType == "phone" then Some("tel:" + value)
      else if linkType == "email" then Some("mailto:" + value + FooterEmailSuffix)
      else None;
    match url
    case None => None
    case Some(u) => Some(WindowOpen(u, "_blank", "noopener,noreferrer"))
  }

  /** The footer's chat link carries exactly the digits of the number and
      its phone link the number verbatim. */
  lemma ExternalLinksCarryValue(value: string)
    ensures BeforeFirst(ExternalLink("whatsapp", value).value.url[|WaMePrefix|..], '?') == DigitsOnly(value)
    ensures ExternalLink("phone", value).value.url[|"tel:"|..] == value
  {
    var chat := ExternalLink("whatsapp", value).value.url;
    assert chat == WaMe(value, FooterChatText);
    WaMeReadsBack(value, FooterChatText);
    var tel := ExternalLink("phone", value).value.url;
    assert tel == "tel:" + value;
  }

  /** The newsletter form. */
  class Newsletter {
    var email: string
    var isSubscribed: bool

    constructor ()
      ensures email == "" && !isSubscribed
      ensures !ButtonDisabled()
    {
      email := "";
      isSubscribed := false;
    }

    /** The input's `onChange`. */
    method SetEmail(v: string)
      modifies this
      ensures email == v && isSubscribed == old(isSubscribed)
    {
      email := v;
    }

    /** `handleSubscribe`: an address that is blank once trimmed changes
        nothing; any other is accepted, the input is cleared and a 3000 ms
        timer is started to reset the confirmation. */
    method Subscribe() returns (timerMs: Option<nat>)
      modifies this
      ensures IsBlank(old(email)) ==> email == old(email) && isSubscribed == old(isSubscribed) && timerMs == None
      ensures !IsBlank(old(email)) ==> isSubscribed && email == "" && timerMs == Some(3000)
      ensures !IsBlank(old(email)) ==> ButtonDisabled()
      ensures IsBlank(old(email)) ==> ButtonDisabled() == old(ButtonDisabled())
    {
      if Trim(email) != "" {
        isSubscribed := true;
        email := "";
        timerMs := Some(3000);
      } else {
        timerMs := None;
      }
    }

    /** The timer started by Subscribe. */
    method SubscriptionTimerFired()
      modifies this
      ensures !isSubscribed && email == old(email)
      ensures !ButtonDisabled()
    {
      isSubscribed := false;
    }

    /** `disabled={isSubscribed}`. */
    predicate ButtonDisabled()
      reads this
    {
      isSubscribed
    }
  }

  /** Subscribing is refused exactly for addresses made of white space. */
  lemma SubscribeGuard(email: string)
    ensures IsBlank(email) <==> AllWhiteSpace(email)
  {
    BlankIffWhiteSpace(email);
  }
}
