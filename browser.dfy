/** What the page handlers ask of the browser, as values: the window they
    open and the navigation and scrolling they request. */
module Browser {
  import opened JsText

  /** `window.open(url, target, features)`; `features` is "" when the call
      passes none. */
  datatype WindowOpen = WindowOpen(url: string, target: string, features: string)

  /** A router navigation, a scroll, or one of them run by a timer. */
  datatype Effect =
    | Navigate(path: string)
    | ScrollToSection(section: string)
    | ScrollToTop
    | After(ms: nat, effect: Effect)

  const WaMePrefix: string := "https://wa.me/"

  /** `https://wa.me/${phone.replace(/\D/g, '')}?text=${text}`: the chat
      link for the digits of a phone number. */
  function WaMe(phone: string, text: string): string {
    WaMePrefix + DigitsOnly(phone) + "?text=" + text
  }

  /** The number in a chat link is exactly the digits of the phone number,
      in order, and the text follows the first `?text=`: both read back. */
  lemma WaMeReadsBack(phone: string, text: string)
    ensures WaMe(phone, text)[..|WaMePrefix|] == WaMePrefix
    ensures BeforeFirst(WaMe(phone, text)[|WaMePrefix|..], '?') == DigitsOnly(phone)
    ensures WaMe(phone, text)[|WaMePrefix| + |DigitsOnly(phone)| + |"?text="|..] == text
    ensures forall i :: 0 <= i < |DigitsOnly(phone)| ==> IsDigit(DigitsOnly(phone)[i])
  {
    var digits := DigitsOnly(phone);
    var url := WaMe(phone, text);
    assert '?' !in digits by {
      forall i | 0 <= i < |digits|
        ensures digits[i] != '?'
      {
        assert IsDigit(digits[i]);
      }
    }
    var rest := digits + ['?'] + ("text=" + text);
    assert url == WaMePrefix + rest;
    assert url[|WaMePrefix|..] == rest;
    BeforeFirstOfJoined(digits, '?', "text=" + text);
  }
}
