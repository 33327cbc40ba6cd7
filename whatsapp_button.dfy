/** The floating chat button (src/components/WhatsAppButton.jsx): the
    link it opens and its hover tooltip. */
module WhatsAppButton {
  import opened JsText
  import opened Browser

  const ChatMessage: string := "Hi! I'm interested in your premium properties in Delhi NCR. Could you please provide more information?"

  /** `handleWhatsAppClick` for the company number `whatsapp`: the chat
      link in a new tab without opener or referrer. `encode` stands for
      `encodeURIComponent`. */
  function Click(whatsapp: string, encode: string -> string): (w: WindowOpen)
    ensures w.target == "_blank" && w.features == "noopener,noreferrer"
    ensures |w.url| >= |WaMePrefix| + |DigitsOnly(whatsapp)| + |"?text="|
    ensures w.url[..|WaMePrefix|] == WaMePrefix
    ensures BeforeFirst(w.url[|WaMePrefix|..], '?') == DigitsOnly(whatsapp)
    ensures w.url[|WaMePrefix| + |DigitsOnly(whatsapp)| + |"?text="|..] == encode(ChatMessage)
  {
    WaMeReadsBack(whatsapp, encode(ChatMessage));
    WindowOpen(WaMe(whatsapp, encode(ChatMessage)), "_blank", "noopener,noreferrer")
  }

  /** Numbers written with different punctuation open the same chat. */
  lemma ClickIgnoresPunctuation(a: string, b: string, encode: string -> string)
    requires DigitsOnly(a) == DigitsOnly(b)
    ensures Click(a, encode) == Click(b, encode)
  {
  }

  /** The button's state. */
  class ChatButton {
    var isHovered: bool

    constructor ()
      ensures !isHovered && !TooltipShown()
    {
      isHovered := false;
    }

    /** `onHoverStart`. */
    method HoverStart()
      modifies this
      ensures isHovered && TooltipShown()
    {
      isHovered := true;
    }

    /** `onHoverEnd`. */
    method HoverEnd()
      modifies this
      ensures !isHovered && !TooltipShown()
    {
      isHovered := false;
    }

    /** The tooltip is rendered exactly while the button is hovered. */
    predicate TooltipShown()
      reads this
    {
      isHovered
    }
  }
}
