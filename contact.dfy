/** The contact page (src/pages/Contact.jsx): the enquiry form state and
    the links its contact cards open. */
module Contact {
  import opened Options
  import opened JsText
  import opened Browser

  /** The six inputs, by their `name` attribute. */
  datatype ContactField = Name | Email | Phone | Subject | Message | PropertyType

  datatype ContactForm = ContactForm(name: string, email: string, phone: string, subject: string, message: string, propertyType: string) {
    function Get(f: ContactField): string {
      match f
      case Name => name
      case Email => email
      case Phone => phone
      case Subject => subject
      case Message => message
      case PropertyType => propertyType
    }

    /** `{...formData, [f]: v}`: field `f` becomes `v`, the others stay. */
    function With(f: ContactField, v: string): (r: ContactForm)
      ensures r.Get(f) == v
      ensures forall g :: g != f ==> r.Get(g) == Get(g)
    {
      match f
      case Name => this.(name := v)
      case Email => this.(email := v)
      case Phone => this.(phone := v)
      case Subject => this.(subject := v)
      case Message => this.(message := v)
      case PropertyType => this.(propertyType := v)
    }
  }

  /** The page's form state. */
  class ContactPage {
    var formData: ContactForm

    constructor ()
      ensures forall f :: formData.Get(f) == ""
    {
      formData := ContactForm("", "", "", "", "", "");
    }

    /** `handleInputChange`: only the named field changes. */
    method HandleInputChange(f: ContactField, v: string)
      modifies this
      ensures formData.Get(f) == v
      ensures forall g :: g != f ==> formData.Get(g) == old(formData).Get(g)
    {
      formData := formData.With(f, v);
    }

    /** `handleSubmit`: the form is logged and acknowledged, and left as it
        is; unlike the inquiry form of the property page it is not cleared. */
    method HandleSubmit() returns (submitted: ContactForm)
      ensures submitted == formData
    {
      submitted := formData;
    }
  }

  const DirectionsPrefix: string := "https://www.google.com/maps/search/?api=1&query="
  const EmailSuffix: string := "?subject=Property Inquiry&body=Hi, I'm interested in your real estate services."
  const VisitText: string := "Hi! I would like to schedule a visit to your office."

  /** The action types `handleAction` handles. */
  const HandledActions: set<string> := {"directions", "call", "email", "whatsapp"}

  /** `handleAction(type, value)`: the window a contact card opens, or
      nothing for any other type. `encode` stands for
      `encodeURIComponent`. */
  function HandleAction(actionType: string, value: string, encode: string -> string): (r: Option<WindowOpen>)
    ensures r.None? <==> actionType !in HandledActions
    ensures actionType == "directions" ==> r == Some(WindowOpen(DirectionsPrefix + encode(value), "_blank", ""))
    ensures actionType == "call" ==> r == Some(WindowOpen("tel:" + value, "_self", ""))
    ensures actionType == "email" ==> r == Some(WindowOpen("mailto:" + value + EmailSuffix, "_self", ""))
    ensures actionType == "whatsapp" ==> r == Some(WindowOpen(WaMe(value, VisitText), "_blank", ""))
  {
    if actionType == "directions" then Some(WindowOpen(DirectionsPrefix + encode(value), "_blank", ""))
    else if actionType == "call" then Some(WindowOpen("tel:" + value, "_self", ""))
    else if actionType == "email" then Some(WindowOpen("mailto:" + value + EmailSuffix, "_self", ""))
    else if actionType == "whatsapp" then Some(WindowOpen(WaMe(value, VisitText), "_blank", ""))
    else None
  }

  /** The call and email links carry the value verbatim. */
  lemma ActionLinksCarryValue(value: string, encode: string -> string)
    ensures HandleAction("call", value, encode).value.url[|"tel:"|..] == value
    ensures HandleAction("email", value, encode).value.url[|"mailto:"|..|"mailto:"| + |value|] == value
  {
    var call := HandleAction("call", value, encode).value.url;
    assert call == "tel:" + value;
    var mail := HandleAction("email", value, encode).value.url;
    assert mail == "mailto:" + value + EmailSuffix;
  }

  /** The chat link carries exactly the digits of the value, in order. */
  lemma ChatLinkCarriesDigits(value: string, encode: string -> string)
    ensures BeforeFirst(HandleAction("whatsapp", value, encode).value.url[|WaMePrefix|..], '?') == DigitsOnly(value)
  {
    var chat := HandleAction("whatsapp", value, encode).value.url;
    assert chat == WaMe(value, VisitText);
    WaMeReadsBack(value, VisitText);
  }

  /** The action types of the four contact cards, in order. */
  const ContactInfoActions: seq<string> := ["directions", "call", "email", "whatsapp"]

  /** Every contact card opens something. */
  lemma EveryCardHandled(value: string, encode: string -> string)
    ensures forall i :: 0 <= i < |ContactInfoActions| ==> HandleAction(ContactInfoActions[i], value, encode).Some?
  {
  }
}
