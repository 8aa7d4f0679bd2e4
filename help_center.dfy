/**
 * The help centre: the one-slot FAQ accordion, the quick chat box and the
 * contact form. Submitting either form only logs it; the model keeps the
 * state changes.
 */
module HelpCenter {
  import opened Wrappers
  import opened Text

  /** The FAQ ids, in display order. */
  const FaqIds: seq<nat> := [1, 2, 3, 4, 5]

  /** A FAQ's header click: `expandedFaq === id ? null : id`. */
  function Toggled(expanded: Option<nat>, id: nat): (r: Option<nat>)
    ensures r == None <==> expanded == Some(id)
    ensures r != None ==> r == Some(id)
  {
    if expanded == Some(id) then None else Some(id)
  }

  /**
   * Clicking the same FAQ twice restores the state exactly when nothing or
   * that FAQ was open; with another FAQ open, the second click collapses all.
   */
  lemma ToggleTwice(expanded: Option<nat>, id: nat)
    ensures Toggled(Toggled(expanded, id), id) == expanded <==> expanded == None || expanded == Some(id)
    ensures Toggled(Toggled(expanded, id), id) == None || Toggled(Toggled(expanded, id), id) == Some(id)
  {
  }

  /** The number of FAQs among `ids` rendered open (`expandedFaq === faq.id`). */
  function OpenCount(expanded: Option<nat>, ids: seq<nat>): nat
    decreases |ids|
  {
    if ids == [] then 0
    else (if expanded == Some(ids[0]) then 1 else 0) + OpenCount(expanded, ids[1..])
  }

  predicate Distinct(ids: seq<nat>) {
    forall i, j :: 0 <= i < j < |ids| ==> ids[i] != ids[j]
  }

  /** Among distinct ids, exactly one FAQ is open when the state names one of them, and none otherwise. */
  lemma {:induction false} OpenCountSpec(expanded: Option<nat>, ids: seq<nat>)
    requires Distinct(ids)
    ensures OpenCount(expanded, ids) == if expanded.Some? && expanded.value in ids then 1 else 0
    decreases |ids|
  {
    if ids != [] {
      assert Distinct(ids[1..]) by {
        forall i, j | 0 <= i < j < |ids[1..]|
          ensures ids[1..][i] != ids[1..][j]
        {
          assert ids[1..][i] == ids[i + 1] && ids[1..][j] == ids[j + 1];
        }
      }
      OpenCountSpec(expanded, ids[1..]);
      assert ids == [ids[0]] + ids[1..];
      if expanded == Some(ids[0]) {
        forall k | 0 <= k < |ids[1..]|
          ensures ids[1..][k] != ids[0]
        {
          assert ids[1..][k] == ids[k + 1];
        }
      }
    }
  }

  /** Whatever the clicks, at most one of the five FAQs is open, and a toggle that opens one opens exactly it. */
  lemma AtMostOneFaqOpen(expanded: Option<nat>, id: nat)
    ensures OpenCount(expanded, FaqIds) <= 1
    ensures id in FaqIds && Toggled(expanded, id) != None ==> OpenCount(Toggled(expanded, id), FaqIds) == 1
  {
    OpenCountSpec(expanded, FaqIds);
    OpenCountSpec(Toggled(expanded, id), FaqIds);
  }

  /** The contact form's fields. */
  datatype ContactForm = ContactForm(name: string, email: string, subject: string, message: string)

  const EmptyContactForm := ContactForm("", "", "", "")

  datatype ContactField = ContactName | ContactEmail | Subject | MessageText

  function GetContact(form: ContactForm, field: ContactField): string {
    match field
    case ContactName => form.name
    case ContactEmail => form.email
    case Subject => form.subject
    case MessageText => form.message
  }

  /** A contact input's change handler: `{ ...contactForm, [field]: value }`. */
  function UpdateContact(form: ContactForm, field: ContactField, value: string): (r: ContactForm)
    ensures GetContact(r, field) == value
    ensures forall other :: other != field ==> GetContact(r, other) == GetContact(form, other)
  {
    match field
    case ContactName => form.(name := value)
    case ContactEmail => form.(email := value)
    case Subject => form.(subject := value)
    case MessageText => form.(message := value)
  }

  /** The help centre's state. */
  class HelpCenterState {
    var expandedFaq: Option<nat>
    var chatMessage: string
    var contactForm: ContactForm

    constructor()
      ensures expandedFaq == None && chatMessage == "" && contactForm == EmptyContactForm
    {
      expandedFaq := None;
      chatMessage := "";
      contactForm := EmptyContactForm;
    }

    method ToggleFaq(id: nat)
      modifies this
      ensures expandedFaq == Toggled(old(expandedFaq), id)
      ensures chatMessage == old(chatMessage) && contactForm == old(contactForm)
    {
      expandedFaq := if expandedFaq == Some(id) then None else Some(id);
    }

    method SetChatMessage(value: string)
      modifies this
      ensures chatMessage == value
      ensures expandedFaq == old(expandedFaq) && contactForm == old(contactForm)
    {
      chatMessage := value;
    }

    /** `handleChatSubmit`: a blank message changes nothing; otherwise the box is cleared. */
    method ChatSubmit() returns (submitted: bool)
      modifies this
      ensures submitted <==> !IsBlank(old(chatMessage))
      ensures chatMessage == if submitted then "" else old(chatMessage)
      ensures expandedFaq == old(expandedFaq) && contactForm == old(contactForm)
    {
      if IsBlank(chatMessage) {
        return false;
      }
      chatMessage := "";
      submitted := true;
    }

    method EditContact(field: ContactField, value: string)
      modifies this
      ensures contactForm == UpdateContact(old(contactForm), field, value)
      ensures expandedFaq == old(expandedFaq) && chatMessage == old(chatMessage)
    {
      contactForm := UpdateContact(contactForm, field, value);
    }

    /** `handleContactSubmit`: all four contact fields are reset. */
    method ContactSubmit()
      modifies this
      ensures contactForm == EmptyContactForm
      ensures expandedFaq == old(expandedFaq) && chatMessage == old(chatMessage)
    {
      contactForm := EmptyContactForm;
    }
  }
}
