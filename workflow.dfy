/** The workflow controller: the handlers wired to the page, over the state
    they change (modal visibility, list container, message area, form
    inputs and the timers they schedule). */
module Workflow {
  import opened Wrappers
  import opened Text
  import opened Validation
  import opened ContactList
  import opened Notification

  /** The values of the three form inputs. */
  datatype Form = Form(nombre: string, apellido: string, telefono: string)

  /** The inputs' values after `reset()`: their defaults, taken to be empty. */
  const EmptyForm := Form("", "", "")

  /** Status texts. */
  const LoadFailedText := "No se ha podido cargar la lista de contactos."
  const SentText := "Se ha enviado correctamente."
  const SendFailedText := "No se ha podido enviar."

  /** What a window click lands on: the modal root (its backdrop) or
      anything else, including the modal's content. */
  datatype ClickTarget = ModalBackdrop | OtherElement

  /** The verdict of the submit handler's validation: the fields are
      trimmed, then validated. */
  function SubmitVerdict(f: Form): Verdict {
    Validate(Trim(f.nombre), Trim(f.apellido), Trim(f.telefono))
  }

  /** The contact the submit handler builds from the trimmed fields. */
  function Trimmed(f: Form): Contact {
    Contact(Trim(f.nombre), Trim(f.apellido), Trim(f.telefono))
  }

  /** The submit handler validates trimmed fields, which decides the same
      as validating the raw fields. */
  lemma {:induction false} SubmitVerdictRaw(f: Form)
    ensures SubmitVerdict(f) == Validate(f.nombre, f.apellido, f.telefono)
  {
    ValidateTrimmed(f.nombre, f.apellido, f.telefono);
  }

  class Controller {
    var modalOpen: bool
    var list: ListView
    var message: MessageArea
    var form: Form
    /** Delayed list reloads scheduled and not yet run. */
    var pendingRefreshes: nat
    /** Message auto-hide timers scheduled and not yet run. */
    var pendingHides: nat
    /** List requests sent and not yet resolved. */
    var pendingLoads: nat
    /** Contact submissions sent and not yet resolved. */
    var pendingPosts: nat

    /** A message on display always has content and a timer that will
        hide it. */
    ghost predicate Valid()
      reads this
    {
      message.shown ==> message.notice.Some? && pendingHides > 0
    }

    /** The page after load: modal closed, nothing shown, empty form,
        nothing in flight. */
    constructor ()
      ensures Valid()
      ensures !modalOpen && list == Cards([]) && message == MessageArea(None, false)
      ensures form == EmptyForm && pendingRefreshes == 0 && pendingHides == 0
      ensures pendingLoads == 0 && pendingPosts == 0
    {
      modalOpen := false;
      list := Cards([]);
      message := MessageArea(None, false);
      form := EmptyForm;
      pendingRefreshes := 0;
      pendingHides := 0;
      pendingLoads := 0;
      pendingPosts := 0;
    }

    /** `showMessage`: replaces the content, shows it and starts a hide
        timer. */
    method ShowMessage(text: string, kind: Kind)
      requires Valid()
      modifies this`message, this`pendingHides
      ensures Valid()
      ensures message == MessageArea(Some(NoticeOf(text, kind)), true)
      ensures pendingHides == old(pendingHides) + 1
    {
      message := MessageArea(Some(NoticeOf(text, kind)), true);
      pendingHides := pendingHides + 1;
    }

    /** The auto-hide timer: removes `show`, whatever message is on display
        by then. */
    method HideTimerFires()
      requires Valid() && pendingHides > 0
      modifies this`message, this`pendingHides
      ensures Valid()
      ensures message == MessageArea(old(message).notice, false)
      ensures pendingHides == old(pendingHides) - 1
    {
      message := MessageArea(message.notice, false);
      pendingHides := pendingHides - 1;
    }

    /** `displayContacts`: clears the container, then shows the empty state
        or appends one card per contact. */
    method DisplayContacts(contacts: Option<seq<Contact>>)
      modifies this`list
      ensures list == Render(contacts)
    {
      list := Cards([]);
      if contacts.None? || |contacts.value| == 0 {
        list := EmptyState;
        return;
      }
      var cs := contacts.value;
      var i := 0;
      while i < |cs|
        invariant 0 <= i <= |cs|
        invariant list == Cards(CardsOf(cs[..i]))
      {
        assert cs[..i + 1] == cs[..i] + [cs[i]];
        CardsOfSnoc(cs[..i], cs[i]);
        list := Cards(list.cards + [CardOf(cs[i])]);
        i := i + 1;
      }
      assert cs[..i] == cs;
    }

    /** The first step of `loadContacts`: the loading placeholder, then
        the request is sent. */
    method BeginLoad()
      modifies this`list, this`pendingLoads
      ensures list == Loading && pendingLoads == old(pendingLoads) + 1
    {
      list := Loading;
      pendingLoads := pendingLoads + 1;
    }

    /** The rest of `loadContacts`, once the request has resolved: the
        contacts if there are any, otherwise the empty state, with an error
        message when the request failed. */
    method FinishLoad(fetched: Option<seq<Contact>>)
      requires Valid() && pendingLoads > 0
      modifies this`list, this`message, this`pendingHides, this`pendingLoads
      ensures Valid()
      ensures pendingLoads == old(pendingLoads) - 1
      ensures list == Render(fetched)
      ensures fetched.Some? ==> message == old(message) && pendingHides == old(pendingHides)
      ensures fetched.None? ==>
        message == MessageArea(Some(NoticeOf(LoadFailedText, Error)), true) &&
        pendingHides == old(pendingHides) + 1
    {
      pendingLoads := pendingLoads - 1;
      if fetched.Some? {
        DisplayContacts(fetched);
      } else {
        DisplayContacts(Some([]));
        ShowMessage(LoadFailedText, Error);
      }
    }

    /** `showModal`: opens the modal and starts a load. */
    method ShowModal()
      modifies this`modalOpen, this`list, this`pendingLoads
      ensures modalOpen && list == Loading && pendingLoads == old(pendingLoads) + 1
    {
      modalOpen := true;
      BeginLoad();
    }

    /** `closeModal`, also bound to the close button. */
    method CloseModal()
      modifies this`modalOpen
      ensures !modalOpen
    {
      modalOpen := false;
    }

    /** A click anywhere in the window closes the modal only when it lands
        on the modal's backdrop. */
    method WindowClick(target: ClickTarget)
      modifies this`modalOpen
      ensures modalOpen == (old(modalOpen) && target != ModalBackdrop)
    {
      if target == ModalBackdrop {
        CloseModal();
      }
    }

    /** A key press closes the modal when it is Escape and the modal is
        open; any other key, or Escape with the modal closed, changes
        nothing. */
    method KeyDown(key: string)
      modifies this`modalOpen
      ensures modalOpen == (old(modalOpen) && key != "Escape")
    {
      if key == "Escape" && modalOpen {
        CloseModal();
      }
    }

    /** The user typing into the form. */
    method EditForm(f: Form)
      modifies this`form
      ensures form == f
    {
      form := f;
    }

    /** The submit handler up to its `await`: the fields are trimmed and
        validated; an invalid form shows the first failing field's message
        and stops, a valid one is sent. `sent` is the contact passed to
        `addContact`, or `None` when validation stopped the submission. The
        reply is handled later, by `HandleReply`. */
    method Submit() returns (sent: Option<Contact>)
      requires Valid()
      modifies this`message, this`pendingHides, this`pendingPosts
      ensures Valid()
      ensures SubmitVerdict(old(form)).Invalid? ==>
        sent == None &&
        message == MessageArea(Some(NoticeOf(ReasonMessage(SubmitVerdict(old(form)).reason), Error)), true) &&
        pendingHides == old(pendingHides) + 1 && pendingPosts == old(pendingPosts)
      ensures SubmitVerdict(old(form)).Valid? ==>
        sent == Some(Trimmed(old(form))) &&
        message == old(message) && pendingHides == old(pendingHides) &&
        pendingPosts == old(pendingPosts) + 1
    {
      var nombre, apellido, telefono := Trim(form.nombre), Trim(form.apellido), Trim(form.telefono);
      var verdict := Validate(nombre, apellido, telefono);
      if verdict.Invalid? {
        ShowMessage(ReasonMessage(verdict.reason), Error);
        sent := None;
        return;
      }
      sent := Some(Contact(nombre, apellido, telefono));
      pendingPosts := pendingPosts + 1;
    }

    /** The rest of the submit handler, once `addContact` has resolved to
        `reply`; it acts on the form and the modal as they are by then. On
        success a success message, the form reset and, with the modal open,
        a reload scheduled; on failure an error message and the form left
        as it was. */
    method HandleReply(reply: Option<Contact>)
      requires Valid() && pendingPosts > 0
      modifies this`form, this`message, this`pendingHides, this`pendingRefreshes, this`pendingPosts
      ensures Valid()
      ensures pendingPosts == old(pendingPosts) - 1
      ensures reply.Some? ==>
        form == EmptyForm &&
        message == MessageArea(Some(NoticeOf(SentText, Success)), true) &&
        pendingRefreshes == old(pendingRefreshes) + (if modalOpen then 1 else 0)
      ensures reply.None? ==>
        form == old(form) &&
        message == MessageArea(Some(NoticeOf(SendFailedText, Error)), true) &&
        pendingRefreshes == old(pendingRefreshes)
      ensures pendingHides == old(pendingHides) + 1
    {
      pendingPosts := pendingPosts - 1;
      if reply.Some? {
        ShowMessage(SentText, Success);
        form := EmptyForm;
        if modalOpen {
          pendingRefreshes := pendingRefreshes + 1;
        }
      } else {
        ShowMessage(SendFailedText, Error);
      }
    }

    /** The delayed reload scheduled by a successful submission: it runs
        `loadContacts` whether or not the modal is still open. */
    method RefreshTimerFires()
      requires pendingRefreshes > 0
      modifies this`list, this`pendingRefreshes, this`pendingLoads
      ensures list == Loading && pendingRefreshes == old(pendingRefreshes) - 1
      ensures pendingLoads == old(pendingLoads) + 1
    {
      pendingRefreshes := pendingRefreshes - 1;
      BeginLoad();
    }
  }
}
