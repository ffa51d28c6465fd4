/** End-to-end scenarios of the controller, verified from its contracts
    alone. */
module Scenarios {
  import opened Wrappers
  import opened Validation
  import opened ContactList
  import opened Notification
  import opened Workflow

  /** Opening the modal shows the loading placeholder; a fetch of two
      contacts then shows exactly two cards, in the order received. */
  method OpenAndLoadTwo(a: Contact, b: Contact) {
    var c := new Controller();
    c.ShowModal();
    assert c.modalOpen && c.list == Loading;
    c.FinishLoad(Some([a, b]));
    RenderCards([a, b]);
    assert c.list.Cards? && |c.list.cards| == 2;
    assert c.list.cards[0] == CardOf(a) && c.list.cards[1] == CardOf(b);
    assert c.message == MessageArea(None, false);
  }

  /** A failed fetch shows the empty state and an error message. */
  method OpenAndFailToLoad() {
    var c := new Controller();
    c.ShowModal();
    c.FinishLoad(None);
    assert c.list == EmptyState;
    assert c.message.shown && c.message.notice.value.kind == Error;
  }

  /** A submission that passes validation and that the server accepts,
      with the modal open, sends the trimmed fields, clears the form, shows
      success and schedules a reload; when the reload's timer fires the list
      is loading again. */
  method SubmitWithModalOpen(f: Form, reply: Contact)
    requires SubmitVerdict(f).Valid?
  {
    var c := new Controller();
    c.ShowModal();
    c.EditForm(f);
    var sent := c.Submit();
    assert sent == Some(Trimmed(f)) && c.pendingPosts == 1;
    c.HandleReply(Some(reply));
    assert c.form == EmptyForm && c.pendingRefreshes == 1 && c.pendingPosts == 0;
    assert c.message.notice == Some(NoticeOf(SentText, Success));
    c.RefreshTimerFires();
    assert c.list == Loading && c.pendingRefreshes == 0;
  }

  /** The modal closed while the submission is in flight: the reply then
      finds it closed and schedules no reload; the form typed meanwhile is
      what the reset clears. */
  method SubmitThenCloseBeforeReply(f: Form, g: Form, reply: Contact)
    requires SubmitVerdict(f).Valid?
  {
    var c := new Controller();
    c.ShowModal();
    c.EditForm(f);
    var sent := c.Submit();
    assert sent == Some(Trimmed(f));
    c.KeyDown("Escape");
    c.EditForm(g);
    c.HandleReply(Some(reply));
    assert !c.modalOpen && c.pendingRefreshes == 0 && c.form == EmptyForm;
  }

  /** A failed submission leaves whatever the form holds when the reply
      arrives. */
  method SubmitFails(f: Form)
    requires SubmitVerdict(f).Valid?
  {
    var c := new Controller();
    c.EditForm(f);
    var sent := c.Submit();
    c.HandleReply(None);
    assert sent.Some? && c.form == f && c.pendingRefreshes == 0;
    assert c.message.notice == Some(NoticeOf(SendFailedText, Error));
  }

  /** A form that fails validation never reaches the server, is left as
      typed, and the message names the first failing field. */
  method SubmitInvalid(f: Form)
    requires SubmitVerdict(f).Invalid?
  {
    var c := new Controller();
    c.EditForm(f);
    var sent := c.Submit();
    assert sent == None && c.pendingPosts == 0 && c.form == f && !c.modalOpen;
    assert c.message.notice == Some(NoticeOf(ReasonMessage(SubmitVerdict(f).reason), Error));
  }

  /** A concrete rejected form, run through the submit handler: an empty
      name is rejected for the name. */
  method SubmitEmptyName() {
    var f := Form("", "Smith", "1234567");
    assert SubmitVerdict(f) == Invalid(Name) by {
      SubmitVerdictRaw(f);
      ExampleEmptyName();
    }
    SubmitInvalid(f);
  }

  /** Escape closes an open modal and does nothing to a closed one; a click
      inside the modal leaves it open, one on the backdrop closes it. */
  method EscapeAndClicks() {
    var c := new Controller();
    c.KeyDown("Escape");
    assert !c.modalOpen && c.list == Cards([]);
    c.ShowModal();
    c.WindowClick(OtherElement);
    assert c.modalOpen;
    c.KeyDown("Enter");
    assert c.modalOpen;
    c.KeyDown("Escape");
    assert !c.modalOpen;
    c.ShowModal();
    c.WindowClick(ModalBackdrop);
    assert !c.modalOpen;
  }

  /** The hide timer of an earlier message hides a later one early: the
      second message disappears while its own timer is still pending. */
  method EarlyHideOfSecondMessage() {
    var c := new Controller();
    c.ShowMessage("first", Error);
    c.ShowMessage("second", Success);
    c.HideTimerFires();
    assert c.message == MessageArea(Some(NoticeOf("second", Success)), false);
    assert c.pendingHides == 1;
  }
}
