/** The notification sender (src/components/Dashboard/Notifications.jsx): a
    tab picks the audience, the audience picks the endpoint and the fields
    of the payload. */
module Notifications {
  import opened Remote

  /** The six inputs of the form. */
  const FormFields: set<string> := {"title", "body", "data", "deviceToken", "promoCode", "expiryDate"}

  /** `resetForm`: all six inputs empty. */
  const EmptyForm: map<string, string> := map[
    "title" := "", "body" := "", "data" := "",
    "deviceToken" := "", "promoCode" := "", "expiryDate" := ""]

  /** The four audiences of the tab cards. */
  const Tabs: set<string> := {"all", "clients", "garages", "device"}

  /** Fields every payload carries. */
  const BaseFields: set<string> := {"title", "body", "data"}

  /** The fields a payload for `tab` carries on top of the base ones. */
  function ExtraFields(tab: string): set<string>
  {
    if tab == "clients" then {"promoCode", "expiryDate"}
    else if tab == "device" then {"deviceToken"}
    else {}
  }

  /** The body of a reply, or the one built from a failure. */
  datatype Reply = Reply(success: bool, message: string)

  const SendError := "Une erreur s'est produite lors de l'envoi de la notification"

  /** The `switch (activeTab)` of `handleSubmit`: a known tab posts to
      `/admin/notifications/send-to-<tab>` the base fields plus its own extras,
      each copied from the form; an unknown tab keeps the initial endpoint ''
      and payload {}. */
  method ChooseRequest(tab: string, form: map<string, string>) returns (endpoint: string, payload: map<string, string>)
    requires FormFields <= form.Keys
    ensures tab in Tabs ==> endpoint == "/admin/notifications/send-to-" + tab
    ensures tab in Tabs ==> payload.Keys == BaseFields + ExtraFields(tab)
    ensures tab !in Tabs ==> endpoint == "" && payload == map[]
    ensures forall k :: k in payload ==> k in form && payload[k] == form[k]
  {
    endpoint := "";
    payload := map[];
    var basePayload := map["title" := form["title"], "body" := form["body"], "data" := form["data"]];
    match tab {
      case "all" =>
        endpoint := "/admin/notifications/send-to-all";
        payload := basePayload;
      case "clients" =>
        endpoint := "/admin/notifications/send-to-clients";
        payload := basePayload["promoCode" := form["promoCode"]]["expiryDate" := form["expiryDate"]];
      case "garages" =>
        endpoint := "/admin/notifications/send-to-garages";
        payload := basePayload;
      case "device" =>
        endpoint := "/admin/notifications/send-to-device";
        payload := basePayload["deviceToken" := form["deviceToken"]];
      case _ =>
    }
  }

  /** The audiences partition the optional fields: the promotion fields go to
      clients only, the device token to one device only, and "all" and
      "garages" send the base fields alone; no extra is ever a base field. */
  lemma ExtrasByAudience(tab: string)
    requires tab in Tabs
    ensures "promoCode" in ExtraFields(tab) <==> tab == "clients"
    ensures "expiryDate" in ExtraFields(tab) <==> tab == "clients"
    ensures "deviceToken" in ExtraFields(tab) <==> tab == "device"
    ensures ExtraFields(tab) == {} <==> tab in {"all", "garages"}
    ensures ExtraFields(tab) !! BaseFields && BaseFields + ExtraFields(tab) <= FormFields
  {
  }

  class NotificationsPage {
    var activeTab: string
    var isModalOpen: bool
    var isSending: bool
    var response: Option<Reply>
    var form: map<string, string>

    ghost predicate Valid()
      reads this
    {
      FormFields <= form.Keys
    }

    constructor ()
      ensures Valid() && activeTab == "all" && !isModalOpen && !isSending && response == None
      ensures form == EmptyForm
    {
      activeTab, isModalOpen, isSending, response := "all", false, false, None;
      form := EmptyForm;
    }

    /** `handleInputChange`: only the named input changes. */
    method HandleInputChange(name: string, value: string)
      requires Valid()
      modifies this`form
      ensures Valid() && form == old(form)[name := value]
    {
      form := form[name := value];
    }

    method ResetForm()
      modifies this`form
      ensures Valid() && form == EmptyForm
    {
      form := EmptyForm;
    }

    /** `openModal(tab)`: selects the audience, opens the modal, hides the
        last reply and empties the form. */
    method OpenModal(tab: string)
      modifies this
      ensures Valid() && activeTab == tab && isModalOpen && response == None && form == EmptyForm
      ensures isSending == old(isSending)
    {
      activeTab := tab;
      isModalOpen := true;
      response := None;
      ResetForm();
    }

    /** The "×" and "Annuler" buttons: close the modal and empty the form. */
    method CloseModal()
      modifies this
      ensures Valid() && !isModalOpen && form == EmptyForm
      ensures activeTab == old(activeTab) && response == old(response) && isSending == old(isSending)
    {
      isModalOpen := false;
      ResetForm();
    }

    /** "Fermer" on the reply banner. */
    method DismissResponse()
      modifies this`response
      ensures response == None
    {
      response := None;
    }

    /** `handleSubmit`: posts the tab's request; a reply closes the modal, is
        shown and empties the form; a failure shows the server's `message` or
        the fixed text and keeps the modal and the form. Sending is over on
        both paths. Returns the endpoint and payload posted. */
    method HandleSubmit(res: Outcome<Reply>) returns (endpoint: string, payload: map<string, string>)
      requires Valid()
      modifies this
      ensures Valid() && !isSending && activeTab == old(activeTab)
      ensures activeTab in Tabs ==> endpoint == "/admin/notifications/send-to-" + activeTab
      ensures activeTab in Tabs ==> payload.Keys == BaseFields + ExtraFields(activeTab)
      ensures activeTab !in Tabs ==> endpoint == "" && payload == map[]
      ensures forall k :: k in payload ==> k in old(form) && payload[k] == old(form)[k]
      ensures res.Success? ==> !isModalOpen && response == Some(res.value) && form == EmptyForm
      ensures res.Failure? ==>
        && isModalOpen == old(isModalOpen) && form == old(form)
        && response == Some(Reply(false, Or(res.error.message, SendError)))
    {
      isSending := true;
      endpoint, payload := ChooseRequest(activeTab, form);
      match res {
        case Success(data) =>
          isModalOpen := false;
          response := Some(data);
          ResetForm();
        case Failure(e) =>
          response := Some(Reply(false, Or(e.message, SendError)));
      }
      isSending := false;
    }
  }
}
