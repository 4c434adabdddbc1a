/** The breakdown-service requests screen
    (src/components/Dashboard/Depannages.jsx): a list with fallbacks for
    missing fields, a status shown as a coloured label, and a details view. */
module Depannages {
  import opened Remote

  /** A person or garage as embedded in a request; every field may be missing. */
  datatype Party = Party(name: Option<string>, phone: Option<string>, email: Option<string>, address: Option<string>)

  datatype Location = Location(address: Option<string>)

  /** A row of `/admin/service-requests`. */
  datatype ServiceRequest = ServiceRequest(
    id: string, user: Option<Party>, garage: Option<Party>,
    description: Option<string>, status: Option<string>)

  /** A request as `/admin/service-requests/:id` returns it: the populated
      client and garage, and the flat copies some requests carry instead. */
  datatype RequestDetails = RequestDetails(
    clientId: Option<Party>, clientName: Option<string>, clientPhone: Option<string>, clientEmail: Option<string>,
    location: Option<Location>, garageId: Option<Party>, garageName: Option<string>, status: Option<string>,
    description: Option<string>)

  /** The three colours of a status badge. */
  datatype Tone = Yellow | Green | Blue

  const NotAvailable := "N/A"
  const NoDescription := "Aucune description"
  const LoadErrorText := "Erreur lors du chargement des demandes"
  const DetailsErrorText := "Erreur lors du chargement des détails"

  /** Badge colour, the same split in the list and the details view. */
  function StatusTone(status: Option<string>): (r: Tone)
    ensures r == Yellow <==> status == Some("pending")
    ensures r == Green <==> status == Some("accepted")
  {
    if status == Some("pending") then Yellow
    else if status == Some("accepted") then Green
    else Blue
  }

  /** Badge text: any status other than pending or accepted, a missing one
      included, reads "Terminé". */
  function StatusLabel(status: Option<string>): (r: string)
    ensures r == "En attente" <==> status == Some("pending")
    ensures r == "Accepté" <==> status == Some("accepted")
    ensures r == "En attente" || r == "Accepté" || r == "Terminé"
  {
    if status == Some("pending") then "En attente"
    else if status == Some("accepted") then "Accepté"
    else "Terminé"
  }

  /** Label and colour always tell the same story: each label comes with one
      colour, so the badge never contradicts itself. */
  lemma LabelMatchesTone(status: Option<string>)
    ensures StatusLabel(status) == "En attente" <==> StatusTone(status) == Yellow
    ensures StatusLabel(status) == "Accepté" <==> StatusTone(status) == Green
    ensures StatusLabel(status) == "Terminé" <==> StatusTone(status) == Blue
  {
  }

  /** The fields of a party the views read. */
  datatype Attr = Name | Phone | Email | Address

  /** `x?.field` on an embedded party that may be missing. */
  function Field(p: Option<Party>, a: Attr): Option<string>
  {
    if p.None? then None
    else match a
      case Name => p.value.name
      case Phone => p.value.phone
      case Email => p.value.email
      case Address => p.value.address
  }

  /** One row of the list as displayed. */
  datatype RowView = RowView(userName: string, garageName: string, description: string, status: string, tone: Tone)

  /** A missing user or garage (or name) shows 'N/A', a missing description
      'Aucune description'; present values are shown as they are. */
  function ListRow(r: ServiceRequest): (v: RowView)
    ensures Truthy(Field(r.user, Name)) ==> v.userName == r.user.value.name.value
    ensures !Truthy(Field(r.user, Name)) ==> v.userName == NotAvailable
    ensures Truthy(Field(r.garage, Name)) ==> v.garageName == r.garage.value.name.value
    ensures !Truthy(Field(r.garage, Name)) ==> v.garageName == NotAvailable
    ensures Truthy(r.description) ==> v.description == r.description.value
    ensures !Truthy(r.description) ==> v.description == NoDescription
    ensures v.status == StatusLabel(r.status) && v.tone == StatusTone(r.status)
  {
    RowView(
      Or(Field(r.user, Name), NotAvailable),
      Or(Field(r.garage, Name), NotAvailable),
      Or(r.description, NoDescription),
      StatusLabel(r.status), StatusTone(r.status))
  }

  /** The details view's client and garage blocks. */
  datatype DetailsView = DetailsView(
    clientName: string, clientPhone: string, clientEmail: string, location: string,
    garageName: string, garagePhone: string, garageEmail: string, garageAddress: string,
    status: string, tone: Tone, description: string)

  /** `a || b || 'N/A'`: the first present non-empty value. */
  function FirstOf(a: Option<string>, b: Option<string>): (r: string)
    ensures Truthy(a) ==> r == a.value
    ensures !Truthy(a) && Truthy(b) ==> r == b.value
    ensures !Truthy(a) && !Truthy(b) ==> r == NotAvailable
  {
    Or(OrElse(a, b), NotAvailable)
  }

  /** The client's fields come from the populated client, then from the flat
      copy, then 'N/A'; the garage's name likewise; the garage's other fields
      and the location have no flat copy; a missing description reads
      'Aucune description', as in the list. */
  function Details(d: RequestDetails): (v: DetailsView)
    ensures v.clientName == FirstOf(Field(d.clientId, Name), d.clientName)
    ensures v.clientPhone == FirstOf(Field(d.clientId, Phone), d.clientPhone)
    ensures v.clientEmail == FirstOf(Field(d.clientId, Email), d.clientEmail)
    ensures v.garageName == FirstOf(Field(d.garageId, Name), d.garageName)
    ensures v.location == FirstOf(if d.location.Some? then d.location.value.address else None, None)
    ensures v.garagePhone == FirstOf(Field(d.garageId, Phone), None)
    ensures v.garageEmail == FirstOf(Field(d.garageId, Email), None)
    ensures v.garageAddress == FirstOf(Field(d.garageId, Address), None)
    ensures v.status == StatusLabel(d.status) && v.tone == StatusTone(d.status)
    ensures Truthy(d.description) ==> v.description == d.description.value
    ensures !Truthy(d.description) ==> v.description == NoDescription
  {
    DetailsView(
      Or(OrElse(Field(d.clientId, Name), d.clientName), NotAvailable),
      Or(OrElse(Field(d.clientId, Phone), d.clientPhone), NotAvailable),
      Or(OrElse(Field(d.clientId, Email), d.clientEmail), NotAvailable),
      Or(if d.location.Some? then d.location.value.address else None, NotAvailable),
      Or(OrElse(Field(d.garageId, Name), d.garageName), NotAvailable),
      Or(Field(d.garageId, Phone), NotAvailable),
      Or(Field(d.garageId, Email), NotAvailable),
      Or(Field(d.garageId, Address), NotAvailable),
      StatusLabel(d.status), StatusTone(d.status),
      Or(d.description, NoDescription))
  }

  /** An empty field of the populated client never hides the flat copy, and a
      request without either shows 'N/A': no cell of the details view is
      ever empty. */
  lemma DetailsNeverBlank(d: RequestDetails)
    ensures Details(d).clientName != "" && Details(d).clientPhone != "" && Details(d).clientEmail != ""
    ensures Details(d).garageName != "" && Details(d).location != ""
    ensures Details(d).garagePhone != "" && Details(d).garageEmail != "" && Details(d).garageAddress != ""
    ensures Details(d).status != "" && Details(d).description != ""
    ensures d.clientId.None? ==> Details(d).clientName == Or(d.clientName, NotAvailable)
  {
  }

  class ServiceRequestsPage {
    var serviceRequests: seq<ServiceRequest>
    var loading: bool
    var error: Option<string>
    var selectedRequest: Option<RequestDetails>
    var detailsLoading: bool
    var modalVisible: bool

    constructor ()
      ensures serviceRequests == [] && loading && error == None && selectedRequest == None
      ensures !detailsLoading && !modalVisible
    {
      serviceRequests, loading, error := [], true, None;
      selectedRequest, detailsLoading, modalVisible := None, false, false;
    }

    /** `fetchServiceRequests`: a reply without a `serviceRequests` field
        yields an empty list; a failure shows the fixed load error. */
    method FetchServiceRequests(res: Outcome<Option<seq<ServiceRequest>>>)
      modifies this`serviceRequests, this`loading, this`error
      ensures !loading
      ensures res.Success? && res.value.Some? ==> serviceRequests == res.value.value && error == old(error)
      ensures res.Success? && res.value.None? ==> serviceRequests == [] && error == old(error)
      ensures res.Failure? ==> serviceRequests == old(serviceRequests) && error == Some(LoadErrorText)
    {
      loading := true;
      match res {
        case Success(list) =>
          serviceRequests := if list.Some? then list.value else [];
        case Failure(_) =>
          error := Some(LoadErrorText);
      }
      loading := false;
    }

    /** `fetchRequestDetails`: the request's details, or the fixed error. */
    method FetchRequestDetails(requestId: string, res: Outcome<RequestDetails>) returns (endpoint: string)
      modifies this`selectedRequest, this`detailsLoading, this`error
      ensures endpoint == "/admin/service-requests/" + requestId && !detailsLoading
      ensures res.Success? ==> selectedRequest == Some(res.value) && error == old(error)
      ensures res.Failure? ==> selectedRequest == old(selectedRequest) && error == Some(DetailsErrorText)
    {
      detailsLoading := true;
      endpoint := "/admin/service-requests/" + requestId;
      match res {
        case Success(d) =>
          selectedRequest := Some(d);
        case Failure(_) =>
          error := Some(DetailsErrorText);
      }
      detailsLoading := false;
    }

    /** `showDetailsModal`: fetches the clicked request and opens the modal. */
    method ShowDetailsModal(request: ServiceRequest, res: Outcome<RequestDetails>)
      modifies this`selectedRequest, this`detailsLoading, this`error, this`modalVisible
      ensures modalVisible && !detailsLoading
      ensures res.Success? ==> selectedRequest == Some(res.value) && error == old(error)
      ensures res.Failure? ==> selectedRequest == old(selectedRequest) && error == Some(DetailsErrorText)
    {
      var _ := FetchRequestDetails(request.id, res);
      modalVisible := true;
    }

    /** `closeModal`: hides the modal and forgets the selected request. */
    method CloseModal()
      modifies this`modalVisible, this`selectedRequest
      ensures !modalVisible && selectedRequest == None
    {
      modalVisible := false;
      selectedRequest := None;
    }
  }
}
