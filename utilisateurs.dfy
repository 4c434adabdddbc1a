/** The user-management screen (src/components/Dashboard/Utilisateurs.jsx):
    two lists (clients and garages), a shared details/delete modal, and a
    wrap-around carousel over a garage's comments. */
module Utilisateurs {
  import opened Remote
  import Lists

  datatype Client = Client(id: string, name: string, email: string, phone: string)
  datatype Garage = Garage(id: string, name: Option<string>)
  datatype Comment = Comment(id: string, author: Option<string>, note: int, text: string)

  /** The details object of one user; only its comments matter here. */
  datatype UserDetails = UserDetails(name: Option<string>, comments: Option<seq<Comment>>)

  /** The modal state: `type` is 'details' or 'delete', `userType` 'client'
      or 'garage'; null fields are None. */
  datatype Modal = Modal(show: bool, kind: Option<string>, id: Option<string>, name: string, userType: Option<string>)

  /** The two lists the screen keeps. */
  datatype UserLists = UserLists(clients: seq<Client>, garages: seq<Garage>)

  const ClosedModal := Modal(false, None, None, "", None)
  const LoadError := "Erreur lors du chargement des utilisateurs"
  const DetailsError := "Erreur lors du chargement des détails"

  function ClientId(c: Client): string { c.id }
  function GarageId(g: Garage): string { g.id }

  /** `userDetails?.comments || []`, counted. */
  function CommentCount(details: Option<UserDetails>): nat
  {
    if details.Some? && details.value.comments.Some? then |details.value.comments.value| else 0
  }

  /** The index `scrollComments(direction)` moves to. With at most one comment
      nothing moves. Otherwise, from inside the bounds, the result stays inside
      them and is one step away cyclically: 'prev' one back, any other direction
      one forward, the two ends being neighbours. */
  function Scrolled(index: int, count: nat, direction: string): (r: int)
    ensures count <= 1 ==> r == index
    ensures count > 1 && 0 <= index < count ==>
      && 0 <= r < count
      && (direction == "prev" ==> index - r == 1 || r - index == count - 1)
      && (direction != "prev" ==> r - index == 1 || index - r == count - 1)
  {
    if count <= 1 then index
    else if direction == "prev" then (if index == 0 then count - 1 else index - 1)
    else (if index == count - 1 then 0 else index + 1)
  }

  /** Going back after going forward (and forward after back) returns to the
      comment one started from. */
  lemma ScrollInverse(index: int, count: nat)
    requires 0 <= index < count
    ensures Scrolled(Scrolled(index, count, "next"), count, "prev") == index
    ensures Scrolled(Scrolled(index, count, "prev"), count, "next") == index
  {
  }

  /** Any direction other than 'prev' behaves as 'next'. */
  lemma ScrollOtherIsNext(index: int, count: nat, direction: string)
    requires direction != "prev"
    ensures Scrolled(index, count, direction) == Scrolled(index, count, "next")
  {
  }

  /** `k` presses of "next". */
  function NextTimes(index: int, count: nat, k: nat): int
  {
    if k == 0 then index else Scrolled(NextTimes(index, count, k - 1), count, "next")
  }

  /** With at least two comments, `k <= count` presses of "next" from an index
      inside the bounds climb to the last comment, wrap to the first and
      climb on; after exactly `count` presses the carousel is back where it
      started. */
  lemma {:induction false} NextTimesCycles(index: int, count: nat, k: nat)
    requires 0 <= index < count && count > 1 && k <= count
    ensures NextTimes(index, count, k) == if index + k < count then index + k else index + k - count
    ensures k == count ==> NextTimes(index, count, k) == index
  {
    if k > 0 {
      NextTimesCycles(index, count, k - 1);
    }
  }

  /** `confirmDelete` after a successful call: for userType 'client' the
      clients lose every entry with the modal's id and the garages are
      untouched; for any other userType it is the other way round. */
  function DeleteFromLists(lists: UserLists, userType: Option<string>, id: Option<string>): (r: UserLists)
    ensures userType == Some("client") ==>
      && r.garages == lists.garages
      && (id.Some? ==> r.clients == Lists.RemoveById(lists.clients, id.value, ClientId))
      && (id.None? ==> r.clients == lists.clients)
    ensures userType != Some("client") ==>
      && r.clients == lists.clients
      && (id.Some? ==> r.garages == Lists.RemoveById(lists.garages, id.value, GarageId))
      && (id.None? ==> r.garages == lists.garages)
  {
    // `_id !== null` holds of every entity, so a null id filters nothing out
    if id.None? then lists
    else if userType == Some("client") then lists.(clients := Lists.RemoveById(lists.clients, id.value, ClientId))
    else lists.(garages := Lists.RemoveById(lists.garages, id.value, GarageId))
  }

  /** The deleted user is gone from the list it was in, and the two lists
      together never grow. */
  lemma DeleteRemovesTarget(lists: UserLists, userType: Option<string>, id: string)
    ensures var r := DeleteFromLists(lists, userType, Some(id));
      && (forall i :: 0 <= i < |r.clients| ==> userType == Some("client") ==> r.clients[i].id != id)
      && (forall i :: 0 <= i < |r.garages| ==> userType != Some("client") ==> r.garages[i].id != id)
      && |r.clients| + |r.garages| <= |lists.clients| + |lists.garages|
  {
  }

  /** The user endpoint `fetchUserDetails` and `confirmDelete` address: the
      users collection for a client, the garages collection otherwise. */
  function UserEndpoint(id: string, isClient: bool): string
  {
    (if isClient then "/admin/users/" else "/admin/garages/") + id
  }

  /** `${modal.id}` in a template: the modal's id, or "null" for the closed
      modal's null id (unlike a missing field, which prints "undefined"). */
  function IdText(id: Option<string>): (r: string)
    ensures id.Some? ==> r == id.value
    ensures id.None? ==> r == "null"
  {
    if id.Some? then id.value else "null"
  }

  /** The endpoint names its target unambiguously: equal endpoints mean the
      same collection and the same id. */
  lemma {:induction false} UserEndpointInjective(id1: string, c1: bool, id2: string, c2: bool)
    requires UserEndpoint(id1, c1) == UserEndpoint(id2, c2)
    ensures c1 == c2 && id1 == id2
  {
    var e := UserEndpoint(id1, c1);
    var p1 := if c1 then "/admin/users/" else "/admin/garages/";
    var p2 := if c2 then "/admin/users/" else "/admin/garages/";
    assert e == p1 + id1 && e == p2 + id2;
    assert e[7] == p1[7] && e[7] == p2[7];
    assert c1 == c2;
    assert id1 == e[|p1|..] == id2;
  }

  class UsersPage {
    var clients: seq<Client>
    var garages: seq<Garage>
    var loading: bool
    var error: Option<string>
    var selectedUser: Option<(string, string)>
    var userDetails: Option<UserDetails>
    var detailsLoading: bool
    var modal: Modal
    var commentIndex: int

    constructor ()
      ensures clients == [] && garages == [] && loading && error == None
      ensures selectedUser == None && userDetails == None && !detailsLoading
      ensures modal == ClosedModal && commentIndex == 0
    {
      clients, garages := [], [];
      loading, error := true, None;
      selectedUser, userDetails, detailsLoading := None, None, false;
      modal, commentIndex := ClosedModal, 0;
    }

    /** The mount effect: clients first, then garages; a missing list becomes
        empty. The garages are requested only once the clients have arrived,
        and either failure shows the loading error. */
    method LoadUsers(clientsRes: Outcome<Option<seq<Client>>>, garagesRes: Outcome<Option<seq<Garage>>>)
      modifies this
      ensures !loading
      ensures clientsRes.Success? ==> clients == (if clientsRes.value.Some? then clientsRes.value.value else [])
      ensures clientsRes.Failure? ==> clients == old(clients) && garages == old(garages) && error == Some(LoadError)
      ensures clientsRes.Success? && garagesRes.Success? ==>
        garages == (if garagesRes.value.Some? then garagesRes.value.value else []) && error == old(error)
      ensures clientsRes.Success? && garagesRes.Failure? ==> garages == old(garages) && error == Some(LoadError)
      ensures modal == old(modal) && userDetails == old(userDetails) && commentIndex == old(commentIndex)
      ensures selectedUser == old(selectedUser) && detailsLoading == old(detailsLoading)
    {
      loading := true;
      match clientsRes {
        case Failure(_) =>
          error := Some(LoadError);
        case Success(cs) =>
          clients := if cs.Some? then cs.value else [];
          match garagesRes {
            case Failure(_) =>
              error := Some(LoadError);
            case Success(gs) =>
              garages := if gs.Some? then gs.value else [];
          }
      }
      loading := false;
    }

    /** `fetchUserDetails`: on success the details are shown, the selected user
        recorded and the carousel rewound; on failure the details error is
        set. Returns the endpoint requested. */
    method FetchUserDetails(id: string, userType: string, res: Outcome<UserDetails>) returns (endpoint: string)
      modifies this
      ensures endpoint == UserEndpoint(id, userType == "client")
      ensures !detailsLoading
      ensures res.Success? ==>
        userDetails == Some(res.value) && selectedUser == Some((id, userType)) && commentIndex == 0 && error == old(error)
      ensures res.Failure? ==>
        && userDetails == old(userDetails) && selectedUser == old(selectedUser)
        && commentIndex == old(commentIndex) && error == Some(DetailsError)
      ensures clients == old(clients) && garages == old(garages) && modal == old(modal) && loading == old(loading)
    {
      detailsLoading := true;
      endpoint := UserEndpoint(id, userType == "client");
      match res {
        case Success(d) =>
          userDetails := Some(d);
          selectedUser := Some((id, userType));
          commentIndex := 0;
        case Failure(_) =>
          error := Some(DetailsError);
      }
      detailsLoading := false;
    }

    /** `showDetailsModal`: starts the details fetch (its outcome is `res`)
        and opens the details modal for that user. */
    method ShowDetailsModal(id: string, userType: string, name: string, res: Outcome<UserDetails>)
      modifies this
      ensures modal == Modal(true, Some("details"), Some(id), name, Some(userType))
      ensures !detailsLoading
      ensures res.Success? ==>
        userDetails == Some(res.value) && selectedUser == Some((id, userType)) && commentIndex == 0 && error == old(error)
      ensures res.Failure? ==>
        && userDetails == old(userDetails) && selectedUser == old(selectedUser)
        && commentIndex == old(commentIndex) && error == Some(DetailsError)
      ensures clients == old(clients) && garages == old(garages) && loading == old(loading)
    {
      var _ := FetchUserDetails(id, userType, res);
      modal := Modal(true, Some("details"), Some(id), name, Some(userType));
    }

    /** `showDeleteModal`: opens the confirmation modal for that user. */
    method ShowDeleteModal(id: string, userType: string, name: string)
      modifies this`modal
      ensures modal == Modal(true, Some("delete"), Some(id), name, Some(userType))
    {
      modal := Modal(true, Some("delete"), Some(id), name, Some(userType));
    }

    /** `closeModal`: the modal back to its closed state, no details, first
        comment. */
    method CloseModal()
      modifies this`modal, this`userDetails, this`commentIndex
      ensures modal == ClosedModal && userDetails == None && commentIndex == 0
    {
      modal := ClosedModal;
      userDetails := None;
      commentIndex := 0;
    }

    /** `scrollComments(direction)` (the pixel scrolling aside). */
    method ScrollComments(direction: string)
      modifies this`commentIndex
      ensures commentIndex == Scrolled(old(commentIndex), CommentCount(userDetails), direction)
    {
      var count := CommentCount(userDetails);
      if count <= 1 {
        return;
      }
      var newIndex;
      if direction == "prev" {
        newIndex := if commentIndex == 0 then count - 1 else commentIndex - 1;
      } else {
        newIndex := if commentIndex == count - 1 then 0 else commentIndex + 1;
      }
      commentIndex := newIndex;
    }

    /** A carousel dot jumps straight to its comment. */
    method SelectComment(index: nat)
      modifies this`commentIndex
      ensures commentIndex == index
    {
      commentIndex := index;
    }

    /** `confirmDelete`: `res` is the awaited DELETE. On success the list
        chosen by the modal's userType loses the user and the modal closes;
        on failure lists, modal, details and carousel stay as they
        were. Returns the endpoint requested. */
    method ConfirmDelete(res: Outcome<()>) returns (endpoint: string)
      modifies this
      ensures endpoint == UserEndpoint(IdText(old(modal).id), old(modal).userType == Some("client"))
      ensures res.Success? ==>
        && UserLists(clients, garages) == DeleteFromLists(old(UserLists(clients, garages)), old(modal).userType, old(modal).id)
        && modal == ClosedModal && userDetails == None && commentIndex == 0
      ensures res.Failure? ==>
        && clients == old(clients) && garages == old(garages)
        && modal == old(modal) && userDetails == old(userDetails) && commentIndex == old(commentIndex)
      ensures error == old(error) && loading == old(loading) && selectedUser == old(selectedUser)
      ensures detailsLoading == old(detailsLoading)
    {
      endpoint := UserEndpoint(IdText(modal.id), modal.userType == Some("client"));
      if res.Success? {
        var after := DeleteFromLists(UserLists(clients, garages), modal.userType, modal.id);
        clients, garages := after.clients, after.garages;
        CloseModal();
      }
    }
  }
}
