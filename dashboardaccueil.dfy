/** The dashboard home (src/components/Dashboard/DashboardAccueil.jsx): one
    state record replaced by the server's figures or marked with an error, and
    seven cards that read it with `|| 0` fallbacks. */
module DashboardAccueil {
  import opened Remote

  /** The groups of `/admin/stats`; a missing figure is None. */
  datatype UserCounts = UserCounts(clients: Option<int>, garageOwners: Option<int>, newThisMonth: Option<int>)
  datatype GarageCounts = GarageCounts(total: Option<int>, newThisMonth: Option<int>, active: Option<int>)
  datatype RequestCounts = RequestCounts(
    total: Option<int>, newThisMonth: Option<int>, pending: Option<int>, accepted: Option<int>)
  datatype ChecklistCounts = ChecklistCounts(total: Option<int>, newThisMonth: Option<int>)

  /** `response.data.data`: any group may be absent. */
  datatype StatsData = StatsData(
    users: Option<UserCounts>, garages: Option<GarageCounts>,
    serviceRequests: Option<RequestCounts>, checklists: Option<ChecklistCounts>)

  /** The component's single `stats` state. */
  datatype Stats = Stats(loading: bool, error: Option<string>, data: StatsData)

  const LoadErrorText := "Impossible de charger les données"

  /** Loading, no error, every group an empty object. */
  const InitialStats := Stats(true, None, StatsData(
    Some(UserCounts(None, None, None)), Some(GarageCounts(None, None, None)),
    Some(RequestCounts(None, None, None, None)), Some(ChecklistCounts(None, None))))

  /** A successful fetch: the state is the server's data, loaded, without an
      error; nothing of the previous state survives. */
  function ApplySuccess(prev: Stats, d: StatsData): (r: Stats)
    ensures r == Stats(false, None, d)
  {
    prev.(loading := false, error := None, data := d)
  }

  /** A failed fetch: the previous figures are kept, loading ends and the
      fixed error is set. */
  function ApplyFailure(prev: Stats): (r: Stats)
    ensures r.data == prev.data && !r.loading && r.error == Some(LoadErrorText)
  {
    prev.(loading := false, error := Some(LoadErrorText))
  }

  /** `stats.users?.clients + stats.users?.garageOwners || 0`: the sum when
      both counts are present; a missing one makes the sum NaN, which `|| 0`
      turns into 0. */
  function TotalAccounts(u: Option<UserCounts>): (r: int)
    ensures u.Some? && u.value.clients.Some? && u.value.garageOwners.Some? ==>
      r == u.value.clients.value + u.value.garageOwners.value
    ensures u.None? || u.value.clients.None? || u.value.garageOwners.None? ==> r == 0
  {
    if u.None? then 0
    else if u.value.clients.None? || u.value.garageOwners.None? then 0
    else u.value.clients.value + u.value.garageOwners.value
  }

  /** `group?.field || 0` on a group that may be absent. */
  function Figure<G>(g: Option<G>, field: G -> Option<int>): (r: int)
    ensures g.Some? && field(g.value).Some? ==> r == field(g.value).value
    ensures g.None? || field(g.value).None? ==> r == 0
  {
    if g.Some? then OrZero(field(g.value)) else 0
  }

  function Clients(u: UserCounts): Option<int> { u.clients }
  function GarageOwners(u: UserCounts): Option<int> { u.garageOwners }

  /** When both counts are present the total is the sum of the two cards
      beside it; when exactly one is missing the total shows 0 although the
      card of the other shows its count. */
  lemma TotalAgainstCards(u: Option<UserCounts>)
    ensures u.Some? && u.value.clients.Some? && u.value.garageOwners.Some? ==>
      TotalAccounts(u) == Figure(u, Clients) + Figure(u, GarageOwners)
    ensures u.Some? && u.value.clients.Some? && u.value.garageOwners.None? ==>
      TotalAccounts(u) == 0 && Figure(u, Clients) == u.value.clients.value
    ensures u.Some? && u.value.clients.None? && u.value.garageOwners.Some? ==>
      TotalAccounts(u) == 0 && Figure(u, GarageOwners) == u.value.garageOwners.value
  {
  }

  /** The arrow colours of a trend. */
  datatype TrendTone = Up | Down

  /** A trend as printed: arrow, colour and `Math.abs(value)`. */
  datatype TrendView = TrendView(arrow: string, tone: TrendTone, magnitude: nat)

  /** ↑ in green for a positive value, ↓ in red for zero or less. */
  function Trend(value: int): (r: TrendView)
    ensures r.arrow == "↑" <==> value > 0
    ensures r.arrow == "↑" || r.arrow == "↓"
    ensures r.tone == Up <==> value > 0
    ensures r.magnitude as int == if value < 0 then -value else value
  {
    if value > 0 then TrendView("↑", Up, value)
    else TrendView("↓", Down, if value < 0 then -value else 0)
  }

  /** The printed trend loses nothing: arrow and magnitude give back the value. */
  lemma TrendRoundTrip(value: int)
    ensures var t := Trend(value);
      value == if t.arrow == "↑" then t.magnitude as int else -(t.magnitude as int)
  {
  }

  /** A card: its title, its link, its figure (None while loading, shown as a
      placeholder) and its trend, if it has one. */
  datatype Card = Card(title: string, link: string, value: Option<int>, trend: Option<TrendView>)

  /** The screen: the error view replaces the cards. */
  datatype View = ErrorView(message: string) | CardsView(cards: seq<Card>)

  function Shown(s: Stats, v: int): Option<int>
  {
    if s.loading then None else Some(v)
  }

  function GarageTotal(g: GarageCounts): Option<int> { g.total }
  function GarageNew(g: GarageCounts): Option<int> { g.newThisMonth }
  function RequestTotal(r: RequestCounts): Option<int> { r.total }
  function RequestNew(r: RequestCounts): Option<int> { r.newThisMonth }
  function RequestPending(r: RequestCounts): Option<int> { r.pending }
  function ChecklistTotal(c: ChecklistCounts): Option<int> { c.total }
  function ChecklistNew(c: ChecklistCounts): Option<int> { c.newThisMonth }

  /** The rendered screen: the error view when an error is set, otherwise the
      seven cards in their order. */
  function Render(s: Stats): (v: View)
    ensures Truthy(s.error) ==> v == ErrorView(s.error.value)
    ensures !Truthy(s.error) ==> v.CardsView? && |v.cards| == 7
    ensures !Truthy(s.error) ==> forall i :: 0 <= i < |v.cards| ==> (v.cards[i].value.None? <==> s.loading)
    ensures !Truthy(s.error) ==> var d := s.data;
      && v.cards[0] == Card("Total Comptes", "/dashboard/utilisateurs", Shown(s, TotalAccounts(d.users)), None)
      && v.cards[1] == Card("Clients", "/dashboard/utilisateurs", Shown(s, Figure(d.users, Clients)), None)
      && v.cards[2] == Card("Garagistes", "/dashboard/utilisateurs", Shown(s, Figure(d.users, GarageOwners)), None)
      && v.cards[3] == Card("Garages", "/dashboard/garages", Shown(s, Figure(d.garages, GarageTotal)),
           Some(Trend(Figure(d.garages, GarageNew))))
      && v.cards[4] == Card("Demandes", "/dashboard/depannages", Shown(s, Figure(d.serviceRequests, RequestTotal)),
           Some(Trend(Figure(d.serviceRequests, RequestNew))))
      && v.cards[5] == Card("En attente", "/dashboard/depannages",
           Shown(s, Figure(d.serviceRequests, RequestPending)), None)
      && v.cards[6] == Card("Checklists", "/dashboard/fiches/pre-demarrage",
           Shown(s, Figure(d.checklists, ChecklistTotal)), Some(Trend(Figure(d.checklists, ChecklistNew))))
  {
    if Truthy(s.error) then ErrorView(s.error.value)
    else
      var d := s.data;
      CardsView([
        Card("Total Comptes", "/dashboard/utilisateurs", Shown(s, TotalAccounts(d.users)), None),
        Card("Clients", "/dashboard/utilisateurs", Shown(s, Figure(d.users, Clients)), None),
        Card("Garagistes", "/dashboard/utilisateurs", Shown(s, Figure(d.users, GarageOwners)), None),
        Card("Garages", "/dashboard/garages", Shown(s, Figure(d.garages, GarageTotal)),
          Some(Trend(Figure(d.garages, GarageNew)))),
        Card("Demandes", "/dashboard/depannages", Shown(s, Figure(d.serviceRequests, RequestTotal)),
          Some(Trend(Figure(d.serviceRequests, RequestNew)))),
        Card("En attente", "/dashboard/depannages", Shown(s, Figure(d.serviceRequests, RequestPending)), None),
        Card("Checklists", "/dashboard/fiches/pre-demarrage", Shown(s, Figure(d.checklists, ChecklistTotal)),
          Some(Trend(Figure(d.checklists, ChecklistNew))))])
  }

  /** On the rendered, loaded screen the total card is the sum of the two
      cards beside it when both counts exist; with exactly one missing it
      shows 0 while the other card shows its count. */
  lemma RenderedTotalCard(s: Stats)
    requires !Truthy(s.error) && !s.loading
    ensures var c := Render(s).cards; var u := s.data.users;
      && (u.Some? && u.value.clients.Some? && u.value.garageOwners.Some? ==>
            c[0].value.value == c[1].value.value + c[2].value.value)
      && (u.Some? && u.value.clients.Some? && u.value.garageOwners.None? ==>
            c[0].value == Some(0) && c[1].value == Some(u.value.clients.value))
      && (u.Some? && u.value.clients.None? && u.value.garageOwners.Some? ==>
            c[0].value == Some(0) && c[2].value == Some(u.value.garageOwners.value))
  {
    TotalAgainstCards(s.data.users);
  }

  function UsersNew(u: UserCounts): Option<int> { u.newThisMonth }
  function GaragesActive(g: GarageCounts): Option<int> { g.active }
  function RequestsAccepted(r: RequestCounts): Option<int> { r.accepted }

  /** The figures of the two panels below the cards: "Rapports rapides"
      (active garages out of all, accepted requests out of all, new users)
      and "Activité récente" (new and pending requests, new and all
      checklists). */
  datatype Panels = Panels(
    activeGarages: int, garages: int, acceptedRequests: int, requests: int, newUsers: int,
    newRequests: int, pendingRequests: int, newChecklists: int, checklists: int)

  /** The panels read the same state with `|| 0` and, unlike the cards, have
      no loading placeholder; the error view replaces them too. */
  function RenderPanels(s: Stats): (r: Option<Panels>)
    ensures r.None? <==> Truthy(s.error)
    ensures r.Some? ==>
      var d := s.data;
      && r.value.activeGarages == Figure(d.garages, GaragesActive)
      && r.value.garages == Figure(d.garages, GarageTotal)
      && r.value.acceptedRequests == Figure(d.serviceRequests, RequestsAccepted)
      && r.value.requests == Figure(d.serviceRequests, RequestTotal)
      && r.value.newUsers == Figure(d.users, UsersNew)
      && r.value.newRequests == Figure(d.serviceRequests, RequestNew)
      && r.value.pendingRequests == Figure(d.serviceRequests, RequestPending)
      && r.value.newChecklists == Figure(d.checklists, ChecklistNew)
      && r.value.checklists == Figure(d.checklists, ChecklistTotal)
  {
    if Truthy(s.error) then None
    else
      var d := s.data;
      Some(Panels(
        OrZero(if d.garages.Some? then d.garages.value.active else None),
        OrZero(if d.garages.Some? then d.garages.value.total else None),
        OrZero(if d.serviceRequests.Some? then d.serviceRequests.value.accepted else None),
        OrZero(if d.serviceRequests.Some? then d.serviceRequests.value.total else None),
        OrZero(if d.users.Some? then d.users.value.newThisMonth else None),
        OrZero(if d.serviceRequests.Some? then d.serviceRequests.value.newThisMonth else None),
        OrZero(if d.serviceRequests.Some? then d.serviceRequests.value.pending else None),
        OrZero(if d.checklists.Some? then d.checklists.value.newThisMonth else None),
        OrZero(if d.checklists.Some? then d.checklists.value.total else None)))
  }

  /** Once loaded, the panels agree with the cards: the totals they divide by
      are the cards' figures, and the new-this-month counts are the cards'
      trends. While loading, the cards show placeholders but the panels show
      the initial state's zeros. */
  lemma PanelsAgreeWithCards(s: Stats)
    requires !Truthy(s.error) && !s.loading
    ensures var p := RenderPanels(s).value; var c := Render(s).cards;
      && c[3].value == Some(p.garages) && c[4].value == Some(p.requests)
      && c[5].value == Some(p.pendingRequests) && c[6].value == Some(p.checklists)
      && c[4].trend.value.magnitude as int == (if p.newRequests < 0 then -p.newRequests else p.newRequests)
      && c[6].trend.value.magnitude as int == (if p.newChecklists < 0 then -p.newChecklists else p.newChecklists)
    ensures RenderPanels(InitialStats) == Some(Panels(0, 0, 0, 0, 0, 0, 0, 0, 0))
  {
  }

  /** The three states the fetch can leave: placeholders before the answer,
      the server's figures after a success (the first card their total),
      the error view after a failure, whatever was shown before. */
  lemma FetchOutcomes(prev: Stats, d: StatsData)
    ensures Render(InitialStats).CardsView? && forall c :: c in Render(InitialStats).cards ==> c.value.None?
    ensures Render(ApplySuccess(prev, d)).CardsView?
    ensures Render(ApplySuccess(prev, d)).cards[0].value == Some(TotalAccounts(d.users))
    ensures Render(ApplyFailure(prev)) == ErrorView(LoadErrorText)
  {
    var cards := Render(InitialStats).cards;
    assert forall i :: 0 <= i < |cards| ==> cards[i].value.None?;
  }

  /** A failure after a success keeps the server's figures in the state. */
  lemma FailureKeepsFigures(prev: Stats, d: StatsData)
    ensures ApplyFailure(ApplySuccess(prev, d)).data == d
  {
  }
}
