/** The pre-start checklist screen (src/components/Dashboard/Fiches.jsx):
    a paginated list, a details view whose check groups are translated through
    two fixed dictionaries, and a three-colour classification of check
    results. */
module Fiches {
  import opened Remote

  /** A check group as `Object.entries` yields it: (check name, result) pairs
      in iteration order. An object built by the translation fold is one too. */
  type Entries = seq<(string, string)>

  /** `translations.keys`: check codes to French labels. */
  const KeyLabels: map<string, string> := map[
    "tires" := "Pneus",
    "wheelNuts" := "Écrous de roue",
    "body" := "Carrosserie",
    "spareTire" := "Roue de secours",
    "windshield" := "Pare-brise",
    "wipers" := "Essuie-glaces",
    "lights" := "Feux",
    "indicators" := "Clignotants",
    "oilLevel" := "Niveau d'huile",
    "coolant" := "Liquide de refroidissement",
    "battery" := "Batterie",
    "belt" := "Courroie",
    "seatsBelts" := "Ceintures de sécurité",
    "brakes" := "Freins",
    "ac" := "Climatisation",
    "fourByFour" := "Transmission 4x4",
    "extinguisher" := "Extincteur",
    "firstAid" := "Trousse de secours",
    "triangle" := "Triangle",
    "jackTools" := "Cric et outils"
  ]

  /** `translations.values`: every known result mapped to itself. */
  const ValueLabels: map<string, string> := map[
    "Bon" := "Bon",
    "Oui" := "Oui",
    "Rayures" := "Rayures",
    "À revoir" := "À revoir",
    "Fissuré" := "Fissuré",
    "OK" := "OK",
    "Aucun" := "Aucun",
    "Faible" := "Faible",
    "Problème" := "Problème",
    "Incomplète" := "Incomplète",
    "Présent" := "Présent",
    "Incomplets" := "Incomplets"
  ]

  /** `translations.keys[key] || key`: a known code becomes its label, any
      other key is kept as it is. */
  function TranslateKey(k: string): (r: string)
    ensures k in KeyLabels ==> r == KeyLabels[k]
    ensures k !in KeyLabels ==> r == k
  {
    if k in KeyLabels && KeyLabels[k] != "" then KeyLabels[k] else k
  }

  /** `translations.values[value] || value`: the value dictionary is the
      identity, so every result comes out unchanged. */
  function TranslateValue(v: string): (r: string)
    ensures r == v
  {
    if v in ValueLabels && ValueLabels[v] != "" then ValueLabels[v] else v
  }

  /** The value stored under `k` (the first entry with that key). */
  function Lookup(m: Entries, k: string): Option<string>
  {
    if m == [] then None else if m[0].0 == k then Some(m[0].1) else Lookup(m[1..], k)
  }

  function KeysOf(m: Entries): set<string>
  {
    if m == [] then {} else {m[0].0} + KeysOf(m[1..])
  }

  /** An object has each key once. */
  predicate UniqueKeys(m: Entries)
  {
    m == [] || (m[0].0 !in KeysOf(m[1..]) && UniqueKeys(m[1..]))
  }

  /** `{ ...m, [k]: v }`: an existing key keeps its position and takes the new
      value, a new key goes at the end; nothing else changes. */
  function Put(m: Entries, k: string, v: string): (r: Entries)
    ensures Lookup(r, k) == Some(v)
    ensures forall k' :: k' != k ==> Lookup(r, k') == Lookup(m, k')
    ensures KeysOf(r) == KeysOf(m) + {k}
    ensures UniqueKeys(m) ==> UniqueKeys(r)
    ensures k !in KeysOf(m) ==> r == m + [(k, v)]
    ensures |r| == (if k in KeysOf(m) then |m| else |m| + 1)
    ensures forall i :: 0 <= i < |m| ==> r[i].0 == m[i].0
  {
    if m == [] then [(k, v)]
    else if m[0].0 == k then [(k, v)] + m[1..]
    else [m[0]] + Put(m[1..], k, v)
  }

  /** The `reduce` of `translateData` over the entries of one group, for a
      key translator `tk` and a value translator `tv`: each entry is put under
      its translated key with its translated value. */
  function TranslateWith(data: Entries, tk: string -> string, tv: string -> string): (r: Entries)
    ensures UniqueKeys(r)
    ensures |r| <= |data|
  {
    if data == [] then []
    else
      var last := data[|data| - 1];
      Put(TranslateWith(data[..|data| - 1], tk, tv), tk(last.0), tv(last.1))
  }

  /** The fold with the two dictionaries of the checklist screen. */
  function TranslateAll(data: Entries): Entries
  {
    TranslateWith(data, TranslateKey, TranslateValue)
  }

  /** `translateData(data)`: a missing group (`data || {}`) yields an empty
      mapping. */
  function Translate(data: Option<Entries>): (r: Entries)
    ensures data.None? ==> r == []
  {
    TranslateAll(if data.Some? then data.value else [])
  }

  /** When several entries translate to the same key, the one latest in
      iteration order wins. */
  lemma {:induction false} LatestWins(data: Entries, tk: string -> string, tv: string -> string, i: nat)
    requires i < |data|
    requires forall j :: i < j < |data| ==> tk(data[j].0) != tk(data[i].0)
    ensures Lookup(TranslateWith(data, tk, tv), tk(data[i].0)) == Some(tv(data[i].1))
  {
    var n := |data|;
    var prefix := data[..n - 1];
    if i < n - 1 {
      assert forall j :: i < j < |prefix| ==> prefix[j] == data[j];
      LatestWins(prefix, tk, tv, i);
      assert prefix[i] == data[i];
    }
  }

  /** A key no entry translates to is absent from the result. */
  lemma {:induction false} AbsentKey(data: Entries, tk: string -> string, tv: string -> string, k: string)
    requires forall j :: 0 <= j < |data| ==> tk(data[j].0) != k
    ensures Lookup(TranslateWith(data, tk, tv), k) == None
  {
    if data != [] {
      var prefix := data[..|data| - 1];
      assert forall j :: 0 <= j < |prefix| ==> prefix[j] == data[j];
      AbsentKey(prefix, tk, tv, k);
    }
  }

  /** Entries whose keys translate to distinct keys are all kept. */
  lemma {:induction false} DistinctKeysKept(data: Entries, tk: string -> string, tv: string -> string)
    requires forall i, j :: 0 <= i < j < |data| ==> tk(data[i].0) != tk(data[j].0)
    ensures |TranslateWith(data, tk, tv)| == |data|
  {
    if data != [] {
      var n := |data|;
      var prefix := data[..n - 1];
      assert forall i, j :: 0 <= i < j < |prefix| ==> prefix[i] == data[i] && prefix[j] == data[j];
      DistinctKeysKept(prefix, tk, tv);
      var k := tk(data[n - 1].0);
      AbsentKey(prefix, tk, tv, k);
      LookupNoneNotKey(TranslateWith(prefix, tk, tv), k);
    }
  }

  /** On the checklist screen: the latest entry whose code translates to a
      label is what the details view shows under that label, with the server's
      result unchanged; a label no entry translates to is not shown. */
  lemma TranslateLookup(data: Entries, i: nat, name: string)
    requires i < |data|
    requires forall j :: i < j < |data| ==> TranslateKey(data[j].0) != TranslateKey(data[i].0)
    ensures Lookup(TranslateAll(data), TranslateKey(data[i].0)) == Some(data[i].1)
    ensures (forall j :: 0 <= j < |data| ==> TranslateKey(data[j].0) != name) ==>
      Lookup(TranslateAll(data), name) == None
  {
    LatestWins(data, TranslateKey, TranslateValue, i);
    if forall j :: 0 <= j < |data| ==> TranslateKey(data[j].0) != name {
      AbsentKey(data, TranslateKey, TranslateValue, name);
    }
  }

  /** No two codes share a label, so two distinct codes that are not
      themselves labels never translate to the same key. */
  lemma KeyLabelsInjective(a: string, b: string)
    requires a != b
    requires a !in KeyLabels.Values && b !in KeyLabels.Values
    ensures TranslateKey(a) != TranslateKey(b)
  {
  }

  /** A group of checks with distinct codes is shown in full. */
  lemma TranslateKeepsDistinctGroups(data: Entries)
    requires forall i, j :: 0 <= i < j < |data| ==> data[i].0 != data[j].0
    requires forall j :: 0 <= j < |data| ==> data[j].0 !in KeyLabels.Values
    ensures |TranslateAll(data)| == |data|
  {
    assert forall i, j :: 0 <= i < j < |data| ==> TranslateKey(data[i].0) != TranslateKey(data[j].0) by {
      forall i, j | 0 <= i < j < |data|
        ensures TranslateKey(data[i].0) != TranslateKey(data[j].0)
      {
        KeyLabelsInjective(data[i].0, data[j].0);
      }
    }
    DistinctKeysKept(data, TranslateKey, TranslateValue);
  }

  /** A key with no value is not a key of the object. */
  lemma {:induction false} LookupNoneNotKey(m: Entries, k: string)
    requires Lookup(m, k) == None
    ensures k !in KeysOf(m)
  {
    if m != [] {
      LookupNoneNotKey(m[1..], k);
    }
  }

  /** The three colours of a result dot. */
  datatype Colour = Green | Yellow | Red

  /** Exterior checks: Bon/Oui/OK green, À revoir/Faible yellow, else red. */
  function ExteriorColour(v: string): (r: Colour)
    ensures r == Green <==> v in {"Bon", "Oui", "OK"}
    ensures r == Yellow <==> v in {"À revoir", "Faible"}
  {
    if v == "Bon" || v == "Oui" || v == "OK" then Green
    else if v == "À revoir" || v == "Faible" then Yellow
    else Red
  }

  /** Mechanical checks: OK green, Faible yellow, else red. */
  function MechanicalColour(v: string): (r: Colour)
    ensures r == Green <==> v == "OK"
    ensures r == Yellow <==> v == "Faible"
  {
    if v == "OK" then Green else if v == "Faible" then Yellow else Red
  }

  /** Interior checks: OK/Présent green, Incomplet/Incomplète yellow, else red. */
  function InteriorColour(v: string): (r: Colour)
    ensures r == Green <==> v in {"OK", "Présent"}
    ensures r == Yellow <==> v in {"Incomplet", "Incomplète"}
  {
    if v == "OK" || v == "Présent" then Green
    else if v == "Incomplet" || v == "Incomplète" then Yellow
    else Red
  }

  /** The mechanical scale is the strictest: whatever it does not mark red,
      the exterior scale marks the same way; "OK" is green on all three. */
  lemma MechanicalAgreesWithExterior(v: string)
    ensures MechanicalColour(v) != Red ==> ExteriorColour(v) == MechanicalColour(v)
    ensures MechanicalColour(v) == Green ==> InteriorColour(v) == Green
  {
  }

  /** Colours are taken after translation, and translation leaves results
      unchanged, so a dot shows the colour of the server's raw value. The
      plural "Incomplets", which the value dictionary knows, is not one of the
      interior yellows and shows red. */
  lemma ColourOfTranslatedValue(v: string)
    ensures ExteriorColour(TranslateValue(v)) == ExteriorColour(v)
    ensures MechanicalColour(TranslateValue(v)) == MechanicalColour(v)
    ensures InteriorColour(TranslateValue(v)) == InteriorColour(v)
    ensures "Incomplets" in ValueLabels && InteriorColour("Incomplets") == Red
  {
  }

  /** The user block of a checklist. */
  datatype ChecklistUser = ChecklistUser(name: string, email: string, phone: string)

  /** A checklist as `/admin/checklists/:id` returns it. */
  datatype RawChecklist = RawChecklist(
    id: string, user: Option<ChecklistUser>,
    exteriorChecks: Option<Entries>, mechanicalChecks: Option<Entries>, interiorChecks: Option<Entries>,
    observations: Option<string>, date: string, time: Option<string>,
    registration: Option<string>, mileage: Option<int>)

  /** The checklist as the details view shows it. */
  datatype ChecklistDetails = ChecklistDetails(
    id: string, user: ChecklistUser,
    exteriorChecks: Entries, mechanicalChecks: Entries, interiorChecks: Entries,
    observations: string, date: string, time: Option<string>,
    registration: Option<string>, mileage: Option<int>)

  const Unknown := "Non renseigné"
  const NoObservation := "Aucune observation"

  /** `formattedDetails`: a missing user becomes 'Non renseigné' in all three
      fields, missing or empty observations become 'Aucune observation', the
      three groups are translated and the other fields pass through. */
  function FormatDetails(raw: RawChecklist): (d: ChecklistDetails)
    ensures raw.user.None? ==> d.user == ChecklistUser(Unknown, Unknown, Unknown)
    ensures raw.user.Some? ==> d.user == raw.user.value
    ensures Truthy(raw.observations) ==> d.observations == raw.observations.value
    ensures !Truthy(raw.observations) ==> d.observations == NoObservation
    ensures d.exteriorChecks == Translate(raw.exteriorChecks)
    ensures d.mechanicalChecks == Translate(raw.mechanicalChecks)
    ensures d.interiorChecks == Translate(raw.interiorChecks)
    ensures d.id == raw.id && d.date == raw.date && d.time == raw.time
    ensures d.registration == raw.registration && d.mileage == raw.mileage
  {
    ChecklistDetails(
      raw.id,
      if raw.user.Some? then raw.user.value else ChecklistUser(Unknown, Unknown, Unknown),
      Translate(raw.exteriorChecks), Translate(raw.mechanicalChecks), Translate(raw.interiorChecks),
      Or(raw.observations, NoObservation), raw.date, raw.time, raw.registration, raw.mileage)
  }

  /** The pagination state. */
  datatype Pagination = Pagination(page: int, limit: int, total: int, pages: int)

  const InitialPagination := Pagination(1, 10, 0, 1)

  /** `handlePageChange(newPage)`: the page moves only to a page between 1
      and `pages`; limit, total and pages never change. */
  function ChangePage(p: Pagination, newPage: int): (r: Pagination)
    ensures r.limit == p.limit && r.total == p.total && r.pages == p.pages
    ensures 1 <= newPage <= p.pages ==> r.page == newPage
    ensures !(1 <= newPage <= p.pages) ==> r == p
  {
    if newPage >= 1 && newPage <= p.pages then p.(page := newPage) else p
  }

  /** A page inside the range stays inside it, whatever is requested. */
  lemma ChangePageKeepsRange(p: Pagination, newPage: int)
    requires 1 <= p.page <= p.pages
    ensures 1 <= ChangePage(p, newPage).page <= p.pages
  {
  }

  /** Forward then back (or back then forward) restores the pagination. */
  lemma ChangePageInverse(p: Pagination)
    requires 1 <= p.page <= p.pages
    ensures p.page < p.pages ==> ChangePage(ChangePage(p, p.page + 1), p.page) == p
    ensures 1 < p.page ==> ChangePage(ChangePage(p, p.page - 1), p.page) == p
  {
  }

  /** The "previous" button is disabled on page 1 and the "next" one on the
      last page: exactly when the guard would refuse their request. */
  lemma ButtonsMatchGuard(p: Pagination)
    requires 1 <= p.page <= p.pages
    ensures ChangePage(p, p.page - 1) == p <==> p.page == 1
    ensures ChangePage(p, p.page + 1) == p <==> p.page == p.pages
  {
  }

  /** A checklist row of the list. */
  datatype ChecklistSummary = ChecklistSummary(id: string, userName: Option<string>, date: Option<string>, time: Option<string>)

  /** The body of `/admin/checklists?page=…&limit=…`. */
  datatype ChecklistsReply = ChecklistsReply(checklists: seq<ChecklistSummary>, page: int, limit: int, total: int, pages: int)

  datatype Modal = Modal(show: bool, kind: Option<string>, id: Option<string>)

  const LoadErrorPrefix := "Erreur lors du chargement: "
  const DetailsErrorPrefix := "Erreur lors du chargement des détails: "

  /** The error text of a failed checklist call: `${msg || err.message}`. */
  function FailureText(prefix: string, e: RequestError): string
  {
    prefix + Interpolate(OrElse(e.msg, e.exceptionMessage))
  }

  class ChecklistsPage {
    var checklists: seq<ChecklistSummary>
    var loading: bool
    var error: Option<string>
    var details: Option<ChecklistDetails>
    var detailsLoading: bool
    var modal: Modal
    var pagination: Pagination

    constructor ()
      ensures checklists == [] && loading && error == None && details == None && !detailsLoading
      ensures modal == Modal(false, Some("details"), None) && pagination == InitialPagination
    {
      checklists, loading, error := [], true, None;
      details, detailsLoading := None, false;
      modal := Modal(false, Some("details"), None);
      pagination := InitialPagination;
    }

    /** The list effect, run for the current page and limit: on success the
        rows and the pagination become exactly the server's; on failure the
        error shows the server's msg or the exception's message. Returns the
        (page, limit) requested. */
    method FetchChecklists(res: Outcome<ChecklistsReply>) returns (page: int, limit: int)
      modifies this
      ensures page == old(pagination).page && limit == old(pagination).limit
      ensures !loading
      ensures res.Success? ==>
        && checklists == res.value.checklists
        && pagination == Pagination(res.value.page, res.value.limit, res.value.total, res.value.pages)
        && error == old(error)
      ensures res.Failure? ==>
        && checklists == old(checklists) && pagination == old(pagination)
        && error == Some(FailureText(LoadErrorPrefix, res.error))
      ensures details == old(details) && modal == old(modal) && detailsLoading == old(detailsLoading)
    {
      loading := true;
      page, limit := pagination.page, pagination.limit;
      match res {
        case Success(reply) =>
          checklists := reply.checklists;
          pagination := Pagination(reply.page, reply.limit, reply.total, reply.pages);
        case Failure(e) =>
          error := Some(FailureText(LoadErrorPrefix, e));
      }
      loading := false;
    }

    /** `fetchChecklistDetails`: the formatted checklist, or the details error. */
    method FetchChecklistDetails(id: string, res: Outcome<RawChecklist>) returns (endpoint: string)
      modifies this`details, this`detailsLoading, this`error
      ensures endpoint == "/admin/checklists/" + id
      ensures !detailsLoading
      ensures res.Success? ==> details == Some(FormatDetails(res.value)) && error == old(error)
      ensures res.Failure? ==> details == old(details) && error == Some(FailureText(DetailsErrorPrefix, res.error))
    {
      detailsLoading := true;
      endpoint := "/admin/checklists/" + id;
      match res {
        case Success(raw) =>
          details := Some(FormatDetails(raw));
        case Failure(e) =>
          error := Some(FailureText(DetailsErrorPrefix, e));
      }
      detailsLoading := false;
    }

    /** `showDetailsModal`: starts the details fetch and opens the modal. */
    method ShowDetailsModal(id: string, res: Outcome<RawChecklist>)
      modifies this`details, this`detailsLoading, this`error, this`modal
      ensures modal == Modal(true, Some("details"), Some(id)) && !detailsLoading
      ensures res.Success? ==> details == Some(FormatDetails(res.value)) && error == old(error)
      ensures res.Failure? ==> details == old(details) && error == Some(FailureText(DetailsErrorPrefix, res.error))
    {
      var _ := FetchChecklistDetails(id, res);
      modal := Modal(true, Some("details"), Some(id));
    }

    /** `closeModal`: hides the modal and clears the details and the error. */
    method CloseModal()
      modifies this`modal, this`details, this`error
      ensures modal == Modal(false, None, None) && details == None && error == None
    {
      modal := Modal(false, None, None);
      details := None;
      error := None;
    }

    /** The "×" of the error banner. */
    method DismissError()
      modifies this`error
      ensures error == None
    {
      error := None;
    }

    method HandlePageChange(newPage: int)
      modifies this`pagination
      ensures pagination == ChangePage(old(pagination), newPage)
    {
      if newPage >= 1 && newPage <= pagination.pages {
        pagination := pagination.(page := newPage);
      }
    }
  }
}
