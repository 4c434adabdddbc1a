/** The advertisements screen (src/components/Dashboard/Avertissements.jsx):
    a list of ads created with a multipart upload, edited in place and
    deleted by id. */
module Avertissements {
  import opened Remote
  import Lists

  /** An advertisement as the server returns it. */
  datatype Ad = Ad(id: string, title: string, description: string, link: string, isActive: bool)

  function AdId(a: Ad): string { a.id }

  /** A slot of the antd form store: text inputs hold text, the switch a flag. */
  datatype FormField = Text(text: string) | Flag(flag: bool)

  /** What `form.validateFields()` resolves to when the form is valid: the
      required title, the optional description and the switch. */
  datatype AdFields = AdFields(title: string, description: Option<string>, isActive: bool)

  /** A file chosen in the picker (its contents are not modelled). */
  datatype File = File(name: string)

  /** A multipart part: a string, or the uploaded file. */
  datatype Part = TextPart(text: string) | FilePart(file: File)

  /** As `FormData.append` stringifies a boolean. */
  function BoolText(b: bool): string
  {
    if b then "true" else "false"
  }

  /** The first part sent under `name`. */
  function PartValue(parts: seq<(string, Part)>, name: string): Option<Part>
  {
    if parts == [] then None
    else if parts[0].0 == name then Some(parts[0].1)
    else PartValue(parts[1..], name)
  }

  /** The multipart body of `handleCreate`: title, description (an undefined
      one is sent as the text "undefined") and the stringified switch, then
      the image only when a file was chosen. */
  function AdParts(values: AdFields, file: Option<File>): seq<(string, Part)>
  {
    [("title", TextPart(values.title)),
     ("description", TextPart(Interpolate(values.description))),
     ("isActive", TextPart(BoolText(values.isActive)))]
    + (if file.Some? then [("image", FilePart(file.value))] else [])
  }

  /** The body always carries title, description and status, and carries the
      image exactly when a file was chosen. */
  lemma AdPartsFields(values: AdFields, file: Option<File>)
    ensures var r := AdParts(values, file);
      && PartValue(r, "title") == Some(TextPart(values.title))
      && PartValue(r, "description") == Some(TextPart(Interpolate(values.description)))
      && PartValue(r, "isActive") == Some(TextPart(BoolText(values.isActive)))
      && (PartValue(r, "image").Some? <==> file.Some?)
      && (file.Some? ==> PartValue(r, "image") == Some(FilePart(file.value)))
      && |r| == (if file.Some? then 4 else 3)
  {
    var r := AdParts(values, file);
    var tail: seq<(string, Part)> := if file.Some? then [("image", FilePart(file.value))] else [];
    var rest := r[1..][1..];
    assert rest == [("isActive", TextPart(BoolText(values.isActive)))] + tail;
    assert rest[1..] == tail;
    assert PartValue(r, "isActive") == PartValue(rest, "isActive");
    assert PartValue(r, "image") == PartValue(rest, "image") == PartValue(tail, "image");
  }

  /** The browser's `FormData`: parts kept in the order they are appended. */
  class FormData {
    var parts: seq<(string, Part)>

    constructor ()
      ensures parts == []
    {
      parts := [];
    }

    method Append(name: string, value: Part)
      modifies this
      ensures parts == old(parts) + [(name, value)]
    {
      parts := parts + [(name, value)];
    }
  }

  /** The form as `showEditModal` loads it: the ad's title, description, link
      and status, other slots kept. */
  function EditForm(form: map<string, FormField>, ad: Ad): (r: map<string, FormField>)
    ensures r.Keys == form.Keys + {"title", "description", "link", "isActive"}
    ensures r["title"] == Text(ad.title) && r["description"] == Text(ad.description)
    ensures r["link"] == Text(ad.link) && r["isActive"] == Flag(ad.isActive)
    ensures forall k :: k in form && k !in {"title", "description", "link", "isActive"} ==> r[k] == form[k]
  {
    form["title" := Text(ad.title)]["description" := Text(ad.description)]
      ["link" := Text(ad.link)]["isActive" := Flag(ad.isActive)]
  }

  /** `form.resetFields()`: every field back to its initial value; only the
      status switch has one (`initialValue={true}`). */
  const ResetForm: map<string, FormField> := map["isActive" := Flag(true)]

  const LoadError := "Erreur lors du chargement des publicités"

  /** An ad created with an id not yet in the list and then deleted leaves
      the list as it was before the creation. */
  lemma {:induction false} CreateThenDelete(ads: seq<Ad>, ad: Ad)
    requires forall i :: 0 <= i < |ads| ==> ads[i].id != ad.id
    ensures Lists.RemoveById(ads + [ad], ad.id, AdId) == ads
  {
    Lists.RemoveByIdAppend(ads, [ad], ad.id, AdId);
    Lists.RemoveByIdAbsent(ads, ad.id, AdId);
    assert Lists.RemoveById([ad], ad.id, AdId) == [];
  }

  /** After an edit whose reply keeps the id, deleting that id removes the
      edited ads and leaves what deleting them beforehand would have left. */
  lemma EditThenDelete(ads: seq<Ad>, ad: Ad)
    ensures Lists.RemoveById(Lists.ReplaceById(ads, ad.id, ad, AdId), ad.id, AdId)
         == Lists.RemoveById(ads, ad.id, AdId)
  {
    Lists.ReplaceThenRemove(ads, ad.id, ad, AdId);
  }

  class AdsPage {
    var advertisements: seq<Ad>
    var loading: bool
    var error: Option<string>
    var modalVisible: bool
    var editModalVisible: bool
    var currentAd: Option<Ad>
    var form: map<string, FormField>
    var createModalVisible: bool
    var createLoading: bool
    var file: Option<File>

    constructor ()
      ensures advertisements == [] && !loading && error == None && currentAd == None && file == None
      ensures !modalVisible && !editModalVisible && !createModalVisible && !createLoading
      ensures form == ResetForm
    {
      advertisements, loading, error := [], false, None;
      modalVisible, editModalVisible, currentAd := false, false, None;
      form := ResetForm;
      createModalVisible, createLoading, file := false, false, None;
    }

    /** `fetchAdvertisements`: the list is the reply; a failure shows the
        server's `message` or the fixed text. */
    method FetchAdvertisements(res: Outcome<seq<Ad>>)
      modifies this`advertisements, this`loading, this`error
      ensures !loading
      ensures res.Success? ==> advertisements == res.value && error == old(error)
      ensures res.Failure? ==> advertisements == old(advertisements) && error == Some(Or(res.error.message, LoadError))
    {
      loading := true;
      match res {
        case Success(ads) =>
          advertisements := ads;
        case Failure(e) =>
          error := Some(Or(e.message, LoadError));
      }
      loading := false;
    }

    method ShowAdDetails(ad: Ad)
      modifies this`currentAd, this`modalVisible
      ensures currentAd == Some(ad) && modalVisible
    {
      currentAd := Some(ad);
      modalVisible := true;
    }

    method ShowEditModal(ad: Ad)
      modifies this`currentAd, this`form, this`editModalVisible
      ensures currentAd == Some(ad) && form == EditForm(old(form), ad) && editModalVisible
    {
      currentAd := Some(ad);
      form := EditForm(form, ad);
      editModalVisible := true;
    }

    /** The modals' close buttons. */
    method CloseDetails()
      modifies this`modalVisible
      ensures !modalVisible
    {
      modalVisible := false;
    }

    method CancelEdit()
      modifies this`editModalVisible
      ensures !editModalVisible
    {
      editModalVisible := false;
    }

    method OpenCreateModal()
      modifies this`createModalVisible
      ensures createModalVisible
    {
      createModalVisible := true;
    }

    method CancelCreate()
      modifies this`createModalVisible
      ensures !createModalVisible
    {
      createModalVisible := false;
    }

    /** The picker's change handler; a cancelled pick yields no file. */
    method ChooseFile(chosen: Option<File>)
      modifies this`file
      ensures file == chosen
    {
      file := chosen;
    }

    /** `handleDelete`: on success every ad with that id goes, the others stay
        in order; on failure the list is unchanged. */
    method HandleDelete(adId: string, res: Outcome<()>) returns (endpoint: string)
      modifies this`advertisements
      ensures endpoint == "/advertisements/" + adId
      ensures res.Success? ==> advertisements == Lists.RemoveById(old(advertisements), adId, AdId)
      ensures res.Failure? ==> advertisements == old(advertisements)
    {
      endpoint := "/advertisements/" + adId;
      if res.Success? {
        advertisements := Lists.RemoveById(advertisements, adId, AdId);
      }
    }

    /** `handleEdit`: `validated` is the outcome of `form.validateFields()`.
        A valid form is sent to the current ad's endpoint; on success that ad's
        entries become the server's object and the modal closes. An invalid
        form, a missing current ad or a failed call change nothing. Returns
        the endpoint and body sent, if any. */
    method HandleEdit(validated: Outcome<AdFields>, res: Outcome<Ad>) returns (request: Option<(string, AdFields)>)
      modifies this`advertisements, this`editModalVisible
      ensures validated.Success? && currentAd.Some? ==>
        request == Some(("/advertisements/" + currentAd.value.id, validated.value))
      ensures !(validated.Success? && currentAd.Some?) ==> request == None
      ensures request.Some? && res.Success? ==>
        && advertisements == Lists.ReplaceById(old(advertisements), currentAd.value.id, res.value, AdId)
        && !editModalVisible
      ensures !(request.Some? && res.Success?) ==>
        advertisements == old(advertisements) && editModalVisible == old(editModalVisible)
    {
      request := None;
      if validated.Success? && currentAd.Some? {
        var id := currentAd.value.id;
        request := Some(("/advertisements/" + id, validated.value));
        if res.Success? {
          advertisements := Lists.ReplaceById(advertisements, id, res.value, AdId);
          editModalVisible := false;
        }
      }
    }

    /** `handleCreate`: a valid form is posted as a multipart body; on success
        the new ad is appended, the modal closed, the form reset and the file
        cleared. Anything else leaves them as they were. Loading ends on every
        path. Returns the body sent, if any. */
    method HandleCreate(validated: Outcome<AdFields>, res: Outcome<Ad>) returns (body: Option<seq<(string, Part)>>)
      modifies this`advertisements, this`createModalVisible, this`form, this`file, this`createLoading
      ensures !createLoading
      ensures validated.Success? ==> body == Some(AdParts(validated.value, old(file)))
      ensures validated.Failure? ==> body == None
      ensures body.Some? && res.Success? ==>
        && advertisements == old(advertisements) + [res.value]
        && !createModalVisible && form == ResetForm && file == None
      ensures !(body.Some? && res.Success?) ==>
        && advertisements == old(advertisements) && createModalVisible == old(createModalVisible)
        && form == old(form) && file == old(file)
    {
      createLoading := true;
      body := None;
      if validated.Success? {
        var values := validated.value;
        var adData := new FormData();
        adData.Append("title", TextPart(values.title));
        adData.Append("description", TextPart(Interpolate(values.description)));
        adData.Append("isActive", TextPart(BoolText(values.isActive)));
        if file.Some? {
          adData.Append("image", FilePart(file.value));
        }
        assert adData.parts == AdParts(values, file);
        body := Some(adData.parts);
        if res.Success? {
          advertisements := advertisements + [res.value];
          createModalVisible := false;
          form := ResetForm;
          file := None;
        }
      }
      createLoading := false;
    }
  }
}
