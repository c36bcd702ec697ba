/** The trip-settings page: a fare form that either creates a new settings
    record or, after "edit" has copied the loaded settings into it, updates
    that record by its id. The page is a small mode machine over the form,
    the editing flag and the id being edited. */
module TripSettings {

  import opened Wrappers
  import opened Js
  import opened Forms

  /** The request a submit sends. */
  datatype Save =
    | Create(body: Record)
    | Update(url: string, body: Record)

  /** The form's state: its fields, whether it edits a stored record, and
      the id of the record it last started editing. */
  datatype Mode = Mode(form: Record, isEditing: bool, editingId: JsVal)

  /** The five fields the form holds. */
  const FormKeys: set<string> := {"baseFare", "costPerMile", "costPerMinute", "currency", "updatedBy"}

  /** The empty form: blank amounts, US dollars, updated by the admin. */
  function EmptyForm(): (f: Record)
    ensures f.Keys == FormKeys
    ensures forall k :: k in f ==> (Truthy(f[k]) <==> k == "currency" || k == "updatedBy")
  {
    map["baseFare" := Str(""), "costPerMile" := Str(""), "costPerMinute" := Str(""),
        "currency" := Str("USD"), "updatedBy" := Str("admin")]
  }

  /** The page as it opens. */
  function Initial(): (m: Mode)
    ensures m.form == EmptyForm() && !m.isEditing && m.editingId == Null
  {
    Mode(EmptyForm(), false, Null)
  }

  /** The form filled from loaded settings: the four fare fields as stored,
      and the author as stored or "admin" when that is empty or missing. */
  function SettingsForm(settings: JsVal): (f: Record)
    ensures f.Keys == FormKeys
    ensures forall k :: k in FormKeys && k != "updatedBy" ==> f[k] == OptProp(settings, k)
    ensures Truthy(OptProp(settings, "updatedBy")) ==> f["updatedBy"] == OptProp(settings, "updatedBy")
    ensures !Truthy(OptProp(settings, "updatedBy")) ==> f["updatedBy"] == Str("admin")
  {
    map["baseFare" := OptProp(settings, "baseFare"),
        "costPerMile" := OptProp(settings, "costPerMile"),
        "costPerMinute" := OptProp(settings, "costPerMinute"),
        "currency" := OptProp(settings, "currency"),
        "updatedBy" := Or(OptProp(settings, "updatedBy"), Str("admin"))]
  }

  /** `handleChange`: one field of the form is set. */
  function Change(m: Mode, name: string, value: string): (m': Mode)
    ensures m'.form == SetField(m.form, name, Str(value))
    ensures m'.isEditing == m.isEditing && m'.editingId == m.editingId
  {
    m.(form := SetField(m.form, name, Str(value)))
  }

  /** `handleSubmit`'s request: an update addressed by the edit endpoint
      with the id appended directly, exactly when the form is in editing
      mode with a truthy id; a create otherwise. Either way the form is the
      body. */
  function Request(m: Mode, editEndpoint: string): (s: Save)
    ensures s.body == m.form
    ensures s.Update? <==> m.isEditing && Truthy(m.editingId)
    ensures s.Update? ==> s.url == editEndpoint + ToStr(m.editingId)
  {
    if m.isEditing && Truthy(m.editingId) then Update(editEndpoint + ToStr(m.editingId), m.form)
    else Create(m.form)
  }

  /** `handleSubmit`'s effect, given whether the request succeeded: success
      leaves editing mode and empties the form but keeps the id; failure
      changes nothing. */
  function AfterSubmit(m: Mode, ok: bool): (m': Mode)
    ensures ok ==> m'.form == EmptyForm() && !m'.isEditing && m'.editingId == m.editingId
    ensures !ok ==> m' == m
  {
    if ok then Mode(EmptyForm(), false, m.editingId) else m
  }

  /** `handleEdit` with the loaded settings (null before they arrive):
      without truthy settings nothing changes; otherwise the form is filled
      from them and editing starts on their `_id`. */
  function AfterEdit(m: Mode, settings: JsVal): (m': Mode)
    ensures !Truthy(settings) ==> m' == m
    ensures Truthy(settings) ==> m'.form == SettingsForm(settings) && m'.isEditing && m'.editingId == OptProp(settings, "_id")
  {
    if !Truthy(settings) then m else Mode(SettingsForm(settings), true, OptProp(settings, "_id"))
  }

  // ---------------------------------------------------------------------
  // Properties of the mode machine

  /** The form holds exactly its five fields. */
  predicate WellFormed(m: Mode) {
    m.form.Keys == FormKeys
  }

  /** Every transition keeps the five fields, as long as changes name one
      of the form's inputs. */
  lemma TransitionsKeepFields(m: Mode, settings: JsVal, ok: bool, name: string, value: string)
    requires WellFormed(m)
    ensures WellFormed(AfterEdit(m, settings))
    ensures WellFormed(AfterSubmit(m, ok))
    ensures name in FormKeys ==> WellFormed(Change(m, name, value))
  {
  }

  /** Editing loaded settings that carry an id, then submitting, updates
      that record with the copied fields. */
  lemma EditThenSubmitUpdates(m: Mode, settings: JsVal, editEndpoint: string)
    requires Truthy(settings) && Truthy(OptProp(settings, "_id"))
    ensures Request(AfterEdit(m, settings), editEndpoint) ==
      Update(editEndpoint + ToStr(OptProp(settings, "_id")), SettingsForm(settings))
  {
  }

  /** Settings loaded without a usable id still switch the form into
      editing mode, yet the submit creates a new record. */
  lemma EditWithoutIdCreates(m: Mode, settings: JsVal, editEndpoint: string)
    requires Truthy(settings) && !Truthy(OptProp(settings, "_id"))
    ensures AfterEdit(m, settings).isEditing
    ensures Request(AfterEdit(m, settings), editEndpoint) == Create(SettingsForm(settings))
  {
  }

  /** Field changes made while editing do not leave editing mode: the
      submit still updates the same record, now with the changed form. */
  lemma ChangesKeepTarget(m: Mode, name: string, value: string, editEndpoint: string)
    ensures Request(Change(m, name, value), editEndpoint).Update? == Request(m, editEndpoint).Update?
    ensures Request(m, editEndpoint).Update? ==>
      Request(Change(m, name, value), editEndpoint).url == Request(m, editEndpoint).url
    ensures Request(Change(m, name, value), editEndpoint).body == SetField(m.form, name, Str(value))
  {
  }

  /** After a successful submit the next submit creates, from an empty
      form, even though the old id is still held. */
  lemma SubmitThenCreates(m: Mode, editEndpoint: string)
    ensures AfterSubmit(m, true).editingId == m.editingId
    ensures Request(AfterSubmit(m, true), editEndpoint) == Create(EmptyForm())
  {
  }

  /** A failed submit can be retried as it was: the same request again. */
  lemma FailedSubmitRepeats(m: Mode, editEndpoint: string)
    ensures Request(AfterSubmit(m, false), editEndpoint) == Request(m, editEndpoint)
  {
  }

  /** Editing twice from the same settings is editing once. */
  lemma EditIdempotent(m: Mode, settings: JsVal)
    ensures AfterEdit(AfterEdit(m, settings), settings) == AfterEdit(m, settings)
  {
  }

  /** The copied form always names an author. */
  lemma EditedFormHasAuthor(m: Mode, settings: JsVal)
    requires Truthy(settings)
    ensures Truthy(AfterEdit(m, settings).form["updatedBy"])
  {
  }

  class TripSettingsPage {
    /** The settings last loaded; null until a load succeeds. */
    var settings: JsVal
    var formData: Record
    var isEditing: bool
    var editingId: JsVal

    /** The form part of the page's state. */
    function State(): Mode
      reads this
    {
      Mode(formData, isEditing, editingId)
    }

    constructor ()
      ensures settings == Null && State() == Initial()
    {
      settings := Null;
      formData := EmptyForm();
      isEditing := false;
      editingId := Null;
    }

    /** `fetchSettings` with the response body (None when the request
        failed, which leaves the settings as they were). */
    method FetchSettings(data: Option<JsVal>)
      modifies this
      ensures settings == (if data.Some? then data.value else old(settings))
      ensures State() == old(State())
    {
      if data.Some? {
        settings := data.value;
      }
    }

    /** `handleChange`. */
    method HandleChange(name: string, value: string)
      modifies this
      ensures State() == Change(old(State()), name, value)
      ensures settings == old(settings)
    {
      formData := SetField(formData, name, Str(value));
    }

    /** `handleSubmit`, given whether the request succeeds; returns the
        request sent. */
    method HandleSubmit(editEndpoint: string, ok: bool) returns (sent: Save)
      modifies this
      ensures sent == Request(old(State()), editEndpoint)
      ensures State() == AfterSubmit(old(State()), ok)
      ensures settings == old(settings)
    {
      if isEditing && Truthy(editingId) {
        sent := Update(editEndpoint + ToStr(editingId), formData);
      } else {
        sent := Create(formData);
      }
      if ok {
        isEditing := false;
        formData := EmptyForm();
      }
    }

    /** `handleEdit`. */
    method HandleEdit()
      modifies this
      ensures State() == AfterEdit(old(State()), settings)
      ensures settings == old(settings)
    {
      if !Truthy(settings) {
        return;
      }
      formData := SettingsForm(settings);
      editingId := OptProp(settings, "_id");
      isEditing := true;
    }
  }
}
