/**
 * The edit workflow of an agency detail page: a committed record in the store, an
 * optional draft per agency id in browser storage, the form and the
 * edit-mode flag, with the publish, save-as-draft and cancel handlers and the record
 * the page displays.
 */
module EditableAgency {
  import opened Wrappers
  import opened JsStrings
  import opened AgencyModel
  import opened AgencyContext

  /** The prefix of every draft slot in browser storage. */
  const DraftStorageKey := "agency_drafts"

  /** The form as typed, and as a draft stores it: tags unparsed, texts untrimmed. */
  datatype DraftData = DraftData(
    name: string,
    description: string,
    status: string,
    tags: string,
    samples: bool,
    synthetic: bool,
    ots: bool,
    website: string,
    industry: string,
    location: string,
    poc: seq<Contact>,
    useCase: seq<string>,
    service: seq<string>,
    modality: seq<string>,
    otsDataList: seq<string>)

  /** The storage key of an agency's draft: the prefix, an underscore, then the id. */
  function DraftKey(agencyId: string): (key: string)
    ensures |key| == |DraftStorageKey| + 1 + |agencyId|
    ensures key[..|DraftStorageKey|] == DraftStorageKey && key[|DraftStorageKey|] == '_'
    ensures key[|DraftStorageKey| + 1..] == agencyId
  {
    DraftStorageKey + "_" + agencyId
  }

  /** Distinct agencies have distinct draft slots. */
  lemma DraftKeyInjective(a: string, b: string)
    requires DraftKey(a) == DraftKey(b)
    ensures a == b
  {
    assert a == DraftKey(a)[|DraftStorageKey| + 1..];
  }

  /** The form seeded from a committed record: tags joined with ", ", and "", false or []
      where the record leaves a field undefined. */
  function CommittedForm(a: AgencyData): (f: DraftData)
    ensures f.name == a.name && f.description == a.description && f.status == a.status
    ensures f.tags == Join(a.tags, ", ")
    ensures f.samples <==> a.samples == Some(true)
    ensures f.synthetic <==> a.synthetic == Some(true)
    ensures f.ots <==> a.ots == Some(true)
    ensures a.website.Some? ==> f.website == a.website.value
    ensures a.website.None? ==> f.website == ""
    ensures a.industry.Some? ==> f.industry == a.industry.value
    ensures a.industry.None? ==> f.industry == ""
    ensures a.location.Some? ==> f.location == a.location.value
    ensures a.location.None? ==> f.location == ""
    ensures a.poc.Some? ==> f.poc == a.poc.value
    ensures a.poc.None? ==> f.poc == []
    ensures a.useCase.Some? ==> f.useCase == a.useCase.value
    ensures a.useCase.None? ==> f.useCase == []
    ensures a.service.Some? ==> f.service == a.service.value
    ensures a.service.None? ==> f.service == []
    ensures a.modality.Some? ==> f.modality == a.modality.value
    ensures a.modality.None? ==> f.modality == []
    ensures a.otsDataList.Some? ==> f.otsDataList == a.otsDataList.value
    ensures a.otsDataList.None? ==> f.otsDataList == []
  {
    DraftData(
      a.name, a.description, a.status, Join(a.tags, ", "),
      a.samples.GetOr(false), a.synthetic.GetOr(false), a.ots.GetOr(false),
      a.website.GetOr(""), a.industry.GetOr(""), a.location.GetOr(""),
      a.poc.GetOr([]), a.useCase.GetOr([]), a.service.GetOr([]), a.modality.GetOr([]),
      a.otsDataList.GetOr([]))
  }

  /** What seeding (and cancel) loads: the draft when there is one, else the record. */
  function SeededForm(a: AgencyData, draft: Option<DraftData>): (f: DraftData)
    ensures draft.Some? ==> f == draft.value
    ensures draft.None? ==> f == CommittedForm(a)
  {
    match draft
    case Some(d) => d
    case None => CommittedForm(a)
  }

  /** The update publish hands to the store: parsed tags, trimmed-or-undefined texts,
      non-empty-or-undefined lists; the id and initials keys are absent. */
  function PublishUpdate(f: DraftData): (u: AgencyUpdate)
    ensures u.id.None? && u.initials.None?
    ensures u.name == Some(f.name) && u.status == Some(f.status) && u.description == Some(f.description)
    ensures u.tags == Some(ParseTags(f.tags))
    ensures u.samples == Some(Some(f.samples)) && u.synthetic == Some(Some(f.synthetic))
    ensures u.ots == Some(Some(f.ots))
    ensures u.website == Some(TrimmedOrUndefined(f.website))
    ensures u.industry == Some(TrimmedOrUndefined(f.industry))
    ensures u.location == Some(TrimmedOrUndefined(f.location))
    ensures u.poc == Some(NonEmptyOrUndefined(f.poc))
    ensures u.useCase == Some(NonEmptyOrUndefined(f.useCase))
    ensures u.service == Some(NonEmptyOrUndefined(f.service))
    ensures u.modality == Some(NonEmptyOrUndefined(f.modality))
    ensures u.otsDataList == Some(NonEmptyOrUndefined(f.otsDataList))
  {
    AgencyUpdate(
      None, Some(f.name), None, Some(f.status), Some(f.description), Some(ParseTags(f.tags)),
      Some(TrimmedOrUndefined(f.website)), Some(Some(f.samples)), Some(Some(f.synthetic)),
      Some(Some(f.ots)), Some(NonEmptyOrUndefined(f.poc)), Some(TrimmedOrUndefined(f.industry)),
      Some(NonEmptyOrUndefined(f.useCase)), Some(NonEmptyOrUndefined(f.service)),
      Some(NonEmptyOrUndefined(f.modality)), Some(TrimmedOrUndefined(f.location)),
      Some(NonEmptyOrUndefined(f.otsDataList)))
  }

  /** Whatever the form holds, the published record is normalized and keeps its id. */
  lemma PublishNormalizes(a: AgencyData, f: DraftData)
    ensures Normalized(ApplyUpdate(a, PublishUpdate(f)))
    ensures ApplyUpdate(a, PublishUpdate(f)).id == a.id
    ensures ApplyUpdate(a, PublishUpdate(f)).initials == a.initials
  {
    var u := PublishUpdate(f);
    var r := ApplyUpdate(a, u);
    assert r.tags == ParseTags(f.tags);
    assert r.samples == Some(f.samples) && r.synthetic == Some(f.synthetic) && r.ots == Some(f.ots);
    assert r.website == TrimmedOrUndefined(f.website);
    assert r.industry == TrimmedOrUndefined(f.industry);
    assert r.location == TrimmedOrUndefined(f.location);
    assert r.poc == NonEmptyOrUndefined(f.poc);
    assert r.useCase == NonEmptyOrUndefined(f.useCase);
    assert r.service == NonEmptyOrUndefined(f.service);
    assert r.modality == NonEmptyOrUndefined(f.modality);
    assert r.otsDataList == NonEmptyOrUndefined(f.otsDataList);
  }

  /** Publishing the form seeded from a normalized record, unedited, leaves the record
      as it was. */
  lemma PublishUneditedForm(a: AgencyData)
    requires forall i :: 0 <= i < |a.tags| ==> IsTag(a.tags[i])
    requires a.samples.Some? && a.synthetic.Some? && a.ots.Some?
    requires NormalText(a.website) && NormalText(a.industry) && NormalText(a.location)
    requires NormalList(a.poc) && NormalList(a.useCase) && NormalList(a.service)
    requires NormalList(a.modality) && NormalList(a.otsDataList)
    ensures ApplyUpdate(a, PublishUpdate(CommittedForm(a))) == a
  {
    PublishedCommittedTags(a);
    PublishedCommittedTexts(a);
    PublishedCommittedRest(a);
    UpdateOfOwnValues(a, PublishUpdate(CommittedForm(a)));
  }

  lemma PublishedCommittedRest(a: AgencyData)
    requires a.samples.Some? && a.synthetic.Some? && a.ots.Some?
    requires NormalList(a.poc) && NormalList(a.useCase) && NormalList(a.service)
    requires NormalList(a.modality) && NormalList(a.otsDataList)
    ensures var u := PublishUpdate(CommittedForm(a));
      && u.id.None? && u.initials.None? && u.name == Some(a.name) && u.status == Some(a.status)
      && u.description == Some(a.description) && u.samples == Some(a.samples)
      && u.synthetic == Some(a.synthetic) && u.ots == Some(a.ots) && u.poc == Some(a.poc)
      && u.useCase == Some(a.useCase) && u.service == Some(a.service)
      && u.modality == Some(a.modality) && u.otsDataList == Some(a.otsDataList)
  {
    NormalListRoundTrip(a.poc);
    NormalListRoundTrip(a.useCase);
    NormalListRoundTrip(a.service);
    NormalListRoundTrip(a.modality);
    NormalListRoundTrip(a.otsDataList);
  }

  lemma PublishedCommittedTags(a: AgencyData)
    requires forall i :: 0 <= i < |a.tags| ==> IsTag(a.tags[i])
    ensures PublishUpdate(CommittedForm(a)).tags == Some(a.tags)
  {
    ParseJoinedTags(a.tags);
  }

  lemma PublishedCommittedTexts(a: AgencyData)
    requires NormalText(a.website) && NormalText(a.industry) && NormalText(a.location)
    ensures var u := PublishUpdate(CommittedForm(a));
      u.website == Some(a.website) && u.industry == Some(a.industry) && u.location == Some(a.location)
  {
    NormalTextRoundTrip(a.website);
    NormalTextRoundTrip(a.industry);
    NormalTextRoundTrip(a.location);
  }

  /** After a publish, every record with the published id is normalized. */
  lemma PublishedRecordsAreNormalized(agencies: seq<AgencyData>, id: string, f: DraftData)
    ensures var r := UpdateById(agencies, id, PublishUpdate(f));
      forall i :: 0 <= i < |r| && r[i].id == id ==> Normalized(r[i])
  {
    var u := PublishUpdate(f);
    var r := UpdateById(agencies, id, u);
    forall i | 0 <= i < |r| && r[i].id == id
      ensures Normalized(r[i])
    {
      assert agencies[i].id == id;
      assert r[i] == ApplyUpdate(agencies[i], u);
      PublishNormalizes(agencies[i], f);
    }
  }

  /** The form before anything is loaded: empty texts, false flags, empty lists. */
  const EmptyForm := DraftData("", "", "", "", false, false, false, "", "", "", [], [], [], [], [])

  /** The displayed record: with a draft and outside edit mode, the draft's fields over
      the committed record (a blank draft text or an empty draft list shows the
      committed value); otherwise the committed record. */
  function DisplayAgency(a: AgencyData, draft: Option<DraftData>, isEditMode: bool): (r: AgencyData)
    ensures draft.None? || isEditMode ==> r == a
    ensures r.id == a.id && r.initials == a.initials
    ensures draft.Some? && !isEditMode ==>
      && r.name == draft.value.name && r.description == draft.value.description
      && r.status == draft.value.status && r.tags == ParseTags(draft.value.tags)
      && r.samples == Some(draft.value.samples) && r.synthetic == Some(draft.value.synthetic)
      && r.ots == Some(draft.value.ots)
    ensures draft.Some? && !isEditMode ==>
      && r.website == TextOr(draft.value.website, a.website)
      && r.industry == TextOr(draft.value.industry, a.industry)
      && r.location == TextOr(draft.value.location, a.location)
      && r.poc == ListOr(draft.value.poc, a.poc)
      && r.useCase == ListOr(draft.value.useCase, a.useCase)
      && r.service == ListOr(draft.value.service, a.service)
      && r.modality == ListOr(draft.value.modality, a.modality)
      && r.otsDataList == ListOr(draft.value.otsDataList, a.otsDataList)
  {
    if draft.Some? && !isEditMode then DraftOver(a, draft.value) else a
  }

  /** The draft's fields over the committed record; id and initials stay. */
  function DraftOver(a: AgencyData, d: DraftData): AgencyData {
    AgencyData(
      a.id, d.name, a.initials, d.status, d.description, ParseTags(d.tags),
      TextOr(d.website, a.website), Some(d.samples), Some(d.synthetic), Some(d.ots),
      ListOr(d.poc, a.poc), TextOr(d.industry, a.industry), ListOr(d.useCase, a.useCase),
      ListOr(d.service, a.service), ListOr(d.modality, a.modality),
      TextOr(d.location, a.location), ListOr(d.otsDataList, a.otsDataList))
  }

  /** `s || fallback` on a string */
  function TextOr(s: string, fallback: Option<string>): (r: Option<string>)
    ensures s != "" ==> r == Some(s)
    ensures s == "" ==> r == fallback
  {
    if s != "" then Some(s) else fallback
  }

  /** `xs.length > 0 ? xs : fallback` */
  function ListOr<T>(xs: seq<T>, fallback: Option<seq<T>>): (r: Option<seq<T>>)
    ensures |xs| > 0 ==> r == Some(xs)
    ensures xs == [] ==> r == fallback
  {
    if |xs| > 0 then Some(xs) else fallback
  }

  /** The draft preview shows exactly what publishing that draft would write, as long as
      the draft's texts are trimmed and it does not clear a field the committed record
      has (a blank text or an empty list where the record has a value). */
  lemma DisplayMatchesPublish(a: AgencyData, d: DraftData)
    requires IsTrimmed(d.website) && IsTrimmed(d.industry) && IsTrimmed(d.location)
    requires d.website == "" ==> a.website.None?
    requires d.industry == "" ==> a.industry.None?
    requires d.location == "" ==> a.location.None?
    requires d.poc == [] ==> a.poc.None?
    requires d.useCase == [] ==> a.useCase.None?
    requires d.service == [] ==> a.service.None?
    requires d.modality == [] ==> a.modality.None?
    requires d.otsDataList == [] ==> a.otsDataList.None?
    ensures DisplayAgency(a, Some(d), false) == ApplyUpdate(a, PublishUpdate(d))
  {
    var shown := DraftOver(a, d);
    var published := ApplyUpdate(a, PublishUpdate(d));
    DraftOverKeepsPublishedTexts(a, d);
    DraftOverKeepsPublishedLists(a, d);
    DraftOverKeepsPublishedFields(a, d);
    SameFields(shown, published);
  }

  /** The text fields of a draft that clears none of them preview as they publish. */
  lemma DraftOverKeepsPublishedTexts(a: AgencyData, d: DraftData)
    requires IsTrimmed(d.website) && IsTrimmed(d.industry) && IsTrimmed(d.location)
    requires d.website == "" ==> a.website.None?
    requires d.industry == "" ==> a.industry.None?
    requires d.location == "" ==> a.location.None?
    ensures var shown, published := DraftOver(a, d), ApplyUpdate(a, PublishUpdate(d));
      shown.website == published.website && shown.industry == published.industry
      && shown.location == published.location
  {
    ShownTextIsPublished(d.website, a.website);
    ShownTextIsPublished(d.industry, a.industry);
    ShownTextIsPublished(d.location, a.location);
  }

  /** The list fields of a draft that clears none of them preview as they publish. */
  lemma DraftOverKeepsPublishedLists(a: AgencyData, d: DraftData)
    requires d.poc == [] ==> a.poc.None?
    requires d.useCase == [] ==> a.useCase.None?
    requires d.service == [] ==> a.service.None?
    requires d.modality == [] ==> a.modality.None?
    requires d.otsDataList == [] ==> a.otsDataList.None?
    ensures var shown, published := DraftOver(a, d), ApplyUpdate(a, PublishUpdate(d));
      shown.poc == published.poc && shown.useCase == published.useCase
      && shown.service == published.service && shown.modality == published.modality
      && shown.otsDataList == published.otsDataList
  {
  }

  /** The remaining fields of a draft always preview as they publish. */
  lemma DraftOverKeepsPublishedFields(a: AgencyData, d: DraftData)
    ensures var shown, published := DraftOver(a, d), ApplyUpdate(a, PublishUpdate(d));
      shown.id == published.id && shown.name == published.name
      && shown.initials == published.initials && shown.status == published.status
      && shown.description == published.description && shown.tags == published.tags
      && shown.samples == published.samples && shown.synthetic == published.synthetic
      && shown.ots == published.ots
  {
  }

  /** A trimmed draft text that does not clear the field previews as it publishes. */
  lemma ShownTextIsPublished(s: string, committed: Option<string>)
    requires IsTrimmed(s) && (s == "" ==> committed.None?)
    ensures TextOr(s, committed) == TrimmedOrUndefined(s)
  {
    TrimOfTrimmed(s);
  }

  /** Where a draft clears the website, the preview still shows the committed website but
      publishing removes it. */
  lemma ClearedWebsitePreviewDiffers(a: AgencyData, d: DraftData)
    requires a.website.Some? && d.website == ""
    ensures DisplayAgency(a, Some(d), false).website == a.website
    ensures ApplyUpdate(a, PublishUpdate(d)).website == None
  {
  }

  /** A draft with an empty tag text previews no tags, whatever the committed tags are. */
  lemma EmptyDraftTagsPreviewNoTags(a: AgencyData, d: DraftData)
    requires d.tags == ""
    ensures DisplayAgency(a, Some(d), false).tags == []
  {
    ParseTagsOfEmpty();
  }

  // ---------------------------------------------------------------------------
  // Draft slots in browser storage
  // ---------------------------------------------------------------------------

  /** The draft slots of browser storage, by storage key. */
  class DraftStorage {
    var slots: map<string, DraftData>

    constructor ()
      ensures slots == map[]
    {
      slots := map[];
    }

    /** `loadDraft`: the draft stored for the agency, if any. */
    function Draft(agencyId: string): (d: Option<DraftData>)
      reads this
      ensures d.Some? <==> DraftKey(agencyId) in slots
      ensures d.Some? ==> d.value == slots[DraftKey(agencyId)]
    {
      var key := DraftKey(agencyId);
      if key in slots then Some(slots[key]) else None
    }

    /** `saveDraft`: stores the draft of one agency; every other agency's draft stays. */
    method SaveDraft(agencyId: string, draft: DraftData)
      modifies this
      ensures slots == old(slots)[DraftKey(agencyId) := draft]
      ensures Draft(agencyId) == Some(draft)
      ensures forall other :: other != agencyId ==> Draft(other) == old(Draft(other))
    {
      slots := slots[DraftKey(agencyId) := draft];
      forall other | other != agencyId
        ensures Draft(other) == old(Draft(other))
      {
        if DraftKey(other) == DraftKey(agencyId) {
          DraftKeyInjective(other, agencyId);
        }
      }
    }

    /** `clearDraft`: removes the draft of one agency; every other agency's draft stays. */
    method ClearDraft(agencyId: string)
      modifies this
      ensures slots == old(slots) - {DraftKey(agencyId)}
      ensures Draft(agencyId).None?
      ensures forall other :: other != agencyId ==> Draft(other) == old(Draft(other))
    {
      slots := slots - {DraftKey(agencyId)};
      forall other | other != agencyId
        ensures Draft(other) == old(Draft(other))
      {
        if DraftKey(other) == DraftKey(agencyId) {
          DraftKeyInjective(other, agencyId);
        }
      }
    }
  }

  // ---------------------------------------------------------------------------
  // The editor
  // ---------------------------------------------------------------------------

  /** The state of the edit hook for the agency shown under `agencyName`. The fifteen
      form states are held together as one form value. */
  class AgencyEditor {
    const store: AgencyStore
    const drafts: DraftStorage
    const agencyName: string

    var isEditMode: bool
    var form: DraftData

    /** The hook's initial state: not editing, every field empty. */
    constructor (store: AgencyStore, drafts: DraftStorage, agencyName: string)
      ensures this.store == store && this.drafts == drafts && this.agencyName == agencyName
      ensures !isEditMode
      ensures form == EmptyForm
    {
      this.store := store;
      this.drafts := drafts;
      this.agencyName := agencyName;
      isEditMode := false;
      form := EmptyForm;
    }

    /** `getAgencyByName(agencyName)` */
    function Agency(): Option<AgencyData>
      reads store
    {
      FindByName(store.agencies, agencyName)
    }

    /** `setIsEditMode` */
    method SetIsEditMode(b: bool)
      modifies this
      ensures isEditMode == b && form == old(form)
    {
      isEditMode := b;
    }

    /** The `setEdit*` setters, which the edit sections call as the user types. */
    method SetForm(f: DraftData)
      modifies this
      ensures form == f && isEditMode == old(isEditMode)
    {
      form := f;
    }

    /** The seeding effect: when the agency exists, load its draft if it has one, else the
        committed record; without the agency nothing changes. */
    method LoadAgencyIntoForm()
      modifies this
      ensures Agency().Some? ==> form == SeededForm(Agency().value, drafts.Draft(Agency().value.id))
      ensures Agency().None? ==> form == old(form)
      ensures isEditMode == old(isEditMode)
    {
      var agency := store.GetAgencyByName(agencyName);
      if agency.Some? {
        var draft := drafts.Draft(agency.value.id);
        if draft.Some? {
          form := draft.value;
        } else {
          form := CommittedForm(agency.value);
        }
      }
    }

    /** `handlePublish`: writes the normalized form to the store, clears the agency's draft
        and leaves edit mode; without the agency it does nothing. */
    method HandlePublish()
      modifies this, store, drafts
      ensures old(Agency()).None? ==>
        store.agencies == old(store.agencies) && drafts.slots == old(drafts.slots)
        && isEditMode == old(isEditMode)
      ensures old(Agency()).Some? ==>
        var id := old(Agency()).value.id;
        && store.agencies == UpdateById(old(store.agencies), id, PublishUpdate(old(form)))
        && drafts.slots == old(drafts.slots) - {DraftKey(id)}
        && !isEditMode
      ensures old(Agency()).Some? ==>
        forall i :: 0 <= i < |store.agencies| && store.agencies[i].id == old(Agency()).value.id ==>
          Normalized(store.agencies[i])
      ensures form == old(form)
    {
      var agency := store.GetAgencyByName(agencyName);
      if agency.None? {
        return;
      }
      var updates := PublishUpdate(form);
      Commit(agency.value.id, updates);
      PublishedRecordsAreNormalized(old(store.agencies), agency.value.id, form);
    }

    /** The last steps of a publish: the update goes to the store, the draft slot of the
        agency is removed and edit mode ends. */
    method Commit(id: string, updates: AgencyUpdate)
      modifies this, store, drafts
      ensures store.agencies == UpdateById(old(store.agencies), id, updates)
      ensures drafts.slots == old(drafts.slots) - {DraftKey(id)}
      ensures !isEditMode && form == old(form)
    {
      store.UpdateAgency(id, updates);
      drafts.ClearDraft(id);
      isEditMode := false;
    }

    /** `handleSaveAsDraft`: stores the raw form as the agency's draft and leaves edit mode;
        the store is untouched. Without the agency it does nothing. */
    method HandleSaveAsDraft()
      modifies this, drafts
      ensures old(Agency()).None? ==> drafts.slots == old(drafts.slots) && isEditMode == old(isEditMode)
      ensures old(Agency()).Some? ==>
        drafts.slots == old(drafts.slots)[DraftKey(old(Agency()).value.id) := old(form)] && !isEditMode
      ensures store.agencies == old(store.agencies)
      ensures form == old(form)
    {
      var agency := store.GetAgencyByName(agencyName);
      if agency.None? {
        return;
      }
      drafts.SaveDraft(agency.value.id, form);
      isEditMode := false;
    }

    /** `handleCancel`: reloads the form as seeding does and always leaves edit mode. */
    method HandleCancel()
      modifies this
      ensures Agency().Some? ==> form == SeededForm(Agency().value, drafts.Draft(Agency().value.id))
      ensures Agency().None? ==> form == old(form)
      ensures !isEditMode
    {
      LoadAgencyIntoForm();
      isEditMode := false;
    }

    /** The `agency` the hook returns: the displayed record. */
    function DisplayedAgency(): (r: Option<AgencyData>)
      reads this, store, drafts
      ensures r.None? <==> Agency().None?
      ensures r.Some? && (isEditMode || drafts.Draft(r.value.id).None?) ==> r == Agency()
      ensures r.Some? ==> r.value == DisplayAgency(Agency().value, drafts.Draft(Agency().value.id), isEditMode)
    {
      match Agency()
      case None => None
      case Some(a) => Some(DisplayAgency(a, drafts.Draft(a.id), isEditMode))
    }

    /** `hasDraft` */
    function HasDraft(): (b: bool)
      reads store, drafts
      ensures b <==> Agency().Some? && DraftKey(Agency().value.id) in drafts.slots
    {
      Agency().Some? && drafts.Draft(Agency().value.id).Some?
    }
  }
}
