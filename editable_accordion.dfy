/**
 * The accordion-only edit workflow: eight form fields (website, industry, location,
 * points of contact and the four lists) seeded from the committed record, published
 * back into it, or discarded on cancel. Unlike the full editor it keeps no drafts.
 */
module EditableAccordion {
  import opened Wrappers
  import opened AgencyModel
  import opened AgencyContext

  /** The eight accordion form states, held together as one value. */
  datatype AccordionForm = AccordionForm(
    website: string,
    industry: string,
    location: string,
    poc: seq<Contact>,
    useCase: seq<string>,
    service: seq<string>,
    modality: seq<string>,
    otsDataList: seq<string>)

  /** The form before anything is loaded: empty texts and empty lists. */
  const EmptyAccordion := AccordionForm("", "", "", [], [], [], [], [])

  /** The form seeded from a committed record: `field || ""` for texts, `field || []` for
      lists. */
  function SeededAccordion(a: AgencyData): (f: AccordionForm)
    ensures a.website.Some? ==> f.website == a.website.value
    ensures a.website.None? ==> f.website == ""
    ensures a.industry.Some? ==> f.industry == a.industry.value
    ensures a.industry.None? ==> f.industry == ""
    ensures a.location.Some? ==> f.location == a.location.value
    ensures a.location.None? ==> f.location == ""
    ensures a.poc.Some? ==> f.poc == a.poc.value
    ensures a.poc.None? ==> f.poc == []
    ensures a.useCase.Some? ==> f.useCase == a.useCase.value
    ensures a.useCase.None? ==> f.useCase == []
    ensures a.service.Some? ==> f.service == a.service.value
    ensures a.service.None? ==> f.service == []
    ensures a.modality.Some? ==> f.modality == a.modality.value
    ensures a.modality.None? ==> f.modality == []
    ensures a.otsDataList.Some? ==> f.otsDataList == a.otsDataList.value
    ensures a.otsDataList.None? ==> f.otsDataList == []
  {
    AccordionForm(
      a.website.GetOr(""), a.industry.GetOr(""), a.location.GetOr(""),
      a.poc.GetOr([]), a.useCase.GetOr([]), a.service.GetOr([]), a.modality.GetOr([]),
      a.otsDataList.GetOr([]))
  }

  /** The update the accordion publish hands to the store: the eight accordion keys only,
      texts trimmed or undefined, lists non-empty or undefined. */
  function AccordionUpdate(f: AccordionForm): (u: AgencyUpdate)
    ensures u.id.None? && u.name.None? && u.initials.None? && u.status.None?
    ensures u.description.None? && u.tags.None?
    ensures u.samples.None? && u.synthetic.None? && u.ots.None?
    ensures u.website == Some(TrimmedOrUndefined(f.website))
    ensures u.industry == Some(TrimmedOrUndefined(f.industry))
    ensures u.location == Some(TrimmedOrUndefined(f.location))
    ensures u.poc == Some(NonEmptyOrUndefined(f.poc))
    ensures u.useCase == Some(NonEmptyOrUndefined(f.useCase))
    ensures u.service == Some(NonEmptyOrUndefined(f.service))
    ensures u.modality == Some(NonEmptyOrUndefined(f.modality))
    ensures u.otsDataList == Some(NonEmptyOrUndefined(f.otsDataList))
  {
    NoChanges.(
      website := Some(TrimmedOrUndefined(f.website)),
      industry := Some(TrimmedOrUndefined(f.industry)),
      location := Some(TrimmedOrUndefined(f.location)),
      poc := Some(NonEmptyOrUndefined(f.poc)),
      useCase := Some(NonEmptyOrUndefined(f.useCase)),
      service := Some(NonEmptyOrUndefined(f.service)),
      modality := Some(NonEmptyOrUndefined(f.modality)),
      otsDataList := Some(NonEmptyOrUndefined(f.otsDataList)))
  }

  /** An accordion publish changes no field outside the accordion. */
  lemma AccordionPublishKeepsOtherFields(a: AgencyData, f: AccordionForm)
    ensures var r := ApplyUpdate(a, AccordionUpdate(f));
      && r.id == a.id && r.name == a.name && r.initials == a.initials && r.status == a.status
      && r.description == a.description && r.tags == a.tags
      && r.samples == a.samples && r.synthetic == a.synthetic && r.ots == a.ots
  {
  }

  /** Whatever the form holds, the published accordion fields are normal. */
  lemma AccordionPublishNormalizes(a: AgencyData, f: AccordionForm)
    ensures NormalAccordion(ApplyUpdate(a, AccordionUpdate(f)))
  {
    var r := ApplyUpdate(a, AccordionUpdate(f));
    assert r.website == TrimmedOrUndefined(f.website);
    assert r.industry == TrimmedOrUndefined(f.industry);
    assert r.location == TrimmedOrUndefined(f.location);
    assert r.poc == NonEmptyOrUndefined(f.poc);
    assert r.useCase == NonEmptyOrUndefined(f.useCase);
    assert r.service == NonEmptyOrUndefined(f.service);
    assert r.modality == NonEmptyOrUndefined(f.modality);
    assert r.otsDataList == NonEmptyOrUndefined(f.otsDataList);
  }

  /** Publishing the accordion seeded from a record with normal accordion fields, unedited,
      leaves the record as it was. */
  lemma PublishUneditedAccordion(a: AgencyData)
    requires NormalText(a.website) && NormalText(a.industry) && NormalText(a.location)
    requires NormalList(a.poc) && NormalList(a.useCase) && NormalList(a.service)
    requires NormalList(a.modality) && NormalList(a.otsDataList)
    ensures ApplyUpdate(a, AccordionUpdate(SeededAccordion(a))) == a
  {
    var f := SeededAccordion(a);
    var r := ApplyUpdate(a, AccordionUpdate(f));
    AccordionPublishKeepsOtherFields(a, f);
    NormalTextRoundTrip(a.website);
    NormalTextRoundTrip(a.industry);
    NormalTextRoundTrip(a.location);
    NormalListRoundTrip(a.poc);
    NormalListRoundTrip(a.useCase);
    NormalListRoundTrip(a.service);
    NormalListRoundTrip(a.modality);
    NormalListRoundTrip(a.otsDataList);
    SameFields(r, a);
  }

  /** After an accordion publish, every record with the published id keeps its fields
      outside the accordion and has normal accordion fields. */
  lemma AccordionPublishedRecords(agencies: seq<AgencyData>, id: string, f: AccordionForm)
    ensures var r := UpdateById(agencies, id, AccordionUpdate(f));
      forall i :: 0 <= i < |r| && r[i].id == id ==>
        && NormalAccordion(r[i]) && r[i].name == agencies[i].name && r[i].status == agencies[i].status
        && r[i].description == agencies[i].description && r[i].tags == agencies[i].tags
  {
    var u := AccordionUpdate(f);
    var r := UpdateById(agencies, id, u);
    forall i | 0 <= i < |r| && r[i].id == id
      ensures NormalAccordion(r[i]) && r[i].name == agencies[i].name && r[i].status == agencies[i].status
      ensures r[i].description == agencies[i].description && r[i].tags == agencies[i].tags
    {
      assert agencies[i].id == id;
      assert r[i] == ApplyUpdate(agencies[i], u);
      AccordionPublishNormalizes(agencies[i], f);
      AccordionPublishKeepsOtherFields(agencies[i], f);
    }
  }

  /** The state of the accordion hook for the agency shown under `agencyName`. */
  class AccordionEditor {
    const store: AgencyStore
    const agencyName: string

    var isEditMode: bool
    var form: AccordionForm

    /** The hook's initial state: not editing, every field empty. */
    constructor (store: AgencyStore, agencyName: string)
      ensures this.store == store && this.agencyName == agencyName
      ensures !isEditMode && form == EmptyAccordion
    {
      this.store := store;
      this.agencyName := agencyName;
      isEditMode := false;
      form := EmptyAccordion;
    }

    /** `getAgencyByName(agencyName)` */
    function Agency(): Option<AgencyData>
      reads store
    {
      FindByName(store.agencies, agencyName)
    }

    /** `setIsEditMode` */
    method SetIsEditMode(b: bool)
      modifies this
      ensures isEditMode == b && form == old(form)
    {
      isEditMode := b;
    }

    /** The `setEdit*` setters, which the accordion sections call as the user types. */
    method SetForm(f: AccordionForm)
      modifies this
      ensures form == f && isEditMode == old(isEditMode)
    {
      form := f;
    }

    /** The seeding effect: when the agency exists, the form takes its accordion fields;
        without the agency nothing changes. */
    method LoadAgencyIntoForm()
      modifies this
      ensures Agency().Some? ==> form == SeededAccordion(Agency().value)
      ensures Agency().None? ==> form == old(form)
      ensures isEditMode == old(isEditMode)
    {
      var agency := store.GetAgencyByName(agencyName);
      if agency.Some? {
        form := SeededAccordion(agency.value);
      }
    }

    /** `handlePublish`: writes the eight normalized accordion fields into every record with
        the agency's id and leaves edit mode; without the agency it does nothing at all,
        not even leave edit mode. */
    method HandlePublish()
      modifies this, store
      ensures old(Agency()).None? ==>
        store.agencies == old(store.agencies) && isEditMode == old(isEditMode)
      ensures old(Agency()).Some? ==>
        store.agencies == UpdateById(old(store.agencies), old(Agency()).value.id, AccordionUpdate(old(form)))
        && !isEditMode
      ensures old(Agency()).Some? ==>
        forall i :: 0 <= i < |store.agencies| && store.agencies[i].id == old(Agency()).value.id ==>
          NormalAccordion(store.agencies[i]) && store.agencies[i].name == old(store.agencies)[i].name
      ensures form == old(form)
    {
      var agency := store.GetAgencyByName(agencyName);
      if agency.None? {
        return;
      }
      Commit(agency.value.id, AccordionUpdate(form));
      AccordionPublishedRecords(old(store.agencies), agency.value.id, form);
    }

    /** The last steps of a publish: the update goes to the store and edit mode ends. */
    method Commit(id: string, updates: AgencyUpdate)
      modifies this, store
      ensures store.agencies == UpdateById(old(store.agencies), id, updates)
      ensures !isEditMode && form == old(form)
    {
      store.UpdateAgency(id, updates);
      isEditMode := false;
    }

    /** `handleCancel`: the form goes back to the committed record's accordion fields, and
        edit mode ends whether or not the agency exists. */
    method HandleCancel()
      modifies this
      ensures Agency().Some? ==> form == SeededAccordion(Agency().value)
      ensures Agency().None? ==> form == old(form)
      ensures !isEditMode
    {
      LoadAgencyIntoForm();
      isEditMode := false;
    }
  }
}
