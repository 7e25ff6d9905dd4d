/**
 * The dialog that adds a new agency: fifteen form fields, two ways to add (submit, which
 * publishes the agency in the network, and save-as-draft, which uses the status chosen in
 * the form), required-field validation, normalisation of every field into a record, and
 * the reset that follows a successful add or a cancel.
 */
module AddAgencyDialog {
  import opened Wrappers
  import opened JsStrings
  import opened AgencyModel
  import opened AgencyContext
  import opened EditableAgency
  import opened AgencyStatus

  /** The publish status chosen in the dialog. */
  datatype PublishStatus = DraftStatus | InProgressStatus | InPipelineStatus

  /** `statusMap`: the record status a save-as-draft writes for the chosen status. */
  function StatusLabel(p: PublishStatus): (status: string)
    ensures status != "" && status != "in-network"
  {
    match p
    case DraftStatus => "Draft"
    case InProgressStatus => "in-progress"
    case InPipelineStatus => "In Pipeline"
  }

  /** Distinct choices give distinct record statuses. */
  lemma StatusLabelInjective(p: PublishStatus, q: PublishStatus)
    requires StatusLabel(p) == StatusLabel(q)
    ensures p == q
  {
  }

  /** The status a submitted agency gets. */
  const SubmittedStatus := "in-network"

  /** The dialog's form fields, held together as one value. */
  datatype DialogForm = DialogForm(
    name: string,
    description: string,
    tags: string,
    website: string,
    industry: string,
    location: string,
    poc: seq<Contact>,
    useCase: seq<string>,
    service: seq<string>,
    modality: seq<string>,
    otsDataList: seq<string>,
    publishStatus: PublishStatus,
    samples: bool,
    synthetic: bool,
    ots: bool)

  /** The initial form, which `resetForm` restores: empty texts, one blank row in every
      list, status "draft" and every flag off. */
  const EmptyDialog := DialogForm("", "", "", "", "", "", [Contact("", "")], [""], [""], [""], [""],
                                  DraftStatus, false, false, false)

  /** The validation both add buttons apply: a name and a description that are not blank. */
  predicate CanAdd(f: DialogForm) {
    !IsBlank(f.name) && !IsBlank(f.description)
  }

  /** `name.trim().substring(0, 2).toUpperCase()` */
  function Initials(name: string): (r: string)
    ensures |r| == if |Trim(name)| < 2 then |Trim(name)| else 2
    ensures forall i :: 0 <= i < |r| ==> r[i] == UpperChar(Trim(name)[i])
    ensures Trim(name) != "" ==> r != ""
  {
    var t := Trim(name);
    ToUpper(if |t| < 2 then t else t[..2])
  }

  /** `xs.filter(x => x.trim())`: the entries that are not blank (whose trimmed text is
      not empty), in order. */
  function KeepNonBlank(xs: seq<string>): (r: seq<string>)
    ensures |r| <= |xs|
    ensures forall i :: 0 <= i < |r| ==> !IsBlank(r[i]) && r[i] in xs
    ensures forall x :: x in xs && !IsBlank(x) ==> x in r
  {
    if xs == [] then []
    else if IsBlank(xs[0]) then KeepNonBlank(xs[1..])
    else [xs[0]] + KeepNonBlank(xs[1..])
  }

  /** A contact row with a name and an email that are not blank. */
  predicate IsComplete(c: Contact) {
    !IsBlank(c.name) && !IsBlank(c.email)
  }

  /** `poc.filter(p => p.name.trim() && p.email.trim())`: the complete rows, in order. */
  function KeepCompleteContacts(cs: seq<Contact>): (r: seq<Contact>)
    ensures |r| <= |cs|
    ensures forall i :: 0 <= i < |r| ==> IsComplete(r[i]) && r[i] in cs
    ensures forall c :: c in cs && IsComplete(c) ==> c in r
  {
    if cs == [] then []
    else if !IsComplete(cs[0]) then KeepCompleteContacts(cs[1..])
    else [cs[0]] + KeepCompleteContacts(cs[1..])
  }

  /** Filtering a list with no blank entry keeps it whole, so filtering is idempotent. */
  lemma {:induction false} KeepNonBlankOfNonBlank(xs: seq<string>)
    requires forall i :: 0 <= i < |xs| ==> !IsBlank(xs[i])
    ensures KeepNonBlank(xs) == xs
  {
    if xs != [] {
      KeepNonBlankOfNonBlank(xs[1..]);
      assert [xs[0]] + xs[1..] == xs;
    }
  }

  /** Filtering distributes over concatenation, so the kept entries keep the order of the
      form's rows; a single entry is kept exactly when it is not blank. */
  lemma {:induction false} KeepNonBlankAppend(xs: seq<string>, ys: seq<string>)
    ensures KeepNonBlank(xs + ys) == KeepNonBlank(xs) + KeepNonBlank(ys)
    ensures forall x :: KeepNonBlank([x]) == if IsBlank(x) then [] else [x]
  {
    if xs == [] {
      assert xs + ys == ys;
    } else {
      assert (xs + ys)[0] == xs[0] && (xs + ys)[1..] == xs[1..] + ys;
      KeepNonBlankAppend(xs[1..], ys);
      if !IsBlank(xs[0]) {
        assert [xs[0]] + (KeepNonBlank(xs[1..]) + KeepNonBlank(ys))
            == ([xs[0]] + KeepNonBlank(xs[1..])) + KeepNonBlank(ys);
      }
    }
    forall x ensures KeepNonBlank([x]) == if IsBlank(x) then [] else [x] {
      assert [x][1..] == [];
    }
  }

  /** The same for contact rows: the complete rows keep their order, and a single row is
      kept exactly when it is complete. */
  lemma {:induction false} KeepCompleteContactsAppend(xs: seq<Contact>, ys: seq<Contact>)
    ensures KeepCompleteContacts(xs + ys) == KeepCompleteContacts(xs) + KeepCompleteContacts(ys)
    ensures forall c :: KeepCompleteContacts([c]) == if IsComplete(c) then [c] else []
  {
    if xs == [] {
      assert xs + ys == ys;
    } else {
      assert (xs + ys)[0] == xs[0] && (xs + ys)[1..] == xs[1..] + ys;
      KeepCompleteContactsAppend(xs[1..], ys);
      if IsComplete(xs[0]) {
        assert [xs[0]] + (KeepCompleteContacts(xs[1..]) + KeepCompleteContacts(ys))
            == ([xs[0]] + KeepCompleteContacts(xs[1..])) + KeepCompleteContacts(ys);
      }
    }
    forall c ensures KeepCompleteContacts([c]) == if IsComplete(c) then [c] else [] {
      assert [c][1..] == [];
    }
  }

  /** The blank rows of the initial form are all dropped. */
  lemma EmptyDialogListsAreDropped()
    ensures KeepNonBlank([""]) == [] && KeepCompleteContacts([Contact("", "")]) == []
  {
  }

  /** The record both add buttons pass to the store (the store assigns its id): trimmed
      name and description, initials, parsed tags, trimmed-or-undefined texts, filtered
      non-empty-or-undefined lists and the three flags. */
  function NewAgency(f: DialogForm, status: string): (a: AgencyData)
    ensures a.id == "" && a.status == status
    ensures a.name == Trim(f.name) && a.description == Trim(f.description)
    ensures a.initials == Initials(f.name)
    ensures a.tags == ParseTags(f.tags)
    ensures a.samples == Some(f.samples) && a.synthetic == Some(f.synthetic)
    ensures a.ots == Some(f.ots)
    ensures a.website == TrimmedOrUndefined(f.website)
    ensures a.industry == TrimmedOrUndefined(f.industry)
    ensures a.location == TrimmedOrUndefined(f.location)
    ensures a.poc == NonEmptyOrUndefined(KeepCompleteContacts(f.poc))
    ensures a.useCase == NonEmptyOrUndefined(KeepNonBlank(f.useCase))
    ensures a.service == NonEmptyOrUndefined(KeepNonBlank(f.service))
    ensures a.modality == NonEmptyOrUndefined(KeepNonBlank(f.modality))
    ensures a.otsDataList == NonEmptyOrUndefined(KeepNonBlank(f.otsDataList))
    ensures CanAdd(f) ==> a.name != "" && a.description != ""
  {
    AgencyData(
      "",
      Trim(f.name),
      Initials(f.name),
      status,
      Trim(f.description),
      ParseTags(f.tags),
      TrimmedOrUndefined(f.website),
      Some(f.samples),
      Some(f.synthetic),
      Some(f.ots),
      NonEmptyOrUndefined(KeepCompleteContacts(f.poc)),
      TrimmedOrUndefined(f.industry),
      NonEmptyOrUndefined(KeepNonBlank(f.useCase)),
      NonEmptyOrUndefined(KeepNonBlank(f.service)),
      NonEmptyOrUndefined(KeepNonBlank(f.modality)),
      TrimmedOrUndefined(f.location),
      NonEmptyOrUndefined(KeepNonBlank(f.otsDataList)))
  }

  /** Whatever the form holds, the new record has parsed tags, every flag defined and
      normal optional fields. */
  lemma NewAgencyIsNormalized(f: DialogForm, status: string)
    ensures Normalized(NewAgency(f, status))
  {
    NewAgencyTexts(f, status);
    NewAgencyLists(f, status);
  }

  /** The optional texts of the new record are normal. */
  lemma NewAgencyTexts(f: DialogForm, status: string)
    ensures var a := NewAgency(f, status);
      NormalText(a.website) && NormalText(a.industry) && NormalText(a.location)
  {
  }

  /** The optional lists of the new record are normal. */
  lemma NewAgencyLists(f: DialogForm, status: string)
    ensures var a := NewAgency(f, status);
      && NormalList(a.poc) && NormalList(a.useCase) && NormalList(a.service)
      && NormalList(a.modality) && NormalList(a.otsDataList)
  {
  }

  /** The new record's name and description are trimmed, and its initials are those of
      its name. */
  lemma NewAgencyNameFields(f: DialogForm, status: string)
    ensures var a := NewAgency(f, status);
      && a.name == Trim(f.name) && a.description == Trim(f.description)
      && IsTrimmed(a.name) && IsTrimmed(a.description)
      && a.initials == Initials(f.name) && a.initials == Initials(a.name)
  {
    TrimOfTrimmed(Trim(f.name));
  }

  /** A string list as the new record holds it: undefined when no entry is filled in,
      otherwise exactly the filled-in entries. */
  lemma KeptEntries(xs: seq<string>)
    ensures var o := NonEmptyOrUndefined(KeepNonBlank(xs));
      && (o.None? <==> forall i :: 0 <= i < |xs| ==> IsBlank(xs[i]))
      && (o.Some? ==> forall i :: 0 <= i < |o.value| ==> !IsBlank(o.value[i]) && o.value[i] in xs)
      && (forall x :: x in xs && !IsBlank(x) ==> o.Some? && x in o.value)
  {
    var o := NonEmptyOrUndefined(KeepNonBlank(xs));
    if o.Some? {
      var x := o.value[0];
      assert x in xs && !IsBlank(x);
    }
  }

  /** The contacts as the new record holds them: undefined when no row is complete,
      otherwise exactly the complete rows. */
  lemma KeptContacts(cs: seq<Contact>)
    ensures var o := NonEmptyOrUndefined(KeepCompleteContacts(cs));
      && (o.None? <==> forall i :: 0 <= i < |cs| ==> !IsComplete(cs[i]))
      && (o.Some? ==> forall i :: 0 <= i < |o.value| ==> IsComplete(o.value[i]) && o.value[i] in cs)
      && (forall c :: c in cs && IsComplete(c) ==> o.Some? && c in o.value)
  {
    var o := NonEmptyOrUndefined(KeepCompleteContacts(cs));
    if o.Some? {
      var c := o.value[0];
      assert c in cs && IsComplete(c);
    }
  }

  /** An agency added by the dialog, opened in the agency editor and published without an
      edit, stays exactly as it was added. */
  lemma AddedAgencyPublishesUnchanged(agencies: seq<AgencyData>, f: DialogForm, status: string)
    ensures var a := WithNextId(agencies, NewAgency(f, status));
      ApplyUpdate(a, PublishUpdate(CommittedForm(a))) == a
  {
    var a := WithNextId(agencies, NewAgency(f, status));
    NewAgencyIsNormalized(f, status);
    assert Normalized(a);
    PublishUneditedForm(a);
  }

  /** Wherever a card shows an agency's status from its record, a submitted agency shows
      as in the network and an agency saved as a draft never does. */
  lemma AddedStatusIsShown(f: DialogForm, p: PublishStatus, name: string)
    ensures GetAgencyStatusFromContext(name, Some(NewAgency(f, SubmittedStatus).status)) == "in-network"
    ensures GetAgencyStatusFromContext(name, Some(NewAgency(f, StatusLabel(p)).status)) == StatusLabel(p)
    ensures GetAgencyStatusFromContext(name, Some(NewAgency(f, StatusLabel(p)).status)) != "in-network"
  {
  }

  /** The dialog over the shared store; `open` is the parent's visibility flag, which
      `onOpenChange(false)` clears. */
  class AddAgencyDialogState {
    const store: AgencyStore
    var form: DialogForm
    var open: bool

    /** The dialog's initial state. */
    constructor (store: AgencyStore, open: bool)
      ensures this.store == store && form == EmptyDialog && this.open == open
    {
      this.store := store;
      form := EmptyDialog;
      this.open := open;
    }

    /** The field setters, called as the user types, and the list helpers' results. */
    method SetForm(f: DialogForm)
      modifies this
      ensures form == f && open == old(open)
    {
      form := f;
    }

    /** `handleSubmit`: without a name and a description nothing changes; otherwise the
        agency is added in the network, the form is reset and the dialog closes. */
    method HandleSubmit()
      modifies this, store
      ensures !CanAdd(old(form)) ==>
        store.agencies == old(store.agencies) && form == old(form) && open == old(open)
      ensures CanAdd(old(form)) ==>
        store.agencies == old(store.agencies) + [WithNextId(old(store.agencies), NewAgency(old(form), SubmittedStatus))]
        && form == EmptyDialog && !open
    {
      if !CanAdd(form) {
        return;
      }
      Add(NewAgency(form, SubmittedStatus));
    }

    /** `handleSaveAsDraft`: the same validation; the agency is added with the status
        chosen in the form. */
    method HandleSaveAsDraft()
      modifies this, store
      ensures !CanAdd(old(form)) ==>
        store.agencies == old(store.agencies) && form == old(form) && open == old(open)
      ensures CanAdd(old(form)) ==>
        store.agencies == old(store.agencies)
          + [WithNextId(old(store.agencies), NewAgency(old(form), StatusLabel(old(form).publishStatus)))]
        && form == EmptyDialog && !open
    {
      if !CanAdd(form) {
        return;
      }
      Add(NewAgency(form, StatusLabel(form.publishStatus)));
    }

    /** The last steps of both adds: the record goes to the store, the form is reset and
        the dialog closes. */
    method Add(fields: AgencyData)
      modifies this, store
      ensures store.agencies == old(store.agencies) + [WithNextId(old(store.agencies), fields)]
      ensures form == EmptyDialog && !open
    {
      store.AddAgency(fields);
      ResetForm();
      open := false;
    }

    /** `resetForm` */
    method ResetForm()
      modifies this
      ensures form == EmptyDialog && open == old(open)
    {
      form := EmptyDialog;
    }

    /** `handleCancel`: the form is reset and the dialog closes; the store is untouched. */
    method HandleCancel()
      modifies this
      ensures form == EmptyDialog && !open
    {
      ResetForm();
      open := false;
    }
  }
}
