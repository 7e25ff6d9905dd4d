/**
 * The accordion sections of an agency page: each of the eight fields is shown from the
 * parent's state when the parent passes it, else from the accordion hook's own form, and
 * edits go to the parent's setter when one is passed, else to the hook's. The list
 * buttons edit the shown list with the shared list helpers; the website is shown as a
 * link whose target and label are derived from the stored text.
 */
module AccordionSections {
  import opened JsStrings
  import opened AgencyModel
  import opened FormLists
  import opened EditableAccordion

  // ---------------------------------------------------------------------------
  // Value and setter selection
  // ---------------------------------------------------------------------------

  /**
   * What the parent supplies for one field: whether it passes its value, whether it
   * passes its setter, and the parent state both refer to.
   */
  datatype Prop<T> = Prop(passesValue: bool, passesSetter: bool, parent: T)

  /** The parent's and the hook's state of one field. */
  datatype Routed<T> = Routed(prop: Prop<T>, hook: T)

  /** `external !== undefined ? external : hook` */
  function Shown<T>(s: Routed<T>): (v: T)
    ensures s.prop.passesValue ==> v == s.prop.parent
    ensures !s.prop.passesValue ==> v == s.hook
  {
    if s.prop.passesValue then s.prop.parent else s.hook
  }

  /** `(externalSet || hookSet)(v)`: the parent's setter when it is passed, else the
      hook's; the other side keeps its state. */
  function Edit<T>(s: Routed<T>, v: T): (r: Routed<T>)
    ensures r.prop.passesValue == s.prop.passesValue && r.prop.passesSetter == s.prop.passesSetter
    ensures s.prop.passesSetter ==> r.prop.parent == v && r.hook == s.hook
    ensures !s.prop.passesSetter ==> r.prop.parent == s.prop.parent && r.hook == v
  {
    if s.prop.passesSetter then Routed(s.prop.(parent := v), s.hook) else Routed(s.prop, v)
  }

  /** An edit shows up exactly when the value and the setter come from the same side;
      a parent passing only one of them makes every edit invisible. */
  lemma EditIsShownIffSameSide<T>(s: Routed<T>, v: T)
    ensures s.prop.passesValue == s.prop.passesSetter ==> Shown(Edit(s, v)) == v
    ensures s.prop.passesValue != s.prop.passesSetter ==> Shown(Edit(s, v)) == Shown(s)
  {
  }

  /** The eight accordion fields as the parent supplies them. */
  datatype ExternalProps = ExternalProps(
    website: Prop<string>,
    industry: Prop<string>,
    location: Prop<string>,
    poc: Prop<seq<Contact>>,
    useCase: Prop<seq<string>>,
    service: Prop<seq<string>>,
    modality: Prop<seq<string>>,
    otsDataList: Prop<seq<string>>)

  /** The eight values the sections show, each picked from the parent or the hook. */
  function ShownForm(ext: ExternalProps, hook: AccordionForm): (f: AccordionForm)
    ensures ext.website.passesValue ==> f.website == ext.website.parent
    ensures !ext.website.passesValue ==> f.website == hook.website
    ensures ext.industry.passesValue ==> f.industry == ext.industry.parent
    ensures !ext.industry.passesValue ==> f.industry == hook.industry
    ensures ext.location.passesValue ==> f.location == ext.location.parent
    ensures !ext.location.passesValue ==> f.location == hook.location
    ensures ext.poc.passesValue ==> f.poc == ext.poc.parent
    ensures !ext.poc.passesValue ==> f.poc == hook.poc
    ensures ext.useCase.passesValue ==> f.useCase == ext.useCase.parent
    ensures !ext.useCase.passesValue ==> f.useCase == hook.useCase
    ensures ext.service.passesValue ==> f.service == ext.service.parent
    ensures !ext.service.passesValue ==> f.service == hook.service
    ensures ext.modality.passesValue ==> f.modality == ext.modality.parent
    ensures !ext.modality.passesValue ==> f.modality == hook.modality
    ensures ext.otsDataList.passesValue ==> f.otsDataList == ext.otsDataList.parent
    ensures !ext.otsDataList.passesValue ==> f.otsDataList == hook.otsDataList
  {
    AccordionForm(
      Shown(Routed(ext.website, hook.website)),
      Shown(Routed(ext.industry, hook.industry)),
      Shown(Routed(ext.location, hook.location)),
      Shown(Routed(ext.poc, hook.poc)),
      Shown(Routed(ext.useCase, hook.useCase)),
      Shown(Routed(ext.service, hook.service)),
      Shown(Routed(ext.modality, hook.modality)),
      Shown(Routed(ext.otsDataList, hook.otsDataList)))
  }

  /** A parent that passes no value shows the hook's form unchanged. */
  lemma NoExternalShowsHook(ext: ExternalProps, hook: AccordionForm)
    requires !ext.website.passesValue && !ext.industry.passesValue && !ext.location.passesValue
    requires !ext.poc.passesValue && !ext.useCase.passesValue && !ext.service.passesValue
    requires !ext.modality.passesValue && !ext.otsDataList.passesValue
    ensures ShownForm(ext, hook) == hook
  {
  }

  // ---------------------------------------------------------------------------
  // List buttons
  // ---------------------------------------------------------------------------

  /** `addPocContact`: one blank contact appended to the shown list. */
  function AddPocContact(s: Routed<seq<Contact>>): (r: Routed<seq<Contact>>)
    ensures s.prop.passesValue == s.prop.passesSetter ==> Shown(r) == Shown(s) + [BlankContact]
  {
    EditIsShownIffSameSide(s, AddItem(Shown(s), BlankContact));
    Edit(s, AddItem(Shown(s), BlankContact))
  }

  /** `updatePocContact(i, field, value)` on the shown list. */
  function UpdatePocContact(s: Routed<seq<Contact>>, i: nat, field: ContactField, value: string)
    : (r: Routed<seq<Contact>>)
    requires i < |Shown(s)|
    ensures s.prop.passesValue == s.prop.passesSetter ==>
      |Shown(r)| == |Shown(s)| && Shown(r)[i] == WithField(Shown(s)[i], field, value)
      && forall j :: 0 <= j < |Shown(s)| && j != i ==> Shown(r)[j] == Shown(s)[j]
  {
    EditIsShownIffSameSide(s, UpdateContact(Shown(s), i, field, value));
    Edit(s, UpdateContact(Shown(s), i, field, value))
  }

  /** `removePocContact(i)` on the shown list. */
  function RemovePocContact(s: Routed<seq<Contact>>, i: int): (r: Routed<seq<Contact>>)
    ensures s.prop.passesValue == s.prop.passesSetter ==> Shown(r) == RemoveAt(Shown(s), i)
    ensures s.prop.passesValue == s.prop.passesSetter && 0 <= i < |Shown(s)| ==>
      |Shown(r)| == |Shown(s)| - 1
  {
    EditIsShownIffSameSide(s, RemoveAt(Shown(s), i));
    Edit(s, RemoveAt(Shown(s), i))
  }

  /** `addArrayItem`: one empty entry appended to the shown list. */
  function AddArrayItem(s: Routed<seq<string>>): (r: Routed<seq<string>>)
    ensures s.prop.passesValue == s.prop.passesSetter ==> Shown(r) == Shown(s) + [""]
  {
    EditIsShownIffSameSide(s, AddItem(Shown(s), ""));
    Edit(s, AddItem(Shown(s), ""))
  }

  /** `updateArrayItem(i, value)` on the shown list. */
  function UpdateArrayItem(s: Routed<seq<string>>, i: nat, value: string): (r: Routed<seq<string>>)
    requires i < |Shown(s)|
    ensures s.prop.passesValue == s.prop.passesSetter ==>
      |Shown(r)| == |Shown(s)| && Shown(r)[i] == value
      && forall j :: 0 <= j < |Shown(s)| && j != i ==> Shown(r)[j] == Shown(s)[j]
  {
    EditIsShownIffSameSide(s, UpdateAt(Shown(s), i, value));
    Edit(s, UpdateAt(Shown(s), i, value))
  }

  /** `removeArrayItem(i)` on the shown list. */
  function RemoveArrayItem(s: Routed<seq<string>>, i: int): (r: Routed<seq<string>>)
    ensures s.prop.passesValue == s.prop.passesSetter ==> Shown(r) == RemoveAt(Shown(s), i)
    ensures s.prop.passesValue == s.prop.passesSetter && 0 <= i < |Shown(s)| ==>
      |Shown(r)| == |Shown(s)| - 1
  {
    EditIsShownIffSameSide(s, RemoveAt(Shown(s), i));
    Edit(s, RemoveAt(Shown(s), i))
  }

  /** Adding an entry and removing it again leaves the shown list as it was. */
  lemma AddThenRemoveArrayItem(s: Routed<seq<string>>)
    requires s.prop.passesValue == s.prop.passesSetter
    ensures Shown(RemoveArrayItem(AddArrayItem(s), |Shown(s)|)) == Shown(s)
  {
    var added := AddArrayItem(s);
    assert added.prop.passesValue == added.prop.passesSetter;
    RemoveAddedItem(Shown(s), "");
  }

  // ---------------------------------------------------------------------------
  // Website link
  // ---------------------------------------------------------------------------

  /** The link target: the text itself when it starts with "http", else "https://" and
      the text. */
  function WebsiteHref(w: string): (href: string)
    ensures StartsWith(href, "http")
    ensures |w| <= |href| && href[|href| - |w|..] == w
    ensures StartsWith(w, "http") <==> href == w
  {
    if StartsWith(w, "http") then w else "https://" + w
  }

  /** The link label: the text with one leading "http://" or "https://" removed. */
  function WebsiteLabel(w: string): (text: string)
    ensures |text| <= |w| && w[|w| - |text|..] == text
    ensures !StartsWith(w, "http") ==> text == w
    ensures !StartsWith(w, "https://") && !StartsWith(w, "http://") ==> text == w
    ensures StartsWith(w, "https://") ==> "https://" + text == w
    ensures !StartsWith(w, "https://") && StartsWith(w, "http://") ==> "http://" + text == w
  {
    if StartsWith(w, "https://") then w[8..]
    else if StartsWith(w, "http://") then w[7..]
    else w
  }

  /** A link target is never changed by deriving it again. */
  lemma WebsiteHrefIdempotent(w: string)
    ensures WebsiteHref(WebsiteHref(w)) == WebsiteHref(w)
  {
  }

  /** A website stored without a scheme is labelled by itself: the label of the derived
      target gives the stored text back. */
  lemma LabelOfHref(w: string)
    requires !StartsWith(w, "http")
    ensures WebsiteLabel(WebsiteHref(w)) == w
  {
    var href := "https://" + w;
    assert StartsWith(href, "https://");
    assert href[8..] == w;
  }

  /** For a stored target with a scheme, the label is what follows the scheme, and the
      target is the scheme followed by the label. */
  lemma HrefIsSchemeAndLabel(w: string)
    requires StartsWith(w, "https://") || StartsWith(w, "http://")
    ensures WebsiteHref(w) == w
    ensures w == (if StartsWith(w, "https://") then "https://" else "http://") + WebsiteLabel(w)
  {
    if StartsWith(w, "https://") {
      assert w == w[..8] + w[8..];
    } else {
      assert w == w[..7] + w[7..];
    }
  }
}
