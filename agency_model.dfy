/**
 * The agency record of the catalog, the partial update object the store merges
 * into it, and the normalisation helpers the forms share: comma-separated tag
 * parsing, "trimmed or undefined" text and "non-empty or undefined" lists.
 */
module AgencyModel {
  import opened Wrappers
  import opened JsStrings

  /** One point of contact. */
  datatype Contact = Contact(name: string, email: string)

  /** An agency record; a field holding None is undefined. */
  datatype AgencyData = AgencyData(
    id: string,
    name: string,
    initials: string,
    status: string,
    description: string,
    tags: seq<string>,
    website: Option<string>,
    samples: Option<bool>,
    synthetic: Option<bool>,
    ots: Option<bool>,
    poc: Option<seq<Contact>>,
    industry: Option<string>,
    useCase: Option<seq<string>>,
    service: Option<seq<string>>,
    modality: Option<seq<string>>,
    location: Option<string>,
    otsDataList: Option<seq<string>>)

  /**
   * A partial record, as passed to the store's update: None is a key the update
   * object does not have; Some(v) a key it has, with value v. For the optional
   * fields v may itself be None, a key present with the value undefined.
   */
  datatype AgencyUpdate = AgencyUpdate(
    id: Option<string>,
    name: Option<string>,
    initials: Option<string>,
    status: Option<string>,
    description: Option<string>,
    tags: Option<seq<string>>,
    website: Option<Option<string>>,
    samples: Option<Option<bool>>,
    synthetic: Option<Option<bool>>,
    ots: Option<Option<bool>>,
    poc: Option<Option<seq<Contact>>>,
    industry: Option<Option<string>>,
    useCase: Option<Option<seq<string>>>,
    service: Option<Option<seq<string>>>,
    modality: Option<Option<seq<string>>>,
    location: Option<Option<string>>,
    otsDataList: Option<Option<seq<string>>>)

  /** The update object with no keys. */
  const NoChanges := AgencyUpdate(None, None, None, None, None, None, None, None, None,
                                  None, None, None, None, None, None, None, None)

  /** The value of a key after a spread: the update's when it has the key. */
  function Override<T>(key: Option<T>, current: T): T {
    key.GetOr(current)
  }

  /** `{ ...agency, ...updates }`: every key of the update replaces that field. */
  function ApplyUpdate(a: AgencyData, u: AgencyUpdate): (r: AgencyData)
    ensures u == NoChanges ==> r == a
    ensures u.id.Some? ==> r.id == u.id.value
    ensures u.id.None? ==> r.id == a.id
    ensures u.name.Some? ==> r.name == u.name.value
    ensures u.name.None? ==> r.name == a.name
    ensures u.initials.Some? ==> r.initials == u.initials.value
    ensures u.initials.None? ==> r.initials == a.initials
    ensures u.status.Some? ==> r.status == u.status.value
    ensures u.status.None? ==> r.status == a.status
    ensures u.description.Some? ==> r.description == u.description.value
    ensures u.description.None? ==> r.description == a.description
    ensures u.tags.Some? ==> r.tags == u.tags.value
    ensures u.tags.None? ==> r.tags == a.tags
    ensures u.website.Some? ==> r.website == u.website.value
    ensures u.website.None? ==> r.website == a.website
    ensures u.samples.Some? ==> r.samples == u.samples.value
    ensures u.samples.None? ==> r.samples == a.samples
    ensures u.synthetic.Some? ==> r.synthetic == u.synthetic.value
    ensures u.synthetic.None? ==> r.synthetic == a.synthetic
    ensures u.ots.Some? ==> r.ots == u.ots.value
    ensures u.ots.None? ==> r.ots == a.ots
    ensures u.poc.Some? ==> r.poc == u.poc.value
    ensures u.poc.None? ==> r.poc == a.poc
    ensures u.industry.Some? ==> r.industry == u.industry.value
    ensures u.industry.None? ==> r.industry == a.industry
    ensures u.useCase.Some? ==> r.useCase == u.useCase.value
    ensures u.useCase.None? ==> r.useCase == a.useCase
    ensures u.service.Some? ==> r.service == u.service.value
    ensures u.service.None? ==> r.service == a.service
    ensures u.modality.Some? ==> r.modality == u.modality.value
    ensures u.modality.None? ==> r.modality == a.modality
    ensures u.location.Some? ==> r.location == u.location.value
    ensures u.location.None? ==> r.location == a.location
    ensures u.otsDataList.Some? ==> r.otsDataList == u.otsDataList.value
    ensures u.otsDataList.None? ==> r.otsDataList == a.otsDataList
  {
    AgencyData(
      Override(u.id, a.id), Override(u.name, a.name), Override(u.initials, a.initials),
      Override(u.status, a.status), Override(u.description, a.description), Override(u.tags, a.tags),
      Override(u.website, a.website), Override(u.samples, a.samples), Override(u.synthetic, a.synthetic),
      Override(u.ots, a.ots), Override(u.poc, a.poc), Override(u.industry, a.industry),
      Override(u.useCase, a.useCase), Override(u.service, a.service), Override(u.modality, a.modality),
      Override(u.location, a.location), Override(u.otsDataList, a.otsDataList))
  }

  /** Two records with equal fields are equal: the closing step of `UpdateOfOwnValues`,
      `PublishUneditedAccordion` and `DisplayMatchesPublish`. */
  lemma SameFields(a: AgencyData, b: AgencyData)
    requires a.id == b.id && a.name == b.name && a.initials == b.initials && a.status == b.status
    requires a.description == b.description && a.tags == b.tags && a.website == b.website
    requires a.samples == b.samples && a.synthetic == b.synthetic && a.ots == b.ots && a.poc == b.poc
    requires a.industry == b.industry && a.useCase == b.useCase && a.service == b.service
    requires a.modality == b.modality && a.location == b.location && a.otsDataList == b.otsDataList
    ensures a == b
  {
  }

  /** An update without id and initials keys whose every other key holds the record's own
      value changes nothing. */
  lemma UpdateOfOwnValues(a: AgencyData, u: AgencyUpdate)
    requires u.id.None? && u.initials.None? && u.name == Some(a.name) && u.status == Some(a.status)
    requires u.description == Some(a.description) && u.tags == Some(a.tags)
    requires u.website == Some(a.website) && u.samples == Some(a.samples)
    requires u.synthetic == Some(a.synthetic) && u.ots == Some(a.ots) && u.poc == Some(a.poc)
    requires u.industry == Some(a.industry) && u.useCase == Some(a.useCase)
    requires u.service == Some(a.service) && u.modality == Some(a.modality)
    requires u.location == Some(a.location) && u.otsDataList == Some(a.otsDataList)
    ensures ApplyUpdate(a, u) == a
  {
    SameFields(ApplyUpdate(a, u), a);
  }

  /** Applying the same update twice is applying it once. */
  lemma ApplyUpdateIdempotent(a: AgencyData, u: AgencyUpdate)
    ensures ApplyUpdate(ApplyUpdate(a, u), u) == ApplyUpdate(a, u)
  {
  }

  // ---------------------------------------------------------------------------
  // Tags: `s.split(",").map(tag => tag.trim()).filter(Boolean)`
  // ---------------------------------------------------------------------------

  /** A tag as the forms produce it: non-empty, trimmed, without a comma. */
  predicate IsTag(t: string) {
    t != "" && IsTrimmed(t) && ',' !in t
  }

  /** `.map(s => s.trim())` */
  function TrimEach(xs: seq<string>): (r: seq<string>)
    ensures |r| == |xs| && forall i :: 0 <= i < |xs| ==> r[i] == Trim(xs[i])
  {
    if xs == [] then [] else [Trim(xs[0])] + TrimEach(xs[1..])
  }

  /** `.filter(Boolean)` on strings: drops the empty ones and keeps the order. */
  function DropEmpty(xs: seq<string>): (r: seq<string>)
    ensures forall i :: 0 <= i < |r| ==> r[i] != "" && r[i] in xs
    ensures forall s :: s in xs && s != "" ==> s in r
  {
    if xs == [] then []
    else if xs[0] == "" then DropEmpty(xs[1..])
    else [xs[0]] + DropEmpty(xs[1..])
  }

  /** `.map(s => s.trim())` keeps the order: it distributes over concatenation. */
  lemma {:induction false} TrimEachAppend(xs: seq<string>, ys: seq<string>)
    ensures TrimEach(xs + ys) == TrimEach(xs) + TrimEach(ys)
  {
    var a, b := TrimEach(xs), TrimEach(ys);
    var l, r := TrimEach(xs + ys), a + b;
    assert |l| == |r|;
    forall i | 0 <= i < |l|
      ensures l[i] == r[i]
    {
      if i < |xs| {
        assert (xs + ys)[i] == xs[i] && r[i] == a[i];
      } else {
        assert (xs + ys)[i] == ys[i - |xs|] && r[i] == b[i - |xs|];
      }
    }
  }

  /** `.filter(Boolean)` keeps the order and the repeats: it distributes over
      concatenation, and one entry is kept exactly when it is not empty. */
  lemma {:induction false} DropEmptyAppend(xs: seq<string>, ys: seq<string>)
    ensures DropEmpty(xs + ys) == DropEmpty(xs) + DropEmpty(ys)
    ensures DropEmpty([""]) == [] && forall x :: x != "" ==> DropEmpty([x]) == [x]
  {
    if xs == [] {
      assert xs + ys == ys;
    } else {
      assert (xs + ys)[0] == xs[0] && (xs + ys)[1..] == xs[1..] + ys;
      DropEmptyAppend(xs[1..], ys);
      if xs[0] != "" {
        assert [xs[0]] + DropEmpty(xs[1..]) + DropEmpty(ys) == [xs[0]] + (DropEmpty(xs[1..]) + DropEmpty(ys));
      }
    }
    forall x | x != "" ensures DropEmpty([x]) == [x] {
      assert [x][1..] == [];
    }
  }

  /** The tag list typed as comma-separated text: every piece trimmed, empty pieces
      dropped. A tag is parsed exactly when some piece trims to it. */
  function ParseTags(s: string): (tags: seq<string>)
    ensures forall i :: 0 <= i < |tags| ==> IsTag(tags[i])
    ensures forall t :: t in tags <==> t != "" && exists p :: p in Split(s, ',') && Trim(p) == t
  {
    var pieces := Split(s, ',');
    var trimmed := TrimEach(pieces);
    forall i | 0 <= i < |trimmed| ensures ',' !in trimmed[i] {
      TrimOmitsAbsent(pieces[i], ',');
    }
    DropEmpty(trimmed)
  }

  /** Text before and after a comma parses to the tags before it, then the tags after it:
      parsing keeps the order of the pieces. */
  lemma ParseTagsOfConcat(a: string, b: string)
    ensures ParseTags(a + [','] + b) == ParseTags(a) + ParseTags(b)
  {
    SplitConcat(a, ',', b);
    TrimEachAppend(Split(a, ','), Split(b, ','));
    DropEmptyAppend(TrimEach(Split(a, ',')), TrimEach(Split(b, ',')));
  }

  /** Text without a comma is one piece: no tag when blank, else its trimmed text. */
  lemma ParseTagsOfPiece(p: string)
    requires ',' !in p
    ensures IsBlank(p) ==> ParseTags(p) == []
    ensures !IsBlank(p) ==> ParseTags(p) == [Trim(p)]
  {
    SplitWithoutSeparator(p, ',');
    assert TrimEach([p]) == [Trim(p)];
    DropEmptyAppend([], []);
  }

  /** A space after the separator does not change the parsed tags. */
  lemma ParseTagsSkipsLeadingSpace(s: string)
    ensures ParseTags([' '] + s) == ParseTags(s)
  {
    var rest := Split(s, ',');
    assert ([' '] + s)[1..] == s;
    assert Split([' '] + s, ',') == [[' '] + rest[0]] + rest[1..];
    TrimSkipsLeadingWhitespace(' ', rest[0]);
    assert TrimEach(Split([' '] + s, ',')) == TrimEach(rest);
  }

  /** A leading tag and its separator contribute exactly that tag. */
  lemma ParseTagsAfterTag(t: string, s: string)
    requires IsTag(t)
    ensures ParseTags(t + [','] + s) == [t] + ParseTags(s)
  {
    SplitAfterPiece(t, ',', s);
    TrimOfTrimmed(t);
    assert TrimEach([t] + Split(s, ',')) == [t] + TrimEach(Split(s, ','));
  }

  /** An empty tag text gives no tags. */
  lemma ParseTagsOfEmpty()
    ensures ParseTags("") == []
  {
    assert Split("", ',') == [""];
    assert Trim("") == "";
    assert TrimEach([""]) == [""];
  }

  /** One tag on its own parses to itself. */
  lemma ParseTagsOfOne(t: string)
    requires IsTag(t)
    ensures ParseTags(t) == [t]
  {
    SplitWithoutSeparator(t, ',');
    TrimOfTrimmed(t);
    assert TrimEach([t]) == [t];
    assert DropEmpty([t]) == [t] + DropEmpty([]);
  }

  /** A tag followed by ", " and more text contributes that tag, then the text's tags:
      the inductive step of `ParseJoinedTags`. */
  lemma ParseTagsAfterSeparator(t: string, rest: string)
    requires IsTag(t)
    ensures ParseTags(t + [','] + ([' '] + rest)) == [t] + ParseTags(rest)
  {
    ParseTagsAfterTag(t, [' '] + rest);
    ParseTagsSkipsLeadingSpace(rest);
  }

  /** Joining two or more pieces: the first, then ", ", then the rest joined; used by
      `ParseJoinedTags`. */
  lemma JoinWithComma(xs: seq<string>)
    requires |xs| >= 2
    ensures Join(xs, ", ") == xs[0] + [','] + ([' '] + Join(xs[1..], ", "))
  {
  }

  /** Parsing tags joined with ", " gives the tags back: seeding a form from a record and
      publishing it leaves the tags as they were. */
  lemma {:induction false} ParseJoinedTags(tags: seq<string>)
    requires forall i :: 0 <= i < |tags| ==> IsTag(tags[i])
    ensures ParseTags(Join(tags, ", ")) == tags
  {
    if |tags| == 0 {
      ParseTagsOfEmpty();
    } else if |tags| == 1 {
      ParseTagsOfOne(tags[0]);
    } else {
      JoinWithComma(tags);
      ParseTagsAfterSeparator(tags[0], Join(tags[1..], ", "));
      ParseJoinedTags(tags[1..]);
      assert [tags[0]] + tags[1..] == tags;
    }
  }

  // ---------------------------------------------------------------------------
  // Optional text and lists
  // ---------------------------------------------------------------------------

  /** `s.trim() || undefined` */
  function TrimmedOrUndefined(s: string): (r: Option<string>)
    ensures r.None? <==> IsBlank(s)
    ensures r.Some? ==> r.value == Trim(s) && r.value != "" && IsTrimmed(r.value)
  {
    var t := Trim(s);
    if t == "" then None else Some(t)
  }

  /** `xs.length > 0 ? xs : undefined` */
  function NonEmptyOrUndefined<T>(xs: seq<T>): (r: Option<seq<T>>)
    ensures r.None? <==> xs == []
    ensures r.Some? ==> r.value == xs
  {
    if |xs| > 0 then Some(xs) else None
  }

  /** An optional text field as the forms store it: undefined, or trimmed and non-empty. */
  predicate NormalText(o: Option<string>) {
    o.None? || (o.value != "" && IsTrimmed(o.value))
  }

  /** An optional list as the forms store it: undefined, or non-empty. */
  predicate NormalList<T>(o: Option<seq<T>>) {
    o.None? || |o.value| > 0
  }

  /** Round trip of an optional text field through a form: `o || ""`, then publish. */
  lemma NormalTextRoundTrip(o: Option<string>)
    requires NormalText(o)
    ensures TrimmedOrUndefined(o.GetOr("")) == o
  {
    if o.Some? {
      TrimOfTrimmed(o.value);
    }
  }

  /** Round trip of an optional list through a form: `o || []`, then publish. */
  lemma NormalListRoundTrip<T>(o: Option<seq<T>>)
    requires NormalList(o)
    ensures NonEmptyOrUndefined(o.GetOr([])) == o
  {
    if o.Some? {
      assert o.GetOr([]) == o.value;
    }
  }

  /** The accordion fields of a record are as the publish handlers leave them. */
  predicate NormalAccordion(a: AgencyData) {
    && NormalText(a.website) && NormalText(a.industry) && NormalText(a.location)
    && NormalList(a.poc) && NormalList(a.useCase) && NormalList(a.service)
    && NormalList(a.modality) && NormalList(a.otsDataList)
  }

  /** A record as the add dialog and the publish handler write it: parsed tags, every flag
      defined, and normal accordion fields. */
  predicate Normalized(a: AgencyData) {
    && (forall i :: 0 <= i < |a.tags| ==> IsTag(a.tags[i]))
    && a.samples.Some? && a.synthetic.Some? && a.ots.Some?
    && NormalAccordion(a)
  }
}
