# Agency catalog — a Dafny model

This project models the data handling of the agency catalog, a single-page web application.
The catalog lists data agencies. Each agency is a record with:

- an id, a name, initials, a status and a description;
- tags;
- optional website, industry and location texts;
- optional points of contact and lists of use cases, services, modalities and off-the-shelf data;
- three optional flags: samples, synthetic and off-the-shelf.

The model covers:

- **The record store** (`agency_context.dfy`, `initial_agencies.dfy`). The store holds the list of records. It supports:
  - add, which assigns the next numeric id;
  - update, a shallow per-id merge;
  - delete, a filter by id;
  - lookup by exact name;
  - the start-up merge of the stored list with the 29 built-in seed records.
- **The agency editor** (`editable_agency.dfy`). It seeds a form from the committed record or from a saved draft. It can:
  - publish the normalized form into the store;
  - save the raw form as a draft, keyed by the agency's id;
  - cancel.

  While not editing, it shows the committed record overlaid with the draft.
- **The accordion editor** (`editable_accordion.dfy`) does the same for the eight accordion fields only, and keeps no drafts.
- **The accordion sections** (`accordion_sections.dfy`, `form_lists.dfy`). Each field is taken either from the parent page's state or from the accordion hook. The sections hold the list add/update/remove buttons and derive the website link.
- **The catalog page** (`catalog_index.dfy`) provides:
  - search and the four filters;
  - 21-item pagination and the page buttons;
  - multi-select toggles;
  - the distinct status list;
  - the CSV export text.
- **The add-agency dialog** (`add_agency_dialog.dfy`). It validates the form and normalizes it into a record, with a status that depends on the button. It then resets the form.
- **The status table** (`agency_status.dfy`): a name-to-status table with an "in-progress" fallback.
- **The PDF viewer's page navigation** (`pdf_viewer.dfy`): previous, next, a typed page and a thumbnail each set the page number and the page box together. A page number inside the document stays inside it. Before the document loads there are no pages, so "next" from page 1 goes to page 0, as the code does.

The JavaScript built-ins the code relies on are modelled in `js_strings.dfy`:

- `trim` uses the ECMAScript white-space set;
- `split` and `join`;
- `includes`, `startsWith`, `toLowerCase` and `toUpperCase`;
- `parseInt`, with leading white space, a sign, a `0x` prefix and a longest digit prefix, where NaN is `None`;
- `String(n)`.

A record field that JavaScript leaves `undefined` is `None`.

A partial update object (`Partial<AgencyData>`) is an `AgencyUpdate`:

- a key the object lacks is `None`;
- a key that is present is `Some(v)`;
- for optional fields, `v` may itself be `None`, meaning a key present with value `undefined`.

`ApplyUpdate` is the object spread `{ ...record, ...updates }`.

React state that one handler sets field by field is one value of a datatype, which the model's methods reassign. React applies all the setters of a handler together, so the state after the handler is one value.

## Model

| member | source | states |
|---|---|---|
| AgencyModel.ApplyUpdate | src/contexts/AgencyContext.tsx:427 | An update without keys returns the record unchanged. For each of the seventeen fields, a present key replaces the field with its value, and a missing key keeps the record's field. |
| AgencyModel.UpdateOfOwnValues | src/contexts/AgencyContext.tsx:427 | An update whose keys all carry the record's own values leaves the record unchanged. |
| AgencyModel.ApplyUpdateIdempotent | src/contexts/AgencyContext.tsx:427 | Merging the same update twice is merging it once. |
| AgencyModel.ParseTags | src/hooks/useEditableAgency.tsx:128 | A text is a tag exactly when it is non-empty and is the trimmed text of some comma-separated piece. Every tag is trimmed and free of commas. |
| AgencyModel.TrimEach | src/hooks/useEditableAgency.tsx:128 | Same length as the input; each entry is the trimmed input entry. |
| AgencyModel.DropEmpty | src/hooks/useEditableAgency.tsx:128 | Keeps exactly the non-empty entries: every kept entry is non-empty and from the input, and every non-empty input entry is kept. `DropEmptyAppend` states the order. |
| AgencyModel.TrimEachAppend | src/hooks/useEditableAgency.tsx:128 | Trimming each entry distributes over concatenation. |
| AgencyModel.DropEmptyAppend | src/hooks/useEditableAgency.tsx:128 | Dropping empty entries distributes over concatenation, so kept entries keep their order; a single entry is dropped exactly when empty. |
| AgencyModel.ParseTagsOfConcat | src/hooks/useEditableAgency.tsx:128 | The tags of two texts joined by a comma are the tags of the first followed by those of the second. |
| AgencyModel.ParseTagsOfPiece | src/hooks/useEditableAgency.tsx:128 | A text without a comma gives no tag when blank, and otherwise its trimmed text as the only tag. |
| AgencyModel.ParseJoinedTags | src/hooks/useEditableAgency.tsx:107 | Parsing tags joined with ", " gives the same tags back, so seeding a form and publishing it keeps the tags. |
| AgencyModel.ParseTagsSkipsLeadingSpace | src/hooks/useEditableAgency.tsx:128 | A space at the front of the text does not change the parsed tags. |
| AgencyModel.ParseTagsAfterTag | src/hooks/useEditableAgency.tsx:128 | A leading tag followed by a comma contributes exactly that tag. |
| AgencyModel.ParseTagsOfEmpty | src/hooks/useEditableAgency.tsx:128 | Empty tag text gives no tags. |
| AgencyModel.ParseTagsOfOne | src/hooks/useEditableAgency.tsx:128 | A single tag parses to itself. |
| AgencyModel.TrimmedOrUndefined | src/hooks/useEditableAgency.tsx:142-144 | Undefined exactly when the text is blank. Otherwise the value is the trimmed text, which is non-empty. |
| AgencyModel.NonEmptyOrUndefined | src/hooks/useEditableAgency.tsx:145-149 | Undefined exactly when the list is empty; otherwise the list itself. |
| AgencyModel.NormalTextRoundTrip | src/hooks/useEditableAgency.tsx:113 | A text field that is undefined or trimmed and non-empty survives `o \|\| ""` followed by trim-or-undefined. |
| AgencyModel.NormalListRoundTrip | src/hooks/useEditableAgency.tsx:116 | A list field that is undefined or non-empty survives `o \|\| []` followed by non-empty-or-undefined. |
| InitialAgencies.Seeds | src/contexts/AgencyContext.tsx:33-382 | There are 29 seed records, each the record written at that position of the source list. |
| AgencyContext.FindByName | src/contexts/AgencyContext.tsx:446-448 | None exactly when no record has that name (exact comparison); otherwise a record of the list with that name. |
| AgencyContext.FindByNameIsFirst | src/contexts/AgencyContext.tsx:447 | The lookup returns the first record with the name. |
| AgencyContext.FindById | src/contexts/AgencyContext.tsx:394 | None exactly when no stored record has that id; otherwise a record with that id. |
| AgencyContext.FindByIdIsFirst | src/contexts/AgencyContext.tsx:394 | The lookup returns the first stored record with the id. |
| AgencyContext.UpdateById | src/contexts/AgencyContext.tsx:424-431 | The length is kept. Records with another id are unchanged. Records with the id receive the merged update. |
| AgencyContext.UpdateUnknownIdIsNoOp | src/contexts/AgencyContext.tsx:424-431 | Updating an id no record has leaves the list unchanged. |
| AgencyContext.RemoveById | src/contexts/AgencyContext.tsx:442-444 | A record is in the result exactly when it was in the list and has another id. |
| AgencyContext.RemoveByIdAppend | src/contexts/AgencyContext.tsx:443 | Removal distributes over concatenation, so the remaining records keep their order. |
| AgencyContext.RemoveUnknownIdIsNoOp | src/contexts/AgencyContext.tsx:442-444 | Deleting an id no record has leaves the list unchanged. |
| AgencyContext.ParsedIds | src/contexts/AgencyContext.tsx:434 | Each entry is `parseInt` of the matching record's id. |
| AgencyContext.MaxWithZero | src/contexts/AgencyContext.tsx:434 | NaN exactly when some id is NaN. Otherwise the result is at least 0 and at least every id, and, when above 0, equal to some id. |
| AgencyContext.NextIdIsAboveAll | src/contexts/AgencyContext.tsx:434 | When all ids are numeric, the new id parses to a number that is at least 1 and above every existing id. It differs from every id, and it is "1" for an empty store. |
| AgencyContext.Overlay | src/contexts/AgencyContext.tsx:397 | The required fields come from the stored record. Each of the eleven optional fields comes from the stored record when it defines it, and otherwise from the seed. |
| AgencyContext.OverlayOfCompleteRecord | src/contexts/AgencyContext.tsx:397 | A stored record that defines every field replaces the seed completely. |
| AgencyContext.MergedSeed | src/contexts/AgencyContext.tsx:393-400 | The merged record keeps the seed's id. A seed with no stored record of its id is returned unchanged. Otherwise the seed is overlaid by the first stored record with its id. |
| AgencyContext.MergeSeeds | src/contexts/AgencyContext.tsx:393-400 | One merged record per seed, in seed order. |
| AgencyContext.Ids | src/contexts/AgencyContext.tsx:402 | Exactly the ids of the records. |
| AgencyContext.WithoutIds | src/contexts/AgencyContext.tsx:403 | A record is kept exactly when its id is not in the set. `WithoutIdsAppend` states the order. |
| AgencyContext.WithoutIdsAppend | src/contexts/AgencyContext.tsx:403 | Filtering by ids distributes over concatenation, so the kept records keep their order. |
| AgencyContext.MergeKeepsIds | src/contexts/AgencyContext.tsx:402 | The merged seeds have exactly the seeds' ids. |
| AgencyContext.LoadAgencies | src/contexts/AgencyContext.tsx:387-410 | Without a parsed list the result is the seed list. Otherwise it starts with the merge of each seed, in seed order, and ends with the stored records whose ids are not seed ids. |
| AgencyContext.UnstoredSeedLoadsUnchanged | src/contexts/AgencyContext.tsx:393-398 | A seed with no stored record of its id loads exactly as written. |
| AgencyContext.SeedIdsSurviveLoad | src/contexts/AgencyContext.tsx:393-400 | Every seed id is present after loading, even when the stored list lacks it. |
| AgencyContext.StoredRecordOverlaysSeed | src/contexts/AgencyContext.tsx:394-397 | Seed `i` is overlaid by the first stored record with its id. |
| AgencyContext.NewStoredRecordSurvivesLoad | src/contexts/AgencyContext.tsx:403-404 | A stored record whose id is not a seed id is in the loaded list. |
| AgencyContext.ClearedSeedWebsiteReturnsOnLoad | src/contexts/AgencyContext.tsx:397 | A seed website cleared to undefined comes back after storing and reloading, because the key is not stored. |
| AgencyContext.AgencyStore.constructor | src/contexts/AgencyContext.tsx:413 | The store starts with the loaded list. |
| AgencyContext.AgencyStore.UpdateAgency | src/contexts/AgencyContext.tsx:424-431 | The new list is the per-id merge of the old one. |
| AgencyContext.AgencyStore.AddAgency | src/contexts/AgencyContext.tsx:433-440 | The new list is the old list with one record appended, carrying the next id. |
| AgencyContext.AgencyStore.DeleteAgency | src/contexts/AgencyContext.tsx:442-444 | The new list is the old one without the records with that id. |
| AgencyContext.AgencyStore.GetAgencyByName | src/contexts/AgencyContext.tsx:446-448 | Returns the first record with exactly that name, if any. |
| EditableAgency.DraftKey | src/hooks/useEditableAgency.tsx:25-27 | The key is "agency_drafts", then "_", then the id. |
| EditableAgency.DraftKeyInjective | src/hooks/useEditableAgency.tsx:25-27 | Distinct ids have distinct draft keys. |
| EditableAgency.CommittedForm | src/hooks/useEditableAgency.tsx:104-120 | Name, description and status are copied, and the tag text is the tags joined with ", ". Each text box holds the record's text, or "" when undefined. Each list holds the record's list, or [] when undefined. Each box is ticked exactly when its flag is defined and true. |
| EditableAgency.SeededForm | src/hooks/useEditableAgency.tsx:80-121 | The draft when one exists, else the form built from the committed record. |
| EditableAgency.PublishUpdate | src/hooks/useEditableAgency.tsx:128-150 | No id or initials key. Name, status and description are the form's. The tags are the parsed tag text, and the three flags are the form's boxes. Each text is trimmed or undefined, and each list is non-empty or undefined. |
| EditableAgency.PublishNormalizes | src/hooks/useEditableAgency.tsx:128-150 | A published record is normalized whatever the form holds, and keeps its id and initials. |
| EditableAgency.PublishUneditedForm | src/hooks/useEditableAgency.tsx:104-150 | Publishing the form seeded from a normalized record, without edits, leaves the record unchanged. |
| EditableAgency.PublishedCommittedTags | src/hooks/useEditableAgency.tsx:107 | Tags joined and re-parsed are the record's tags. |
| EditableAgency.PublishedCommittedTexts | src/hooks/useEditableAgency.tsx:142-144 | Normal texts round-trip through the form. |
| EditableAgency.PublishedCommittedRest | src/hooks/useEditableAgency.tsx:133-149 | Every other published key carries the record's own value. |
| EditableAgency.PublishedRecordsAreNormalized | src/hooks/useEditableAgency.tsx:131 | After a publish, every record with the published id is normalized. |
| EditableAgency.DisplayAgency | src/hooks/useEditableAgency.tsx:244-268 | Without a draft, or while editing, the committed record is shown. With a draft, name, description, status, parsed tags and flags come from the draft, and id and initials from the record. Each text and list is the draft's when non-empty, else the committed value. |
| EditableAgency.TextOr | src/hooks/useEditableAgency.tsx:257-259 | The draft text when non-empty, else the committed value. |
| EditableAgency.ListOr | src/hooks/useEditableAgency.tsx:260-264 | The draft list when non-empty, else the committed value. |
| EditableAgency.DisplayMatchesPublish | src/hooks/useEditableAgency.tsx:244-268 | For a trimmed draft whose empty fields are undefined in the record, the preview equals what publishing would store. |
| EditableAgency.DraftOverKeepsPublishedTexts | src/hooks/useEditableAgency.tsx:257-259 | Under those conditions the previewed texts are the published texts. |
| EditableAgency.DraftOverKeepsPublishedLists | src/hooks/useEditableAgency.tsx:260-264 | Under those conditions the previewed lists are the published lists. |
| EditableAgency.DraftOverKeepsPublishedFields | src/hooks/useEditableAgency.tsx:248-256 | The previewed required fields and flags are the published ones. |
| EditableAgency.ShownTextIsPublished | src/hooks/useEditableAgency.tsx:257 | A trimmed draft text shows what publishing stores. |
| EditableAgency.ClearedWebsitePreviewDiffers | src/hooks/useEditableAgency.tsx:142 | A draft that clears the website still previews the committed website, while publishing clears it. |
| EditableAgency.EmptyDraftTagsPreviewNoTags | src/hooks/useEditableAgency.tsx:253 | A draft with empty tag text previews no tags; it does not fall back to the committed tags. |
| EditableAgency.DraftStorage.Draft | src/hooks/useEditableAgency.tsx:29-36 | A draft exists exactly when its key is stored. |
| EditableAgency.DraftStorage.SaveDraft | src/hooks/useEditableAgency.tsx:38-44 | Stores the draft under the id's key; other agencies' drafts are unchanged. |
| EditableAgency.DraftStorage.ClearDraft | src/hooks/useEditableAgency.tsx:46-52 | Removes the id's key; other agencies' drafts are unchanged. |
| EditableAgency.AgencyEditor.constructor | src/hooks/useEditableAgency.tsx:59-78 | Not editing, with an empty form. |
| EditableAgency.AgencyEditor.SetIsEditMode | src/hooks/useEditableAgency.tsx:59 | Sets the edit flag and keeps the form. |
| EditableAgency.AgencyEditor.SetForm | src/hooks/useEditableAgency.tsx:62-78 | Sets the form and keeps the edit flag. |
| EditableAgency.AgencyEditor.LoadAgencyIntoForm | src/hooks/useEditableAgency.tsx:80-123 | The form becomes the seeded form when the agency exists; otherwise nothing changes. |
| EditableAgency.AgencyEditor.HandlePublish | src/hooks/useEditableAgency.tsx:125-161 | Without the agency nothing changes. Otherwise the store receives the publish update for the agency's id, the draft is cleared, edit mode ends, and every record with that id is normalized. |
| EditableAgency.AgencyEditor.Commit | src/hooks/useEditableAgency.tsx:131-160 | Updates the store, clears the draft and ends edit mode. |
| EditableAgency.AgencyEditor.HandleSaveAsDraft | src/hooks/useEditableAgency.tsx:163-195 | The raw form is stored as the agency's draft and edit mode ends. The store is untouched; without the agency nothing changes. |
| EditableAgency.AgencyEditor.HandleCancel | src/hooks/useEditableAgency.tsx:197-241 | The form goes back to the draft or the committed record, and edit mode ends even without the agency. |
| EditableAgency.AgencyEditor.DisplayedAgency | src/hooks/useEditableAgency.tsx:244-268 | Defined exactly when the agency exists. It is the display of the committed record with the agency's draft, so while editing or without a draft it is the committed record. |
| EditableAgency.AgencyEditor.HasDraft | src/hooks/useEditableAgency.tsx:309 | True exactly when the agency exists and its draft key is stored. |
| EditableAccordion.SeededAccordion | src/hooks/useEditableAccordion.tsx:20-31 | Each text box holds the record's text, or "" when undefined. Each list holds the record's list, or [] when undefined. |
| EditableAccordion.AccordionUpdate | src/hooks/useEditableAccordion.tsx:36-45 | None of the nine keys outside the accordion is present. Website, industry and location are trimmed or undefined. The contacts and the four lists are non-empty or undefined. |
| EditableAccordion.AccordionPublishKeepsOtherFields | src/hooks/useEditableAccordion.tsx:36-45 | An accordion publish changes no field outside the accordion. |
| EditableAccordion.AccordionPublishNormalizes | src/hooks/useEditableAccordion.tsx:36-45 | The published accordion fields are normal whatever the form holds. |
| EditableAccordion.PublishUneditedAccordion | src/hooks/useEditableAccordion.tsx:20-45 | Publishing the seeded accordion without edits leaves a record with normal accordion fields unchanged. |
| EditableAccordion.AccordionPublishedRecords | src/hooks/useEditableAccordion.tsx:36 | Every record with the id has normal accordion fields and keeps its other fields. |
| EditableAccordion.AccordionEditor.constructor | src/hooks/useEditableAccordion.tsx:10-18 | Not editing; every field is empty. |
| EditableAccordion.AccordionEditor.SetIsEditMode | src/hooks/useEditableAccordion.tsx:10 | Sets the edit flag and keeps the form. |
| EditableAccordion.AccordionEditor.SetForm | src/hooks/useEditableAccordion.tsx:11-18 | Sets the form and keeps the edit flag. |
| EditableAccordion.AccordionEditor.LoadAgencyIntoForm | src/hooks/useEditableAccordion.tsx:20-31 | The form is seeded from the agency when it exists; otherwise it is unchanged. |
| EditableAccordion.AccordionEditor.HandlePublish | src/hooks/useEditableAccordion.tsx:33-53 | Without the agency nothing at all changes. Otherwise the store receives the accordion update, edit mode ends, and the records with the id have normal accordion fields and keep their names. |
| EditableAccordion.AccordionEditor.Commit | src/hooks/useEditableAccordion.tsx:36-52 | Updates the store and ends edit mode. |
| EditableAccordion.AccordionEditor.HandleCancel | src/hooks/useEditableAccordion.tsx:55-67 | The form goes back to the seeded values, and edit mode ends even without the agency. |
| FormLists.AddItem | src/components/AddAgencyDialog.tsx:188-190 | One more entry, the blank one, at the end; earlier entries are unchanged. |
| FormLists.UpdateAt | src/components/AddAgencyDialog.tsx:192-196 | The length is kept, entry `i` is the new value, and every other entry is unchanged. |
| FormLists.RemoveAt | src/components/AddAgencyDialog.tsx:198-200 | For a valid index the length drops by one and the others keep their order; for any other index the list is unchanged. |
| FormLists.RemoveAddedItem | src/components/AddAgencyDialog.tsx:188-200 | Removing the entry just added gives the list back. |
| FormLists.RemoveAtIsPermutationMinusOne | src/components/AddAgencyDialog.tsx:198-200 | The remaining entries plus the removed one are the original entries, as a multiset. |
| FormLists.WithField | src/components/AddAgencyDialog.tsx:180 | The named field takes the value; the other field is unchanged. |
| FormLists.UpdateContact | src/components/AddAgencyDialog.tsx:178-182 | Only the named field of contact `i` changes. |
| FormLists.FillAddedContact | src/components/AddAgencyDialog.tsx:174-182 | Adding a contact row and filling in both fields appends exactly that contact. |
| AddAgencyDialog.StatusLabel | src/components/AddAgencyDialog.tsx:110-114 | The saved status is never empty and never "in-network". |
| AddAgencyDialog.StatusLabelInjective | src/components/AddAgencyDialog.tsx:110-114 | Distinct choices give distinct statuses. |
| AddAgencyDialog.Initials | src/components/AddAgencyDialog.tsx:70 | At most the first two characters of the trimmed name, upper-cased; non-empty for a non-blank name. |
| AddAgencyDialog.KeepNonBlank | src/components/AddAgencyDialog.tsx:63-66 | Keeps exactly the non-blank entries of the input. `KeepNonBlankAppend` states the order. |
| AddAgencyDialog.KeepCompleteContacts | src/components/AddAgencyDialog.tsx:62 | Keeps exactly the contacts whose name and email are both non-blank. `KeepCompleteContactsAppend` states the order. |
| AddAgencyDialog.KeepNonBlankAppend | src/components/AddAgencyDialog.tsx:63-66 | Filtering distributes over concatenation, so kept entries keep their order; a single entry is kept exactly when it is not blank. |
| AddAgencyDialog.KeepCompleteContactsAppend | src/components/AddAgencyDialog.tsx:62 | Filtering distributes over concatenation, so complete rows keep their order; a single row is kept exactly when it is complete. |
| AddAgencyDialog.KeepNonBlankOfNonBlank | src/components/AddAgencyDialog.tsx:63-66 | A list without blank entries is kept whole, so filtering is idempotent. |
| AddAgencyDialog.EmptyDialogListsAreDropped | src/components/AddAgencyDialog.tsx:40-44 | The initial blank rows are all dropped. |
| AddAgencyDialog.NewAgency | src/components/AddAgencyDialog.tsx:68-85 | An empty id, the given status, the trimmed name and description, and the initials of the name. Tags are parsed and the flags are the form's boxes. Texts are trimmed or undefined. Lists hold the filtered rows, or are undefined when none remain. A form that passes validation gives a non-empty name and description. |
| AddAgencyDialog.NewAgencyIsNormalized | src/components/AddAgencyDialog.tsx:60-84 | Whatever the form holds, the record has parsed tags, defined flags and normal optional fields. |
| AddAgencyDialog.NewAgencyTexts | src/components/AddAgencyDialog.tsx:74-76 | Website, industry and location are trimmed or undefined. |
| AddAgencyDialog.NewAgencyLists | src/components/AddAgencyDialog.tsx:77-81 | Each list is non-empty or undefined. |
| AddAgencyDialog.NewAgencyNameFields | src/components/AddAgencyDialog.tsx:69-72 | Name and description are the trimmed form texts, and the initials are those of both the typed and the trimmed name. |
| AddAgencyDialog.KeptEntries | src/components/AddAgencyDialog.tsx:78 | Undefined exactly when every entry is blank; otherwise exactly the non-blank entries, in the order `KeepNonBlankAppend` gives. |
| AddAgencyDialog.KeptContacts | src/components/AddAgencyDialog.tsx:77 | Undefined exactly when no contact is complete; otherwise exactly the complete contacts, in the order `KeepCompleteContactsAppend` gives. |
| AddAgencyDialog.AddedAgencyPublishesUnchanged | src/components/AddAgencyDialog.tsx:68-85 | An added agency, opened in the editor and published without edits, stays as it was added. |
| AddAgencyDialog.AddedStatusIsShown | src/components/AddAgencyDialog.tsx:71 | A submitted agency shows as "in-network". A drafted agency shows its chosen status, which is never "in-network". |
| AddAgencyDialog.AddAgencyDialogState.constructor | src/components/AddAgencyDialog.tsx:34-48 | The form starts as the initial form. |
| AddAgencyDialog.AddAgencyDialogState.SetForm | src/components/AddAgencyDialog.tsx:34-48 | Sets the form and keeps the dialog open or closed. |
| AddAgencyDialog.AddAgencyDialogState.HandleSubmit | src/components/AddAgencyDialog.tsx:50-95 | With a blank name or description nothing changes. Otherwise one record with status "in-network" and the next id is appended, the form is reset and the dialog closes. |
| AddAgencyDialog.AddAgencyDialogState.HandleSaveAsDraft | src/components/AddAgencyDialog.tsx:97-149 | The same, with the mapped status chosen in the form. |
| AddAgencyDialog.AddAgencyDialogState.Add | src/components/AddAgencyDialog.tsx:68-94 | Appends the record, resets the form and closes the dialog. |
| AddAgencyDialog.AddAgencyDialogState.ResetForm | src/components/AddAgencyDialog.tsx:151-167 | The form is the initial form again. |
| AddAgencyDialog.AddAgencyDialogState.HandleCancel | src/components/AddAgencyDialog.tsx:169-172 | Resets the form and closes the dialog; the store is untouched. |
| AccordionSections.Shown | src/components/EditableAccordionSections.tsx:71 | The parent's value when it passes one, else the hook's. |
| AccordionSections.Edit | src/components/EditableAccordionSections.tsx:72 | The parent's state changes when it passes a setter, else the hook's; the other side is unchanged. |
| AccordionSections.EditIsShownIffSameSide | src/components/EditableAccordionSections.tsx:71-72 | An edit is shown when value and setter come from the same side; otherwise the shown value does not change. |
| AccordionSections.ShownForm | src/components/EditableAccordionSections.tsx:71-86 | Each of the eight shown fields is the parent's value when the parent passes it, and the hook's value otherwise. |
| AccordionSections.NoExternalShowsHook | src/components/EditableAccordionSections.tsx:71-86 | Without parent values, the hook's form is shown. |
| AccordionSections.AddPocContact | src/components/EditableAccordionSections.tsx:98-100 | With consistent wiring, the shown contacts gain one blank contact at the end. |
| AccordionSections.UpdatePocContact | src/components/EditableAccordionSections.tsx:102-106 | With consistent wiring, only the named field of contact `i` changes. |
| AccordionSections.RemovePocContact | src/components/EditableAccordionSections.tsx:108-110 | With consistent wiring, the shown contacts lose exactly entry `i`. |
| AccordionSections.AddArrayItem | src/components/EditableAccordionSections.tsx:112-114 | With consistent wiring, the shown list gains one empty entry. |
| AccordionSections.UpdateArrayItem | src/components/EditableAccordionSections.tsx:116-120 | With consistent wiring, only entry `i` changes and the length is kept. |
| AccordionSections.RemoveArrayItem | src/components/EditableAccordionSections.tsx:122-124 | With consistent wiring, the shown list loses exactly entry `i`. |
| AccordionSections.AddThenRemoveArrayItem | src/components/EditableAccordionSections.tsx:112-124 | Adding then removing the new entry gives the shown list back. |
| AccordionSections.WebsiteHref | src/components/EditableAccordionSections.tsx:144 | The target starts with "http" and ends with the stored text; it equals the text exactly when the text starts with "http". |
| AccordionSections.WebsiteLabel | src/components/EditableAccordionSections.tsx:149 | The label is a suffix of the text. A text starting with "https://" is that prefix followed by the label. Otherwise a text starting with "http://" is that prefix followed by the label. Any other text is its own label. |
| AccordionSections.WebsiteHrefIdempotent | src/components/EditableAccordionSections.tsx:144 | Deriving the target twice is deriving it once. |
| AccordionSections.LabelOfHref | src/components/EditableAccordionSections.tsx:144-149 | For text without a scheme, the label of the target is the text. |
| AccordionSections.HrefIsSchemeAndLabel | src/components/EditableAccordionSections.tsx:144-149 | A text with a scheme is its own target and equals that scheme followed by its label. |
| AgencyStatus.GetAgencyStatus | src/lib/agencyStatus.ts:45-47 | The table's status for a name listed with a non-empty status, and "in-progress" for a name not listed. Never empty. |
| AgencyStatus.IsInNetwork | src/lib/agencyStatus.ts:49-51 | True exactly when the status is "in-network". |
| AgencyStatus.GetAgencyStatusFromContext | src/lib/agencyStatus.ts:38-43 | A non-empty supplied status wins; otherwise the table's status. |
| AgencyStatus.InNetworkExactly | src/lib/agencyStatus.ts:3-35 | In the network exactly for the nine names the table marks "in-network". |
| AgencyStatus.InNetworkNamesAreInTable | src/lib/agencyStatus.ts:3-35 | Each of the nine names is in the table as "in-network". |
| AgencyStatus.InNetworkEntriesAreNamed | src/lib/agencyStatus.ts:3-35 | A table entry marked "in-network" is one of the nine. |
| AgencyStatus.UnknownNameNotInNetwork | src/lib/agencyStatus.ts:46 | A name missing from the table is never in the network. |
| AgencyStatus.LookupIsCaseSensitive | src/lib/agencyStatus.ts:4-25 | "ICliniq" is in the network but "iCliniq" is not; "iMerit" and "IMerit" are separate keys. |
| CatalogIndex.FilterAgencies | src/pages/Index.tsx:336-360 | A record is in the result exactly when it is in the list and matches all five predicates. |
| CatalogIndex.FilterOfConcat | src/pages/Index.tsx:336 | Filtering distributes over concatenation, so list order is kept. |
| CatalogIndex.NoFiltersKeepAll | src/pages/Index.tsx:337-357 | With an empty query and no filters, every record is shown in order. |
| CatalogIndex.LowerOfUpper | src/pages/Index.tsx:339 | Lower-casing an upper-cased text is lower-casing it. |
| CatalogIndex.SearchIgnoresQueryCase | src/pages/Index.tsx:337-341 | Upper- or lower-casing the query does not change which records match. |
| CatalogIndex.TotalPages | src/pages/Index.tsx:363 | Zero pages exactly for an empty list; otherwise the smallest count of 21-item pages that holds every item. |
| CatalogIndex.PageItems | src/pages/Index.tsx:364-366 | At most 21 items, taken in place from offset (page-1)·21. Non-empty exactly for pages up to the page count. |
| CatalogIndex.PrefixThenSlice | src/pages/Index.tsx:364-366 | A prefix followed by the next clipped slice is the longer prefix. |
| CatalogIndex.PagesUpToIsPrefix | src/pages/Index.tsx:364-366 | The first k pages are the first 21·k items. |
| CatalogIndex.PagesConcatenate | src/pages/Index.tsx:363-366 | All pages read in order give back the filtered list. |
| CatalogIndex.Without | src/pages/Index.tsx:326 | Removes every copy of the value and keeps everything else. |
| CatalogIndex.Toggle | src/pages/Index.tsx:324-328 | The value is selected afterwards exactly when it was not before; other values are unaffected. |
| CatalogIndex.WithoutAppended | src/pages/Index.tsx:326 | Removing a value just appended gives the list back. |
| CatalogIndex.ToggleTwice | src/pages/Index.tsx:324-334 | Toggling twice restores membership, and restores the list when the value was absent. |
| CatalogIndex.Dedupe | src/pages/Index.tsx:322 | No repeats, and the same values as the input. `DedupeFirstSeen` states the order. |
| CatalogIndex.DedupeOfDistinct | src/pages/Index.tsx:322 | A list without repeats is unchanged. |
| CatalogIndex.DedupeAppendOne | src/pages/Index.tsx:322 | One more value is appended exactly when it has not been seen. |
| CatalogIndex.DedupeFirstSeen | src/pages/Index.tsx:322 | First-seen order: of two values of the result, the earlier one occurs in the input before the later one first does. |
| CatalogIndex.Statuses | src/pages/Index.tsx:322 | The records' statuses in order. |
| CatalogIndex.UniqueStatuses | src/pages/Index.tsx:322 | Without repeats, exactly the non-empty statuses of the records. `UniqueStatusesAppend` states the order. |
| CatalogIndex.UniqueStatusesAppend | src/pages/Index.tsx:322 | A record added at the end adds its status at the end of the list, unless the status is empty or already listed. |
| CatalogIndex.CsvCells | src/pages/Index.tsx:398-410 | One cell per header: the id, the name between double quotes, the status, the description between double quotes, the tags joined by "; " between double quotes, then one cell per flag (off-the-shelf, samples, synthetic) that is "Yes" exactly when the flag is defined and true, and "No" otherwise. |
| CatalogIndex.CsvRows | src/pages/Index.tsx:397-412 | One line per record, in list order. |
| CatalogIndex.CsvRowOmits | src/pages/Index.tsx:398-411 | A character absent from the record's texts, and from the fixed parts of the line, is absent from its line. |
| CatalogIndex.CsvRowSplits | src/pages/Index.tsx:402-411 | A record without commas in its texts splits back into its eight cells. |
| CatalogIndex.CsvLines | src/pages/Index.tsx:394-413 | When no text holds a line break, the export splits on line breaks into the header line followed by one line per record. |
| CatalogIndex.HeaderOmitsLineBreak | src/pages/Index.tsx:394-396 | The header line holds no line break. |
| CatalogIndex.CsvRowsOmitLineBreaks | src/pages/Index.tsx:397-412 | No record line holds a line break when no text does. |
| CatalogIndex.CatalogPage.constructor | src/pages/Index.tsx:311-317 | No filters, on page 1. |
| CatalogIndex.CatalogPage.CurrentItems | src/pages/Index.tsx:366 | The current page's slice of the filtered records: at most 21, entry `i` taken from offset (page-1)·21 + `i`, each from the store and matching the filters. |
| CatalogIndex.CatalogPage.HandleSearchChange | src/pages/Index.tsx:369-372 | Sets the query and goes back to page 1. |
| CatalogIndex.CatalogPage.HandleStatusFilterChange | src/pages/Index.tsx:454-457 | Sets the status filter and goes back to page 1. |
| CatalogIndex.CatalogPage.HandleDataTypeFilterChange | src/pages/Index.tsx:479-482 | Sets the data-type filter and goes back to page 1. |
| CatalogIndex.CatalogPage.ToggleStatus | src/pages/Index.tsx:324-328 | Toggles the status selection and keeps the page. |
| CatalogIndex.CatalogPage.ToggleCategory | src/pages/Index.tsx:330-334 | Toggles the category selection and keeps the page. |
| CatalogIndex.CatalogPage.GoToPage | src/pages/Index.tsx:530-537 | A page button selects its page, which is within range. |
| CatalogIndex.CatalogPage.PrevPage | src/pages/Index.tsx:523-526 | Moves back one page unless on page 1, and stays in range. |
| CatalogIndex.CatalogPage.NextPage | src/pages/Index.tsx:547-550 | Moves on one page unless on the last page, and stays in range. |
| PdfViewer.ShowPage | src/components/PdfViewer.tsx:58-61 | Sets the page and puts its decimal rendering, `newPage.toString()`, in the box, which reads back as that page. |
| PdfViewer.DocumentLoaded | src/components/PdfViewer.tsx:25-27 | Sets the page count and keeps the page and the box. |
| PdfViewer.PrevPage | src/components/PdfViewer.tsx:29-33 | One page back, never below 1. The box holds the new page's decimal rendering, and a page in range stays in range. |
| PdfViewer.NextPage | src/components/PdfViewer.tsx:35-39 | One page on, never beyond the page count. The box holds the new page's decimal rendering, and a page in range stays in range. |
| PdfViewer.RequestedPage | src/components/PdfViewer.tsx:50-51 | Defined exactly when the box parses to a number from 1 to the page count. |
| PdfViewer.SubmitPageInput | src/components/PdfViewer.tsx:48-56 | A valid page is accepted and the text kept. Otherwise the page is kept and the box is reset to its decimal rendering. The box always reads back as the page afterwards, and a page in range stays in range. |
| PdfViewer.SubmitShownPage | src/components/PdfViewer.tsx:48-56 | Submitting right after a navigation changes nothing. |
| PdfViewer.SubmitIdempotent | src/components/PdfViewer.tsx:48-56 | Submitting twice is submitting once. |
| PdfViewer.NextThenPrev | src/components/PdfViewer.tsx:29-39 | Except on the last page, next then previous returns to the page. |
| PdfViewer.PrevThenNext | src/components/PdfViewer.tsx:29-39 | Except on the first page, previous then next returns to the page. |
| PdfViewer.ThumbnailsStayInRange | src/components/PdfViewer.tsx:133-136 | Every thumbnail opens a page of the document. |
| PdfViewer.PdfNavigator.constructor | src/components/PdfViewer.tsx:19-23 | No pages yet, page 1, and the box reads "1". |
| PdfViewer.PdfNavigator.OnDocumentLoadSuccess | src/components/PdfViewer.tsx:25-27 | The state becomes the loaded state. |
| PdfViewer.PdfNavigator.HandlePageInputChange | src/components/PdfViewer.tsx:44-46 | The box holds the typed text. |
| PdfViewer.PdfNavigator.GoToPrevPage | src/components/PdfViewer.tsx:29-33 | The state becomes the previous-page state, and stays in range. |
| PdfViewer.PdfNavigator.GoToNextPage | src/components/PdfViewer.tsx:35-39 | The state becomes the next-page state, and stays in range. |
| PdfViewer.PdfNavigator.HandlePageInputSubmit | src/components/PdfViewer.tsx:48-56 | The state becomes the submitted state, and stays in range. |
| PdfViewer.PdfNavigator.GoToPage | src/components/PdfViewer.tsx:58-61 | The page and the box show the chosen page. |
| JsStrings.Trim | src/components/AddAgencyDialog.tsx:51 | The result is trimmed, empty exactly when the text is blank, and equal to the text with its leading and then its trailing white space removed. |
| JsStrings.TrimStart | src/contexts/AgencyContext.tsx:434 | Removes exactly the leading white space. |
| JsStrings.TrimEnd | src/components/AddAgencyDialog.tsx:69 | Removes exactly the trailing white space. |
| JsStrings.TrimOfTrimmed | src/hooks/useEditableAgency.tsx:142 | Trimming trimmed text changes nothing. |
| JsStrings.TrimOmitsAbsent | src/hooks/useEditableAgency.tsx:128 | Trimming adds no character. |
| JsStrings.TrimSkipsLeadingWhitespace | src/hooks/useEditableAgency.tsx:128 | Leading white space does not change the trimmed text. |
| JsStrings.Split | src/hooks/useEditableAgency.tsx:128 | There is at least one piece, and no piece holds the separator. |
| JsStrings.JoinSplit | src/hooks/useEditableAgency.tsx:128 | Joining the pieces with the separator gives the text back. |
| JsStrings.SplitJoin | src/pages/Index.tsx:411 | Splitting joined pieces that hold no separator gives the pieces back. |
| JsStrings.SplitWithoutSeparator | src/hooks/useEditableAgency.tsx:128 | Text without the separator is one piece. |
| JsStrings.SplitAfterPiece | src/hooks/useEditableAgency.tsx:128 | A leading piece and separator split off as that piece. |
| JsStrings.SplitConcat | src/hooks/useEditableAgency.tsx:128 | Splitting two texts joined by the separator gives the pieces of the first followed by those of the second. |
| JsStrings.JoinOmits | src/pages/Index.tsx:413 | A character in no piece and not in the separator is not in the joined text. |
| JsStrings.IncludesAt | src/pages/Index.tsx:339 | A contained text occurs at some position. |
| JsStrings.OccursThenIncludes | src/pages/Index.tsx:339 | An occurrence at a position means containment. |
| JsStrings.IncludesIffOccurs | src/pages/Index.tsx:339 | Containment holds exactly when there is an occurrence. |
| JsStrings.ToLower | src/pages/Index.tsx:339 | Same length, mapped character by character, with no upper-case ASCII letter left. |
| JsStrings.ToUpper | src/components/AddAgencyDialog.tsx:70 | Same length, mapped character by character, with no lower-case ASCII letter left. |
| JsStrings.ToLowerIdempotent | src/pages/Index.tsx:339 | Lower-casing twice is lower-casing once. |
| JsStrings.DigitPrefix | src/contexts/AgencyContext.tsx:434 | The longest prefix of digits of the radix. |
| JsStrings.ParseIntToString | src/contexts/AgencyContext.tsx:434 | `parseInt(String(n))` is n for every integer n. |
| JsStrings.NatToString | src/contexts/AgencyContext.tsx:434 | `String(n)` of a natural number is a non-empty digit string, with no leading zero except for "0". |
| JsStrings.ParseMagnitudeOfDigits | src/components/PdfViewer.tsx:50 | A digit string without a leading zero parses to its value. |
| JsStrings.IntToStringInjective | src/contexts/AgencyContext.tsx:434 | Distinct numbers render as distinct strings. |
| JsStrings.NatToStringValue | src/contexts/AgencyContext.tsx:434 | The digits of the rendering have the number's value. |
| JsStrings.ParseIntOfUnsigned | src/components/PdfViewer.tsx:50 | Text starting with a digit parses to its magnitude. |
| JsStrings.ParseSignedOfUnsigned | src/components/PdfViewer.tsx:50 | Digits with no sign parse to their magnitude. |
| JsStrings.ParseIntOfNegated | src/components/PdfViewer.tsx:50 | After a minus sign, the magnitude is negated. |

## Left out

- Browser storage I/O is left out. The persist effect (src/contexts/AgencyContext.tsx:416-422) is left out. The model does not read or write `localStorage`. The stored collection is an input to loading (missing, unparseable or a parsed list). Drafts are a map from storage key to draft value. Storage exceptions, which only log, are not modelled.
- JSON serialisation is not treated as lossless. `JSON.stringify` drops keys whose value is `undefined`. So a stored record whose optional field is undefined does not override the seed on reload, and a seed website cleared through the editor comes back. `AgencyContext.StoredKeys` models this; `AgencyContext.ClearedSeedWebsiteReturnsOnLoad` states it.
- Form state is one value per hook or dialog instead of fifteen separate React states. A single handler's setters are applied together, so the model reassigns one value.
- The effect trigger (`[agency]` dependencies) is not modelled. The seeding effect is the method `LoadAgencyIntoForm`, which a caller invokes when the agency record changes.
- `addAgency` computes the new id from the list of the current render, not from the updater's `prev` list. Two adds within one render would therefore reuse an id. The model runs one add at a time.
- `toLowerCase` and `toUpperCase` map ASCII letters only. Other Unicode case mappings are not modelled.
- `parseInt` is modelled on unbounded integers. Precision loss above 2^53 is not modelled, and the optional radix argument is not used by the source.
- Keys inherited from `Object.prototype` (for example "constructor") would be found by the status table lookup. This is not modelled.
- Renaming an agency in the editor makes it unreachable by its old name. The model shows this through `FindByName`, but states no lemma about it.
- The editor's displayed tags always come from the draft's tag text; they never fall back to the committed tags when the draft's tags are empty. The model follows the code (`EditableAgency.EmptyDraftTagsPreviewNoTags`).
- FormLists.UpdateAt: requires a valid index. Writing past the end of a JavaScript array would leave holes, and the forms only pass indices of rendered rows.
- AccordionSections.AddPocContact: the list contracts hold only when the parent passes value and setter for the same field, or neither. With mixed wiring, `EditIsShownIffSameSide` states that the shown value does not change.
- Initials: the model cuts the first two characters of the trimmed name, where JavaScript's `substring` cuts two UTF-16 code units. A name starting with a character outside the Basic Multilingual Plane differs: for "😀ab" the model gives "😀A" and the source gives "😀".
- AddAgencyDialog.NewAgency: the record is built with an empty id. The store's `addAgency` replaces it (`WithNextId`); the source passes a record without the key.
- Toasts, dialogs, JSX rendering, routing and URL encoding are not modelled. The rendering-only components are not part of this model: AgencyEditSection.tsx, AgencyDetailHeader.tsx, DangerZone.tsx and PartnerCard.tsx.
- The contact form (ContactFormDialog.tsx) is not part of this model. Its validation library, e-mail client and file reading are foreign or asynchronous code.
- PDF rendering, the worker setup, the thumbnail toggle and zoom are not modelled. Zoom is floating-point arithmetic. PdfViewerPage.tsx is not part of this model.
- The per-agency detail pages are not part of this model; they repeat the editor wiring. Their references to undeclared handlers are not modelled. Nor are the undeclared handler references in src/components/EditableAccordionSections.tsx:93-95.
- The CSV download mechanics (Blob, object URL and anchor click) are not modelled. Nor are the unused `partners`, `statusFilters` and `categoryFilters` constants of the catalog page.
