/**
 * The index-based helpers the forms use on their editable lists (points of contact and
 * the string lists): append a blank entry, replace the entry at an index, drop the entry
 * at an index. Each builds a fresh list that the form then stores.
 */
module FormLists {
  import opened AgencyModel

  /** `[...xs, blank]` */
  function AddItem<T>(xs: seq<T>, blank: T): (r: seq<T>)
    ensures |r| == |xs| + 1 && r[|xs|] == blank
    ensures forall j :: 0 <= j < |xs| ==> r[j] == xs[j]
  {
    xs + [blank]
  }

  /** `const updated = [...xs]; updated[i] = v`, for an index the form shows. */
  function UpdateAt<T>(xs: seq<T>, i: nat, v: T): (r: seq<T>)
    requires i < |xs|
    ensures |r| == |xs| && r[i] == v
    ensures forall j :: 0 <= j < |xs| && j != i ==> r[j] == xs[j]
  {
    xs[i := v]
  }

  /** `xs.filter((_, j) => j !== i)`: drops the entry at `i`, keeping the others in order;
      an index outside the list drops nothing. */
  function RemoveAt<T>(xs: seq<T>, i: int): (r: seq<T>)
    ensures 0 <= i < |xs| ==> |r| == |xs| - 1
    ensures 0 <= i < |xs| ==> forall j :: 0 <= j < i ==> r[j] == xs[j]
    ensures 0 <= i < |xs| ==> forall j :: i <= j < |r| ==> r[j] == xs[j + 1]
    ensures !(0 <= i < |xs|) ==> r == xs
  {
    if 0 <= i < |xs| then xs[..i] + xs[i + 1..] else xs
  }

  /** Removing the entry just appended gives the list back. */
  lemma RemoveAddedItem<T>(xs: seq<T>, blank: T)
    ensures RemoveAt(AddItem(xs, blank), |xs|) == xs
  {
    assert AddItem(xs, blank)[..|xs|] == xs;
  }

  /** Removal loses exactly the one entry: the entries left, with the removed one, are the
      entries before. */
  lemma RemoveAtIsPermutationMinusOne<T>(xs: seq<T>, i: nat)
    requires i < |xs|
    ensures multiset(RemoveAt(xs, i)) + multiset{xs[i]} == multiset(xs)
  {
    assert xs == xs[..i] + [xs[i]] + xs[i + 1..];
  }

  /** The two fields of a contact the forms edit. */
  datatype ContactField = NameField | EmailField

  /** `{ ...c, [field]: value }` */
  function WithField(c: Contact, field: ContactField, value: string): (r: Contact)
    ensures field == NameField ==> r.name == value && r.email == c.email
    ensures field == EmailField ==> r.email == value && r.name == c.name
  {
    match field
    case NameField => c.(name := value)
    case EmailField => c.(email := value)
  }

  /** `updatePocContact(i, field, value)`: the named field of contact `i` takes the value;
      every other contact, and the other field of contact `i`, keep theirs. */
  function UpdateContact(cs: seq<Contact>, i: nat, field: ContactField, value: string): (r: seq<Contact>)
    requires i < |cs|
    ensures |r| == |cs|
    ensures forall j :: 0 <= j < |cs| && j != i ==> r[j] == cs[j]
    ensures field == NameField ==> r[i].name == value && r[i].email == cs[i].email
    ensures field == EmailField ==> r[i].email == value && r[i].name == cs[i].name
  {
    UpdateAt(cs, i, WithField(cs[i], field, value))
  }

  /** A blank contact row, as the add button appends it. */
  const BlankContact := Contact("", "")

  /** Editing both fields of a freshly added contact row fills in exactly that row. */
  lemma FillAddedContact(cs: seq<Contact>, name: string, email: string)
    ensures var added := AddItem(cs, BlankContact);
      UpdateContact(UpdateContact(added, |cs|, NameField, name), |cs|, EmailField, email)
        == cs + [Contact(name, email)]
  {
    var added := AddItem(cs, BlankContact);
    var r := UpdateContact(UpdateContact(added, |cs|, NameField, name), |cs|, EmailField, email);
    assert r[|cs|] == Contact(name, email);
  }
}
