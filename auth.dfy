/**
 * The signed-in operator's profile and contact book (the auth provider).
 * The list operations are functions on values; the provider's `user`,
 * replaced wholesale by each operation, is a field of `AuthStore`.
 */
module Auth {
  import opened Wrappers
  import Seqs

  datatype Category = Family | Friends | Business | Other

  datatype Contact = Contact(id: string, name: string, phone: string, favorite: bool, category: Category)

  /** A contact without its id, as the caller of `addContact` gives it. */
  datatype ContactFields = ContactFields(name: string, phone: string, favorite: bool, category: Category)

  /** A partial contact: each present field replaces the contact's. */
  datatype ContactUpdate = ContactUpdate(
    name: Option<string>, phone: Option<string>, favorite: Option<bool>, category: Option<Category>)

  datatype UserBalances = UserBalances(mvola: int, orangeMoney: int, airtelMoney: int)

  datatype Company = Company(name: string, address: string, phone: string, email: string)

  datatype ReceiptSettings = ReceiptSettings(showLogo: bool, showContact: bool, showCompanyInfo: bool, footerText: string)

  datatype User = User(
    id: string,
    name: string,
    phone: string,
    email: Option<string>,
    balances: UserBalances,
    contacts: seq<Contact>,
    company: Option<Company>,
    receiptSettings: Option<ReceiptSettings>)

  /** A partial user: each present field replaces the user's. */
  datatype UserUpdate = UserUpdate(
    id: Option<string>,
    name: Option<string>,
    phone: Option<string>,
    email: Option<string>,
    balances: Option<UserBalances>,
    contacts: Option<seq<Contact>>,
    company: Option<Company>,
    receiptSettings: Option<ReceiptSettings>)

  const NoUserChanges := UserUpdate(None, None, None, None, None, None, None, None)

  /** The demonstration profile that login and signup start from. */
  const MockUser := User(
    "user-1",
    "Rakoto Jean",
    "+261 34 00 000 00",
    Some("rakoto@example.com"),
    UserBalances(150000, 75000, 30000),
    [ Contact("contact-1", "Marie", "+261 32 11 222 33", true, Family),
      Contact("contact-2", "Pierre", "+261 33 22 333 44", false, Friends),
      Contact("contact-3", "Boutique Centrale", "+261 34 33 444 55", true, Business) ],
    Some(Company("Kioska Nakà", "Lot 34 Ambondrona, Antananarivo", "+261 34 00 000 00", "contact@kioskanaka.mg")),
    Some(ReceiptSettings(true, true, true, "Merci de votre confiance!")))

  /** The user built by `signup`: the template with a new id and the given name and phone. */
  function SignupUser(name: string, phone: string, id: string): (u: User)
    ensures u.id == id && u.name == name && u.phone == phone
    ensures u.(id := MockUser.id, name := MockUser.name, phone := MockUser.phone) == MockUser
  {
    MockUser.(id := id, name := name, phone := phone)
  }

  /** `[...contacts, {...contact, id}]`: one contact added at the end, the others untouched. */
  function AppendContact(cs: seq<Contact>, fields: ContactFields, id: string): (r: seq<Contact>)
    ensures |r| == |cs| + 1 && r[..|cs|] == cs
    ensures r[|cs|] == Contact(id, fields.name, fields.phone, fields.favorite, fields.category)
  {
    cs + [Contact(id, fields.name, fields.phone, fields.favorite, fields.category)]
  }

  /** `{...contact, ...updates}` for a contact: the id is never replaced. */
  function MergeContact(c: Contact, u: ContactUpdate): (r: Contact)
    ensures r.id == c.id
    ensures r.name == (if u.name.Some? then u.name.value else c.name)
    ensures r.phone == (if u.phone.Some? then u.phone.value else c.phone)
    ensures r.favorite == (if u.favorite.Some? then u.favorite.value else c.favorite)
    ensures r.category == (if u.category.Some? then u.category.value else c.category)
    ensures u == ContactUpdate(None, None, None, None) ==> r == c
  {
    Contact(
      c.id,
      if u.name.Some? then u.name.value else c.name,
      if u.phone.Some? then u.phone.value else c.phone,
      if u.favorite.Some? then u.favorite.value else c.favorite,
      if u.category.Some? then u.category.value else c.category)
  }

  /** Merging the same update twice is merging it once. */
  lemma MergeContactIdempotent(c: Contact, u: ContactUpdate)
    ensures MergeContact(MergeContact(c, u), u) == MergeContact(c, u)
  {
  }

  /**
   * `contacts.map(c => c.id === id ? {...c, ...updates} : c)`: same length,
   * same order, same ids; only the contacts with that id change.
   */
  function UpdateContacts(cs: seq<Contact>, id: string, u: ContactUpdate): (r: seq<Contact>)
    ensures |r| == |cs|
    ensures forall i :: 0 <= i < |cs| ==> r[i].id == cs[i].id
    ensures forall i :: 0 <= i < |cs| && cs[i].id != id ==> r[i] == cs[i]
    ensures forall i :: 0 <= i < |cs| && cs[i].id == id ==> r[i] == MergeContact(cs[i], u)
  {
    seq(|cs|, i requires 0 <= i < |cs| => if cs[i].id == id then MergeContact(cs[i], u) else cs[i])
  }

  /** `contacts.filter(c => c.id !== id)`: every contact with that id dropped, the others kept in order. */
  function RemoveContacts(cs: seq<Contact>, id: string): (r: seq<Contact>)
    ensures forall c :: c in r <==> c in cs && c.id != id
    ensures forall c :: multiset(r)[c] == if c.id != id then multiset(cs)[c] else 0
    ensures Seqs.IsSubsequence(r, cs)
  {
    var keep := (c: Contact) => c.id != id;
    Seqs.FilterIsSubsequence(cs, keep);
    Seqs.Filter(cs, keep)
  }

  /** Removing a contact just added under a fresh id gives back the list before the addition. */
  lemma RemoveUndoesAppend(cs: seq<Contact>, fields: ContactFields, id: string)
    requires forall i :: 0 <= i < |cs| ==> cs[i].id != id
    ensures RemoveContacts(AppendContact(cs, fields, id), id) == cs
  {
    var keep := (c: Contact) => c.id != id;
    var added := Contact(id, fields.name, fields.phone, fields.favorite, fields.category);
    Seqs.FilterAppend(cs, [added], keep);
    Seqs.FilterKeepsAll(cs, keep);
    assert Seqs.Filter([added], keep) == [];
  }

  /** Updating contacts with a given id and then removing that id is just removing it. */
  lemma {:induction false} RemoveAfterUpdate(cs: seq<Contact>, id: string, u: ContactUpdate)
    ensures RemoveContacts(UpdateContacts(cs, id, u), id) == RemoveContacts(cs, id)
  {
    if cs != [] {
      var keep := (c: Contact) => c.id != id;
      var up := UpdateContacts(cs, id, u);
      assert up[1..] == UpdateContacts(cs[1..], id, u);
      RemoveAfterUpdate(cs[1..], id, u);
      if cs[0].id == id {
        assert !keep(up[0]);
        assert Seqs.Filter(up, keep) == Seqs.Filter(up[1..], keep);
      } else {
        assert up[0] == cs[0];
        assert Seqs.Filter(up, keep) == [up[0]] + Seqs.Filter(up[1..], keep);
      }
    }
  }

  /** `{...user, ...updates}`: each present field of the update replaces the user's. */
  function MergeUser(user: User, u: UserUpdate): (r: User)
    ensures u == NoUserChanges ==> r == user
    ensures r.id == (if u.id.Some? then u.id.value else user.id)
    ensures r.name == (if u.name.Some? then u.name.value else user.name)
    ensures r.phone == (if u.phone.Some? then u.phone.value else user.phone)
    ensures r.email == (if u.email.Some? then u.email else user.email)
    ensures r.balances == (if u.balances.Some? then u.balances.value else user.balances)
    ensures r.contacts == (if u.contacts.Some? then u.contacts.value else user.contacts)
    ensures r.company == (if u.company.Some? then u.company else user.company)
    ensures r.receiptSettings == (if u.receiptSettings.Some? then u.receiptSettings else user.receiptSettings)
  {
    User(
      if u.id.Some? then u.id.value else user.id,
      if u.name.Some? then u.name.value else user.name,
      if u.phone.Some? then u.phone.value else user.phone,
      if u.email.Some? then u.email else user.email,
      if u.balances.Some? then u.balances.value else user.balances,
      if u.contacts.Some? then u.contacts.value else user.contacts,
      if u.company.Some? then u.company else user.company,
      if u.receiptSettings.Some? then u.receiptSettings else user.receiptSettings)
  }

  /** Applying the same update twice is applying it once. */
  lemma MergeUserIdempotent(user: User, u: UserUpdate)
    ensures MergeUser(MergeUser(user, u), u) == MergeUser(user, u)
  {
  }

  /** The provider's state: the signed-in user, or none. */
  class AuthStore {
    var user: Option<User>

    constructor ()
      ensures user == None
    {
      user := None;
    }

    /** `login` accepts any phone and PIN and signs in the demonstration profile. */
    method Login(phone: string, pin: string) returns (ok: bool)
      modifies this
      ensures ok && user == Some(MockUser)
    {
      user := Some(MockUser);
      ok := true;
    }

    method Signup(name: string, phone: string, id: string) returns (ok: bool)
      modifies this
      ensures ok && user == Some(SignupUser(name, phone, id))
    {
      user := Some(SignupUser(name, phone, id));
      ok := true;
    }

    method Logout()
      modifies this
      ensures user == None
    {
      user := None;
    }

    method AddContact(fields: ContactFields, id: string)
      modifies this
      ensures old(user).None? ==> user == None
      ensures old(user).Some? ==>
                user == Some(old(user).value.(contacts := AppendContact(old(user).value.contacts, fields, id)))
    {
      if user.None? {
        return;
      }
      var u := user.value;
      user := Some(u.(contacts := AppendContact(u.contacts, fields, id)));
    }

    method UpdateContact(id: string, updates: ContactUpdate)
      modifies this
      ensures old(user).None? ==> user == None
      ensures old(user).Some? ==>
                user == Some(old(user).value.(contacts := UpdateContacts(old(user).value.contacts, id, updates)))
    {
      if user.None? {
        return;
      }
      var u := user.value;
      user := Some(u.(contacts := UpdateContacts(u.contacts, id, updates)));
    }

    method RemoveContact(id: string)
      modifies this
      ensures old(user).None? ==> user == None
      ensures old(user).Some? ==>
                user == Some(old(user).value.(contacts := RemoveContacts(old(user).value.contacts, id)))
    {
      if user.None? {
        return;
      }
      var u := user.value;
      user := Some(u.(contacts := RemoveContacts(u.contacts, id)));
    }

    method UpdateUser(updates: UserUpdate) returns (ok: bool)
      modifies this
      ensures ok <==> old(user).Some?
      ensures !ok ==> user == old(user)
      ensures ok ==> user == Some(MergeUser(old(user).value, updates))
    {
      if user.None? {
        return false;
      }
      user := Some(MergeUser(user.value, updates));
      ok := true;
    }
  }
}
