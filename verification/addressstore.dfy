/** The two shipping-address server actions over an in-memory address table:
    `createShippingAddress` inserts a normalised row owned by the session user,
    `updateShippingAddress` rewrites a row only where both its id and its owner
    match. The table is a map from row id to row; the session is the signed-in
    user's id, if any. */
module AddressStore {
  import opened Wrappers
  import opened Text
  import opened Patterns
  import opened Normalize
  import opened Schemas

  type UserId = string
  type AddressId = string

  /** The columns both actions write (the update's `set` clause). */
  datatype AddressRow = AddressRow(
    recipientName: string,
    street: string,
    number: string,
    complement: Option<string>,
    city: string,
    state: string,
    neighborhood: string,
    zipCode: string,
    country: string,
    phone: string,
    email: string,
    cpfOrCnpj: string)

  /** A row of the address table: its owner and its columns. */
  datatype StoredAddress = StoredAddress(owner: UserId, fields: AddressRow)

  type Store = map<AddressId, StoredAddress>

  /** The errors an action throws: a schema rejection (with the failing fields),
      no signed-in user, or no row matching both id and owner. */
  datatype ActionError = Invalid(fields: set<Field>) | Unauthorized | NotFound

  /** The message the action throws with (a rejection carries zod's own). */
  function ErrorMessage(e: ActionError): (m: string)
    requires !e.Invalid?
    ensures m == "Unauthorized" <==> e == Unauthorized
    ensures e == NotFound ==> m == "Endere\U{E7}o n\U{E3}o encontrado"
  {
    if e == Unauthorized then "Unauthorized" else "Endere\U{E7}o n\U{E3}o encontrado"
  }

  /** `v || null` on an optional string: an absent or empty value becomes null
      (`parsed.complement || null`, `cart.shippingAddress?.id || null`). */
  function OrNull(c: Option<string>): (r: Option<string>)
    ensures r == None <==> (c == None || c == Some(""))
    ensures r.Some? ==> r == c
  {
    match c
    case None => None
    case Some(s) => if s == "" then None else Some(s)
  }

  /** The normalisation both actions apply before writing: trimmed name,
      uppercased UF, CEP re-masked from its digits, digits-only CPF, a fixed
      country, an empty complement stored as null; everything else verbatim. */
  function Normalized(p: AddressInput): (r: AddressRow)
    ensures Trimmed(r.recipientName) && ToUpper(r.state) == r.state
    ensures AllDigits(r.cpfOrCnpj) && OnlyDigits(r.zipCode) == OnlyDigits(p.zipCode)
    ensures r.complement != Some("") && r.country == "Brasil"
    ensures r.street == p.address && r.number == p.number && r.city == p.city
    ensures r.neighborhood == p.neighborhood && r.phone == p.phone && r.email == p.email
    ensures r.recipientName == Trim(p.fullName) && r.state == ToUpper(p.state)
    ensures r.cpfOrCnpj == OnlyDigits(p.cpf) && r.complement == OrNull(p.complement)
    ensures r.zipCode == MaskCep(OnlyDigits(p.zipCode))
  {
    ToUpperIdempotent(p.state);
    MaskCepUnmask(OnlyDigits(p.zipCode));
    AddressRow(
      recipientName := Trim(p.fullName),
      street := p.address,
      number := p.number,
      complement := OrNull(p.complement),
      city := p.city,
      state := ToUpper(p.state),
      neighborhood := p.neighborhood,
      zipCode := MaskCep(OnlyDigits(p.zipCode)),
      country := "Brasil",
      phone := p.phone,
      email := p.email,
      cpfOrCnpj := OnlyDigits(p.cpf))
  }

  /** What every row either action writes satisfies. */
  predicate RowOk(r: AddressRow) {
    && Trimmed(r.recipientName)
    && ZipOk(r.zipCode)
    && |r.state| == 2 && IsUpperAscii(r.state[0]) && IsUpperAscii(r.state[1])
    && AllDigits(r.cpfOrCnpj)
    && r.country == "Brasil"
    && r.complement != Some("")
    && UpdatePhoneOk(r.phone)
  }

  predicate StoreOk(store: Store) {
    forall k :: k in store ==> RowOk(store[k].fields)
  }

  /** Normalising values that passed the shared rules and the update phone
      rule gives a well-formed row; the CEP and the phone are stored exactly as
      validated. */
  lemma NormalizedOk(p: AddressInput, ext: External)
    requires CommonAccepts(p, ext) && UpdatePhoneOk(p.phone)
    ensures RowOk(Normalized(p))
    ensures Normalized(p).zipCode == p.zipCode && Normalized(p).phone == p.phone
  {
    MaskCepRoundTrip(p.zipCode);
    UppercasedStateOk(p.state);
  }

  /** The outcome of a successful create: the new table, the new row's id and
      the row as inserted (`returning()`). */
  datatype Created = Created(store: Store, id: AddressId, row: StoredAddress)

  /** `createShippingAddress`. The schema parse runs first, then the session
      check; the row is inserted under `newId`, the key the database assigns. */
  function CreateShippingAddress(x: AddressInput, ext: External, session: Option<UserId>,
                                 store: Store, newId: AddressId): (r: Result<Created, ActionError>)
    requires newId !in store
    ensures r.Success? <==> CreateAccepts(x, ext) && session.Some?
    ensures r.Failure? && !CreateAccepts(x, ext) ==>
      r.error.Invalid? && forall f :: f in r.error.fields <==> !CreateFieldOk(x, ext, f)
    ensures r.Failure? && CreateAccepts(x, ext) ==> r.error == Unauthorized
    ensures r.Success? ==>
      && r.value.id == newId
      && r.value.row.owner == session.value
      && r.value.store == store[newId := r.value.row]
  {
    var parsed := ParseCreate(x, ext);
    if parsed.Failure? then
      Failure(Invalid(parsed.error))
    else if session.None? then
      Failure(Unauthorized)
    else
      var row := StoredAddress(session.value, Normalized(parsed.value));
      Success(Created(store[newId := row], newId, row))
  }

  /** The columns a successful create writes, in terms of the raw input: the
      name and number trimmed, the CEP and the phone exactly as typed, the UF
      uppercased, the CPF reduced to its digits; and the row is well formed. */
  lemma CreatedRow(x: AddressInput, ext: External, session: Option<UserId>, store: Store, newId: AddressId)
    requires newId !in store
    requires CreateShippingAddress(x, ext, session, store, newId).Success?
    ensures var row := CreateShippingAddress(x, ext, session, store, newId).value.row.fields;
      && row.recipientName == Trim(x.fullName)
      && row.number == Trim(x.number)
      && row.zipCode == x.zipCode
      && row.phone == x.phone
      && row.state == ToUpper(x.state)
      && row.cpfOrCnpj == OnlyDigits(x.cpf)
      && row.email == x.email && row.street == x.address
      && row.city == x.city && row.neighborhood == x.neighborhood
      && row.country == "Brasil"
      && row.complement == OrNull(x.complement)
      && RowOk(row)
  {
    var v := ParseCreate(x, ext).value;
    CreateOutput(x, ext);
    assert v == CreateTransform(x);
    TrimIdempotent(x.fullName);
    ToUpperIdempotent(x.state);
    CreatePhoneIsUpdatePhone(x.phone);
    NormalizedOk(v, ext);
  }

  /** The schema is checked before the session: invalid input is reported as
      such whoever is signed in, and nothing is inserted. */
  lemma CreateParsesBeforeSession(x: AddressInput, ext: External, s1: Option<UserId>, s2: Option<UserId>,
                                  store: Store, newId: AddressId)
    requires newId !in store
    requires !CreateAccepts(x, ext)
    ensures CreateShippingAddress(x, ext, s1, store, newId) == CreateShippingAddress(x, ext, s2, store, newId)
    ensures CreateShippingAddress(x, ext, s1, store, newId).Failure?
  {
  }

  /** Creating keeps the table well formed. */
  lemma CreatePreservesStoreOk(x: AddressInput, ext: External, session: Option<UserId>, store: Store, newId: AddressId)
    requires newId !in store
    requires StoreOk(store)
    requires CreateShippingAddress(x, ext, session, store, newId).Success?
    ensures StoreOk(CreateShippingAddress(x, ext, session, store, newId).value.store)
  {
    CreatedRow(x, ext, session, store, newId);
  }

  /** The rows the update's WHERE clause selects: id equal AND owner equal. */
  function Matching(store: Store, id: AddressId, user: UserId): (m: set<AddressId>)
    ensures m == {} <==> id !in store || store[id].owner != user
    ensures m != {} ==> m == {id}
  {
    var m := set k | k in store && k == id && store[k].owner == user;
    assert id in store && store[id].owner == user ==> id in m;
    m
  }

  /** `UPDATE ... SET row WHERE id = id AND userId = user`: the selected rows get
      the new columns and keep their owner; every other row is untouched. */
  function ApplyUpdate(store: Store, id: AddressId, user: UserId, row: AddressRow): (s: Store)
    ensures s.Keys == store.Keys
    ensures forall k :: k in s ==> s[k].owner == store[k].owner
    ensures forall k :: k in s && k !in Matching(store, id, user) ==> s[k] == store[k]
    ensures forall k :: k in Matching(store, id, user) ==> s[k].fields == row
  {
    map k | k in store :: if k == id && store[k].owner == user then StoredAddress(store[k].owner, row) else store[k]
  }

  /** The outcome of a successful update: the new table and `{ ok: true }`. */
  datatype Updated = Updated(store: Store, ok: bool)

  /** `updateShippingAddress`: parse, session check, the ownership-scoped
      update, and "not found" when it touched no row. */
  function UpdateShippingAddress(x: UpdateInput, ext: External, session: Option<UserId>,
                                 store: Store): (r: Result<Updated, ActionError>)
    ensures r.Success? <==>
      UpdateAccepts(x, ext) && session.Some? && x.id in store && store[x.id].owner == session.value
    ensures r.Failure? && !UpdateAccepts(x, ext) ==>
      r.error.Invalid? && forall f :: f in r.error.fields <==> !UpdateFieldOk(x, ext, f)
    ensures r.Failure? && UpdateAccepts(x, ext) && session.None? ==> r.error == Unauthorized
    ensures r.Failure? && UpdateAccepts(x, ext) && session.Some? ==> r.error == NotFound
    ensures r.Success? ==>
      && r.value.ok
      && r.value.store == store[x.id := StoredAddress(store[x.id].owner, Normalized(x.fields))]
  {
    var parsed := ParseUpdate(x, ext);
    if parsed.Failure? then
      Failure(Invalid(parsed.error))
    else if session.None? then
      Failure(Unauthorized)
    else
      var user := session.value;
      var p := parsed.value;
      var updated := ApplyUpdate(store, p.id, user, Normalized(p.fields));
      if Matching(store, p.id, user) == {} then
        Failure(NotFound)
      else
        assert updated == store[p.id := StoredAddress(store[p.id].owner, Normalized(p.fields))];
        Success(Updated(updated, true))
  }

  /** "Not found" does not reveal whether the id exists: a missing id and an id
      owned by someone else give the same error and the same message. */
  lemma NotFoundIndistinguishable(x: UpdateInput, ext: External, user: UserId, s1: Store, s2: Store)
    requires UpdateAccepts(x, ext)
    requires x.id !in s1
    requires x.id in s2 && s2[x.id].owner != user
    ensures UpdateShippingAddress(x, ext, Some(user), s1) == UpdateShippingAddress(x, ext, Some(user), s2)
    ensures UpdateShippingAddress(x, ext, Some(user), s1) == Failure(NotFound)
  {
  }

  /** An update never changes who owns a row, and never adds or removes rows. */
  lemma UpdateKeepsOwners(x: UpdateInput, ext: External, session: Option<UserId>, store: Store)
    requires UpdateShippingAddress(x, ext, session, store).Success?
    ensures var s := UpdateShippingAddress(x, ext, session, store).value.store;
      s.Keys == store.Keys && forall k :: k in s ==> s[k].owner == store[k].owner
  {
  }

  /** Running the same update twice leaves the table as running it once. */
  lemma UpdateIdempotent(x: UpdateInput, ext: External, session: Option<UserId>, store: Store)
    requires UpdateShippingAddress(x, ext, session, store).Success?
    ensures var s := UpdateShippingAddress(x, ext, session, store).value.store;
      UpdateShippingAddress(x, ext, session, s) == Success(Updated(s, true))
  {
    var s := UpdateShippingAddress(x, ext, session, store).value.store;
    assert s[x.id := StoredAddress(s[x.id].owner, Normalized(x.fields))] == s;
  }

  /** Updating keeps the table well formed. */
  lemma UpdatePreservesStoreOk(x: UpdateInput, ext: External, session: Option<UserId>, store: Store)
    requires StoreOk(store)
    requires UpdateShippingAddress(x, ext, session, store).Success?
    ensures StoreOk(UpdateShippingAddress(x, ext, session, store).value.store)
  {
    NormalizedOk(x.fields, ext);
  }

  /** The row a successful update writes, column by column in terms of the
      submitted fields; the owner is kept. */
  lemma UpdatedRow(x: UpdateInput, ext: External, session: Option<UserId>, store: Store)
    requires UpdateShippingAddress(x, ext, session, store).Success?
    ensures x.id in store
    ensures var s := UpdateShippingAddress(x, ext, session, store).value.store;
      && x.id in s && s[x.id].owner == store[x.id].owner
      && var row := s[x.id].fields;
      && row.recipientName == Trim(x.fields.fullName)
      && row.number == x.fields.number
      && row.zipCode == x.fields.zipCode
      && row.phone == x.fields.phone
      && row.state == ToUpper(x.fields.state)
      && row.cpfOrCnpj == OnlyDigits(x.fields.cpf)
      && row.email == x.fields.email && row.street == x.fields.address
      && row.city == x.fields.city && row.neighborhood == x.fields.neighborhood
      && row.country == "Brasil"
      && row.complement == OrNull(x.fields.complement)
      && RowOk(row)
  {
    NormalizedOk(x.fields, ext);
  }

  /** A row created by one user cannot be updated by another: the update fails
      with "not found" and the table keeps the row as created. */
  lemma ForeignUpdateRejected(x: AddressInput, ext: External, owner: UserId, store: Store, newId: AddressId,
                              y: UpdateInput, other: UserId)
    requires newId !in store
    requires CreateShippingAddress(x, ext, Some(owner), store, newId).Success?
    requires other != owner && y.id == newId && UpdateAccepts(y, ext)
    ensures var s := CreateShippingAddress(x, ext, Some(owner), store, newId).value.store;
      UpdateShippingAddress(y, ext, Some(other), s) == Failure(NotFound)
  {
  }

  /** ... while its owner can update it. */
  lemma OwnerUpdateAccepted(x: AddressInput, ext: External, owner: UserId, store: Store, newId: AddressId,
                            y: UpdateInput)
    requires newId !in store
    requires CreateShippingAddress(x, ext, Some(owner), store, newId).Success?
    requires y.id == newId && UpdateAccepts(y, ext)
    ensures var s := CreateShippingAddress(x, ext, Some(owner), store, newId).value.store;
      UpdateShippingAddress(y, ext, Some(owner), s).Success?
  {
  }
}
