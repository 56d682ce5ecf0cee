/** The client side of the identification step: the CEP autofill on blur,
    the initial selection and the "go to payment" guard, and the edit form
    filled from a stored row and submitted through the client schema to the
    update action. The CEP lookup service is a parameter. */
module AddressForm {
  import opened Wrappers
  import opened Text
  import opened Patterns
  import opened Normalize
  import opened Schemas
  import opened AddressStore

  /** `v.replace("-", "")`: only the first hyphen is removed. */
  function RemoveFirstHyphen(s: string): (r: string)
    ensures '-' !in s ==> r == s
    ensures '-' in s ==> |r| == |s| - 1
  {
    if |s| == 0 then s
    else if s[0] == '-' then s[1..]
    else [s[0]] + RemoveFirstHyphen(s[1..])
  }

  /** What the CEP service answers; any field may be missing. */
  datatype CepResult = CepResult(
    street: Option<string>,
    neighborhood: Option<string>,
    city: Option<string>,
    state: Option<string>)

  /** After a blur: the form values and the key the service was asked
      about, if it was asked at all. */
  datatype BlurOutcome = BlurOutcome(form: AddressInput, lookupKey: Option<string>)

  /** `x || ""` on a possibly missing string. */
  function OrEmpty(x: Option<string>): (r: string)
    ensures x.Some? ==> r == x.value
    ensures x.None? ==> r == ""
  {
    x.GetOr("")
  }

  /** `handleCEPBlurCreate` / `handleCEPBlurEdit`: nothing happens unless the
      CEP is well formed; then the service is asked with the dash removed,
      and on an answer the street, neighbourhood, city and (uppercased) state
      are overwritten. A failed lookup leaves the form as it was. */
  function CepBlur(form: AddressInput, lookup: string -> Option<CepResult>): (o: BlurOutcome)
    ensures o.lookupKey.Some? <==> ZipOk(form.zipCode)
  {
    if !ZipOk(form.zipCode) then BlurOutcome(form, None)
    else
      var key := RemoveFirstHyphen(form.zipCode);
      match lookup(key)
      case None => BlurOutcome(form, Some(key))
      case Some(res) =>
        BlurOutcome(
          form.(address := OrEmpty(res.street),
                neighborhood := OrEmpty(res.neighborhood),
                city := OrEmpty(res.city),
                state := ToUpper(OrEmpty(res.state))),
          Some(key))
  }

  /** The service is asked with the CEP's eight digits, and the server's
      `maskCEP` turns them back into the CEP typed. */
  lemma CepLookupKey(form: AddressInput, lookup: string -> Option<CepResult>)
    requires ZipOk(form.zipCode)
    ensures var key := CepBlur(form, lookup).lookupKey.value;
      && key == OnlyDigits(form.zipCode)
      && |key| == 8 && AllDigits(key)
      && MaskCep(key) == form.zipCode
  {
    var z := form.zipCode;
    ZipDigits(z);
    MaskCepRoundTrip(z);
    assert z == z[..5] + ['-'] + z[6..];
    assert '-' !in z[..5] by {
      assert forall i :: 0 <= i < 5 ==> IsDigit(z[..5][i]);
    }
    RemoveFirstHyphenAfter(z[..5], z[6..]);
  }

  /** Removing the first hyphen from text without one, a hyphen and more
      text removes exactly that hyphen. */
  lemma {:induction false} RemoveFirstHyphenAfter(a: string, b: string)
    requires '-' !in a
    ensures RemoveFirstHyphen(a + ['-'] + b) == a + b
    decreases |a|
  {
    var s := a + ['-'] + b;
    if |a| == 0 {
      assert s == ['-'] + b;
    } else {
      var t := a[1..] + ['-'] + b;
      assert s[0] == a[0] && s[0] != '-';
      assert s[1..] == t;
      RemoveFirstHyphenAfter(a[1..], b);
      assert a + b == [a[0]] + (a[1..] + b);
    }
  }

  /** Only the four looked-up fields ever change, and only when the lookup
      answered; each gets the answer or "", the state uppercased. */
  lemma CepBlurEffect(form: AddressInput, lookup: string -> Option<CepResult>)
    ensures var o := CepBlur(form, lookup);
      && (o.lookupKey.None? ==> o.form == form)
      && (o.lookupKey.Some? && lookup(o.lookupKey.value).None? ==> o.form == form)
      && o.form.(address := form.address, neighborhood := form.neighborhood,
                 city := form.city, state := form.state) == form
      && (o.lookupKey.Some? && lookup(o.lookupKey.value).Some? ==>
            var res := lookup(o.lookupKey.value).value;
            && (res.street.Some? ==> o.form.address == res.street.value)
            && (res.street.None? ==> o.form.address == "")
            && (res.city.Some? ==> o.form.city == res.city.value)
            && (res.city.None? ==> o.form.city == "")
            && (res.neighborhood.Some? ==> o.form.neighborhood == res.neighborhood.value)
            && (res.neighborhood.None? ==> o.form.neighborhood == "")
            && (res.state.Some? ==> o.form.state == ToUpper(res.state.value))
            && (res.state.None? ==> o.form.state == ""))
  {
  }

  /** A well-formed CEP whose lookup answers with a two-letter state leaves a
      state the client schema accepts, already uppercase. */
  lemma CepAutofillStateOk(form: AddressInput, lookup: string -> Option<CepResult>)
    requires ZipOk(form.zipCode)
    requires lookup(RemoveFirstHyphen(form.zipCode)).Some?
    requires var st := lookup(RemoveFirstHyphen(form.zipCode)).value.state; st.Some? && StateOk(st.value)
    ensures StateOk(CepBlur(form, lookup).form.state)
    ensures ToUpper(CepBlur(form, lookup).form.state) == CepBlur(form, lookup).form.state
  {
    var st := lookup(RemoveFirstHyphen(form.zipCode)).value.state.value;
    UppercasedStateOk(st);
    ToUpperIdempotent(st);
  }

  /** The radio group's initial value, `defaultShippingAddressId || null`. */
  function InitialSelection(defaultId: Option<AddressId>): (r: Option<AddressId>)
    ensures r.None? <==> defaultId.None? || defaultId == Some("")
    ensures r.Some? ==> r == defaultId
  {
    OrNull(defaultId)
  }

  /** The sentinel value of the "add a new address" option. */
  const AddNew: string := "add_new"

  /** `handleGoToPayment`: the address bound to the cart, or none when nothing
      (or the "add new" option) is selected, in which case nothing happens. */
  function GoToPayment(selected: Option<AddressId>): (r: Option<AddressId>)
    ensures r.Some? <==> selected.Some? && selected.value != "" && selected.value != AddNew
    ensures r.Some? ==> r == selected
  {
    if selected.None? || selected.value == "" || selected.value == AddNew then None else selected
  }

  /** Arriving with the cart's bound address preselected, continuing binds
      that same address again. */
  lemma PreselectedAddressContinues(defaultId: Option<AddressId>)
    requires defaultId != Some(AddNew)
    ensures GoToPayment(InitialSelection(defaultId)) == OrNull(defaultId)
  {
  }

  /** The edit form's `reset`: a stored row's columns as form values, the
      missing complement as "" and the state uppercased (so an already
      uppercase state is shown as stored). */
  function EditReset(row: AddressRow): (v: AddressInput)
    ensures v.fullName == row.recipientName && v.cpf == row.cpfOrCnpj && v.address == row.street
    ensures v.email == row.email && v.phone == row.phone && v.zipCode == row.zipCode
    ensures v.number == row.number && v.neighborhood == row.neighborhood && v.city == row.city
    ensures v.complement.Some?
    ensures row.complement.Some? ==> v.complement == row.complement
    ensures row.complement.None? ==> v.complement == Some("")
    ensures v.state == ToUpper(row.state) && ToUpper(v.state) == v.state
    ensures row.state == ToUpper(row.state) ==> v.state == row.state
  {
    ToUpperIdempotent(row.state);
    AddressInput(
      email := row.email,
      fullName := row.recipientName,
      cpf := row.cpfOrCnpj,
      phone := row.phone,
      zipCode := row.zipCode,
      address := row.street,
      number := row.number,
      complement := Some(row.complement.GetOr("")),
      neighborhood := row.neighborhood,
      city := row.city,
      state := ToUpper(row.state))
  }

  /** `onSubmitEdit`: the client schema parses the form values and, on
      success, the update action receives the row id with the parsed values. */
  function EditSubmission(id: AddressId, values: AddressInput, ext: External): (r: Result<UpdateInput, set<Field>>)
    ensures r.Success? <==> ClientAccepts(values, ext)
    ensures r.Success? ==> r.value.id == id && r.value.fields == ClientTransform(values)
  {
    var parsed := ParseClient(values, ext);
    if parsed.Failure? then Failure(parsed.error) else Success(UpdateInput(id, parsed.value))
  }

  /** A stored CEP, well formed or not, is its own normalisation. */
  lemma StoredZipStable(z: string)
    ensures var stored := MaskCep(OnlyDigits(z));
      Trim(stored) == stored && MaskCep(OnlyDigits(stored)) == stored
  {
    var d := OnlyDigits(z);
    var stored := MaskCep(d);
    StoredZipWellFormed(z);
    if |d| == 8 {
      ZipIsTrimmed(stored);
      MaskCepRoundTrip(stored);
    } else {
      assert stored == d;
      OnlyDigitsIdempotent(z);
      if |d| > 0 {
        assert IsDigit(d[0]) && IsDigit(d[|d| - 1]);
      }
      TrimOfTrimmed(d);
    }
  }

  /** Opening the edit form on a row either action wrote and saving it
      untouched writes back exactly the same row. */
  lemma EditUntouchedSameRow(x: AddressInput)
    ensures var row := Normalized(x);
      Normalized(ClientTransform(EditReset(row))) == row
  {
    var row := Normalized(x);
    TrimIdempotent(x.fullName);
    StoredZipStable(x.zipCode);
    ToUpperIdempotent(x.state);
    ToUpperIdempotent(ToUpper(x.state));
    OnlyDigitsIdempotent(x.cpf);
  }

  /** So an untouched edit that the update action accepts leaves the whole
      address table as it was. */
  lemma EditUntouchedKeepsStore(store: Store, id: AddressId, user: UserId, x: AddressInput, ext: External)
    requires id in store && store[id] == StoredAddress(user, Normalized(x))
    requires EditSubmission(id, EditReset(store[id].fields), ext).Success?
    ensures var u := EditSubmission(id, EditReset(store[id].fields), ext).value;
      UpdateShippingAddress(u, ext, Some(user), store).Success? ==>
        UpdateShippingAddress(u, ext, Some(user), store).value.store == store
  {
    EditUntouchedSameRow(x);
  }
}
