/** The three address schemas: the create action's, the update action's and the
    identification form's (client side). Each field rule is a predicate; a
    schema parse reports the set of fields that fail (every field is checked,
    none short-circuits another) or yields the transformed values. */
module Schemas {
  import opened Wrappers
  import opened Text
  import opened Patterns

  /** The two checks delegated to libraries whose code is not part of this model:
      the CPF check-digit validator and the e-mail well-formedness test. */
  datatype External = External(cpfValid: string -> bool, emailValid: string -> bool)

  datatype Field =
    | Id | Email | FullName | Cpf | Phone | ZipCode | Street | Number | Neighborhood | City | State

  const AllFields: set<Field> :=
    {Id, Email, FullName, Cpf, Phone, ZipCode, Street, Number, Neighborhood, City, State}

  /** The address form's values, as a schema receives them and as it returns them. */
  datatype AddressInput = AddressInput(
    email: string,
    fullName: string,
    cpf: string,
    phone: string,
    zipCode: string,
    address: string,
    number: string,
    complement: Option<string>,
    neighborhood: string,
    city: string,
    state: string)

  /** The update action's payload: the row id plus the form values. */
  datatype UpdateInput = UpdateInput(id: string, fields: AddressInput)

  /** zod `.min(n)` on a string. */
  predicate MinLength(s: string, n: nat) {
    |s| >= n
  }

  /** The rules all three schemas share: e-mail, CPF (`min(11)` and the validator),
      CEP, street, neighborhood, city and UF. Fields whose rule differs between
      schemas are accepted here and decided by each schema. */
  predicate CommonFieldOk(x: AddressInput, ext: External, f: Field) {
    match f
    case Email => ext.emailValid(x.email)
    case Cpf => MinLength(x.cpf, 11) && ext.cpfValid(x.cpf)
    case ZipCode => ZipOk(x.zipCode)
    case Street => MinLength(x.address, 1)
    case Neighborhood => MinLength(x.neighborhood, 1)
    case City => MinLength(x.city, 1)
    case State => StateOk(x.state)
    case _ => true
  }

  /** Create schema: the name is trimmed BEFORE `min(1)`, so it passes exactly
      when it is not whitespace only (`Text.TrimEmptyIffBlank`); the phone must
      be `(DD) DDDDD-DDDD`; the number is checked raw with `min(1)`. */
  predicate CreateFieldOk(x: AddressInput, ext: External, f: Field) {
    && CommonFieldOk(x, ext, f)
    && match f
       case FullName => !AllWhitespace(x.fullName)
       case Phone => CreatePhoneOk(x.phone)
       case Number => MinLength(x.number, 1)
       case _ => true
  }

  /** Update schema: non-empty id; name and number only `min(1)`, untrimmed;
      phone `min(8)` and the four-or-five-digit pattern. */
  predicate UpdateFieldOk(x: UpdateInput, ext: External, f: Field) {
    && CommonFieldOk(x.fields, ext, f)
    && match f
       case Id => MinLength(x.id, 1)
       case FullName => MinLength(x.fields.fullName, 1)
       case Phone => MinLength(x.fields.phone, 8) && UpdatePhoneOk(x.fields.phone)
       case Number => MinLength(x.fields.number, 1)
       case _ => true
  }

  /** Client form schema: name `min(1)` on the raw value (trimmed afterwards),
      phone with optional whitespace, number `min(1)` and non-empty once
      trimmed, i.e. not whitespace only. */
  predicate ClientFieldOk(x: AddressInput, ext: External, f: Field) {
    && CommonFieldOk(x, ext, f)
    && match f
       case FullName => MinLength(x.fullName, 1)
       case Phone => ClientPhoneOk(x.phone)
       case Number => MinLength(x.number, 1) && !AllWhitespace(x.number)
       case _ => true
  }

  /** The shared rules, field by field, as one conjunction. */
  predicate CommonAccepts(x: AddressInput, ext: External) {
    && ext.emailValid(x.email)
    && MinLength(x.cpf, 11) && ext.cpfValid(x.cpf)
    && ZipOk(x.zipCode)
    && MinLength(x.address, 1) && MinLength(x.neighborhood, 1) && MinLength(x.city, 1)
    && StateOk(x.state)
  }

  /** The create schema accepts `x`: every field passes its rule. */
  predicate CreateAccepts(x: AddressInput, ext: External) {
    && CommonAccepts(x, ext)
    && !AllWhitespace(x.fullName) && CreatePhoneOk(x.phone) && MinLength(x.number, 1)
  }

  /** The update schema accepts `x`: every field passes its rule. */
  predicate UpdateAccepts(x: UpdateInput, ext: External) {
    && CommonAccepts(x.fields, ext)
    && MinLength(x.id, 1) && MinLength(x.fields.fullName, 1)
    && MinLength(x.fields.phone, 8) && UpdatePhoneOk(x.fields.phone)
    && MinLength(x.fields.number, 1)
  }

  /** The client schema accepts `x`: every field passes its rule. */
  predicate ClientAccepts(x: AddressInput, ext: External) {
    && CommonAccepts(x, ext)
    && MinLength(x.fullName, 1) && ClientPhoneOk(x.phone)
    && MinLength(x.number, 1) && !AllWhitespace(x.number)
  }

  lemma AllFieldsComplete(f: Field)
    ensures f in AllFields
  {
  }

  /** The fields the create schema reports: exactly those whose rule fails. */
  function CreateErrors(x: AddressInput, ext: External): (e: set<Field>)
    ensures forall f :: f in e <==> !CreateFieldOk(x, ext, f)
  {
    var e := set f | f in AllFields && !CreateFieldOk(x, ext, f);
    assert forall f :: f in e <==> !CreateFieldOk(x, ext, f) by {
      forall f ensures f in e <==> !CreateFieldOk(x, ext, f) {
        AllFieldsComplete(f);
      }
    }
    e
  }

  /** Acceptance is exactly "every field passes its rule". */
  lemma CreateAcceptsAllFields(x: AddressInput, ext: External)
    ensures CreateAccepts(x, ext) <==> forall f :: CreateFieldOk(x, ext, f)
  {
    if CreateAccepts(x, ext) {
      forall f ensures CreateFieldOk(x, ext, f) {
      }
    } else {
      var f := if !CommonAccepts(x, ext) then
                 (if !ext.emailValid(x.email) then Email else if !CommonFieldOk(x, ext, Cpf) then Cpf
                  else if !ZipOk(x.zipCode) then ZipCode else if |x.address| < 1 then Street
                  else if |x.neighborhood| < 1 then Neighborhood else if |x.city| < 1 then City else State)
               else if AllWhitespace(x.fullName) then FullName
               else if !CreatePhoneOk(x.phone) then Phone
               else Number;
      assert !CreateFieldOk(x, ext, f);
    }
  }

  /** The create schema's promises on the formatted fields: the phone in the
      create format and kept verbatim, the CEP kept verbatim, the UF in upper case. */
  predicate CreateFormatsOk(v: AddressInput, x: AddressInput) {
    && CreatePhoneOk(v.phone) && v.phone == x.phone
    && v.zipCode == x.zipCode
    && |v.state| == 2 && IsUpperAscii(v.state[0]) && IsUpperAscii(v.state[1])
  }

  /** The create schema's promises on the free-text fields: a non-empty trimmed
      name, a trimmed number, e-mail, CPF and complement passed through. */
  predicate CreateTextOk(v: AddressInput, x: AddressInput) {
    && |v.fullName| >= 1 && Trimmed(v.fullName)
    && Trimmed(v.number)
    && v.email == x.email && v.cpf == x.cpf && v.complement == x.complement
  }

  /** Everything the create schema promises of its output. */
  predicate CreateOutputOk(v: AddressInput, x: AddressInput, ext: External) {
    CommonAccepts(v, ext) && CreateFormatsOk(v, x) && CreateTextOk(v, x)
  }

  /** Both transforms keep the shared rules: trimming a valid CEP changes
      nothing and uppercasing a valid UF keeps it valid. */
  lemma CommonRulesSurviveTransforms(x: AddressInput, ext: External)
    requires CommonAccepts(x, ext)
    ensures CommonAccepts(CreateTransform(x), ext)
    ensures CommonAccepts(ClientTransform(x), ext)
  {
    ZipIsTrimmed(x.zipCode);
    UppercasedStateOk(x.state);
  }

  /** A value the create schema accepts transforms into one that keeps all of its
      promises. */
  lemma CreateTransformOk(x: AddressInput, ext: External)
    requires CreateAccepts(x, ext)
    ensures CreateOutputOk(CreateTransform(x), x, ext)
  {
    TrimEmptyIffBlank(x.fullName);
    ZipIsTrimmed(x.zipCode);
    UppercasedStateOk(x.state);
  }

  /** The create schema's transforms: trim the name, the CEP and the number,
      uppercase the UF. */
  function CreateTransform(x: AddressInput): (r: AddressInput)
    ensures Trimmed(r.fullName) && Trimmed(r.zipCode) && Trimmed(r.number)
    ensures ToUpper(r.state) == r.state
    ensures r.(fullName := x.fullName, zipCode := x.zipCode, number := x.number, state := x.state) == x
  {
    ToUpperIdempotent(x.state);
    x.(fullName := Trim(x.fullName), zipCode := Trim(x.zipCode),
       number := Trim(x.number), state := ToUpper(x.state))
  }

  /** `createShippingAddressSchema.parse`. */
  function ParseCreate(x: AddressInput, ext: External): (r: Result<AddressInput, set<Field>>)
    ensures r.Success? <==> CreateAccepts(x, ext)
    ensures r.Failure? ==> r.error != {} && forall f :: f in r.error <==> !CreateFieldOk(x, ext, f)
  {
    if CreateAccepts(x, ext) then
      Success(CreateTransform(x))
    else
      CreateAcceptsAllFields(x, ext);
      Failure(CreateErrors(x, ext))
  }

  /** What a successful create parse returns keeps every promise of the schema. */
  lemma CreateOutput(x: AddressInput, ext: External)
    requires ParseCreate(x, ext).Success?
    ensures CreateOutputOk(ParseCreate(x, ext).value, x, ext)
  {
    CreateTransformOk(x, ext);
  }

  /** The fields the update schema reports: exactly those whose rule fails. */
  function UpdateErrors(x: UpdateInput, ext: External): (e: set<Field>)
    ensures forall f :: f in e <==> !UpdateFieldOk(x, ext, f)
  {
    var e := set f | f in AllFields && !UpdateFieldOk(x, ext, f);
    assert forall f :: f in e <==> !UpdateFieldOk(x, ext, f) by {
      forall f ensures f in e <==> !UpdateFieldOk(x, ext, f) {
        AllFieldsComplete(f);
      }
    }
    e
  }

  /** Acceptance is exactly "every field passes its rule". */
  lemma UpdateAcceptsAllFields(x: UpdateInput, ext: External)
    ensures UpdateAccepts(x, ext) <==> forall f :: UpdateFieldOk(x, ext, f)
  {
    if UpdateAccepts(x, ext) {
      forall f ensures UpdateFieldOk(x, ext, f) {
      }
    } else {
      var f := if |x.id| < 1 then Id
               else if !CommonAccepts(x.fields, ext) then
                 (if !ext.emailValid(x.fields.email) then Email else if !CommonFieldOk(x.fields, ext, Cpf) then Cpf
                  else if !ZipOk(x.fields.zipCode) then ZipCode else if |x.fields.address| < 1 then Street
                  else if |x.fields.neighborhood| < 1 then Neighborhood else if |x.fields.city| < 1 then City else State)
               else if |x.fields.fullName| < 1 then FullName
               else if !UpdateFieldOk(x, ext, Phone) then Phone
               else Number;
      assert !UpdateFieldOk(x, ext, f);
    }
  }

  /** `updateShippingAddressSchema.parse`: it transforms nothing. */
  function ParseUpdate(x: UpdateInput, ext: External): (r: Result<UpdateInput, set<Field>>)
    ensures r.Success? <==> UpdateAccepts(x, ext)
    ensures r.Failure? ==> r.error != {} && forall f :: f in r.error <==> !UpdateFieldOk(x, ext, f)
    ensures r.Success? ==>
      && r.value == x
      && |x.id| >= 1
      && CommonAccepts(x.fields, ext)
      && UpdatePhoneOk(x.fields.phone)
      && |x.fields.fullName| >= 1 && |x.fields.number| >= 1
  {
    if UpdateAccepts(x, ext) then
      Success(x)
    else
      UpdateAcceptsAllFields(x, ext);
      Failure(UpdateErrors(x, ext))
  }

  /** The fields the client schema reports: exactly those whose rule fails. */
  function ClientErrors(x: AddressInput, ext: External): (e: set<Field>)
    ensures forall f :: f in e <==> !ClientFieldOk(x, ext, f)
  {
    var e := set f | f in AllFields && !ClientFieldOk(x, ext, f);
    assert forall f :: f in e <==> !ClientFieldOk(x, ext, f) by {
      forall f ensures f in e <==> !ClientFieldOk(x, ext, f) {
        AllFieldsComplete(f);
      }
    }
    e
  }

  /** Acceptance is exactly "every field passes its rule". */
  lemma ClientAcceptsAllFields(x: AddressInput, ext: External)
    ensures ClientAccepts(x, ext) <==> forall f :: ClientFieldOk(x, ext, f)
  {
    if ClientAccepts(x, ext) {
      forall f ensures ClientFieldOk(x, ext, f) {
      }
    } else {
      var f := if !CommonAccepts(x, ext) then
                 (if !ext.emailValid(x.email) then Email else if !CommonFieldOk(x, ext, Cpf) then Cpf
                  else if !ZipOk(x.zipCode) then ZipCode else if |x.address| < 1 then Street
                  else if |x.neighborhood| < 1 then Neighborhood else if |x.city| < 1 then City else State)
               else if |x.fullName| < 1 then FullName
               else if !ClientPhoneOk(x.phone) then Phone
               else Number;
      assert !ClientFieldOk(x, ext, f);
    }
  }

  /** The client schema's promises on the formatted fields. */
  predicate ClientFormatsOk(v: AddressInput, x: AddressInput) {
    && ClientPhoneOk(v.phone) && v.phone == x.phone
    && v.zipCode == x.zipCode
    && |v.state| == 2 && IsUpperAscii(v.state[0]) && IsUpperAscii(v.state[1])
  }

  /** The client schema's promises on the free-text fields: a trimmed name
      (possibly empty), the number passed through and not blank. */
  predicate ClientTextOk(v: AddressInput, x: AddressInput) {
    && Trimmed(v.fullName)
    && v.number == x.number && !AllWhitespace(v.number)
    && v.email == x.email && v.cpf == x.cpf && v.complement == x.complement
  }

  /** Everything the client schema promises of its output. */
  predicate ClientOutputOk(v: AddressInput, x: AddressInput, ext: External) {
    CommonAccepts(v, ext) && ClientFormatsOk(v, x) && ClientTextOk(v, x)
  }

  /** The client schema's transforms: trim the name and the CEP, uppercase the UF. */
  function ClientTransform(x: AddressInput): (r: AddressInput)
    ensures Trimmed(r.fullName) && Trimmed(r.zipCode)
    ensures ToUpper(r.state) == r.state
    ensures r.(fullName := x.fullName, zipCode := x.zipCode, state := x.state) == x
  {
    ToUpperIdempotent(x.state);
    x.(fullName := Trim(x.fullName), zipCode := Trim(x.zipCode), state := ToUpper(x.state))
  }

  /** A value the client schema accepts transforms into one that keeps all of its
      promises. */
  lemma ClientTransformOk(x: AddressInput, ext: External)
    requires ClientAccepts(x, ext)
    ensures ClientOutputOk(ClientTransform(x), x, ext)
  {
    ZipIsTrimmed(x.zipCode);
    UppercasedStateOk(x.state);
  }

  /** The identification form's `schema` as its resolver applies it. */
  function ParseClient(x: AddressInput, ext: External): (r: Result<AddressInput, set<Field>>)
    ensures r.Success? <==> ClientAccepts(x, ext)
    ensures r.Failure? ==> r.error != {} && forall f :: f in r.error <==> !ClientFieldOk(x, ext, f)
  {
    if ClientAccepts(x, ext) then
      Success(ClientTransform(x))
    else
      ClientAcceptsAllFields(x, ext);
      Failure(ClientErrors(x, ext))
  }

  /** What a successful client parse returns keeps every promise of the schema. */
  lemma ClientOutput(x: AddressInput, ext: External)
    requires ParseClient(x, ext).Success?
    ensures ClientOutputOk(ParseClient(x, ext).value, x, ext)
  {
    ClientTransformOk(x, ext);
  }

  /** A whitespace-only name is rejected by the create schema (trim runs first). */
  lemma CreateRejectsBlankName(x: AddressInput, ext: External)
    requires AllWhitespace(x.fullName)
    ensures ParseCreate(x, ext).Failure? && FullName in ParseCreate(x, ext).error
  {
    assert !CreateFieldOk(x, ext, FullName);
  }

  /** A whitespace-only number passes the create schema (min(1) runs on the raw
      value) and comes out as the empty string. */
  lemma CreateBlankNumberBecomesEmpty(x: AddressInput, ext: External)
    requires CommonAccepts(x, ext) && !AllWhitespace(x.fullName) && CreatePhoneOk(x.phone)
    requires |x.number| >= 1 && AllWhitespace(x.number)
    ensures ParseCreate(x, ext).Success? && ParseCreate(x, ext).value.number == ""
  {
    TrimEmptyIffBlank(x.number);
  }

  /** The update schema accepts whitespace-only names and numbers unchanged. */
  lemma UpdateKeepsBlankNameAndNumber(x: UpdateInput, ext: External)
    requires CommonAccepts(x.fields, ext) && |x.id| >= 1 && UpdatePhoneOk(x.fields.phone)
    requires |x.fields.fullName| >= 1 && AllWhitespace(x.fields.fullName)
    requires |x.fields.number| >= 1 && AllWhitespace(x.fields.number)
    ensures ParseUpdate(x, ext) == Success(x)
  {
    UpdatePhoneAtLeastThirteen(x.fields.phone);
  }

  /** The client form rejects a whitespace-only number. */
  lemma ClientRejectsBlankNumber(x: AddressInput, ext: External)
    requires AllWhitespace(x.number)
    ensures ParseClient(x, ext).Failure? && Number in ParseClient(x, ext).error
  {
    TrimEmptyIffBlank(x.number);
    assert !ClientFieldOk(x, ext, Number);
  }

  /** Every input the create rules accept, the update rules accept (under any
      non-empty id). */
  lemma CreateRulesImplyUpdateRules(x: AddressInput, id: string, ext: External)
    requires |id| >= 1
    requires CreateAccepts(x, ext)
    ensures UpdateAccepts(UpdateInput(id, x), ext)
  {
    CreatePhoneIsUpdatePhone(x.phone);
    UpdatePhoneAtLeastThirteen(x.phone);
  }

  /** Every input the create schema parses, the update schema parses too. */
  lemma CreateAcceptedIsUpdateAccepted(x: AddressInput, id: string, ext: External)
    requires |id| >= 1
    requires ParseCreate(x, ext).Success?
    ensures ParseUpdate(UpdateInput(id, x), ext).Success?
  {
    CreateRulesImplyUpdateRules(x, id, ext);
  }

  /** An input that passes every create rule except possibly the phone's, with
      a phone the update pattern accepts, passes the update rules. */
  lemma UpdatePhoneSuffices(x: AddressInput, id: string, ext: External)
    requires |id| >= 1
    requires CommonAccepts(x, ext) && !AllWhitespace(x.fullName) && |x.number| >= 1
    requires UpdatePhoneOk(x.phone)
    ensures UpdateAccepts(UpdateInput(id, x), ext)
  {
    UpdatePhoneAtLeastThirteen(x.phone);
  }

  /** The converse of `CreateAcceptedIsUpdateAccepted` fails: with the legacy phone `(11) 8888-7777`
      the update succeeds, and the create fails on the phone and nothing else. */
  lemma UpdateAcceptsLegacyPhoneCreateRejects(x: AddressInput, id: string, ext: External)
    requires |id| >= 1
    requires CommonAccepts(x, ext) && !AllWhitespace(x.fullName) && |x.number| >= 1
    requires x.phone == "(11) 8888-7777"
    ensures ParseUpdate(UpdateInput(id, x), ext).Success?
    ensures ParseCreate(x, ext).Failure? && ParseCreate(x, ext).error == {Phone}
  {
    LegacyPhoneOnlyOnUpdate();
    UpdatePhoneSuffices(x, id, ext);
    CreateAcceptsAllFields(x, ext);
    var e := ParseCreate(x, ext).error;
    forall f ensures f in e <==> f in {Phone} {
      if f != Phone {
        assert CreateFieldOk(x, ext, f);
      }
    }
  }

  /** What the client rules let through, once transformed, passes the update
      rules, as long as the name was not whitespace only. */
  lemma ClientRulesImplyUpdateRules(x: AddressInput, id: string, ext: External)
    requires |id| >= 1
    requires ClientAccepts(x, ext)
    requires !AllWhitespace(x.fullName)
    ensures UpdateAccepts(UpdateInput(id, ClientTransform(x)), ext)
  {
    CommonRulesSurviveTransforms(x, ext);
    TrimEmptyIffBlank(x.fullName);
    ClientPhoneIsUpdatePhone(x.phone);
    UpdatePhoneAtLeastThirteen(x.phone);
  }

  /** The form values the client schema produces pass the update schema, as long
      as the name was not whitespace only. */
  lemma ClientOutputAcceptedByUpdate(x: AddressInput, id: string, ext: External)
    requires |id| >= 1
    requires ParseClient(x, ext).Success?
    requires !AllWhitespace(x.fullName)
    ensures ParseUpdate(UpdateInput(id, ParseClient(x, ext).value), ext).Success?
  {
    ClientRulesImplyUpdateRules(x, id, ext);
  }

  /** A whitespace-only name is trimmed to "" by the client transform, and that
      name breaks the name rule of both server schemas. */
  lemma BlankNameBreaksServerRules(x: AddressInput, id: string, ext: External)
    requires AllWhitespace(x.fullName)
    ensures ClientTransform(x).fullName == ""
    ensures !UpdateFieldOk(UpdateInput(id, ClientTransform(x)), ext, FullName)
    ensures !CreateFieldOk(ClientTransform(x), ext, FullName)
  {
    TrimEmptyIffBlank(x.fullName);
    var v := ClientTransform(x);
    assert v.fullName == Trim(x.fullName);
    assert |v.fullName| == 0;
  }

  /** A whitespace-only name passes the client form, which trims it to "", and
      both server schemas then reject it. */
  lemma ClientBlankNameRejectedByServer(x: AddressInput, id: string, ext: External)
    requires ParseClient(x, ext).Success?
    requires AllWhitespace(x.fullName)
    ensures ParseClient(x, ext).value.fullName == ""
    ensures ParseUpdate(UpdateInput(id, ParseClient(x, ext).value), ext).Failure?
    ensures FullName in ParseUpdate(UpdateInput(id, ParseClient(x, ext).value), ext).error
    ensures ParseCreate(ParseClient(x, ext).value, ext).Failure?
    ensures FullName in ParseCreate(ParseClient(x, ext).value, ext).error
  {
    BlankNameBreaksServerRules(x, id, ext);
    var v := ParseClient(x, ext).value;
    UpdateAcceptsAllFields(UpdateInput(id, v), ext);
    CreateAcceptsAllFields(v, ext);
  }

  /** The client rules' transformed output passes the create rules exactly when
      the phone has the single space the create pattern demands (and the name is
      not blank). */
  lemma ClientRulesVersusCreateRules(x: AddressInput, ext: External)
    requires ClientAccepts(x, ext)
    requires !AllWhitespace(x.fullName)
    ensures CreateAccepts(ClientTransform(x), ext) <==> CreatePhoneOk(x.phone)
  {
    CommonRulesSurviveTransforms(x, ext);
    TrimEmptyIffBlank(x.fullName);
    TrimEmptyIffBlank(Trim(x.fullName));
    TrimIdempotent(x.fullName);
  }

  /** The client form's output passes the create schema exactly when its phone
      has the single space the create pattern demands (and the name is not blank). */
  lemma ClientOutputAcceptedByCreate(x: AddressInput, ext: External)
    requires ParseClient(x, ext).Success?
    requires !AllWhitespace(x.fullName)
    ensures ParseCreate(ParseClient(x, ext).value, ext).Success? <==> CreatePhoneOk(x.phone)
  {
    ClientRulesVersusCreateRules(x, ext);
  }
}
