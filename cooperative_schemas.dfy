/** Request shapes and validators of the housing-cooperative API: field
    length bounds, the postal code, organisation number and administrator
    person number formats, the administrator-company normaliser and the
    administrator e-mail. A rejected payload is answered with 422 before any
    handler runs. The e-mail check belongs to the email-validator library
    behind `EmailStr`, which is outside the model: it is a parameter. */
module CooperativeSchemas {
  import opened Common
  import opened Text

  /** `NNNNNN-NNNN`: six digits, a hyphen, four digits. */
  predicate IsOrganisationNumber(s: string) {
    |s| == 11 && AllDigits(s[..6]) && s[6] == '-' && AllDigits(s[7..])
  }

  /** Five digits once every space is removed ("123 45" and "12345" both pass). */
  predicate IsPostalCode(s: string) {
    var cleaned := RemoveSpaces(s);
    |cleaned| == 5 && AllDigits(cleaned)
  }

  /** `YYYYMMDDXXXX` or `YYYYMMDD-XXXX`. */
  predicate IsAdministratorPersonNumber(s: string) {
    (|s| == 12 && AllDigits(s))
    || (|s| == 13 && AllDigits(s[..8]) && s[8] == '-' && AllDigits(s[9..]))
  }

  predicate LengthWithin(s: string, lo: nat, hi: nat) {
    lo <= |s| <= hi
  }

  /** The verdict of `EmailStr` on an address: the normalised address when
      it is accepted, None when it is refused. */
  type EmailCheck = string -> Option<string>

  function Invalid<T>(message: string): Result<T> {
    Err(HttpError(UnprocessableEntity, message))
  }

  /** The organisation_number field: length 10 to 11, then the pattern. */
  function ValidateOrganisationNumber(s: string): (r: Result<string>)
    ensures r.Ok? <==> IsOrganisationNumber(s)
    ensures r.Ok? ==> r.value == s && |s| == 11
  {
    if !LengthWithin(s, 10, 11) then Invalid("organisation_number must have 10 to 11 characters")
    else if !IsOrganisationNumber(s) then Invalid("Organization number must be in format XXXXXX-XXXX")
    else Ok(s)
  }

  /** The postal_code field: checked on the string without spaces, returned as given. */
  function ValidatePostalCode(s: string): (r: Result<string>)
    ensures r.Ok? <==> |RemoveSpaces(s)| == 5 && AllDigits(RemoveSpaces(s))
    ensures r.Ok? ==> r.value == s
  {
    if IsPostalCode(s) then Ok(s)
    else Invalid("Postal code must be 5 digits, optionally separated by space")
  }

  function ValidateAdministratorPersonNumber(s: string): (r: Result<string>)
    ensures r.Ok? <==> IsAdministratorPersonNumber(s)
    ensures r.Ok? ==> r.value == s && (|s| == 12 || |s| == 13)
  {
    if IsAdministratorPersonNumber(s) then Ok(s)
    else Invalid("Person number must be in format YYYYMMDDXXXX or YYYYMMDD-XXXX")
  }

  /** The administrator_company normaliser: absent or blank becomes None,
      a stripped value shorter than 2 is an error, otherwise the stripped value. */
  function NormaliseAdministratorCompany(v: Option<string>): (r: Result<Option<string>>)
    ensures v.None? ==> r == Ok(None)
    ensures v.Some? && AllWhitespace(v.value) ==> r == Ok(None)
    ensures v.Some? && !AllWhitespace(v.value) && |Strip(v.value)| < 2 ==> r.Err? && r.error.status == UnprocessableEntity
    ensures v.Some? && |Strip(v.value)| >= 2 ==> r == Ok(Some(Strip(v.value)))
  {
    match v
    case None => Ok(None)
    case Some(s) =>
      StripEmpty(s);
      if Strip(s) == [] then Ok(None)
      else if |Strip(s)| < 2 then Invalid("Administrator company name must be at least 2 characters if provided")
      else Ok(Some(Strip(s)))
  }

  /** Normalising an already normalised company name changes nothing. */
  lemma NormaliseIdempotent(v: Option<string>)
    requires NormaliseAdministratorCompany(v).Ok?
    ensures NormaliseAdministratorCompany(NormaliseAdministratorCompany(v).value)
            == NormaliseAdministratorCompany(v)
  {
    if v.Some? && |Strip(v.value)| >= 2 {
      var s := Strip(v.value);
      StripIdempotent(v.value);
      StripEmpty(s);
    }
  }

  /** An accepted company name is never blank and never padded. */
  lemma NormalisedShape(v: Option<string>)
    requires NormaliseAdministratorCompany(v).Ok?
    requires NormaliseAdministratorCompany(v).value.Some?
    ensures |NormaliseAdministratorCompany(v).value.value| >= 2
    ensures IsStripped(NormaliseAdministratorCompany(v).value.value)
  {
    StripShape(v.value);
  }

  datatype CooperativeCreate = CooperativeCreate(
    organisationNumber: string,
    name: string,
    address: string,
    city: string,
    postalCode: string,
    administratorCompany: Option<string>,
    administratorName: string,
    administratorPersonNumber: string,
    administratorEmail: string)

  /** Every field constraint of the create body holds (company: at most 100
      before normalising; the e-mail accepted by `EmailStr`). */
  predicate CreateFieldsValid(c: CooperativeCreate, email: EmailCheck) {
    && IsOrganisationNumber(c.organisationNumber)
    && LengthWithin(c.name, 2, 100)
    && LengthWithin(c.address, 5, 200)
    && LengthWithin(c.city, 2, 100)
    && IsPostalCode(c.postalCode)
    && (c.administratorCompany.Some? ==> |c.administratorCompany.value| <= 100)
    && NormaliseAdministratorCompany(c.administratorCompany).Ok?
    && LengthWithin(c.administratorName, 2, 100)
    && IsAdministratorPersonNumber(c.administratorPersonNumber)
    && email(c.administratorEmail).Some?
  }

  /** HousingCooperativeCreate: every field checked, the company and the
      e-mail replaced by their normalised forms. */
  function ValidateCooperativeCreate(c: CooperativeCreate, email: EmailCheck): (r: Result<CooperativeCreate>)
    ensures r.Ok? <==> CreateFieldsValid(c, email)
    ensures r.Ok? ==> r.value == c.(administratorCompany := NormaliseAdministratorCompany(c.administratorCompany).value,
                                    administratorEmail := email(c.administratorEmail).value)
    ensures r.Err? ==> r.error.status == UnprocessableEntity
  {
    if !CreateFieldsValid(c, email) then Invalid("Invalid housing cooperative")
    else Ok(c.(administratorCompany := NormaliseAdministratorCompany(c.administratorCompany).value,
               administratorEmail := email(c.administratorEmail).value))
  }

  /** A field of an update body: left out, or explicitly set (possibly to null). */
  datatype Patch<+T> = Unset | Set(value: T)

  datatype CooperativeUpdate = CooperativeUpdate(
    name: Patch<Option<string>>,
    address: Patch<Option<string>>,
    city: Patch<Option<string>>,
    postalCode: Patch<Option<string>>,
    administratorCompany: Patch<Option<string>>,
    administratorName: Patch<Option<string>>,
    administratorPersonNumber: Patch<Option<string>>,
    administratorEmail: Patch<Option<string>>)

  /** A length bound on an optional update field; it applies only to a string value. */
  predicate PatchWithin(p: Patch<Option<string>>, lo: nat, hi: nat) {
    p.Set? && p.value.Some? ==> LengthWithin(p.value.value, lo, hi)
  }

  /** The update body's checks: length bounds, the company normaliser and
      `Optional[EmailStr]` (null passes); postal code and administrator
      person number are not format-checked. */
  predicate UpdateFieldsValid(u: CooperativeUpdate, email: EmailCheck) {
    && PatchWithin(u.name, 2, 100)
    && PatchWithin(u.address, 5, 200)
    && PatchWithin(u.city, 2, 100)
    && PatchWithin(u.administratorCompany, 0, 100)
    && (u.administratorCompany.Set? ==> NormaliseAdministratorCompany(u.administratorCompany.value).Ok?)
    && PatchWithin(u.administratorName, 2, 100)
    && (u.administratorEmail.Set? && u.administratorEmail.value.Some? ==>
          email(u.administratorEmail.value.value).Some?)
  }

  /** The company after the update body's normaliser. */
  function NormalisedCompanyPatch(p: Patch<Option<string>>): Patch<Option<string>>
    requires p.Set? ==> NormaliseAdministratorCompany(p.value).Ok?
  {
    match p
    case Unset => Unset
    case Set(v) => Set(NormaliseAdministratorCompany(v).value)
  }

  /** The e-mail after `Optional[EmailStr]`: a given address is normalised. */
  function NormalisedEmailPatch(p: Patch<Option<string>>, email: EmailCheck): Patch<Option<string>>
    requires p.Set? && p.value.Some? ==> email(p.value.value).Some?
  {
    match p
    case Unset => Unset
    case Set(None) => Set(None)
    case Set(Some(e)) => Set(Some(email(e).value))
  }

  /** HousingCooperativeUpdate: the checks above; the company and a given
      e-mail are normalised and every other field is kept as sent. */
  function ValidateCooperativeUpdate(u: CooperativeUpdate, email: EmailCheck): (r: Result<CooperativeUpdate>)
    ensures r.Ok? <==> UpdateFieldsValid(u, email)
    ensures r.Ok? ==> r.value.postalCode == u.postalCode
                      && r.value.administratorPersonNumber == u.administratorPersonNumber
    ensures r.Ok? && u.administratorCompany.Set? ==>
              r.value.administratorCompany == Set(NormaliseAdministratorCompany(u.administratorCompany.value).value)
    ensures r.Ok? && u.administratorEmail.Set? && u.administratorEmail.value.Some? ==>
              r.value.administratorEmail == Set(Some(email(u.administratorEmail.value.value).value))
    ensures r.Ok? ==> r.value.(administratorCompany := u.administratorCompany,
                               administratorEmail := u.administratorEmail) == u
    ensures r.Ok? ==> (r.value.administratorCompany.Set? <==> u.administratorCompany.Set?)
                      && (r.value.administratorEmail == Set(None) <==> u.administratorEmail == Set(None))
                      && (r.value.administratorEmail.Set? <==> u.administratorEmail.Set?)
    ensures r.Err? ==> r.error.status == UnprocessableEntity
  {
    if !UpdateFieldsValid(u, email) then Invalid("Invalid housing cooperative update")
    else Ok(u.(administratorCompany := NormalisedCompanyPatch(u.administratorCompany),
               administratorEmail := NormalisedEmailPatch(u.administratorEmail, email)))
  }

  /** Any postal code and any administrator person number pass an update. */
  lemma UpdateSkipsFormats(u: CooperativeUpdate, postal: Patch<Option<string>>, person: Patch<Option<string>>,
                           email: EmailCheck)
    ensures ValidateCooperativeUpdate(u.(postalCode := postal, administratorPersonNumber := person), email).Ok?
            == ValidateCooperativeUpdate(u, email).Ok?
  {
  }
}
