/** The customer sign-up screen (clientes/app/register.tsx): the form state and
    its normalising inputs, the ordered validation that reports the first
    failing check, and the message shown when registration fails. */
module RegisterScreen {
  import opened Common

  /** `RegisterData`. */
  datatype RegisterData = RegisterData(
    nit: string, nombre: string, email: string, password: string,
    telefono: string, direccion: string, ciudad: string, pais: string, activo: bool)

  /** The form's initial state: everything empty, country `CO`, active. */
  const InitialForm := RegisterData("", "", "", "", "", "", "", "CO", true)

  /** The text fields `updateField` is called with. */
  datatype TextField = Nit | Nombre | Email | Password | Telefono | Direccion | Ciudad | Pais

  function FieldOf(form: RegisterData, f: TextField): string
  {
    match f
    case Nit => form.nit
    case Nombre => form.nombre
    case Email => form.email
    case Password => form.password
    case Telefono => form.telefono
    case Direccion => form.direccion
    case Ciudad => form.ciudad
    case Pais => form.pais
  }

  /** `{ ...prev, [field]: value }`: that field takes the value, every other
      field keeps its own. */
  function WithField(form: RegisterData, f: TextField, value: string): (r: RegisterData)
    ensures FieldOf(r, f) == value
    ensures forall g :: g != f ==> FieldOf(r, g) == FieldOf(form, g)
    ensures r.activo == form.activo
  {
    match f
    case Nit => form.(nit := value)
    case Nombre => form.(nombre := value)
    case Email => form.(email := value)
    case Password => form.(password := value)
    case Telefono => form.(telefono := value)
    case Direccion => form.(direccion := value)
    case Ciudad => form.(ciudad := value)
    case Pais => form.(pais := value)
  }

  /** The country input accepts at most two characters. */
  const PaisMaxLength := 2

  /** What each input stores for typed text: the country is cut to its
      input's maximum length and upper-cased, the email lower-cased, the
      rest kept as typed. */
  function Normalised(f: TextField, text: string): (v: string)
    ensures f == Pais ==> v == ToUpper(text[..Min(|text|, PaisMaxLength)])
    ensures f == Email ==> v == ToLower(text)
    ensures f != Pais && f != Email ==> v == text
  {
    if f == Pais then ToUpper(text[..Min(|text|, PaisMaxLength)])
    else if f == Email then ToLower(text)
    else text
  }

  /** The country never holds more than two characters nor a lower-case
      letter, and lower-casing the email keeps or loses its `@` with the
      typed text. */
  lemma NormalisationFacts(text: string)
    ensures |Normalised(Pais, text)| <= PaisMaxLength
    ensures forall i :: 0 <= i < |Normalised(Pais, text)| ==> !('a' <= Normalised(Pais, text)[i] <= 'z')
    ensures Contains(Normalised(Email, text), "@") <==> Contains(text, "@")
    ensures |Normalised(Email, text)| == |text|
  {
    CaseMappingFacts(text[..Min(|text|, PaisMaxLength)]);
    ToLowerKeepsAt(text);
  }

  const NitRequired := "El NIT es requerido"
  const NitTooShort := "El NIT debe tener al menos 5 caracteres"
  const NombreRequired := "El nombre de la institución es requerido"
  const EmailInvalid := "Ingrese un email válido"
  const PasswordTooShort := "La contraseña debe tener al menos 8 caracteres"
  const PasswordsDiffer := "Las contraseñas no coinciden"
  const TelefonoRequired := "El teléfono es requerido"
  const DireccionRequired := "La dirección es requerida"
  const CiudadRequired := "La ciudad es requerida"
  const PaisRequired := "El país es requerido"
  const PaisLength := "El código de país debe tener 2 caracteres (ej: CO)"

  /** `validateForm`: the checks in the screen's order, each returning its
      message as soon as it fails. The form passes exactly when its identity
      fields are acceptable, the password has at least 8 characters and
      matches its confirmation, and its contact fields are acceptable. */
  function ValidateForm(form: RegisterData, confirm: string): (r: Option<string>)
    ensures r.None? <==> IdentityOk(form) && |form.password| >= 8 && form.password == confirm && ContactOk(form)
  {
    if Trim(form.nit) == "" then Some(NitRequired)
    else if |Trim(form.nit)| < 5 then Some(NitTooShort)
    else if Trim(form.nombre) == "" then Some(NombreRequired)
    else if Trim(form.email) == "" || !Contains(form.email, "@") then Some(EmailInvalid)
    else if form.password == "" || |form.password| < 8 then Some(PasswordTooShort)
    else if form.password != confirm then Some(PasswordsDiffer)
    else if Trim(form.telefono) == "" then Some(TelefonoRequired)
    else if Trim(form.direccion) == "" then Some(DireccionRequired)
    else if Trim(form.ciudad) == "" then Some(CiudadRequired)
    else if Trim(form.pais) == "" then Some(PaisRequired)
    else if |Trim(form.pais)| != 2 then Some(PaisLength)
    else None
  }

  /** The identity fields a registration needs before the password is looked
      at: a NIT of at least 5 characters after trimming, a name, and an
      email with `@`. */
  predicate IdentityOk(form: RegisterData)
  {
    |Trim(form.nit)| >= 5 && Trim(form.nombre) != "" && Trim(form.email) != "" && Contains(form.email, "@")
  }

  /** The contact fields: phone, address and city present, and a
      two-character country. */
  predicate ContactOk(form: RegisterData)
  {
    Trim(form.telefono) != "" && Trim(form.direccion) != "" && Trim(form.ciudad) != "" && |Trim(form.pais)| == 2
  }

  /** The checks run in order: a password problem is reported only for a
      form whose identity fields pass, and a contact problem only once the
      password is right. */
  lemma ValidateFormOrder(form: RegisterData, confirm: string)
    ensures ValidateForm(form, confirm) in {Some(PasswordTooShort), Some(PasswordsDiffer)} ==> IdentityOk(form)
    ensures ValidateForm(form, confirm) == Some(PasswordsDiffer) <==>
      IdentityOk(form) && |form.password| >= 8 && form.password != confirm
    ensures ValidateForm(form, confirm) in {Some(TelefonoRequired), Some(DireccionRequired), Some(CiudadRequired), Some(PaisRequired), Some(PaisLength)} ==>
      IdentityOk(form) && |form.password| >= 8 && form.password == confirm && !ContactOk(form)
  {
  }

  /** The initial form fails on the NIT first. */
  lemma InitialFormNeedsNit(confirm: string)
    ensures ValidateForm(InitialForm, confirm) == Some(NitRequired)
  {
    TrimEmptyIff(InitialForm.nit);
  }

  /** One entry of a 422 response's `detail` list. */
  datatype ValidationItem = ValidationItem(loc: Option<seq<string>>, msg: string)

  /** A `detail` value: a list of validation items, or anything else,
      with its truthiness. */
  datatype DetailValue = DetailList(items: seq<ValidationItem>) | OtherDetail(truthy: bool)

  /** The parts of a failed registration the screen looks at. */
  datatype RegisterError = RegisterError(
    status: Option<int>, detailsDetail: Option<DetailValue>, dataDetail: Option<DetailValue>, message: Option<string>)

  const DefaultRegisterError := "No se pudo completar el registro. Intente nuevamente."
  const InvalidData := "Los datos ingresados no son válidos"
  const AlreadyRegistered := "El email o NIT ya están registrados"
  const GenericValidation := "Error de validación. Verifique que todos los campos sean correctos."
  const ConnectionError := "Error de conexión. Verifique su internet."

  /** `fieldNameES[fieldName] || fieldName`. */
  function TranslateField(name: string): (t: string)
    ensures name == "nit" ==> t == "NIT"
    ensures name == "pais" ==> t == "País"
    ensures name !in {"nit", "nombre", "email", "password", "telefono", "direccion", "ciudad", "pais"} ==> t == name
  {
    if name == "nit" then "NIT"
    else if name == "nombre" then "Nombre"
    else if name == "email" then "Email"
    else if name == "password" then "Contraseña"
    else if name == "telefono" then "Teléfono"
    else if name == "direccion" then "Dirección"
    else if name == "ciudad" then "Ciudad"
    else if name == "pais" then "País"
    else name
  }

  /** `firstError.loc?.[loc.length - 1] || 'campo'`. */
  function FieldName(item: ValidationItem): (n: string)
    ensures n != ""
    ensures item.loc.Some? && |item.loc.value| > 0 && item.loc.value[|item.loc.value| - 1] != "" ==>
      n == item.loc.value[|item.loc.value| - 1]
  {
    if item.loc.Some? && |item.loc.value| > 0 && item.loc.value[|item.loc.value| - 1] != ""
    then item.loc.value[|item.loc.value| - 1]
    else "campo"
  }

  /** `details?.detail || data?.detail`: the first truthy one. */
  function Details(e: RegisterError): Option<DetailValue>
  {
    if e.detailsDetail.Some? && (e.detailsDetail.value.DetailList? || e.detailsDetail.value.truthy)
    then e.detailsDetail
    else e.dataDetail
  }

  /** The `catch` of `handleRegister`. */
  function RegisterErrorMessage(e: RegisterError): (m: string)
    ensures e.status == Some(400) ==> m == InvalidData
    ensures e.status == Some(409) ==> m == AlreadyRegistered
    ensures e.status == Some(422) && Details(e).Some? && Details(e).value.DetailList? && |Details(e).value.items| > 0 ==>
      var first := Details(e).value.items[0];
      m == TranslateField(FieldName(first)) + ": " + first.msg
    ensures e.status == Some(422) && !(Details(e).Some? && Details(e).value.DetailList? && |Details(e).value.items| > 0) ==>
      m == GenericValidation
    ensures e.status !in {Some(400), Some(409), Some(422)} && e.message == Some("Network Error") ==> m == ConnectionError
    ensures e.status !in {Some(400), Some(409), Some(422)} && e.message != Some("Network Error") ==> m == DefaultRegisterError
  {
    if e.status == Some(400) then InvalidData
    else if e.status == Some(409) then AlreadyRegistered
    else if e.status == Some(422) then
      var details := Details(e);
      if details.Some? && details.value.DetailList? && |details.value.items| > 0 then
        var first := details.value.items[0];
        TranslateField(FieldName(first)) + ": " + first.msg
      else GenericValidation
    else if e.message == Some("Network Error") then ConnectionError
    else DefaultRegisterError
  }

  /** A 422 about the country reads `País: <msg>`; one without a usable
      location reads `campo: <msg>`. */
  lemma ValidationMessageExamples(msg: string)
    ensures RegisterErrorMessage(RegisterError(Some(422), None, Some(DetailList([ValidationItem(Some(["body", "pais"]), msg)])), None))
      == "País: " + msg
    ensures RegisterErrorMessage(RegisterError(Some(422), Some(DetailList([ValidationItem(None, msg)])), None, None))
      == "campo: " + msg
  {
  }

  /** What `handleRegister` ends with. */
  datatype RegisterAlert = ValidationAlert(message: string) | Registered | RegistrationFailed(message: string)

  /** The screen's state. */
  class RegisterForm {
    var formData: RegisterData
    var confirmPassword: string
    var isLoading: bool

    constructor()
      ensures formData == InitialForm && confirmPassword == "" && !isLoading
    {
      formData := InitialForm;
      confirmPassword := "";
      isLoading := false;
    }

    /** `updateField` as the inputs call it, with their normalisation. */
    method UpdateField(f: TextField, text: string)
      modifies this
      ensures formData == WithField(old(formData), f, Normalised(f, text))
      ensures confirmPassword == old(confirmPassword) && isLoading == old(isLoading)
    {
      formData := WithField(formData, f, Normalised(f, text));
    }

    method SetConfirmPassword(text: string)
      modifies this
      ensures confirmPassword == text && formData == old(formData) && isLoading == old(isLoading)
    {
      confirmPassword := text;
    }

    /** `handleRegister`, given what `registerComplete` would produce (None
        for success). An invalid form sends nothing; a valid one sends the
        form once and ends with loading off. */
    method HandleRegister(outcome: Option<RegisterError>) returns (alert: RegisterAlert, sent: seq<RegisterData>)
      modifies this
      ensures formData == old(formData) && confirmPassword == old(confirmPassword)
      ensures ValidateForm(old(formData), old(confirmPassword)).Some? ==>
        alert == ValidationAlert(ValidateForm(old(formData), old(confirmPassword)).value)
        && sent == [] && isLoading == old(isLoading)
      ensures ValidateForm(old(formData), old(confirmPassword)).None? ==>
        sent == [old(formData)] && !isLoading
        && alert == (if outcome.None? then Registered else RegistrationFailed(RegisterErrorMessage(outcome.value)))
    {
      var invalid := ValidateForm(formData, confirmPassword);
      if invalid.Some? {
        return ValidationAlert(invalid.value), [];
      }
      isLoading := true;
      sent := [formData];
      if outcome.None? {
        alert := Registered;
      } else {
        alert := RegistrationFailed(RegisterErrorMessage(outcome.value));
      }
      isLoading := false;
    }
  }
}
