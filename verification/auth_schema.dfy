/** The registration schema: four required fields and no others. */
module AuthSchema {
  import opened Wrappers
  import opened Json

  datatype Role = Admin | Client

  function RoleName(r: Role): string {
    match r
    case Admin => "admin"
    case Client => "client"
  }

  datatype Registration = Registration(name: string, email: string, phone: string, role: Role)

  const RegistrationKeys: set<string> := {"name", "email", "phone", "role"}

  const MinPhoneLength := 8

  /**
   * `authSchemaData`; `isEmail` stands for zod's email check, whose pattern
   * belongs to the library.
   */
  function ValidateRegistration(body: Value, isEmail: string -> bool): (r: Option<Registration>)
    ensures r.Some? ==> body.Obj? && body.fields.Keys == RegistrationKeys
    ensures r.Some? ==>
      var f, a := body.fields, r.value;
      && f["name"] == Str(a.name) && |a.name| >= 1
      && f["email"] == Str(a.email) && isEmail(a.email)
      && f["phone"] == Str(a.phone) && |a.phone| >= MinPhoneLength
      && f["role"] == Str(RoleName(a.role))
  {
    if !body.Obj? || !OnlyKeys(body.fields, RegistrationKeys) then None
    else
      var f := body.fields;
      var name :- RequiredString(f, "name", (s: string) => |s| >= 1);
      var email :- RequiredString(f, "email", isEmail);
      var phone :- RequiredString(f, "phone", (s: string) => |s| >= MinPhoneLength);
      var role :- RequiredString(f, "role", (s: string) => s == "admin" || s == "client");
      Some(Registration(name, email, phone, if role == "admin" then Admin else Client))
  }

  /** Every registration with conforming fields is accepted and read back unchanged. */
  lemma RegistrationRoundTrip(a: Registration, isEmail: string -> bool)
    requires |a.name| >= 1 && isEmail(a.email) && |a.phone| >= MinPhoneLength
    ensures
      var body := Obj(map["name" := Str(a.name), "email" := Str(a.email), "phone" := Str(a.phone), "role" := Str(RoleName(a.role))]);
      ValidateRegistration(body, isEmail) == Some(a)
  {
    var f := map["name" := Str(a.name), "email" := Str(a.email), "phone" := Str(a.phone), "role" := Str(RoleName(a.role))];
    assert f.Keys == RegistrationKeys;
  }

  /** Removing any one of the four fields rejects the registration. */
  lemma MissingFieldRejected(fields: map<string, Value>, key: string, isEmail: string -> bool)
    requires key in RegistrationKeys && key !in fields
    ensures ValidateRegistration(Obj(fields), isEmail).None?
  {
  }
}
