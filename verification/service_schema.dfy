/**
 * The service schemas: a full service record, an update payload with every
 * field optional, and an availability payload. All three are strict.
 */
module ServiceSchema {
  import opened Wrappers
  import opened Json

  datatype ServiceRequest = ServiceRequest(name: string, description: string, duration: real, price: real, available: bool)

  datatype ServicePatch = ServicePatch(
    name: Option<string>,
    description: Option<string>,
    duration: Option<real>,
    price: Option<real>,
    available: Option<bool>)

  const ServiceKeys: set<string> := {"nombre", "descripcion", "duracion", "precio", "disponible"}

  predicate NameOk(s: string) {
    5 <= |s| <= 50
  }

  predicate DescriptionOk(s: string) {
    10 <= |s| <= 200
  }

  /** The per-field rules shared by the full and the update schema. */
  function ServiceFields(fields: map<string, Value>, required: bool): Option<ServicePatch> {
    var name :- StringField(fields, "nombre", required, NameOk);
    var description :- StringField(fields, "descripcion", required, DescriptionOk);
    var duration :- NumberField(fields, "duracion", required);
    var price :- NumberField(fields, "precio", required);
    var available :- BoolField(fields, "disponible", required);
    Some(ServicePatch(name, description, duration, price, available))
  }

  /** `validateServices`. */
  function ValidateService(body: Value): (r: Option<ServiceRequest>)
    ensures r.Some? ==> body.Obj? && OnlyKeys(body.fields, ServiceKeys)
    ensures r.Some? ==>
      var f, s := body.fields, r.value;
      && "nombre" in f && f["nombre"] == Str(s.name) && NameOk(s.name)
      && "descripcion" in f && f["descripcion"] == Str(s.description) && DescriptionOk(s.description)
      && "duracion" in f && f["duracion"] == Num(s.duration)
      && "precio" in f && f["precio"] == Num(s.price)
      && "disponible" in f && f["disponible"] == Bool(s.available)
  {
    if !body.Obj? || !OnlyKeys(body.fields, ServiceKeys) then None
    else
      var p :- ServiceFields(body.fields, true);
      Some(ServiceRequest(p.name.value, p.description.value, p.duration.value, p.price.value, p.available.value))
  }

  /** `validateServiceUpdate`: the same rules with every field optional. */
  function ValidateServiceUpdate(body: Value): (r: Option<ServicePatch>)
    ensures r.Some? ==> body.Obj? && OnlyKeys(body.fields, ServiceKeys)
    ensures r.Some? ==>
      var f, p := body.fields, r.value;
      && (p.name.Some? <==> "nombre" in f)
      && (p.name.Some? ==> f["nombre"] == Str(p.name.value) && NameOk(p.name.value))
      && (p.description.Some? <==> "descripcion" in f)
      && (p.description.Some? ==> f["descripcion"] == Str(p.description.value) && DescriptionOk(p.description.value))
      && (p.duration.Some? <==> "duracion" in f)
      && (p.duration.Some? ==> f["duracion"] == Num(p.duration.value))
      && (p.price.Some? <==> "precio" in f)
      && (p.price.Some? ==> f["precio"] == Num(p.price.value))
      && (p.available.Some? <==> "disponible" in f)
      && (p.available.Some? ==> f["disponible"] == Bool(p.available.value))
  {
    if !body.Obj? || !OnlyKeys(body.fields, ServiceKeys) then None
    else ServiceFields(body.fields, false)
  }

  /** `validateAvailability`: exactly `{disponible: boolean}`. */
  function ValidateAvailability(body: Value): (r: Option<bool>)
    ensures r.Some? <==> body.Obj? && body.fields.Keys == {"disponible"} && body.fields["disponible"].Bool?
    ensures r.Some? ==> body.fields["disponible"] == Bool(r.value)
  {
    if !body.Obj? || !OnlyKeys(body.fields, {"disponible"}) then None
    else
      var available :- BoolField(body.fields, "disponible", true);
      Some(available.value)
  }

  /** What one key may hold; undeclared keys may hold nothing. */
  predicate FieldConforms(key: string, v: Value) {
    if key == "nombre" then v.Str? && NameOk(v.s)
    else if key == "descripcion" then v.Str? && DescriptionOk(v.s)
    else if key == "duracion" || key == "precio" then v.Num?
    else if key == "disponible" then v.Bool?
    else false
  }

  /** The update payload is accepted exactly when every key it carries is declared and conforms. */
  lemma ValidateServiceUpdateIsPerField(fields: map<string, Value>)
    ensures ValidateServiceUpdate(Obj(fields)).Some? <==> forall k :: k in fields ==> FieldConforms(k, fields[k])
  {
    if forall k :: k in fields ==> FieldConforms(k, fields[k]) {
      assert "nombre" in fields ==> FieldConforms("nombre", fields["nombre"]);
      assert "descripcion" in fields ==> FieldConforms("descripcion", fields["descripcion"]);
      assert "duracion" in fields ==> FieldConforms("duracion", fields["duracion"]);
      assert "precio" in fields ==> FieldConforms("precio", fields["precio"]);
      assert "disponible" in fields ==> FieldConforms("disponible", fields["disponible"]);
      assert OnlyKeys(fields, ServiceKeys) by {
        forall k | k in fields
          ensures k in ServiceKeys
        {
          assert FieldConforms(k, fields[k]);
        }
      }
    }
  }

  /** A full service record is accepted exactly when it carries all five keys, each conforming, and nothing else. */
  lemma ValidateServiceIsConforms(body: Value)
    ensures ValidateService(body).Some? <==>
      body.Obj? && body.fields.Keys == ServiceKeys && forall k :: k in body.fields ==> FieldConforms(k, body.fields[k])
  {
    if body.Obj? && body.fields.Keys == ServiceKeys && forall k :: k in body.fields ==> FieldConforms(k, body.fields[k]) {
      var f := body.fields;
      assert FieldConforms("nombre", f["nombre"]);
      assert FieldConforms("descripcion", f["descripcion"]);
      assert FieldConforms("duracion", f["duracion"]);
      assert FieldConforms("precio", f["precio"]);
      assert FieldConforms("disponible", f["disponible"]);
    }
    if ValidateService(body).Some? {
      var f := body.fields;
      assert f.Keys == ServiceKeys by {
        assert f.Keys <= ServiceKeys;
        assert "nombre" in f && "descripcion" in f && "duracion" in f && "precio" in f && "disponible" in f;
      }
      forall k | k in f
        ensures FieldConforms(k, f[k])
      {
        assert k in ServiceKeys;
      }
    }
  }

  /** A valid full service record is also a valid update that sets every field. */
  lemma FullServiceIsUpdate(body: Value)
    requires ValidateService(body).Some?
    ensures
      var s := ValidateService(body).value;
      ValidateServiceUpdate(body) == Some(ServicePatch(Some(s.name), Some(s.description), Some(s.duration), Some(s.price), Some(s.available)))
  {
  }

  /** A valid availability payload is a valid update that sets only the availability flag. */
  lemma AvailabilityIsUpdate(body: Value)
    requires ValidateAvailability(body).Some?
    ensures ValidateServiceUpdate(body) == Some(ServicePatch(None, None, None, None, Some(ValidateAvailability(body).value)))
  {
  }
}
