/**
 * The booking input record `AppointmentData` and the dictionary pydantic's
 * `model_dump(exclude_none=True)` makes of it: the fields that are set, under
 * their Python names, in declaration order.
 */
module AppointmentModel {
  import opened Wrappers

  /** Four required identity fields, then thirteen optional ones. */
  datatype AppointmentData = AppointmentData(
    firstName: string,
    lastName: string,
    email: string,
    phone: string,
    appointmentType: Option<string>,
    preferredDate: Option<string>,
    preferredTime: Option<string>,
    vehicleMake: Option<string>,
    vehicleModel: Option<string>,
    vehicleYear: Option<string>,
    vehicleVin: Option<string>,
    licensePlate: Option<string>,
    notes: Option<string>,
    address: Option<string>,
    city: Option<string>,
    state: Option<string>,
    zipCode: Option<string>)

  /** The Python field names, in declaration order. */
  const FieldNames: seq<string> := [
    "first_name", "last_name", "email", "phone",
    "appointment_type", "preferred_date", "preferred_time",
    "vehicle_make", "vehicle_model", "vehicle_year", "vehicle_vin", "license_plate",
    "notes", "address", "city", "state", "zip_code"]

  /** Number of required fields; they come first. */
  const RequiredCount := 4

  type Pairs = seq<(string, string)>

  /** The value of each field, in the order of `FieldNames`; a required field is always set. */
  function FieldValues(d: AppointmentData): (vs: seq<Option<string>>)
    ensures |vs| == |FieldNames|
    ensures forall i :: 0 <= i < RequiredCount ==> vs[i].Some?
  {
    [Some(d.firstName), Some(d.lastName), Some(d.email), Some(d.phone),
     d.appointmentType, d.preferredDate, d.preferredTime,
     d.vehicleMake, d.vehicleModel, d.vehicleYear, d.vehicleVin, d.licensePlate,
     d.notes, d.address, d.city, d.state, d.zipCode]
  }

  /** The names whose value is set, paired with that value, in order. */
  function Keep(names: seq<string>, values: seq<Option<string>>): Pairs
    requires |names| == |values|
  {
    if names == [] then []
    else if values[0].Some? then [(names[0], values[0].value)] + Keep(names[1..], values[1..])
    else Keep(names[1..], values[1..])
  }

  /** `appointment_data.model_dump(exclude_none=True)`, as an ordered list of items. */
  function PresentFields(d: AppointmentData): Pairs
  {
    Keep(FieldNames, FieldValues(d))
  }

  /** The value bound to `k` in the dictionary built from `fs`: the last binding wins. */
  function Lookup(fs: Pairs, k: string): Option<string>
  {
    if fs == [] then None
    else match Lookup(fs[1..], k)
      case Some(v) => Some(v)
      case None => if fs[0].0 == k then Some(fs[0].1) else None
  }

  /**
   * `AppointmentData(**d)` for a dictionary of strings: None, a validation
   * error, when a required field is missing; unknown keys are ignored.
   */
  function FromFields(fs: Pairs): Option<AppointmentData>
  {
    var first, last, email, phone :=
      Lookup(fs, "first_name"), Lookup(fs, "last_name"), Lookup(fs, "email"), Lookup(fs, "phone");
    if first.None? || last.None? || email.None? || phone.None? then None
    else Some(AppointmentData(
      first.value, last.value, email.value, phone.value,
      Lookup(fs, "appointment_type"), Lookup(fs, "preferred_date"), Lookup(fs, "preferred_time"),
      Lookup(fs, "vehicle_make"), Lookup(fs, "vehicle_model"), Lookup(fs, "vehicle_year"),
      Lookup(fs, "vehicle_vin"), Lookup(fs, "license_plate"),
      Lookup(fs, "notes"), Lookup(fs, "address"), Lookup(fs, "city"), Lookup(fs, "state"),
      Lookup(fs, "zip_code")))
  }

  /** Position of `k` in `names`, or `|names|` when it is not there. */
  function IndexOf(names: seq<string>, k: string): (i: nat)
    ensures i <= |names|
    ensures i < |names| <==> k in names
    ensures i < |names| ==> names[i] == k
  {
    if names == [] then 0 else if names[0] == k then 0 else 1 + IndexOf(names[1..], k)
  }

  predicate Distinct(names: seq<string>)
  {
    forall i, j :: 0 <= i < j < |names| ==> names[i] != names[j]
  }

  // ---------------------------------------------------------------- generic facts about Keep

  lemma {:induction false} KeepOnlyNames(names: seq<string>, values: seq<Option<string>>, k: string)
    requires |names| == |values| && k !in names
    ensures Lookup(Keep(names, values), k) == None
    decreases |names|
  {
    if names != [] {
      KeepOnlyNames(names[1..], values[1..], k);
      var rest := Keep(names[1..], values[1..]);
      if values[0].Some? {
        assert ([(names[0], values[0].value)] + rest)[1..] == rest;
      }
    }
  }

  /** With distinct names, the kept list binds each name to its value, and an unset name to nothing. */
  lemma {:induction false} KeepLookup(names: seq<string>, values: seq<Option<string>>, i: nat)
    requires |names| == |values| && Distinct(names) && i < |names|
    ensures Lookup(Keep(names, values), names[i]) == values[i]
    decreases |names|
  {
    var tn, tv := names[1..], values[1..];
    var rest := Keep(tn, tv);
    assert Distinct(tn);
    if values[0].Some? {
      assert ([(names[0], values[0].value)] + rest)[1..] == rest;
    }
    if i == 0 {
      assert names[0] !in tn;
      KeepOnlyNames(tn, tv, names[0]);
    } else {
      assert tn[i - 1] == names[i] && tv[i - 1] == values[i];
      KeepLookup(tn, tv, i - 1);
    }
  }

  /** Every item of `fs` is one of `names` paired with that name's value. */
  predicate FromNames(names: seq<string>, values: seq<Option<string>>, fs: Pairs)
    requires |names| == |values|
  {
    forall a :: 0 <= a < |fs| ==>
      IndexOf(names, fs[a].0) < |names| && values[IndexOf(names, fs[a].0)] == Some(fs[a].1)
  }

  /** The keys of `fs` come in the order of `names`, none twice. */
  predicate InNameOrder(names: seq<string>, fs: Pairs)
  {
    forall a, b :: 0 <= a < b < |fs| ==> IndexOf(names, fs[a].0) < IndexOf(names, fs[b].0)
  }

  /** A key drawn from the tail of distinct names is not the head, and its position shifts by one. */
  lemma TailPosition(names: seq<string>, k: string)
    requires names != [] && Distinct(names) && IndexOf(names[1..], k) < |names| - 1
    ensures k != names[0] && IndexOf(names, k) == 1 + IndexOf(names[1..], k)
  {
    var j := IndexOf(names[1..], k);
    assert names[j + 1] == names[1..][j];
  }

  lemma {:induction false} KeepFromNames(names: seq<string>, values: seq<Option<string>>)
    requires |names| == |values| && Distinct(names)
    ensures FromNames(names, values, Keep(names, values))
    decreases |names|
  {
    if names != [] {
      var tn, tv := names[1..], values[1..];
      var rest := Keep(tn, tv);
      assert Distinct(tn);
      KeepFromNames(tn, tv);
      forall a | 0 <= a < |rest|
        ensures IndexOf(names, rest[a].0) < |names| && values[IndexOf(names, rest[a].0)] == Some(rest[a].1)
      {
        assert IndexOf(tn, rest[a].0) < |tn| && tv[IndexOf(tn, rest[a].0)] == Some(rest[a].1);
        TailPosition(names, rest[a].0);
      }
      if values[0].Some? {
        var fs := [(names[0], values[0].value)] + rest;
        assert forall a :: 0 < a < |fs| ==> fs[a] == rest[a - 1];
      }
    }
  }

  lemma {:induction false} KeepInOrder(names: seq<string>, values: seq<Option<string>>)
    requires |names| == |values| && Distinct(names)
    ensures InNameOrder(names, Keep(names, values))
    decreases |names|
  {
    if names != [] {
      var tn, tv := names[1..], values[1..];
      var rest := Keep(tn, tv);
      assert Distinct(tn);
      KeepFromNames(tn, tv);
      KeepInOrder(tn, tv);
      forall a | 0 <= a < |rest| ensures IndexOf(names, rest[a].0) == 1 + IndexOf(tn, rest[a].0) {
        assert IndexOf(tn, rest[a].0) < |tn|;
        TailPosition(names, rest[a].0);
      }
      if values[0].Some? {
        var fs := [(names[0], values[0].value)] + rest;
        assert forall a :: 0 < a < |fs| ==> fs[a] == rest[a - 1];
      }
    }
  }

  /** When the first `n` values are all set, the first `n` kept items are those names and values. */
  lemma {:induction false} KeepLeadingSet(names: seq<string>, values: seq<Option<string>>, n: nat)
    requires |names| == |values| && n <= |names|
    requires forall i :: 0 <= i < n ==> values[i].Some?
    ensures |Keep(names, values)| >= n
    ensures forall a :: 0 <= a < n ==> Keep(names, values)[a] == (names[a], values[a].value)
    decreases n
  {
    if n > 0 {
      var tn, tv := names[1..], values[1..];
      KeepLeadingSet(tn, tv, n - 1);
      var fs := [(names[0], values[0].value)] + Keep(tn, tv);
      assert forall a :: 0 < a < |fs| ==> fs[a] == Keep(tn, tv)[a - 1];
    }
  }

  lemma FieldNamesDistinct()
    ensures Distinct(FieldNames)
  {
  }

  // ---------------------------------------------------------------- the properties of model_dump

  /**
   * The dumped dictionary holds exactly the set fields: looking up any field
   * name gives that field's value (nothing when it is None); every item is a
   * field name paired with that field's value; and the names come in
   * declaration order, none twice.
   */
  lemma PresentFieldsExact(d: AppointmentData)
    ensures var fs := PresentFields(d);
      (forall i :: 0 <= i < |FieldNames| ==> Lookup(fs, FieldNames[i]) == FieldValues(d)[i]) &&
      (forall a :: 0 <= a < |fs| ==>
         IndexOf(FieldNames, fs[a].0) < |FieldNames| && FieldValues(d)[IndexOf(FieldNames, fs[a].0)] == Some(fs[a].1)) &&
      (forall a, b :: 0 <= a < b < |fs| ==> IndexOf(FieldNames, fs[a].0) < IndexOf(FieldNames, fs[b].0))
  {
    FieldNamesDistinct();
    forall i | 0 <= i < |FieldNames| ensures Lookup(PresentFields(d), FieldNames[i]) == FieldValues(d)[i] {
      KeepLookup(FieldNames, FieldValues(d), i);
    }
    KeepFromNames(FieldNames, FieldValues(d));
    KeepInOrder(FieldNames, FieldValues(d));
  }

  /** An unset field has no key at all in the dump, and a set one has its value. */
  lemma OptionalFieldOmittedIffNone(d: AppointmentData, i: nat)
    requires i < |FieldNames|
    ensures (FieldNames[i] in Keys(PresentFields(d))) <==> FieldValues(d)[i].Some?
  {
    PresentFieldsExact(d);
    var fs := PresentFields(d);
    if FieldNames[i] in Keys(fs) {
      var a := KeyIndex(fs, FieldNames[i]);
      FieldNamesDistinct();
      assert IndexOf(FieldNames, fs[a].0) == i;
    } else {
      LookupNeedsKey(fs, FieldNames[i]);
    }
  }

  function Keys(fs: Pairs): (ks: seq<string>)
    ensures |ks| == |fs| && forall a :: 0 <= a < |fs| ==> ks[a] == fs[a].0
  {
    if fs == [] then [] else [fs[0].0] + Keys(fs[1..])
  }

  function KeyIndex(fs: Pairs, k: string): (a: nat)
    requires k in Keys(fs)
    ensures a < |fs| && fs[a].0 == k
  {
    assert Keys(fs) == [fs[0].0] + Keys(fs[1..]);
    if fs[0].0 == k then 0 else 1 + KeyIndex(fs[1..], k)
  }

  lemma {:induction false} LookupNeedsKey(fs: Pairs, k: string)
    requires k !in Keys(fs)
    ensures Lookup(fs, k) == None
    decreases |fs|
  {
    if fs != [] {
      assert Keys(fs)[1..] == Keys(fs[1..]);
      LookupNeedsKey(fs[1..], k);
    }
  }

  /**
   * The four identity fields are required, so they always lead the dump, with
   * their values as given, blank or not.
   */
  lemma RequiredFieldsLead(d: AppointmentData)
    ensures |PresentFields(d)| >= RequiredCount
    ensures PresentFields(d)[..RequiredCount] ==
      [("first_name", d.firstName), ("last_name", d.lastName), ("email", d.email), ("phone", d.phone)]
  {
    KeepLeadingSet(FieldNames, FieldValues(d), RequiredCount);
  }

  /** In the dump, the identity fields read back as their values. */
  lemma IdentityLookups(d: AppointmentData)
    ensures Lookup(PresentFields(d), "first_name") == Some(d.firstName)
    ensures Lookup(PresentFields(d), "last_name") == Some(d.lastName)
    ensures Lookup(PresentFields(d), "email") == Some(d.email)
    ensures Lookup(PresentFields(d), "phone") == Some(d.phone)
  {
    PresentFieldsExact(d);
    assert FieldNames[0] == "first_name";
    assert FieldNames[1] == "last_name";
    assert FieldNames[2] == "email";
    assert FieldNames[3] == "phone";
  }

  /** In the dump, the appointment preferences read back as their values. */
  lemma PreferenceLookups(d: AppointmentData)
    ensures Lookup(PresentFields(d), "appointment_type") == d.appointmentType
    ensures Lookup(PresentFields(d), "preferred_date") == d.preferredDate
    ensures Lookup(PresentFields(d), "preferred_time") == d.preferredTime
  {
    PresentFieldsExact(d);
    assert FieldNames[4] == "appointment_type";
    assert FieldNames[5] == "preferred_date";
    assert FieldNames[6] == "preferred_time";
  }

  /** In the dump, the vehicle fields read back as their values. */
  lemma VehicleLookups(d: AppointmentData)
    ensures Lookup(PresentFields(d), "vehicle_make") == d.vehicleMake
    ensures Lookup(PresentFields(d), "vehicle_model") == d.vehicleModel
    ensures Lookup(PresentFields(d), "vehicle_year") == d.vehicleYear
    ensures Lookup(PresentFields(d), "vehicle_vin") == d.vehicleVin
    ensures Lookup(PresentFields(d), "license_plate") == d.licensePlate
  {
    PresentFieldsExact(d);
    assert FieldNames[7] == "vehicle_make";
    assert FieldNames[8] == "vehicle_model";
    assert FieldNames[9] == "vehicle_year";
    assert FieldNames[10] == "vehicle_vin";
    assert FieldNames[11] == "license_plate";
  }

  /** In the dump, the notes and location fields read back as their values. */
  lemma LocationLookups(d: AppointmentData)
    ensures Lookup(PresentFields(d), "notes") == d.notes
    ensures Lookup(PresentFields(d), "address") == d.address
    ensures Lookup(PresentFields(d), "city") == d.city
    ensures Lookup(PresentFields(d), "state") == d.state
    ensures Lookup(PresentFields(d), "zip_code") == d.zipCode
  {
    PresentFieldsExact(d);
    assert FieldNames[12] == "notes";
    assert FieldNames[13] == "address";
    assert FieldNames[14] == "city";
    assert FieldNames[15] == "state";
    assert FieldNames[16] == "zip_code";
  }

  /** Rebuilding the record from its dump gives the record back: the dump loses nothing. */
  lemma FromFieldsRoundTrip(d: AppointmentData)
    ensures FromFields(PresentFields(d)) == Some(d)
  {
    IdentityLookups(d);
    PreferenceLookups(d);
    VehicleLookups(d);
    LocationLookups(d);
  }

  /** Two records with the same dump are the same record. */
  lemma PresentFieldsInjective(d: AppointmentData, e: AppointmentData)
    ensures PresentFields(d) == PresentFields(e) <==> d == e
  {
    FromFieldsRoundTrip(d);
    FromFieldsRoundTrip(e);
  }
}
