/** The signup form's initial values: one entry per registered field name,
    holding the field's configured default. The accumulator is a plain
    object, so assigning under `__proto__` runs the setter inherited from
    `Object.prototype`, which ignores a string and creates no entry. */
module SignupForm {
  import opened Common
  import opened DynamicFormField

  /** The one key under which an assignment to a plain object adds nothing. */
  const ProtoKey := "__proto__"

  /** `acc[name] = value` on a plain object. */
  function Assign(acc: map<string, string>, name: string, value: string): map<string, string> {
    if name == ProtoKey then acc else acc[name := value]
  }

  /** The `reduce` over the fields, one assignment per field in order. */
  function Defaults(fields: seq<FormField>): map<string, string> {
    if fields == [] then map[]
    else
      var last := fields[|fields| - 1];
      Assign(Defaults(fields[..|fields| - 1]), FieldName(last), DefaultOf(last))
  }

  /** The names of the fields, normalised as each field registers itself. */
  function FieldNames(fields: seq<FormField>): set<string> {
    set f | f in fields :: FieldName(f)
  }

  /** Builds the default values by assigning each field's default under its
      normalised name, later fields overwriting earlier ones. */
  method DefaultValues(fields: seq<FormField>) returns (acc: map<string, string>)
    ensures acc == Defaults(fields)
  {
    acc := map[];
    var i := 0;
    while i < |fields|
      invariant 0 <= i <= |fields|
      invariant acc == Defaults(fields[..i])
    {
      assert fields[..i + 1][..i] == fields[..i];
      acc := Assign(acc, FieldName(fields[i]), DefaultOf(fields[i]));
      i := i + 1;
    }
    assert fields[..|fields|] == fields;
  }

  /** Every field but one named `__proto__`, and nothing else, has an entry;
      there are at most as many entries as fields. */
  lemma {:induction false} DefaultsKeys(fields: seq<FormField>)
    ensures Defaults(fields).Keys == FieldNames(fields) - {ProtoKey}
    ensures |Defaults(fields)| <= |fields|
  {
    if fields != [] {
      var n := |fields| - 1;
      var init := fields[..n];
      DefaultsKeys(init);
      assert fields == init + [fields[n]];
      assert FieldNames(fields) == FieldNames(init) + {FieldName(fields[n])};
      if FieldName(fields[n]) == ProtoKey {
        assert Defaults(fields) == Defaults(init);
      }
    }
  }

  /** The last field with a name has an entry, unless the name is
      `__proto__`, and the entry holds that field's default. */
  lemma {:induction false} DefaultsLastWins(fields: seq<FormField>, k: nat)
    requires k < |fields|
    requires forall m :: k < m < |fields| ==> FieldName(fields[m]) != FieldName(fields[k])
    ensures FieldName(fields[k]) in Defaults(fields) <==> FieldName(fields[k]) != ProtoKey
    ensures FieldName(fields[k]) != ProtoKey ==> Defaults(fields)[FieldName(fields[k])] == DefaultOf(fields[k])
  {
    var n := |fields| - 1;
    DefaultsKeys(fields);
    if k < n {
      var init := fields[..n];
      assert forall m :: k < m < n ==> init[m] == fields[m];
      DefaultsLastWins(init, k);
    }
  }

  /** A missing default starts the field empty. */
  lemma MissingDefaultIsEmpty(fields: seq<FormField>, k: nat)
    requires k < |fields| && fields[k].defaultValue.None?
    requires forall m :: k < m < |fields| ==> FieldName(fields[m]) != FieldName(fields[k])
    ensures FieldName(fields[k]) in Defaults(fields) <==> FieldName(fields[k]) != ProtoKey
    ensures FieldName(fields[k]) != ProtoKey ==> Defaults(fields)[FieldName(fields[k])] == ""
  {
    DefaultsLastWins(fields, k);
  }

  /** When the normalised names are distinct, every field but one named
      `__proto__` has its own entry. */
  lemma DistinctNamesKeepEveryField(fields: seq<FormField>)
    requires forall a, b :: 0 <= a < b < |fields| ==> FieldName(fields[a]) != FieldName(fields[b])
    ensures forall k :: 0 <= k < |fields| && FieldName(fields[k]) != ProtoKey ==>
      FieldName(fields[k]) in Defaults(fields) && Defaults(fields)[FieldName(fields[k])] == DefaultOf(fields[k])
    ensures ProtoKey !in Defaults(fields)
  {
    DefaultsKeys(fields);
    forall k | 0 <= k < |fields| && FieldName(fields[k]) != ProtoKey
      ensures FieldName(fields[k]) in Defaults(fields) && Defaults(fields)[FieldName(fields[k])] == DefaultOf(fields[k])
    {
      DefaultsLastWins(fields, k);
    }
  }
}
