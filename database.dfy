/**
  The persisted profile record of CalorieBurnout (Database/UserInformation.swift):
  the five-field `UserInformation` struct, its initializer from a loosely typed
  `[String: Any]` dictionary, and the store it is fetched from and written to.
 */
module Database {
  import opened Wrappers

  /** A value held under a key of a `[String: Any]` dictionary, by its dynamic type. */
  datatype Value = BoolV(b: bool) | StrV(s: string) | IntV(i: int) | OtherV

  /** The `[String: Any]` dictionary the initializer reads. */
  type Dictionary = map<string, Value>

  /** The stored profile. Age and weight are free text, never numbers. */
  datatype UserInformation = UserInformation(
    validInformation: bool,
    name: string,
    age: string,
    gender: string,
    weight: string)

  /** The exact, case-sensitive keys the initializer reads. */
  const ValidInformationKey: string := "ValidInformation"
  const NameKey: string := "Name"
  const AgeKey: string := "Age"
  const GenderKey: string := "Gender"
  const WeightKey: string := "Weight"

  const Keys: set<string> := {ValidInformationKey, NameKey, AgeKey, GenderKey, WeightKey}

  /** The record every field of which took its default. */
  const Blank: UserInformation := UserInformation(false, "", "", "", "")

  /** `d[key] as? Bool ?? fallback` */
  function BoolOr(d: Dictionary, key: string, fallback: bool): bool
  {
    if key in d && d[key].BoolV? then d[key].b else fallback
  }

  /** `d[key] as? String ?? fallback` */
  function StringOr(d: Dictionary, key: string, fallback: string): string
  {
    if key in d && d[key].StrV? then d[key].s else fallback
  }

  /**
    `UserInformation.init(_:)`: each field is read under its own key with a
    checked cast; an absent or wrongly typed value gives `false` or `""`.
   */
  function Decode(d: Dictionary): (r: UserInformation)
    ensures r.validInformation <==> ValidInformationKey in d && d[ValidInformationKey] == BoolV(true)
    ensures r.name != "" ==> NameKey in d && d[NameKey] == StrV(r.name)
    ensures r.age != "" ==> AgeKey in d && d[AgeKey] == StrV(r.age)
    ensures r.gender != "" ==> GenderKey in d && d[GenderKey] == StrV(r.gender)
    ensures r.weight != "" ==> WeightKey in d && d[WeightKey] == StrV(r.weight)
  {
    UserInformation(
      BoolOr(d, ValidInformationKey, false),
      StringOr(d, NameKey, ""),
      StringOr(d, AgeKey, ""),
      StringOr(d, GenderKey, ""),
      StringOr(d, WeightKey, ""))
  }

  /** The dictionary that holds a record under the five keys, each with the type its field is read as. */
  function Encode(u: UserInformation): (d: Dictionary)
    ensures d.Keys == Keys
  {
    map[ValidInformationKey := BoolV(u.validInformation),
        NameKey := StrV(u.name),
        AgeKey := StrV(u.age),
        GenderKey := StrV(u.gender),
        WeightKey := StrV(u.weight)]
  }

  // ---------------------------------------------------------------------------
  // The five fields, named, so that one lemma can speak of all of them.

  datatype Field = ValidInformationField | NameField | AgeField | GenderField | WeightField

  function KeyOf(f: Field): (k: string)
    ensures k in Keys
  {
    match f
    case ValidInformationField => ValidInformationKey
    case NameField => NameKey
    case AgeField => AgeKey
    case GenderField => GenderKey
    case WeightField => WeightKey
  }

  /** Whether the initializer's cast for field `f` succeeds on `v`. */
  predicate Accepts(f: Field, v: Value)
  {
    if f == ValidInformationField then v.BoolV? else v.StrV?
  }

  /** The value field `f` takes when its cast fails. */
  function DefaultOf(f: Field): Value
  {
    if f == ValidInformationField then BoolV(false) else StrV("")
  }

  /** Field `f` of a record, as a dictionary value. */
  function Get(u: UserInformation, f: Field): Value
  {
    match f
    case ValidInformationField => BoolV(u.validInformation)
    case NameField => StrV(u.name)
    case AgeField => StrV(u.age)
    case GenderField => StrV(u.gender)
    case WeightField => StrV(u.weight)
  }

  /** Distinct fields are read under distinct keys, and those keys are all of `Keys`. */
  lemma KeysAreFieldKeys(k: string)
    ensures k in Keys <==> exists f :: KeyOf(f) == k
    ensures forall f, g :: KeyOf(f) == KeyOf(g) ==> f == g
  {
    if k in Keys {
      var f :| f in {ValidInformationField, NameField, AgeField, GenderField, WeightField} && KeyOf(f) == k;
    }
  }

  /** Two records are equal exactly when they agree on every field. */
  lemma FieldsDetermineRecord(u: UserInformation, v: UserInformation)
    ensures u == v <==> forall f :: Get(u, f) == Get(v, f)
  {
    if forall f :: Get(u, f) == Get(v, f) {
      assert Get(u, ValidInformationField) == Get(v, ValidInformationField);
      assert Get(u, NameField) == Get(v, NameField);
      assert Get(u, AgeField) == Get(v, AgeField);
      assert Get(u, GenderField) == Get(v, GenderField);
      assert Get(u, WeightField) == Get(v, WeightField);
    }
  }

  // ---------------------------------------------------------------------------
  // What the initializer does, field by field.

  /**
    Every field of the decoded record is the value under its key when that value
    has the field's type, and the field's default otherwise (absent or mistyped).
   */
  lemma DecodeField(d: Dictionary, f: Field)
    ensures Get(Decode(d), f) ==
      if KeyOf(f) in d && Accepts(f, d[KeyOf(f)]) then d[KeyOf(f)] else DefaultOf(f)
  {
  }

  /** A key present with the right type is copied unchanged. */
  lemma DecodeCopiesWellTyped(d: Dictionary, f: Field)
    requires KeyOf(f) in d && Accepts(f, d[KeyOf(f)])
    ensures Get(Decode(d), f) == d[KeyOf(f)]
  {
    DecodeField(d, f);
  }

  /** A missing key gives the default. */
  lemma DecodeDefaultsMissing(d: Dictionary, f: Field)
    requires KeyOf(f) !in d
    ensures Get(Decode(d), f) == DefaultOf(f)
  {
    DecodeField(d, f);
  }

  /** A key present with the wrong type also gives the default; decoding never fails. */
  lemma DecodeDefaultsWrongType(d: Dictionary, f: Field)
    requires KeyOf(f) in d && !Accepts(f, d[KeyOf(f)])
    ensures Get(Decode(d), f) == DefaultOf(f)
  {
    DecodeField(d, f);
  }

  /** The empty dictionary decodes to the all-default record, which is not valid. */
  lemma DecodeEmpty()
    ensures Decode(map[]) == Blank
    ensures !Decode(map[]).validInformation
  {
  }

  /** Only the five keys are read: dictionaries that agree on them decode alike. */
  lemma DecodeDeterminedByKeys(d1: Dictionary, d2: Dictionary)
    requires forall k :: k in Keys ==> (k in d1 <==> k in d2)
    requires forall k :: k in Keys && k in d1 && k in d2 ==> d1[k] == d2[k]
    ensures Decode(d1) == Decode(d2)
  {
    forall f
      ensures Get(Decode(d1), f) == Get(Decode(d2), f)
    {
      DecodeField(d1, f);
      DecodeField(d2, f);
    }
    FieldsDetermineRecord(Decode(d1), Decode(d2));
  }

  /** Adding or changing any key other than the five leaves the record unchanged. */
  lemma DecodeIgnoresOtherKeys(d: Dictionary, k: string, v: Value)
    requires k !in Keys
    ensures Decode(d[k := v]) == Decode(d)
  {
    DecodeDeterminedByKeys(d[k := v], d);
  }

  /** Keys are case-sensitive: a lower-case "name" is not read. */
  lemma DecodeIsCaseSensitive(s: string)
    ensures Decode(map["name" := StrV(s)]) == Blank
  {
    DecodeIgnoresOtherKeys(map[], "name", StrV(s));
    DecodeEmpty();
  }

  /**
    Age and weight are carried as opaque text: any string, numeric or not, is
    kept verbatim, and a number stored under the key is not accepted.
   */
  lemma AgeAndWeightAreText(d: Dictionary, age: string, weight: string, n: int)
    ensures Decode(d[AgeKey := StrV(age)][WeightKey := StrV(weight)]).age == age
    ensures Decode(d[AgeKey := StrV(age)][WeightKey := StrV(weight)]).weight == weight
    ensures Decode(d[AgeKey := IntV(n)]).age == ""
    ensures Decode(d[WeightKey := IntV(n)]).weight == ""
  {
  }

  /** Round trip: a record written under the five keys decodes back to itself. */
  lemma DecodeEncode(u: UserInformation)
    ensures Decode(Encode(u)) == u
  {
    forall f
      ensures Get(Decode(Encode(u)), f) == Get(u, f)
    {
      DecodeField(Encode(u), f);
    }
    FieldsDetermineRecord(Decode(Encode(u)), u);
  }

  /** A dictionary that holds exactly the five keys, each with its field's type. */
  predicate WellFormed(d: Dictionary)
  {
    && d.Keys == Keys
    && forall f :: Accepts(f, d[KeyOf(f)])
  }

  /** The other direction: a well-formed dictionary is the encoding of what it decodes to. */
  lemma EncodeDecode(d: Dictionary)
    requires WellFormed(d)
    ensures Encode(Decode(d)) == d
  {
    var e := Encode(Decode(d));
    forall k | k in Keys
      ensures e[k] == d[k]
    {
      KeysAreFieldKeys(k);
      var f :| KeyOf(f) == k;
      DecodeField(d, f);
    }
  }

  // ---------------------------------------------------------------------------
  // The store. Its fetch and update bodies are empty in the source; here it is a
  // slot holding at most one record.

  class PlistStore {
    var slot: Option<UserInformation>

    constructor ()
      ensures slot == None
    {
      slot := None;
    }

    /** `fetchUserInformationPlist`: the record last written, if any. */
    method Fetch() returns (r: Option<UserInformation>)
      ensures r == slot
    {
      r := slot;
    }

    /**
      `updateUserInformationPlist`: a full overwrite. Whether the write succeeds is
      not visible in the source, so it is the parameter `written`, and the Bool
      returned reports it.
     */
    method Update(u: UserInformation, written: bool) returns (ok: bool)
      modifies this
      ensures ok == written
      ensures slot == if written then Some(u) else old(slot)
    {
      ok := written;
      if written {
        slot := Some(u);
      }
    }
  }
}
