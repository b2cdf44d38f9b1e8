/**
 * The `Stat` mongoose schema of models/Stat.js, written as a validity
 * predicate on raw documents, together with the typed record that every
 * valid document denotes.
 */
module StatSchema {
  import opened Common

  /**
   * A JavaScript value as it can stand in a document field. Numbers are
   * integers in this model; `Date(ms)` is a valid Date holding `ms`
   * milliseconds since the Unix epoch and `InvalidDate` is a Date whose
   * time value is NaN.
   */
  datatype Value = Num(n: int) | Str(s: string) | Bool(b: bool) | Date(ms: int) | InvalidDate | Null

  /** A document: field name to value; an absent key is `undefined`. */
  type Doc = map<string, Value>

  /** The six numeric feature columns. */
  const FeatureNames: seq<string> := ["A", "B", "C", "D", "E", "F"]

  /** Every field the schema marks `required: true`. */
  const RequiredFields: set<string> := {"Day", "Age", "A", "B", "C", "D", "E", "F"}

  /** The `enum` of the optional `Gender` field. */
  const GenderValues: set<string> := {"Male", "Female"}

  /** `Day: {type: Date, required: true}`: present and a valid Date. */
  predicate DayOk(doc: Doc) {
    "Day" in doc && doc["Day"].Date?
  }

  /**
   * `Age: {type: String, required: true}`: present and a string; mongoose's
   * `required` validator on a String also refuses the empty string.
   */
  predicate AgeOk(doc: Doc) {
    "Age" in doc && doc["Age"].Str? && doc["Age"].s != ""
  }

  /**
   * `Gender: {type: String, enum: ["Male", "Female"]}`: not required, so it
   * may be absent or null; a string that is present must be in the enum.
   */
  predicate GenderOk(doc: Doc) {
    "Gender" in doc ==> doc["Gender"] == Null || (doc["Gender"].Str? && doc["Gender"].s in GenderValues)
  }

  /** `<name>: {type: Number, required: true}`. */
  predicate FeatureOk(doc: Doc, name: string) {
    name in doc && doc[name].Num?
  }

  /** The schema as a whole; no other constraint is declared. */
  predicate IsValidStat(doc: Doc) {
    && DayOk(doc)
    && AgeOk(doc)
    && GenderOk(doc)
    && forall name <- FeatureNames :: FeatureOk(doc, name)
  }

  /** A stored usage record: what a valid document denotes. */
  datatype Stat = Stat(day: int, age: string, gender: Option<string>,
                       a: int, b: int, c: int, d: int, e: int, f: int)

  /** The constraints the schema puts on a typed record. */
  predicate WellFormed(s: Stat) {
    s.age != "" && (s.gender.Some? ==> s.gender.value in GenderValues)
  }

  /**
   * The value `$<name>` contributes to a `$sum`: the feature for A..F, and
   * 0 for any other name (a missing or non-numeric field adds nothing).
   */
  function FeatureValue(s: Stat, name: string): int {
    if name == "A" then s.a
    else if name == "B" then s.b
    else if name == "C" then s.c
    else if name == "D" then s.d
    else if name == "E" then s.e
    else if name == "F" then s.f
    else 0
  }

  /** The record a valid document denotes. */
  function ToStat(doc: Doc): (s: Stat)
    requires IsValidStat(doc)
    ensures WellFormed(s)
    ensures Date(s.day) == doc["Day"] && Str(s.age) == doc["Age"]
    ensures forall name <- FeatureNames :: Num(FeatureValue(s, name)) == doc[name]
    ensures s.gender.Some? <==> "Gender" in doc && doc["Gender"] != Null
    ensures s.gender.Some? ==> doc["Gender"] == Str(s.gender.value)
  {
    assert FeatureOk(doc, FeatureNames[0]) && FeatureOk(doc, FeatureNames[1]) && FeatureOk(doc, FeatureNames[2]);
    assert FeatureOk(doc, FeatureNames[3]) && FeatureOk(doc, FeatureNames[4]) && FeatureOk(doc, FeatureNames[5]);
    Stat(doc["Day"].ms, doc["Age"].s,
         if "Gender" in doc && doc["Gender"] != Null then Some(doc["Gender"].s) else None,
         doc["A"].n, doc["B"].n, doc["C"].n, doc["D"].n, doc["E"].n, doc["F"].n)
  }

  /** The document a typed record is saved as (`Gender` omitted when absent). */
  function ToDoc(s: Stat): (doc: Doc)
    ensures doc.Keys == RequiredFields + (if s.gender.Some? then {"Gender"} else {})
  {
    var base := map["Day" := Date(s.day), "Age" := Str(s.age),
                     "A" := Num(s.a), "B" := Num(s.b), "C" := Num(s.c),
                     "D" := Num(s.d), "E" := Num(s.e), "F" := Num(s.f)];
    if s.gender.Some? then base["Gender" := Str(s.gender.value)] else base
  }

  /** A record saves as a valid document exactly when it is well formed. */
  lemma ToDocValid(s: Stat)
    ensures IsValidStat(ToDoc(s)) <==> WellFormed(s)
  {
  }

  /** Saving a well-formed record and reading it back gives the record. */
  lemma ToStatToDoc(s: Stat)
    requires WellFormed(s)
    ensures IsValidStat(ToDoc(s)) && ToStat(ToDoc(s)) == s
  {
  }

  /** Removing any required field makes a document invalid. */
  lemma RequiredFieldMissing(doc: Doc, key: string)
    requires key in RequiredFields
    ensures !IsValidStat(doc - {key})
  {
    var d := doc - {key};
    if key !in {"Day", "Age"} {
      assert key in FeatureNames && !FeatureOk(d, key);
    }
  }

  /** `Gender` is optional: a valid document stays valid without it. */
  lemma GenderOptional(doc: Doc)
    requires IsValidStat(doc)
    ensures IsValidStat(doc - {"Gender"})
  {
  }

  /** A string `Gender` is accepted exactly when it is "Male" or "Female". */
  lemma GenderEnum(doc: Doc, g: string)
    requires IsValidStat(doc)
    ensures IsValidStat(doc["Gender" := Str(g)]) <==> g == "Male" || g == "Female"
  {
  }

  /**
   * No constraint beyond presence and type: a negative feature value and
   * any field outside the schema keep a valid document valid (`_id` and
   * `__v`, which mongoose adds to every schema, are not modelled).
   */
  lemma NoValueConstraints(doc: Doc, name: string, n: int, key: string, v: Value)
    requires IsValidStat(doc)
    requires name in FeatureNames && key !in RequiredFields && key != "Gender" && key != "_id" && key != "__v"
    ensures IsValidStat(doc[name := Num(n)])
    ensures IsValidStat(doc[key := v])
  {
  }

  /** A concrete valid record with a negative feature value and no Gender. */
  lemma NegativeFeatureExample()
    ensures IsValidStat(map["Day" := Date(0), "Age" := Str("15-25"), "A" := Num(-5),
                            "B" := Num(0), "C" := Num(0), "D" := Num(0), "E" := Num(0), "F" := Num(0)])
  {
  }
}
