/**
 * The field-mapping loader base: a loader is built from one config section that
 * maps the logical roles (features, class, doc_id, extra) to physical locators,
 * and it projects that section into the ordered field lists it asks a
 * format-specific reader for.
 */
module Loaders {
  import opened Wrappers
  import opened Exceptions

  /** A column name (delimited files) or a segmented locator (structured bundles). */
  type Locator = string
  type Path = string
  /** One loaded record: field locator to value. */
  type Record = map<Locator, string>

  /** The two storage formats, one concrete loader each. */
  datatype Format = TRXML | CSV

  /**
   * The `features` entry: an ordered dict from locator to its setting, in insertion order.
   * Duplicate locators, which a Python dict cannot hold, are deliberately not excluded:
   * only the keys are read, in order.
   */
  type FeatureMap = seq<(Locator, string)>

  /** One config section; a `None` field is a key the section does not hold. */
  datatype FieldConfig = FieldConfig(
    features: Option<FeatureMap>,
    classField: Option<Locator>,
    docId: Option<Locator>,
    extra: Option<seq<Locator>>)

  /** The section name every construction-time ConfigError carries. */
  const Section: string := "csv/trxml_fields"

  /** What the format-specific loaders, whose bodies are not part of this model, read from a path. */
  datatype Readers = Readers(
    trxml: (seq<Locator>, Path) -> Result<seq<Record>, Error>,
    csv: (seq<Locator>, Path) -> Result<seq<Record>, Error>)
  {
    function For(format: Format): (seq<Locator>, Path) -> Result<seq<Record>, Error> {
      match format
      case TRXML => trxml
      case CSV => csv
    }
  }

  /** The constructor's check: `features` first, then `class`. */
  function FieldValidation(c: FieldConfig): (r: Outcome<Error>)
    ensures r.Pass? <==> c.features.Some? && c.classField.Some?
    ensures r.Fail? ==> r.error.ConfigError? && r.error.section == Section
    ensures r.Fail? ==> (r.error.field == "features" <==> c.features.None?)
    ensures r.Fail? && c.features.Some? ==> r.error.field == "class" && c.classField.None?
  {
    if c.features.None? then Fail(ConfigError("features", Section))
    else if c.classField.None? then Fail(ConfigError("class", Section))
    else Pass
  }

  predicate ValidFieldConfig(c: FieldConfig) {
    c.features.Some? && c.classField.Some?
  }

  /** The keys of an ordered dict, in insertion order. */
  function Keys(m: FeatureMap): seq<Locator> {
    seq(|m|, i requires 0 <= i < |m| => m[i].0)
  }

  /** The fields a training pass reads: the feature locators in order, then the class locator. */
  function TrainFieldList(c: FieldConfig): (fields: seq<Locator>)
    requires ValidFieldConfig(c)
    ensures |fields| == |c.features.value| + 1
    ensures forall i :: 0 <= i < |c.features.value| ==> fields[i] == c.features.value[i].0
    ensures fields[|c.features.value|] == c.classField.value
  {
    Keys(c.features.value) + [c.classField.value]
  }

  /** The `extra` locators, none when the key is absent. */
  function ExtraFields(c: FieldConfig): seq<Locator> {
    if c.extra.Some? then c.extra.value else []
  }

  /** How many doc_id locators the detail fields carry: one exactly when the key is present. */
  function DocIdCount(c: FieldConfig): nat {
    if c.docId.Some? then 1 else 0
  }

  /**
   * The fields an evaluation pass reads: the train fields, then doc_id when present,
   * then every `extra` locator, flattened, in order.
   */
  function DetailFieldList(c: FieldConfig): (fields: seq<Locator>)
    requires ValidFieldConfig(c)
    ensures |fields| == |TrainFieldList(c)| + DocIdCount(c) + |ExtraFields(c)|
    ensures fields[..|TrainFieldList(c)|] == TrainFieldList(c)
    ensures c.docId.Some? ==> fields[|TrainFieldList(c)|] == c.docId.value
    ensures forall j :: 0 <= j < |ExtraFields(c)| ==>
      fields[|TrainFieldList(c)| + DocIdCount(c) + j] == ExtraFields(c)[j]
  {
    TrainFieldList(c) + (if c.docId.Some? then [c.docId.value] else []) + ExtraFields(c)
  }

  /**
   * A loader with the config section it was built from. `format` is None for the
   * base class itself and names the storage format for CSVLoader and TRXMLLoader.
   */
  class BaseLoader {
    const format: Option<Format>
    const fieldConfig: FieldConfig

    ghost predicate Valid() {
      ValidFieldConfig(fieldConfig)
    }

    constructor (format: Option<Format>, fieldConfig: FieldConfig)
      requires ValidFieldConfig(fieldConfig)
      ensures Valid() && this.format == format && this.fieldConfig == fieldConfig
    {
      this.format := format;
      this.fieldConfig := fieldConfig;
    }

    /** Builds the detail field list step by step from a fresh copy of the train fields. */
    method DetailFields() returns (fields: seq<Locator>)
      requires Valid()
      ensures fields == DetailFieldList(fieldConfig)
    {
      fields := TrainFieldList(fieldConfig);
      if fieldConfig.docId.Some? {
        fields := fields + [fieldConfig.docId.value];
      }
      if fieldConfig.extra.Some? {
        fields := fields + fieldConfig.extra.value;
      }
    }

    /** Reads `fields` from `path`; the base class cannot read anything. */
    function LoadSelectedData(fields: seq<Locator>, path: Path, readers: Readers): (r: Result<seq<Record>, Error>)
      ensures format.None? ==> r == Failure(NotImplementedError)
      ensures format.Some? ==> r == readers.For(format.value)(fields, path)
    {
      match format
      case None => Failure(NotImplementedError)
      case Some(f) => readers.For(f)(fields, path)
    }

    method LoadTrainData(path: Path, readers: Readers) returns (r: Result<seq<Record>, Error>)
      requires Valid()
      ensures r == LoadSelectedData(TrainFieldList(fieldConfig), path, readers)
    {
      var fields := TrainFieldList(fieldConfig);
      r := LoadSelectedData(fields, path, readers);
    }

    method LoadDetailData(path: Path, readers: Readers) returns (r: Result<seq<Record>, Error>)
      requires Valid()
      ensures r == LoadSelectedData(DetailFieldList(fieldConfig), path, readers)
    {
      var fields := DetailFields();
      r := LoadSelectedData(fields, path, readers);
    }
  }

  /** Construction of a loader: the config is validated before anything is stored. */
  method NewLoader(format: Option<Format>, fieldConfig: FieldConfig) returns (r: Result<BaseLoader, Error>)
    ensures r.Failure? <==> FieldValidation(fieldConfig).Fail?
    ensures r.Failure? ==> r.error == FieldValidation(fieldConfig).error
    ensures r.Success? ==> fresh(r.value) && r.value.Valid()
    ensures r.Success? ==> r.value.format == format && r.value.fieldConfig == fieldConfig
  {
    var check := FieldValidation(fieldConfig);
    if check.Fail? {
      return Failure(check.error);
    }
    var loader := new BaseLoader(format, fieldConfig);
    return Success(loader);
  }

  /** The unit test's CSV section, with `features` as a one-key dict. */
  lemma CsvSectionFields()
    ensures var c := FieldConfig(Some([("full_text", "")]), Some("advertiser_type"), Some("posting_id"),
                                 Some(["organization_name", "source_type", "source_website"]));
            TrainFieldList(c) == ["full_text", "advertiser_type"] &&
            DetailFieldList(c) == ["full_text", "advertiser_type", "posting_id",
                                   "organization_name", "source_type", "source_website"]
  {
    var c := FieldConfig(Some([("full_text", "")]), Some("advertiser_type"), Some("posting_id"),
                         Some(["organization_name", "source_type", "source_website"]));
    assert Keys(c.features.value) == ["full_text"];
  }
}
