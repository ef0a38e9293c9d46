/**
 * Format detection and dispatch: classify a path as a structured bundle (TRXML)
 * or a delimited file (CSV), pick the matching section of the config, and hand
 * the work to the loader or the splitter of that format.
 */
module DataLoader {
  import opened Wrappers
  import opened Exceptions
  import opened Loaders

  /** What the file system says about a path; a file carries the extension `file_ext` gives it. */
  datatype PathKind = Dir | File(ext: string) | Missing

  /** The extensions of delimited files; the comparison is case-sensitive. */
  const DelimitedExtensions: seq<string> := ["csv", "tsv"]

  /** The whole configuration: section name to field-mapping section. */
  type Config = map<string, FieldConfig>

  /** What the format-specific splitters, whose bodies are not part of this model, produce. */
  datatype Splitters = Splitters(
    trxml: (Path, real, Path, int) -> Result<(Path, Path), Error>,
    csv: (Path, real, Path, int) -> Result<(Path, Path), Error>)
  {
    function For(format: Format): (Path, real, Path, int) -> Result<(Path, Path), Error> {
      match format
      case TRXML => trxml
      case CSV => csv
    }
  }

  /** The storage format of a path, or why it has none. */
  function DataType(path: Path, kind: PathKind): (r: Result<Format, Error>)
    ensures r == Success(TRXML) <==> kind.Dir?
    ensures r == Success(CSV) <==> kind.File? && kind.ext in DelimitedExtensions
    ensures r == Failure(FileTypeError) <==> kind.File? && kind.ext !in DelimitedExtensions
    ensures r == Failure(FileNotFoundError(path)) <==> kind.Missing?
  {
    match kind
    case Dir => Success(TRXML)
    case File(ext) => if ext in DelimitedExtensions then Success(CSV) else Failure(FileTypeError)
    case Missing => Failure(FileNotFoundError(path))
  }

  /** The tag `_data_type` returns for a format. */
  function TagName(format: Format): string {
    match format
    case TRXML => "TRXML"
    case CSV => "CSV"
  }

  function LowerChar(c: char): char {
    if 'A' <= c <= 'Z' then (c as int + 32) as char else c
  }

  /** ASCII lower-casing, as `str.lower` does on the tags. */
  function Lower(s: string): string {
    seq(|s|, i requires 0 <= i < |s| => LowerChar(s[i]))
  }

  /** The config key of a format's section: the lower-cased tag followed by `_fields`. */
  function ConfigEntry(format: Format): (entry: string)
    ensures format == TRXML ==> entry == "trxml_fields"
    ensures format == CSV ==> entry == "csv_fields"
  {
    Lower(TagName(format)) + "_fields"
  }

  /** The gate on a section being configured at all. */
  function ValidateEntryInConfig(entry: string, config: Config): (r: Outcome<Error>)
    ensures r.Pass? <==> entry in config
    ensures r.Fail? ==> r.error == ConfigError(entry, "")
  {
    if entry !in config then Fail(ConfigError(entry, "")) else Pass
  }

  /** The section for the format of `path`: detection first, then the section gate. */
  function ResolveSection(config: Config, path: Path, kind: PathKind): (r: Result<(Format, FieldConfig), Error>)
    ensures DataType(path, kind).Failure? ==> r == Failure(DataType(path, kind).error)
    ensures DataType(path, kind).Success? && ConfigEntry(DataType(path, kind).value) !in config ==>
      r == Failure(ConfigError(ConfigEntry(DataType(path, kind).value), ""))
    ensures r.Success? <==> DataType(path, kind).Success? && ConfigEntry(DataType(path, kind).value) in config
    ensures r.Success? ==> r.value == (DataType(path, kind).value, config[ConfigEntry(DataType(path, kind).value)])
  {
    match DataType(path, kind)
    case Failure(e) => Failure(e)
    case Success(format) =>
      var entry := ConfigEntry(format);
      match ValidateEntryInConfig(entry, config)
      case Fail(e) => Failure(e)
      case Pass => Success((format, config[entry]))
  }

  /**
   * The column list of the audit output: doc_id, `prediction`, the class locator,
   * the extra locators and `likelihood`. The section is not validated here, so a
   * missing doc_id, class or extra key surfaces as a KeyError, in that order.
   */
  method AnalysisFieldNames(config: Config, path: Path, kind: PathKind) returns (r: Result<seq<string>, Error>)
    ensures ResolveSection(config, path, kind).Failure? ==> r == Failure(ResolveSection(config, path, kind).error)
    ensures ResolveSection(config, path, kind).Success? ==>
      var c := ResolveSection(config, path, kind).value.1;
      && (c.docId.None? ==> r == Failure(KeyError("doc_id")))
      && (c.docId.Some? && c.classField.None? ==> r == Failure(KeyError("class")))
      && (c.docId.Some? && c.classField.Some? && c.extra.None? ==> r == Failure(KeyError("extra")))
      && (c.docId.Some? && c.classField.Some? && c.extra.Some? ==> r.Success?)
    ensures r.Success? ==>
      var c := ResolveSection(config, path, kind).value.1;
      && ResolveSection(config, path, kind).Success?
      && c.docId.Some? && c.classField.Some? && c.extra.Some?
      && |r.value| == 4 + |c.extra.value|
      && r.value[0] == c.docId.value
      && r.value[1] == "prediction"
      && r.value[2] == c.classField.value
      && r.value[3..3 + |c.extra.value|] == c.extra.value
      && r.value[|r.value| - 1] == "likelihood"
  {
    var detected := DataType(path, kind);
    if detected.Failure? {
      return Failure(detected.error);
    }
    var format := detected.value;
    var entry := ConfigEntry(format);
    var check := ValidateEntryInConfig(entry, config);
    if check.Fail? {
      return Failure(check.error);
    }
    var section := config[entry];
    if section.docId.None? {
      return Failure(KeyError("doc_id"));
    }
    if section.classField.None? {
      return Failure(KeyError("class"));
    }
    var fieldNames := [section.docId.value, "prediction", section.classField.value];
    if section.extra.None? {
      return Failure(KeyError("extra"));
    }
    fieldNames := fieldNames + section.extra.value;
    fieldNames := fieldNames + ["likelihood"];
    return Success(fieldNames);
  }

  /** The loader of a format: an explicit match in place of a lookup by class name. */
  method SelectDataLoader(fieldConfig: FieldConfig, format: Format) returns (r: Result<BaseLoader, Error>)
    ensures r.Failure? <==> FieldValidation(fieldConfig).Fail?
    ensures r.Failure? ==> r.error == FieldValidation(fieldConfig).error
    ensures r.Success? ==> fresh(r.value) && r.value.Valid()
    ensures r.Success? ==> r.value.format == Some(format) && r.value.fieldConfig == fieldConfig
  {
    match format
    case TRXML => r := NewLoader(Some(TRXML), fieldConfig);
    case CSV => r := NewLoader(Some(CSV), fieldConfig);
  }

  /**
   * Loads the data set at `path`: the format is detected and its section looked up
   * before any loader is built; train mode reads the train fields, otherwise the
   * detail fields.
   */
  method LoadDataSet(config: Config, path: Path, kind: PathKind, trainMode: bool, readers: Readers)
    returns (r: Result<seq<Record>, Error>)
    ensures ResolveSection(config, path, kind).Failure? ==> r == Failure(ResolveSection(config, path, kind).error)
    ensures ResolveSection(config, path, kind).Success? ==>
      var (format, c) := ResolveSection(config, path, kind).value;
      && (FieldValidation(c).Fail? ==> r == Failure(FieldValidation(c).error))
      && (FieldValidation(c).Pass? && trainMode ==> r == readers.For(format)(TrainFieldList(c), path))
      && (FieldValidation(c).Pass? && !trainMode ==> r == readers.For(format)(DetailFieldList(c), path))
  {
    var detected := DataType(path, kind);
    if detected.Failure? {
      return Failure(detected.error);
    }
    var format := detected.value;
    var entry := ConfigEntry(format);
    var check := ValidateEntryInConfig(entry, config);
    if check.Fail? {
      return Failure(check.error);
    }
    var selected := SelectDataLoader(config[entry], format);
    if selected.Failure? {
      return Failure(selected.error);
    }
    var loader := selected.value;
    if trainMode {
      r := loader.LoadTrainData(path, readers);
    } else {
      r := loader.LoadDetailData(path, readers);
    }
  }

  /**
   * Splits the data set at `path` into a train and an eval part with the splitter
   * of its format; ratio, destination and seed pass through unchanged.
   */
  function SplitDataSet(path: Path, kind: PathKind, ratio: real, des: Path, seed: int, splitters: Splitters)
    : (r: Result<(Path, Path), Error>)
    ensures DataType(path, kind).Failure? ==> r == Failure(DataType(path, kind).error)
    ensures kind.Dir? ==> r == splitters.trxml(path, ratio, des, seed)
    ensures kind.File? && kind.ext in DelimitedExtensions ==> r == splitters.csv(path, ratio, des, seed)
  {
    match DataType(path, kind)
    case Failure(e) => Failure(e)
    case Success(format) => splitters.For(format)(path, ratio, des, seed)
  }
}
