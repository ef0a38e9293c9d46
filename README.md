# Dataset ingestion front end of tk_nn_classifier, modelled in Dafny

This project models the part of `tk_nn_classifier` that turns a path and a configuration into
loaded records, and the integer counting in its evaluation helpers:

- **Field-mapping loader base** (`Loaders`, `base_loader.dfy`). A config section
  (`FieldConfig`) names the `features` (an ordered dict whose keys are locators), the `class`
  locator, an optional `doc_id` and an optional `extra` list. A loader validates the section
  (`features` first, then `class`), stores it, and projects it into two ordered field lists:
  the train fields (feature keys, then class) and the detail fields (train fields, then
  doc_id if present, then every `extra` locator, flattened). `BaseLoader` is a class with two
  immutable fields. `format` is `None` for the base class, whose `_load_selected_data` raises
  `NotImplementedError`, and `Some(TRXML)`/`Some(CSV)` for the two concrete loaders.
- **Format detection and dispatch** (`DataLoader`, `data_loader.dfy`). A path is classified
  from an abstract `PathKind` (`Dir`, `File(ext)`, `Missing`). A directory is TRXML. A file
  with extension exactly `csv` or `tsv` is CSV. Any other file raises `FileTypeError`, and a
  path that is neither raises `FileNotFoundError`. The section key is the lower-cased tag plus
  `_fields`. `load_data_set` checks that the section exists before any loader is built, then calls
  the loader. `split_data_set` only detects the format and calls that format's splitter. The
  reflective class lookup becomes an explicit match on `Format`.
- **Evaluation counters** (`TrainHelper`, `train_helper.dfy`). Accuracy counts positions where
  prediction and gold agree. `max_dict_value` picks, per score dict, the first key of maximal
  value, which is what Python's `max` does. The F1 helper counts true positives, false
  positives and false negatives per predicted label and derives precision, recall and f1.

Python exceptions are modelled as `Result`/`Outcome` values (`Wrappers`, `Exceptions`), not as
preconditions. Examples are `IndexError` when the gold list is shorter than the predictions,
`ZeroDivisionError` for an empty prediction list, `ValueError` for an empty score dict, and
`KeyError` when `analysis_field_names` meets a section without `doc_id`, `class` or `extra`.

Where the unit tests and the code disagree, the model follows the code.
`tests/unit/data_loader/test_base_loader.py` passes `features` as a plain string, while
`base_loader.py:28` calls `.keys()` on it. The model therefore takes `features` to be an
ordered dict. The same test expects the `extra` list nested as one element of the detail
fields, while `base_loader.py:35` uses `extend`, which flattens it (see `CsvSectionFields`).

Because the config is a `const` value and field lists are Dafny sequences, building the detail
fields can neither change the config nor change later train-field results. In the source this
holds because `_train_fields` returns a fresh list. In the model it holds by construction.

## Model

| member | source | states |
|---|---|---|
| `Loaders.FieldValidation` | tk_nn_classifier/data_loader/base_loader.py:17-22 | Passes exactly when both `features` and `class` are present. On failure it is a ConfigError with section `csv/trxml_fields`. It names `features` exactly when `features` is missing, so a section missing both reports `features`. Otherwise it names `class`. |
| `Loaders.NewLoader` | tk_nn_classifier/data_loader/base_loader.py:13-15 | Construction fails exactly when validation fails, with the validation's error. On success the new loader stores the section unchanged and is valid. |
| `Loaders.BaseLoader.constructor` | tk_nn_classifier/data_loader/base_loader.py:13-15 | Stores the validated section and the loader's format. |
| `Loaders.TrainFieldList` | tk_nn_classifier/data_loader/base_loader.py:27-28 | Length is number of features + 1. Position i is the i-th feature key in insertion order. The last position is the class locator. |
| `Loaders.DetailFieldList` | tk_nn_classifier/data_loader/base_loader.py:30-36 | Has the train fields as a prefix. Then the doc_id locator comes right after them exactly when doc_id is present, then every extra locator in order, flattened. Length = train + [doc_id?] + extra. |
| `Loaders.BaseLoader.DetailFields` | tk_nn_classifier/data_loader/base_loader.py:30-36 | The list built by append/extend equals the detail field list of the stored section. |
| `Loaders.BaseLoader.LoadSelectedData` | tk_nn_classifier/data_loader/base_loader.py:24-25 | The base loader always fails with NotImplementedError. A concrete loader returns what its format's reader yields for exactly the given fields. |
| `Loaders.BaseLoader.LoadTrainData` | tk_nn_classifier/data_loader/base_loader.py:38-41 | Reads exactly the train fields of the stored section. |
| `Loaders.BaseLoader.LoadDetailData` | tk_nn_classifier/data_loader/base_loader.py:43-46 | Reads exactly the detail fields of the stored section. |
| `Loaders.CsvSectionFields` | tk_nn_classifier/data_loader/base_loader.py:27-36 | For the unit test's CSV section, with `features` as a one-key dict, the train fields are `[full_text, advertiser_type]` and the detail fields are the flat six-element list. |
| `DataLoader.DataType` | tk_nn_classifier/data_loader/__init__.py:11-24 | TRXML iff a directory. CSV iff a file whose extension is `csv` or `tsv`. FileTypeError iff a file with any other extension. FileNotFoundError naming the path iff neither. |
| `DataLoader.ConfigEntry` | tk_nn_classifier/data_loader/__init__.py:30-31 | TRXML maps to `trxml_fields` and CSV to `csv_fields`. |
| `DataLoader.ValidateEntryInConfig` | tk_nn_classifier/data_loader/__init__.py:33-38 | Passes iff the key is in the config. Otherwise it fails with ConfigError naming the key with an empty section. |
| `DataLoader.ResolveSection` | tk_nn_classifier/data_loader/__init__.py:75-77 | A detection error comes first. Then a missing section gives ConfigError for its key. Succeeds iff both pass, with the detected format and its section. |
| `DataLoader.AnalysisFieldNames` | tk_nn_classifier/data_loader/__init__.py:41-58 | Detection and section errors propagate. A missing doc_id, class or extra (checked in that order) gives a KeyError. Otherwise the result is `[doc_id, prediction, class] ++ extra ++ [likelihood]`: length 4 + extra, starting with doc_id and ending with `likelihood`. |
| `DataLoader.SelectDataLoader` | tk_nn_classifier/data_loader/__init__.py:26-28 | Builds the loader of the given format, failing exactly as loader construction does. |
| `DataLoader.LoadDataSet` | tk_nn_classifier/data_loader/__init__.py:61-82 | Detection and section errors come before construction errors. On success train mode reads exactly the train fields with the detected format's reader, and detail mode reads exactly the detail fields. |
| `DataLoader.SplitDataSet` | tk_nn_classifier/data_loader/__init__.py:84-108 | Detection errors propagate. A directory goes to the TRXML splitter and a delimited file to the CSV splitter, with ratio, destination and seed passed unchanged. |
| `TrainHelper.Matches` | tk_nn_classifier/classifiers/utils.py:76-80 | The count of agreeing positions never exceeds the number of predictions. |
| `TrainHelper.AllMatchIffPrefix` | tk_nn_classifier/classifiers/utils.py:76-81 | Every prediction agrees with gold iff the predictions are a prefix of the gold list. |
| `TrainHelper.AccuracyOf` | tk_nn_classifier/classifiers/utils.py:81 | The share of agreeing positions lies in [0, 1], and it is 1 exactly when the predictions are a prefix of the gold list. |
| `TrainHelper.Accuracy` | tk_nn_classifier/classifiers/utils.py:72-81 | ZeroDivisionError for no predictions. IndexError when gold is shorter. Otherwise the loop's correct/(correct + wrong) equals the share of agreeing positions among all predictions. |
| `TrainHelper.FirstMaxIndex` | tk_nn_classifier/classifiers/utils.py:86 | The picked entry has a value no entry exceeds, and every earlier entry has a strictly smaller value (Python's `max` keeps the first maximum). |
| `TrainHelper.FirstMaxUnique` | tk_nn_classifier/classifiers/utils.py:86 | At most one entry is the first maximum, so the pick is determined. |
| `TrainHelper.MaxDictValue` | tk_nn_classifier/classifiers/utils.py:83-88 | Succeeds iff no dict is empty, else ValueError. On success it returns one key per dict, same length, each the key of its dict's first maximal entry. |
| `TrainHelper.PredictedSplit` | tk_nn_classifier/classifiers/utils.py:99-107 | tp + fp equals the number of predictions of the label. |
| `TrainHelper.GoldSplit` | tk_nn_classifier/classifiers/utils.py:99-107 | tp + fn equals the number of gold occurrences of the label at the predicted positions. |
| `TrainHelper.ScoreOf` | tk_nn_classifier/classifiers/utils.py:96-113 | Precision, recall and f1 lie in [0, 1) in exact arithmetic. Precision is 0 iff tp is 0, and so is recall. With tp 0, f1 is 0. |
| `TrainHelper.F1Scores` | tk_nn_classifier/classifiers/utils.py:90-117 | IndexError iff gold is shorter than the predictions. Otherwise exactly the predicted labels are scored; labels seen only in gold are not, because the union's result is discarded. Each score is computed from that label's tp, fp and fn counts. |

## Left out

- File-system queries (`os.path.isdir`, `os.path.isfile`) and `file_ext`: the model takes their answers as the `PathKind` input.
- The bodies of `CSVLoader`, `TRXMLLoader`, `split_csv_file` and `split_trxml_set`, with the record format, reading and shuffling: `csv_loader`, `trxml_loader` and `data_utils` are not part of this model. They enter as the function values in `Readers` and `Splitters`. The concrete loaders are assumed to construct as `BaseLoader` does.
- Generator laziness: loader output is a finite sequence, produced in one piece.
- `DataLoader.SplitDataSet`: no check of the ratio range, because `split_data_set` does not check it; whatever the splitters check is not part of this model.
- Logging (`LOGGER.info`), the `print_*` helpers, `creation_date`, `FileHelper.last_modified_folder` and `_evaluate_confusion_matrix`: console output, file-system stat and pandas.
- The error message texts (`detail_msg`, the formatted not-found message). `FileTypeError` carries no payload, because the source passes the `file_ext` function rather than the extension.
- `TrainHelper.Accuracy`: the ratio is an exact real, not an IEEE double.
- `TrainHelper.ScoreOf`: exact real arithmetic with the 1e-8 start values, not IEEE doubles, so rounding is not modelled.
- `TrainHelper.F1Scores`: Python's set iteration order is not modelled (any order is allowed). The result is a map, so the insertion order of the returned dict is not captured.
- `TrainHelper.MaxDictValue`: a dict is its entry list in insertion order, and values are reals, so NaN comparisons are not modelled.
- Values other than the expected types in a config section (for example a string `features`, which makes `.keys()` raise) are ruled out by the `FieldConfig` types.
