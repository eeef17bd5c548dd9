# ml-lib base object and SVM settings, modelled in Dafny

ml-lib provides machine-learning objects for the Max/MSP and Pure Data
patching environments. Each object receives messages from a patch (`add`,
`record`, `clear`, `write`, `read`, attribute settings), keeps training data in
the containers of an external machine-learning toolkit, and sends results back
out. This project models the logic of that glue that does not depend on the
toolkit.

- `file_paths.dfy` (module `FilePaths`) covers the path helpers of the base `ml`
  object. `FileExtension` returns the extension of a path (`.model`, `.data`, or
  anything else). `DataFilePaths` turns a user path into a dataset path, a model
  path or both. `CheckEmpty` is the empty-path check. `std::string::find_last_of`
  is modelled as `FindLastOf`, with a contract that pins down its result.
- `ml_base.dfy` (module `MlBase`) holds class `Ml`, the base object's training-data
  state machine. Its fields are the data type, the recording flag, the current
  label, the probabilities flag, the row buffer of the time series being recorded,
  and the four dataset containers (classification, regression, time-series
  classification, unlabelled). Each container is a record of its dimensions and
  its samples. `Add`, `Record`, `Clear`, `SetDataType`, `SetNumInputs` and the
  `probs` accessors update these fields in place. The invariant `Valid()` says
  that stored labels are non-zero, committed time series are non-empty, and a
  non-empty row buffer belongs to a recording under a label. Every method
  preserves it. `Write` and `Read` are functions that decide which files are
  attempted, which errors are raised and which success flag is sent. The
  toolkit's answers (model trained, file written, file loaded) are parameters.
- `ml_svm.dfy` (module `MlSvm`) holds class `Svm`, the live state of `ml.svm`.
  The fold count for cross-validation never drops below 2. The estimates flag is
  stored as set. The accept/reject switches cover the SVM type, the kernel and
  shrinking.
- `option.dfy` (module `Optional`) defines the `Option` datatype.

Two behaviours of the code worth knowing:

- `write` does not always complain about an untrained model. Only a path with the
  `.model` extension raises "model not trained". For a path with no recognised
  extension, the model file is silently skipped.
- `add` never stores anything in unlabelled mode. No branch of the code adds to
  the unlabelled dataset.

## Model

| member | source | states |
|---|---|---|
| `FilePaths.FindLastOf` | sources/ml_ml.cpp:462-469 | `find_last_of`: None exactly when no character of the set occurs; otherwise the index of a member of the set with no member after it |
| `FilePaths.FindLastOfUnique` | sources/ml_ml.cpp:462-469 | the last occurrence is unique: any index holding a member with none after it is the result |
| `FilePaths.Basename` | sources/ml_ml.cpp:462-467 | the text after the last `/` or `\` is a suffix of the path containing no separator |
| `FilePaths.BasenameFollowsSeparator` | sources/ml_ml.cpp:462-467 | the base name is the whole path or is preceded by a separator (it is the longest separator-free suffix) |
| `FilePaths.DotSuffix` | sources/ml_ml.cpp:469-474 | empty exactly when the name has no `.`; otherwise a suffix that starts with `.` and has no other `.` |
| `FilePaths.FileExtension` | sources/ml_ml.cpp:457-479 | the extension is empty or starts with `.` and is at least two characters; it is a suffix of the path, with no separator and no `.` after its first character |
| `FilePaths.FileExtensionEmptyIff` | sources/ml_ml.cpp:469-476 | the extension is empty exactly when the base name has no `.` or the path ends in a lone trailing `.` |
| `FilePaths.DirectoryDotsIgnored` | sources/ml_ml.cpp:462-471 | anything before a separator, dots included, changes neither the base name nor the extension |
| `FilePaths.BasenameOfAppended` | sources/ml_ml.cpp:462-467 | appending separator-free text extends the base name by exactly that text |
| `FilePaths.DotSuffixOfAppended` | sources/ml_ml.cpp:469-474 | a tail whose only `.` is its first character becomes the dot suffix of any name it ends |
| `FilePaths.ExtensionOfAppended` | sources/ml_ml.cpp:457-479 | appending a well-formed extension (a `.` and at least one more character, with no other `.` and no separator) to any path makes it that path's extension |
| `FilePaths.DataExtensionOfAppended` | sources/ml_ml.cpp:26 | `p + ".data"` has extension `.data` for every `p` |
| `FilePaths.ModelExtensionOfAppended` | sources/ml_ml.cpp:25 | `p + ".model"` has extension `.model` for every `p` |
| `FilePaths.DataFilePaths` | sources/ml_ml.cpp:481-498 | extension `.model`: only the model path is set, to the input; `.data`: only the data path; otherwise both, to the input plus `.data` and `.model`; the output not set is returned unchanged |
| `FilePaths.DerivedPathsAreStable` | sources/ml_ml.cpp:481-498 | each path derived from an unrecognised path, given back to `get_data_file_paths`, selects only itself |
| `FilePaths.CheckEmpty` | sources/ml_ml.cpp:500-508 | true exactly when the path is empty |
| `MlBase.ClassLabel` | sources/ml_ml.cpp:174-188 | a target value is accepted as a class label exactly when it is a whole number of at least 1, and the label equals it |
| `MlBase.SplitVector` | sources/ml_ml.cpp:157-172 | the first `numOutputs` values form the target and the rest the inputs: the two concatenated give back the vector |
| `MlBase.Ml.constructor` | sources/ml_ml.cpp:33-41 | not recording, label 0, probabilities off, empty datasets and buffer, the default data type and input dimension, invariant established |
| `MlBase.Ml.SetNumInputs` | sources/ml_ml.cpp:43-75 | the active dataset's input dimension becomes the argument; an unknown data type changes nothing; no samples and no other dataset change |
| `MlBase.Ml.SetProbs` | sources/ml_ml.cpp:97-100 | stores the flag and nothing else |
| `MlBase.Ml.GetProbs` | sources/ml_ml.cpp:102-105 | returns the stored flag |
| `MlBase.Ml.SetDataType` | sources/ml_ml.cpp:406-414 | a value above `MLP_NUM_DATA_TYPES` leaves the data type unchanged; every other value, the bound itself included, is stored |
| `MlBase.Ml.Record` | sources/ml_ml.cpp:219-237 | outside time-series mode nothing changes; otherwise recording takes the argument, the buffer is emptied and the label reset; stopping appends (label, buffer) exactly when the label is non-zero and the buffer non-empty; the invariant is kept |
| `MlBase.Ml.Add` | sources/ml_ml.cpp:107-217 | fewer than 2 values, an unknown data type or too few values for the target change nothing; otherwise the active input dimension becomes the input count; classification appends (label, inputs) only for a valid label; regression appends (inputs, target); time series, only while recording with a valid label, first commits the buffer under the old label when the label changes, then sets the label and buffers the row; unlabelled mode stores nothing; other datasets, the regression target dimension and the recording flag are unchanged |
| `MlBase.Ml.Clear` | sources/ml_ml.cpp:351-365 | empties the samples of all four datasets, keeps their dimensions and the row buffer, and reports true |
| `MlBase.Ml.WriteAttempts` | sources/ml_ml.cpp:277-301 | the attempts of `write` for the chosen paths always report a flag, and raise no error except "model not trained" and the failure of a file attempted |
| `MlBase.Ml.Write` | sources/ml_ml.cpp:246-306 | an empty active dataset reports false and attempts nothing; an empty path reports nothing; an untrained model is never saved; the reported flag is the result of the last file attempted (false if none); an unrecognised extension attempts `path.data` and, if trained, `path.model`; each failed attempt raises its error; "model not trained" is raised exactly for an untrained model and a `.model` path; no other error is raised |
| `MlBase.Ml.WriteDataFile` | sources/ml_ml.cpp:275-285 | `write` of a `.data` path writes only the dataset, to that path, and reports its result |
| `MlBase.Ml.WriteModelFile` | sources/ml_ml.cpp:275-301 | `write` of a `.model` path never writes the dataset; a trained model is saved to that path and its result reported; an untrained one reports false |
| `MlBase.Ml.Read` | sources/ml_ml.cpp:308-349 | an empty path reports nothing; any other path reports a flag and attempts at least one file; each failed attempt is reported as an error; no errors when both readers succeed |
| `MlBase.Ml.ReadErrorsExplained` | sources/ml_ml.cpp:322-345 | `read` of a non-empty path raises no error other than the failure of a file it attempted |
| `MlBase.Ml.ReadDataFile` | sources/ml_ml.cpp:322-335 | a `.data` path attempts only the dataset and reports its result |
| `MlBase.Ml.ReadModelFile` | sources/ml_ml.cpp:337-348 | a `.model` path attempts only the model and reports its result |
| `MlBase.Ml.ReadBothFiles` | sources/ml_ml.cpp:322-348 | any other non-empty path attempts both derived files and reports the model's result, overwriting the dataset's |
| `MlSvm.Svm.constructor` | ml.libsvm/ml_svm.cpp:39-40 | two folds, no estimates, invariant `nr_fold >= 2` established |
| `MlSvm.Svm.SetMode` | ml.libsvm/ml_svm.cpp:296-304 | a fold count below 2 leaves `nr_fold` unchanged; any other is stored; `nr_fold >= 2` is preserved |
| `MlSvm.Svm.GetMode` | ml.libsvm/ml_svm.cpp:382-385 | returns the current fold count, which is at least 2 |
| `MlSvm.Svm.SetEstimates` | ml.libsvm/ml_svm.cpp:260-263 | stores the flag; the fold count is untouched |
| `MlSvm.Svm.SetType` | ml.libsvm/ml_svm.cpp:174-190 | accepts exactly C-SVC, nu-SVC, one-class, epsilon-SVR and nu-SVR; changes no state |
| `MlSvm.Svm.SetKernel` | ml.libsvm/ml_svm.cpp:192-208 | accepts exactly the linear, polynomial, RBF, sigmoid and precomputed kernels; changes no state |
| `MlSvm.Svm.SetShrinking` | ml.libsvm/ml_svm.cpp:245-258 | accepts exactly 0 and 1; changes no state |

## Left out

- The HMM object (`sources/classification/ml_hmm.cpp`) is not part of this model. Its setters, getters and dataset I/O only forward to the toolkit's HMM class.
- The commented-out libsvm code of `ml_svm.cpp` is not modelled: `cross_validation`, `train`, `classify`, `save`, `load`, weight parsing and `usage`. The same goes for the setters and getters whose bodies are commented out (degree, gamma, coef0, cost, nu, epsilon, cache size, weights, and every getter except `get_mode`). They have no live state. In particular, `get_estimates` does not report the stored flag in this version.
- Toolkit internals are parameters or left out:
  - Scaling (`set_scaling`, `get_scaling`) is left out.
  - The trained state of the model, model save and model load are parameters of `Write` and `Read`.
  - The specialised dataset writer and reader (subclass hooks) are parameters.
  - What a successful `read` puts into the datasets or the model is not modelled.
  - The reset of the toolkit's model inside `clear` is not modelled.
- MlBase.Ml.SetNumInputs: records the new dimension only. Whether the toolkit also empties the container or refuses a zero dimension is toolkit behaviour, and that code is not part of this model.
- MlBase.Ml.Add: appending a sample stands for the toolkit's `addSample`, whose own checks are not part of this model.
- MlBase.Ml.Add: the precondition `WithinWidth` rules out two narrow cases. One is a vector shorter than the target size when the length does not match, where the unsigned subtraction wraps. The other is 256 or more inputs, where the `uint8_t` parameter of `set_num_inputs` truncates.
- MlBase.Ml.constructor: containers not set by the default input count start with dimension 0. The regression target dimension starts at 0 too, since nothing in the modelled code sets it.
- `ml_ml.h`, which declares the `ml_data_type` codes, `MLP_NUM_DATA_TYPES` and the defaults, is not part of this model. The codes are taken in declaration order (0 to 3, bound 4). libsvm's `svm.h`, which declares the SVM type and kernel codes, is not part of this model either; its values are taken as 0 to 4.
- MlBase.ClassLabel: values are reals, not single-precision floats. A value in (-1, 0) truncates to 0 as in C++; the cast of a value of -1 or below, undefined in C++, is taken as 0 too. Values of 2^32 and above, which do not fit the unsigned cast, are not treated specially.
- Host plumbing is left out: attribute registration, outlets, console text, the `record` wrapper that only adds a console message, `help`, `any`, the library `main`, and the `train` and `map` stubs. `IoReport` keeps only the success flag sent and which errors were raised.
- Converting a host symbol to a path (`get_symbol_as_string`) is left out. Paths are given as strings; a missing symbol is the empty string.
- MlBase.Ml.Write: the contracts say which errors are raised, but not the order of the dataset and model failures.
- MlBase.Ml.Read: the contracts say which errors are raised, but not their order.
