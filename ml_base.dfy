/**
 * The base `ml` object: the training-data state machine behind the `add`,
 * `record`, `clear` messages and the `data_type` setting, and the decisions
 * `write` and `read` take about which files to attempt and which success
 * flag to report.
 *
 * The toolkit's dataset containers are modelled by value: each is a record of
 * its dimensions and its samples. Results of the toolkit's file I/O and of
 * its model state (trained or not) are passed in as parameters.
 */
module MlBase {
  import opened Optional
  import opened FilePaths

  /* The `ml_data_type` codes, in declaration order. */
  const LabelledClassification: int := 0
  const LabelledRegression: int := 1
  const LabelledTimeSeriesClassification: int := 2
  const UnlabelledClassification: int := 3
  /** `MLP_NUM_DATA_TYPES`, the bound `set_data_type` checks against. */
  const NumDataTypes: int := 4

  /** One of the four data types `add` and `set_num_inputs` handle. */
  predicate IsDataType(t: int) {
    t == LabelledClassification || t == LabelledRegression ||
    t == LabelledTimeSeriesClassification || t == UnlabelledClassification
  }

  datatype ClassificationSample = ClassificationSample(classLabel: nat, inputs: seq<real>)
  datatype RegressionSample = RegressionSample(inputs: seq<real>, targets: seq<real>)
  datatype TimeSeriesSample = TimeSeriesSample(classLabel: nat, rows: seq<seq<real>>)

  /* The four dataset containers: their declared dimensions and their samples. */
  datatype ClassificationData = ClassificationData(numDimensions: nat, samples: seq<ClassificationSample>)
  datatype RegressionData = RegressionData(numInputDimensions: nat, numTargetDimensions: nat, samples: seq<RegressionSample>)
  datatype TimeSeriesClassificationData = TimeSeriesClassificationData(numDimensions: nat, samples: seq<TimeSeriesSample>)
  datatype UnlabelledData = UnlabelledData(numDimensions: nat, samples: seq<seq<real>>)

  /**
   * The `(GRT::UINT)` cast of a value: truncation toward zero. A value in
   * (-1, 0) truncates to 0; a value of -1 or below, whose cast C++ leaves
   * undefined, is taken to give 0 as well, which the label check below then
   * rejects like any other non-positive value.
   */
  function TruncateToUint(x: real): nat {
    if x >= 0.0 then x.Floor else 0
  }

  /**
   * The class-label check of `add`: the value must survive the cast to an
   * unsigned integer unchanged, and must not be zero.
   */
  function ClassLabel(x: real): (l: Option<nat>)
    ensures l.Some? <==> x == x.Floor as real && x >= 1.0
    ensures l.Some? ==> l.value as real == x
  {
    var truncated := TruncateToUint(x);
    if truncated as real != x then None
    else if truncated == 0 then None
    else Some(truncated)
  }

  /** What `record_` commits for a buffered sequence: one sample when there is a label and at least one row. */
  function Committed(classLabel: nat, rows: seq<seq<real>>): seq<TimeSeriesSample> {
    if classLabel != 0 && |rows| > 0 then [TimeSeriesSample(classLabel, rows)] else []
  }

  /**
   * The loop of `add` that fills the target and the input vector: the first
   * `numOutputs` values go to the target, the rest to the inputs, in order.
   */
  method SplitVector(values: seq<real>, numOutputs: nat) returns (target: seq<real>, inputs: seq<real>)
    requires numOutputs <= |values|
    ensures |target| == numOutputs
    ensures target + inputs == values
  {
    var targetVector := new real[numOutputs];
    var inputVector := new real[|values| - numOutputs];
    var index := 0;
    while index < |values|
      invariant 0 <= index <= |values|
      invariant forall j :: 0 <= j < index && j < numOutputs ==> targetVector[j] == values[j]
      invariant forall j :: numOutputs <= j < index ==> inputVector[j - numOutputs] == values[j]
    {
      if index < numOutputs {
        targetVector[index] := values[index];
      } else {
        inputVector[index - numOutputs] := values[index];
      }
      index := index + 1;
    }
    target, inputs := targetVector[..], inputVector[..];
    assert forall j :: 0 <= j < |values| ==> (target + inputs)[j] == values[j];
  }

  /** Which error `write` or `read` reports on the console. */
  datatype IoError =
    | NoObservations
    | EmptyPath
    | DataFileFailed(path: string)
    | ModelFileFailed(path: string)
    | ModelNotTrained

  /**
   * The outcome of `write` or `read`: the dataset file and the model file
   * it attempts, the success flag it sends from the outlet (None when it
   * sends nothing) and the errors it reports, in order.
   */
  datatype IoReport = IoReport(dataFile: Option<string>, modelFile: Option<string>, reported: Option<bool>, errors: seq<IoError>)

  /**
   * `e` is the failure of an attempt `r` made: the dataset file failed
   * (`dataOk` false) or the model file failed (`modelOk` false).
   */
  predicate AttemptFailed(r: IoReport, e: IoError, dataOk: bool, modelOk: bool) {
    (e.DataFileFailed? && r.dataFile == Some(e.path) && !dataOk) ||
    (e.ModelFileFailed? && r.modelFile == Some(e.path) && !modelOk)
  }

  class Ml {
    var dataType: int
    var recording: bool
    var currentLabel: nat
    var probs: bool
    /** The rows of the time series being recorded (`time_series_data`). */
    var timeSeriesData: seq<seq<real>>
    var classificationData: ClassificationData
    var regressionData: RegressionData
    var timeSeriesClassificationData: TimeSeriesClassificationData
    var unlabelledData: UnlabelledData

    /**
     * Every stored class label is non-zero, every committed time series has
     * rows, and a non-empty row buffer belongs to a recording under a label.
     */
    ghost predicate Valid()
      reads this
    {
      && (forall s :: s in classificationData.samples ==> s.classLabel >= 1)
      && (forall s :: s in timeSeriesClassificationData.samples ==> s.classLabel >= 1 && s.rows != [])
      && (timeSeriesData != [] ==> recording && currentLabel >= 1)
    }

    /** The input dimension of the dataset of the active data type. */
    function InputDims(): nat
      reads this
    {
      if dataType == LabelledClassification then classificationData.numDimensions
      else if dataType == LabelledRegression then regressionData.numInputDimensions
      else if dataType == LabelledTimeSeriesClassification then timeSeriesClassificationData.numDimensions
      else if dataType == UnlabelledClassification then unlabelledData.numDimensions
      else 0
    }

    /** The target dimension `add` assumes: the regression target size, otherwise 1 (the label). */
    function OutputDims(): nat
      reads this
    {
      if dataType == LabelledRegression then regressionData.numTargetDimensions else 1
    }

    /** `add` gets past its length checks for a vector of `n` values. */
    predicate LengthAccepted(n: nat)
      reads this
    {
      n >= 2 && IsDataType(dataType) && (n != InputDims() + OutputDims() ==> n > OutputDims())
    }

    /**
     * A vector length for which `add` involves no unsigned wrap-around and no
     * narrowing to `uint8_t` when it resets the input dimension.
     */
    predicate WithinWidth(n: nat)
      reads this
    {
      n >= 2 && IsDataType(dataType) && n != InputDims() + OutputDims() ==>
        OutputDims() <= n < OutputDims() + 256
    }

    /** The active dataset has no samples (unknown data types never count as empty). */
    function ActiveDatasetEmpty(): bool
      reads this
    {
      || (dataType == LabelledRegression && |regressionData.samples| == 0)
      || (dataType == LabelledClassification && |classificationData.samples| == 0)
      || (dataType == LabelledTimeSeriesClassification && |timeSeriesClassificationData.samples| == 0)
      || (dataType == UnlabelledClassification && |unlabelledData.samples| == 0)
    }

    /**
     * A new object: not recording, label 0, probabilities off, empty datasets,
     * the default data type and the default number of inputs.
     */
    constructor (defaultDataType: int, defaultNumInputs: nat)
      requires IsDataType(defaultDataType) && defaultNumInputs < 256
      ensures Valid()
      ensures dataType == defaultDataType && !recording && currentLabel == 0 && !probs
      ensures timeSeriesData == [] && classificationData.samples == [] && regressionData.samples == []
      ensures timeSeriesClassificationData.samples == [] && unlabelledData.samples == []
      ensures InputDims() == defaultNumInputs
    {
      currentLabel, probs, recording := 0, false, false;
      // set_data_type accepts the default, which is one of the four types
      dataType := defaultDataType;
      timeSeriesData := [];
      classificationData := ClassificationData(0, []);
      regressionData := RegressionData(0, 0, []);
      timeSeriesClassificationData := TimeSeriesClassificationData(0, []);
      unlabelledData := UnlabelledData(0, []);
      new;
      SetNumInputs(defaultNumInputs);
    }

    /** `set_num_inputs`: sets the input dimension of the active dataset; an unknown data type changes nothing. */
    method SetNumInputs(numInputs: nat)
      requires numInputs < 256
      modifies this`classificationData, this`regressionData, this`timeSeriesClassificationData, this`unlabelledData
      ensures IsDataType(dataType) ==> InputDims() == numInputs
      ensures !IsDataType(dataType) ==> unchanged(this)
      ensures classificationData.samples == old(classificationData.samples)
      ensures regressionData.samples == old(regressionData.samples)
      ensures regressionData.numTargetDimensions == old(regressionData.numTargetDimensions)
      ensures timeSeriesClassificationData.samples == old(timeSeriesClassificationData.samples)
      ensures unlabelledData.samples == old(unlabelledData.samples)
      ensures dataType != LabelledClassification ==> classificationData == old(classificationData)
      ensures dataType != LabelledRegression ==> regressionData == old(regressionData)
      ensures dataType != LabelledTimeSeriesClassification ==> timeSeriesClassificationData == old(timeSeriesClassificationData)
      ensures dataType != UnlabelledClassification ==> unlabelledData == old(unlabelledData)
    {
      if dataType == LabelledClassification {
        classificationData := classificationData.(numDimensions := numInputs);
      } else if dataType == LabelledRegression {
        regressionData := regressionData.(numInputDimensions := numInputs);
      } else if dataType == LabelledTimeSeriesClassification {
        timeSeriesClassificationData := timeSeriesClassificationData.(numDimensions := numInputs);
      } else if dataType == UnlabelledClassification {
        unlabelledData := unlabelledData.(numDimensions := numInputs);
      }
    }

    /** `set_probs`. */
    method SetProbs(p: bool)
      modifies this`probs
      ensures probs == p
    {
      probs := p;
    }

    /** `get_probs`: reports the flag last set. */
    method GetProbs() returns (p: bool)
      ensures p == probs
    {
      p := probs;
    }

    /**
     * `set_data_type`: values above `MLP_NUM_DATA_TYPES` are rejected and
     * change nothing; every other value, the bound itself included, is stored.
     */
    method SetDataType(t: int)
      modifies this`dataType
      ensures t > NumDataTypes ==> dataType == old(dataType)
      ensures t <= NumDataTypes ==> dataType == t
    {
      if t > NumDataTypes {
        return;
      }
      dataType := t;
    }

    /**
     * `record_`: outside time-series mode nothing changes. Otherwise the
     * recording flag takes `state`; stopping commits the buffered rows under
     * the current label; in every case the buffer is emptied and the label
     * reset, so starting while already recording discards the buffer.
     */
    method Record(state: bool)
      requires Valid()
      modifies this`recording, this`timeSeriesData, this`currentLabel, this`timeSeriesClassificationData
      ensures Valid()
      ensures old(dataType) != LabelledTimeSeriesClassification ==> unchanged(this)
      ensures old(dataType) == LabelledTimeSeriesClassification ==>
        recording == state && timeSeriesData == [] && currentLabel == 0
      ensures old(dataType) == LabelledTimeSeriesClassification ==>
        timeSeriesClassificationData == old(timeSeriesClassificationData).(samples :=
          old(timeSeriesClassificationData.samples) + (if state then [] else Committed(old(currentLabel), old(timeSeriesData))))
      ensures old(dataType) == LabelledTimeSeriesClassification && !state ==>
        timeSeriesClassificationData.samples == old(timeSeriesClassificationData.samples) +
          (if old(timeSeriesData) == [] then [] else [TimeSeriesSample(old(currentLabel), old(timeSeriesData))])
    {
      if dataType != LabelledTimeSeriesClassification {
        return;
      }
      recording := state;
      if !recording && currentLabel != 0 && |timeSeriesData| > 0 {
        timeSeriesClassificationData := timeSeriesClassificationData.(samples :=
          timeSeriesClassificationData.samples + [TimeSeriesSample(currentLabel, timeSeriesData)]);
      }
      timeSeriesData := [];
      currentLabel := 0;
    }

    /**
     * `add`: validates a vector, splits it into target and inputs and stores
     * it according to the data type. The input dimension of the active
     * dataset is reset to the vector's input count when it does not match.
     */
    method Add(values: seq<real>)
      requires Valid()
      requires WithinWidth(|values|)
      modifies this`classificationData, this`regressionData, this`timeSeriesClassificationData, this`unlabelledData
      modifies this`timeSeriesData, this`currentLabel, this`recording
      ensures Valid()
      ensures !old(LengthAccepted(|values|)) ==> unchanged(this)
      ensures old(LengthAccepted(|values|)) ==> InputDims() == |values| - OutputDims()
      ensures recording == old(recording)
      ensures unlabelledData.samples == old(unlabelledData.samples)
      ensures dataType != LabelledClassification ==> classificationData == old(classificationData)
      ensures dataType != LabelledRegression ==> regressionData == old(regressionData)
      ensures regressionData.numTargetDimensions == old(regressionData.numTargetDimensions)
      ensures dataType != UnlabelledClassification ==> unlabelledData == old(unlabelledData)
      ensures dataType != LabelledTimeSeriesClassification ==>
        timeSeriesClassificationData == old(timeSeriesClassificationData) &&
        timeSeriesData == old(timeSeriesData) && currentLabel == old(currentLabel)
      ensures old(LengthAccepted(|values|)) && dataType == LabelledClassification ==>
        classificationData.samples == old(classificationData.samples) +
          (match ClassLabel(values[0])
           case None => []
           case Some(l) => [ClassificationSample(l, values[1..])])
      ensures old(LengthAccepted(|values|)) && dataType == LabelledRegression ==>
        regressionData.samples == old(regressionData.samples) +
          [RegressionSample(values[OutputDims()..], values[..OutputDims()])]
      ensures old(LengthAccepted(|values|)) && dataType == LabelledTimeSeriesClassification ==>
        var newLabel := ClassLabel(values[0]);
        if newLabel.None? || !old(recording) then
          timeSeriesClassificationData.samples == old(timeSeriesClassificationData.samples) &&
          timeSeriesData == old(timeSeriesData) && currentLabel == old(currentLabel)
        else if newLabel.value != old(currentLabel) then
          timeSeriesClassificationData.samples ==
            old(timeSeriesClassificationData.samples) + Committed(old(currentLabel), old(timeSeriesData)) &&
          timeSeriesData == [values[1..]] && currentLabel == newLabel.value
        else
          timeSeriesClassificationData.samples == old(timeSeriesClassificationData.samples) &&
          timeSeriesData == old(timeSeriesData) + [values[1..]] && currentLabel == newLabel.value
    {
      if |values| < 2 {
        return;
      }
      if !IsDataType(dataType) {
        return;
      }
      var numOutputDimensions := OutputDims();
      var numInputDimensions := InputDims();
      if |values| != numInputDimensions + numOutputDimensions {
        if |values| - numOutputDimensions < 1 {
          return;
        }
        numInputDimensions := |values| - numOutputDimensions;
        SetNumInputs(numInputDimensions);
      }
      var target, inputs := SplitVector(values, numOutputDimensions);
      assert target == values[..numOutputDimensions] && inputs == values[numOutputDimensions..];
      if dataType == LabelledClassification || dataType == LabelledTimeSeriesClassification {
        var newLabel := ClassLabel(target[0]);
        if newLabel.None? {
          return;
        }
        if dataType == LabelledClassification {
          classificationData := classificationData.(samples :=
            classificationData.samples + [ClassificationSample(newLabel.value, inputs)]);
        } else if recording {
          // a new label commits the rows recorded so far and starts a new sequence
          if newLabel.value != currentLabel {
            Record(false);
            Record(true);
          }
          currentLabel := newLabel.value;
          timeSeriesData := timeSeriesData + [inputs];
        }
      } else if dataType == LabelledRegression {
        regressionData := regressionData.(samples :=
          regressionData.samples + [RegressionSample(inputs, target)]);
      }
    }

    /** `clear`: empties the samples of all four datasets and reports true; the row buffer is kept. */
    method Clear() returns (status: bool)
      requires Valid()
      modifies this`classificationData, this`regressionData, this`timeSeriesClassificationData, this`unlabelledData
      ensures Valid() && status
      ensures classificationData == old(classificationData).(samples := [])
      ensures regressionData == old(regressionData).(samples := [])
      ensures timeSeriesClassificationData == old(timeSeriesClassificationData).(samples := [])
      ensures unlabelledData == old(unlabelledData).(samples := [])
    {
      regressionData := regressionData.(samples := []);
      classificationData := classificationData.(samples := []);
      timeSeriesClassificationData := timeSeriesClassificationData.(samples := []);
      unlabelledData := unlabelledData.(samples := []);
      status := true;
    }

    /**
     * The file attempts of `write` on a non-empty dataset and a non-empty path.
     * `datasetPath` and `modelPath` are the paths `get_data_file_paths` chose
     * (empty when not selected); `explicitModel` says the path named a `.model` file.
     */
    static function WriteAttempts(datasetPath: string, modelPath: string, explicitModel: bool,
                                  trained: bool, datasetWritten: bool, modelSaved: bool): (w: IoReport)
      ensures w.reported.Some?
      ensures forall e :: e in w.errors ==> e == ModelNotTrained || AttemptFailed(w, e, datasetWritten, modelSaved)
    {
      var dataAttempted := datasetPath != [];
      var dataErrors := if dataAttempted && !datasetWritten then [DataFileFailed(datasetPath)] else [];
      var modelAttempted := modelPath != [] && trained;
      var modelErrors :=
        if modelAttempted then (if modelSaved then [] else [ModelFileFailed(modelPath)])
        else if modelPath != [] && explicitModel then [ModelNotTrained]
        else [];
      IoReport(
        if dataAttempted then Some(datasetPath) else None,
        if modelAttempted then Some(modelPath) else None,
        Some(if modelAttempted then modelSaved else dataAttempted && datasetWritten),
        dataErrors + modelErrors)
    }

    /**
     * The decisions of `write`. `trained` is the model's trained state,
     * `datasetWritten` and `modelSaved` the results the dataset and model
     * writers would return.
     */
    function Write(path: string, trained: bool, datasetWritten: bool, modelSaved: bool): (w: IoReport)
      reads this
      ensures ActiveDatasetEmpty() ==> w == IoReport(None, None, Some(false), [NoObservations])
      ensures !ActiveDatasetEmpty() && path == [] ==> w == IoReport(None, None, None, [EmptyPath])
      ensures !ActiveDatasetEmpty() && path != [] ==> w.reported.Some?
      ensures !trained ==> w.modelFile.None?
      ensures FileExtension(path) == ModelExtension ==> w.dataFile.None?
      ensures FileExtension(path) == DataExtension ==> w.modelFile.None?
      ensures w.modelFile.Some? ==> w.reported == Some(modelSaved)
      ensures w.modelFile.None? && w.dataFile.Some? ==> w.reported == Some(datasetWritten)
      ensures w.modelFile.None? && w.dataFile.None? ==> w.reported != Some(true)
      ensures (!ActiveDatasetEmpty() && path != [] &&
        FileExtension(path) != ModelExtension && FileExtension(path) != DataExtension) ==>
        w.dataFile == Some(path + DataExtension) &&
        (trained <==> w.modelFile == Some(path + ModelExtension))
      ensures ModelNotTrained in w.errors <==>
        !ActiveDatasetEmpty() && path != [] && !trained && FileExtension(path) == ModelExtension
      ensures !ActiveDatasetEmpty() && path != [] ==>
        forall e :: e in w.errors ==> e == ModelNotTrained || AttemptFailed(w, e, datasetWritten, modelSaved)
      ensures w.dataFile.Some? && !datasetWritten ==> DataFileFailed(w.dataFile.value) in w.errors
      ensures w.modelFile.Some? && !modelSaved ==> ModelFileFailed(w.modelFile.value) in w.errors
    {
      if ActiveDatasetEmpty() then IoReport(None, None, Some(false), [NoObservations])
      else if CheckEmpty(path) then IoReport(None, None, None, [EmptyPath])
      else
        var paths := DataFilePaths(path, "", "");
        WriteAttempts(paths.0, paths.1, FileExtension(path) == ModelExtension, trained, datasetWritten, modelSaved)
    }

    /**
     * The decisions of `read`. `datasetRead` and `modelLoaded` are the
     * results the dataset reader and the model loader would return; when
     * both files are attempted the model's result is the one reported.
     */
    static function Read(path: string, datasetRead: bool, modelLoaded: bool): (r: IoReport)
      ensures path == [] ==> r == IoReport(None, None, None, [EmptyPath])
      ensures path != [] ==> r.reported.Some? && (r.dataFile.Some? || r.modelFile.Some?)
      ensures r.dataFile.Some? && !datasetRead ==> DataFileFailed(r.dataFile.value) in r.errors
      ensures r.modelFile.Some? && !modelLoaded ==> ModelFileFailed(r.modelFile.value) in r.errors
      ensures path != [] && datasetRead && modelLoaded ==> r.errors == []
    {
      if CheckEmpty(path) then IoReport(None, None, None, [EmptyPath])
      else
        var paths := DataFilePaths(path, "", "");
        var datasetPath, modelPath := paths.0, paths.1;
        var dataAttempted := datasetPath != [];
        var modelAttempted := modelPath != [];
        var dataSuccess := dataAttempted && datasetRead;
        IoReport(
          if dataAttempted then Some(datasetPath) else None,
          if modelAttempted then Some(modelPath) else None,
          Some(if modelAttempted then modelLoaded else dataSuccess),
          (if dataAttempted && !datasetRead then [DataFileFailed(datasetPath)] else []) +
          (if modelAttempted && !modelLoaded then [ModelFileFailed(modelPath)] else []))
    }

    /** `write` of a `.data` path writes only the dataset, to that path, and reports its result. */
    lemma WriteDataFile(path: string, trained: bool, datasetWritten: bool, modelSaved: bool)
      requires !ActiveDatasetEmpty() && FileExtension(path) == DataExtension
      ensures var w := Write(path, trained, datasetWritten, modelSaved);
        w.dataFile == Some(path) && w.modelFile.None? && w.reported == Some(datasetWritten)
    {
    }

    /**
     * `write` of a `.model` path never writes the dataset; a trained model is
     * saved to that path and its result reported, an untrained one reports false.
     */
    lemma WriteModelFile(path: string, trained: bool, datasetWritten: bool, modelSaved: bool)
      requires !ActiveDatasetEmpty() && FileExtension(path) == ModelExtension
      ensures var w := Write(path, trained, datasetWritten, modelSaved);
        w.dataFile.None? &&
        (trained ==> w.modelFile == Some(path) && w.reported == Some(modelSaved)) &&
        (!trained ==> w.modelFile.None? && w.reported == Some(false))
    {
    }

    /** `read` of a `.data` path attempts only the dataset and reports its result. */
    static lemma ReadDataFile(path: string, datasetRead: bool, modelLoaded: bool)
      requires FileExtension(path) == DataExtension
      ensures var r := Read(path, datasetRead, modelLoaded);
        r.dataFile == Some(path) && r.modelFile.None? && r.reported == Some(datasetRead)
    {
    }

    /** `read` of a `.model` path attempts only the model and reports its result. */
    static lemma ReadModelFile(path: string, datasetRead: bool, modelLoaded: bool)
      requires FileExtension(path) == ModelExtension
      ensures var r := Read(path, datasetRead, modelLoaded);
        r.dataFile.None? && r.modelFile == Some(path) && r.reported == Some(modelLoaded)
    {
    }

    /** `read` of a non-empty path raises no error but the failure of a file it attempted. */
    static lemma ReadErrorsExplained(path: string, datasetRead: bool, modelLoaded: bool)
      requires path != []
      ensures var r := Read(path, datasetRead, modelLoaded);
        forall e :: e in r.errors ==> AttemptFailed(r, e, datasetRead, modelLoaded)
    {
    }

    /**
     * `read` of any other non-empty path attempts both derived files and
     * reports the model's result, whatever the dataset's was.
     */
    static lemma ReadBothFiles(path: string, datasetRead: bool, modelLoaded: bool)
      requires path != [] && FileExtension(path) != ModelExtension && FileExtension(path) != DataExtension
      ensures var r := Read(path, datasetRead, modelLoaded);
        r.dataFile == Some(path + DataExtension) && r.modelFile == Some(path + ModelExtension) &&
        r.reported == Some(modelLoaded)
    {
    }
  }
}
