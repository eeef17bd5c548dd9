/**
 * The live state of the `ml.svm` object: the number of cross-validation
 * folds and the probability-estimates flag, with the attribute setters that
 * guard them, and the accept/reject switches of the `type`, `kernel` and
 * `shrinking` attributes (which store nothing in this version).
 */
module MlSvm {

  /* libsvm's `svm_type` codes. */
  const CSvc: int := 0
  const NuSvc: int := 1
  const OneClass: int := 2
  const EpsilonSvr: int := 3
  const NuSvr: int := 4

  /* libsvm's `kernel_type` codes. */
  const Linear: int := 0
  const Poly: int := 1
  const Rbf: int := 2
  const Sigmoid: int := 3
  const Precomputed: int := 4

  /** The smallest fold count cross-validation accepts. */
  const MinFolds: int := 2

  class Svm {
    /** The number of folds for n-fold cross-validation (`nr_fold`). */
    var nrFold: int
    /** Whether probability estimates are requested (`estimates`). */
    var estimates: bool

    /** The fold count never drops below two. */
    ghost predicate Valid()
      reads this
    {
      nrFold >= MinFolds
    }

    /** A new object uses two folds and no probability estimates. */
    constructor ()
      ensures Valid()
      ensures nrFold == 2 && !estimates
    {
      nrFold, estimates := 2, false;
    }

    /** `set_mode`: a fold count below two is rejected and changes nothing; any other is stored. */
    method SetMode(mode: int)
      requires Valid()
      modifies this`nrFold
      ensures Valid()
      ensures mode < MinFolds ==> nrFold == old(nrFold)
      ensures mode >= MinFolds ==> nrFold == mode
    {
      if mode < MinFolds {
        return;
      }
      nrFold := mode;
    }

    /** `get_mode`: the current fold count, which is at least two. */
    method GetMode() returns (mode: int)
      requires Valid()
      ensures mode == nrFold && mode >= MinFolds
    {
      mode := nrFold;
    }

    /** `set_estimates`: stores the flag; the fold count is untouched. */
    method SetEstimates(e: bool)
      modifies this`estimates
      ensures estimates == e
    {
      estimates := e;
    }

    /**
     * `set_type`: accepts exactly the five libsvm machine types; the choice is
     * not stored in this version, so nothing changes either way.
     */
    method SetType(svmType: int) returns (accepted: bool)
      ensures accepted <==>
        svmType == CSvc || svmType == NuSvc || svmType == OneClass || svmType == EpsilonSvr || svmType == NuSvr
    {
      match svmType
      case 0 => accepted := true;
      case 1 => accepted := true;
      case 2 => accepted := true;
      case 3 => accepted := true;
      case 4 => accepted := true;
      case _ => accepted := false;
    }

    /**
     * `set_kernel`: accepts exactly the five libsvm kernels; the choice is not
     * stored in this version, so nothing changes either way.
     */
    method SetKernel(kernel: int) returns (accepted: bool)
      ensures accepted <==>
        kernel == Linear || kernel == Poly || kernel == Rbf || kernel == Sigmoid || kernel == Precomputed
    {
      match kernel
      case 0 => accepted := true;
      case 1 => accepted := true;
      case 2 => accepted := true;
      case 3 => accepted := true;
      case 4 => accepted := true;
      case _ => accepted := false;
    }

    /** `set_shrinking`: accepts exactly 0 (off) and 1 (on); nothing is stored. */
    method SetShrinking(shrinking: int) returns (accepted: bool)
      ensures accepted <==> shrinking == 0 || shrinking == 1
    {
      match shrinking
      case 0 => accepted := true;
      case 1 => accepted := true;
      case _ => accepted := false;
    }
  }
}
