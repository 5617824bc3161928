/**
  morph::Anneal: Ingber's adaptive simulated annealing as a caller-driven state
  machine. The caller reads state, computes the objective of x_cand (or of every
  point of x_set) and calls Step again. The uniform draws the source takes from
  its random number generators are inputs: u for the acceptance test and a
  stream of D-element draws for the parameter generator.
 */
module Annealing {
  import opened RealSeq
  import opened FloatModel
  import opened AnnealRules

  /** Anneal_State: what the caller has to do next. */
  datatype AnnealState = Unknown | NeedToInit | NeedToStep | NeedToCompute | NeedToComputeSet | ReadyToStop

  /**
    The outcome of a step. PartialsNotFinite stands for the runtime_error the
    reanneal throws (or the NaN partials of zero samples); KNotRepresentable
    for a step count outside the range of unsigned int, whose cast is undefined
    behaviour; DrawsExhausted for a draw stream that ran out before the
    rejection loop found a candidate, where the source would keep drawing.
   */
  datatype StepResult = Done | PartialsNotFinite | KNotRepresentable | DrawsExhausted

  /**
    What the rescaling half of complete_reanneal() does to the temperatures
    and the step count, given their values before and after it and the
    sensitivities s: when the rescaled temperatures are not all positive,
    nothing changes and the rescale succeeds; when they are, it succeeds
    exactly when the matching step count fits an unsigned int, and then the
    temperatures are the rescaled ones and the step count is that count.
   */
  ghost predicate RescaleOutcome(ops: FloatOps, s: seq<real>, temp0: seq<real>, c: seq<real>,
                                 tempBefore: seq<real>, kBefore: nat, tempAfter: seq<real>, kAfter: nat, ok: bool)
  {
    && |tempBefore| > 0 && |s| == |tempBefore| && |temp0| == |tempBefore| && |c| == |tempBefore|
    && var tempRe := RescaledTemperatures(ops, tempBefore, s);
    && (!Positive(tempRe) ==> ok && kAfter == kBefore && tempAfter == tempBefore)
    && (Positive(tempRe) ==>
          && (ok <==> ReannealedStepCount(ops, temp0, tempRe, c).Some?)
          && (ok ==> tempAfter == tempRe && ReannealedStepCount(ops, temp0, tempRe, c) == Some(kAfter))
          && (!ok ==> kAfter == kBefore && tempAfter == tempBefore))
  }

  /**
    What complete_reanneal() does to the temperatures and the step count,
    given their values before and after it, the partials it estimated from
    partialsSamples samples, the sensitivities s it leaves and the outcome r:
    it fails exactly when there are no samples or a partial is NaN or
    infinite; a failure keeps both; a zero partial keeps both and succeeds;
    otherwise the sensitivities are -rdelta * partials and the rescale decides.
   */
  ghost predicate ReannealOutcome(ops: FloatOps, rdelta: seq<real>, partials: seq<real>, partialsSamples: nat,
                                  s: seq<real>, temp0: seq<real>, c: seq<real>,
                                  tempBefore: seq<real>, kBefore: nat, tempAfter: seq<real>, kAfter: nat, r: StepResult)
  {
    && |partials| == |tempBefore| && |rdelta| == |tempBefore|
    && (r == Done || r == PartialsNotFinite || r == KNotRepresentable)
    && (r == PartialsNotFinite <==> partialsSamples == 0 || AnyNonFinite(ops, partials))
    && (r != Done ==> kAfter == kBefore && tempAfter == tempBefore)
    && (r != PartialsNotFinite && HasZero(partials) ==> r == Done && kAfter == kBefore && tempAfter == tempBefore)
    && (r != PartialsNotFinite && !HasZero(partials) ==>
          && s == Sensitivities(rdelta, partials)
          && RescaleOutcome(ops, s, temp0, c, tempBefore, kBefore, tempAfter, kAfter, r == Done))
  }

  /**
    What acceptance_check() does to the current point, the best point, the
    history and the acceptance counts, given whether the candidate was
    accepted and whether it improved on f_x, and their values before (0) and
    after (1) it. An accepted candidate becomes x, enters both histories and
    is counted as accepted, and as an accepted worse one unless it improved;
    it takes over the best point only when strictly below f_x_best, and an
    objective equal to f_x_best counts a repeat. A rejected candidate changes
    none of these.
   */
  ghost predicate AcceptOutcome(accepted: bool, improved: bool, xCand: seq<real>, fXCand: real,
                                x0: seq<real>, fX0: real, xBest0: seq<real>, fXBest0: real, repeats0: nat,
                                accepted0: nat, worseAccepted0: nat, hist0: seq<seq<real>>, fHist0: seq<real>,
                                x1: seq<real>, fX1: real, xBest1: seq<real>, fXBest1: real, repeats1: nat,
                                accepted1: nat, worseAccepted1: nat, hist1: seq<seq<real>>, fHist1: seq<real>)
  {
    && (accepted ==>
          && x1 == xCand && fX1 == fXCand && hist1 == hist0 + [xCand] && fHist1 == fHist0 + [fXCand]
          && accepted1 == accepted0 + 1 && worseAccepted1 == worseAccepted0 + (if improved then 0 else 1))
    && (accepted && fXCand < fXBest0 ==> xBest1 == xCand && fXBest1 == fXCand && repeats1 == 0)
    && (accepted && fXCand == fXBest0 ==> xBest1 == xBest0 && fXBest1 == fXBest0 && repeats1 == repeats0 + 1)
    && (accepted && fXCand > fXBest0 ==> xBest1 == xBest0 && fXBest1 == fXBest0 && repeats1 == repeats0)
    && (!accepted ==>
          && x1 == x0 && fX1 == fX0 && xBest1 == xBest0 && fXBest1 == fXBest0 && repeats1 == repeats0
          && hist1 == hist0 && fHist1 == fHist0 && accepted1 == accepted0 && worseAccepted1 == worseAccepted0)
  }

  /** The algorithm parameters a caller may adjust before init(). */
  datatype Parameters = Parameters(
    downhill: bool,
    temperatureRatioScale: real,
    temperatureAnnealScale: real,
    costParameterScaleRatio: real,
    accGenReannealRatio: real,
    partialsSamples: nat,
    fXBestRepeatMax: nat,
    reannealAfterSteps: nat)

  const DefaultParameters: Parameters := Parameters(true, 0.00001, 100.0, 1.0, 0.7, 2, 10, 100)

  class Anneal {
    // Algorithm parameters.
    var downhill: bool
    var temperatureRatioScale: real
    var temperatureAnnealScale: real
    var costParameterScaleRatio: real
    var accGenReannealRatio: real
    var partialsSamples: nat
    var fXBestRepeatMax: nat
    var reannealAfterSteps: nat

    // Parameter vectors and objective values shared with the caller.
    var xCand: seq<real>
    var fXCand: real
    var x: seq<real>
    var fX: real
    var xBest: seq<real>
    var fXBest: real
    var fXBestRepeats: nat
    var xSet: seq<seq<real>>
    var fXSet: seq<real>

    // Statistics and state.
    var numImproved: nat
    var numWorse: nat
    var numWorseAccepted: nat
    var numAccepted: nat
    var steps: nat
    var paramHist: seq<seq<real>>
    var fParamHist: seq<real>
    var state: AnnealState

    // Internal parameters.
    const ops: FloatOps
    const D: nat
    var k: nat
    var kR: nat
    var temp: seq<real>
    var temp0: seq<real>
    var tempF: seq<real>
    var m: seq<real>
    var n: seq<real>
    var c: seq<real>
    var cCost: seq<real>
    var tempCost0: seq<real>
    var tempCost: seq<real>
    const initialParams: seq<real>
    const rangeMin: seq<real>
    const rangeMax: seq<real>
    const rdelta: seq<real>
    const rmeans: seq<real>
    var s: seq<real>
    var sMax: seq<real>
    var partials: seq<real>

    function Settings(): Parameters
      reads this`downhill, this`temperatureRatioScale, this`temperatureAnnealScale, this`costParameterScaleRatio,
            this`accGenReannealRatio, this`partialsSamples, this`fXBestRepeatMax, this`reannealAfterSteps
    {
      Parameters(downhill, temperatureRatioScale, temperatureAnnealScale, costParameterScaleRatio,
                 accGenReannealRatio, partialsSamples, fXBestRepeatMax, reannealAfterSteps)
    }

    /** The dimensions fixed by the constructor. */
    ghost predicate Dimensions()
    {
      D == |initialParams| > 0 && |rangeMin| == D && |rangeMax| == D && |rdelta| == D
    }

    /** A point the annealer may hold: one inside the ranges, or the initial parameters. */
    ghost predicate Admitted(v: seq<real>)
    {
      Within(v, rangeMin, rangeMax) || v == initialParams
    }

    /** x, x_cand, x_best and every recorded point are admitted; the two histories have equal length. */
    ghost predicate PointsAdmitted()
      reads this`x, this`xCand, this`xBest, this`paramHist, this`fParamHist
    {
      && |x| == D && |xCand| == D && |xBest| == D
      && Admitted(x) && Admitted(xCand) && Admitted(xBest)
      && |paramHist| == |fParamHist|
      && forall i :: 0 <= i < |paramHist| ==> Admitted(paramHist[i])
    }

    /** Accepted candidates are generated ones; accepted worse ones are both worse and accepted. */
    ghost predicate CountersOrdered()
      reads this`numAccepted, this`numImproved, this`numWorse, this`numWorseAccepted
    {
      && numAccepted <= numImproved + numWorse
      && numWorseAccepted <= numWorse && numWorseAccepted <= numAccepted
    }

    /** Before init(): the vectors init() resizes are still empty. */
    ghost predicate Uninitialised()
      reads this`temp, this`temp0, this`s, this`sMax, this`partials
    {
      temp == [] && temp0 == [] && s == [] && sMax == [] && partials == []
    }

    /** After init(): the vectors the later steps use have one element per dimension. */
    ghost predicate Initialised()
      reads this`temp, this`temp0, this`c, this`cCost, this`tempCost0, this`tempCost, this`partials
    {
      && |temp| == D && |temp0| == D && |c| == D && |cCost| == D
      && |tempCost0| == D && |tempCost| == D && |partials| == D
    }

    /** The vectors are empty before init() and have D elements after it. */
    ghost predicate PhaseShapes()
      reads this`state, this`temp, this`temp0, this`s, this`sMax, this`c, this`cCost,
            this`tempCost0, this`tempCost, this`partials
    {
      && state != Unknown
      && (state == NeedToInit ==> Uninitialised())
      && (state != NeedToInit ==> Initialised())
    }

    /** A sample of x_set: inside the ranges and different from at in every element. */
    ghost predicate SampleOk(v: seq<real>, at: seq<real>)
    {
      Within(v, rangeMin, rangeMax) && AllChanged(v, at)
    }

    /** One sample around x per partials sample, and one objective slot for each. */
    ghost predicate SetPending()
      reads this`xSet, this`fXSet, this`partialsSamples, this`x
    {
      && |xSet| == partialsSamples && |fXSet| == partialsSamples
      && forall i :: 0 <= i < |xSet| ==> SampleOk(xSet[i], x)
    }

    /** While the caller computes x_set, the sample set is complete. */
    ghost predicate PendingSetReady()
      reads this`state, this`xSet, this`fXSet, this`partialsSamples, this`x
    {
      state == NeedToComputeSet ==> SetPending()
    }

    ghost predicate Valid()
      reads this
    {
      Dimensions() && PointsAdmitted() && CountersOrdered() && PhaseShapes() && PendingSetReady()
    }

    /** No accepted objective lies below the best one, nor does the current one. */
    ghost predicate BestIsLowest()
      reads this`fXBest, this`fX, this`fParamHist
    {
      fXBest <= fX && forall i :: 0 <= i < |fParamHist| ==> fXBest <= fParamHist[i]
    }

    /** Every draw of the stream has one element per dimension. */
    ghost predicate DrawsFit(draws: seq<seq<real>>)
    {
      forall i :: 0 <= i < |draws| ==> |draws[i]| == D
    }

    /**
      The constructor: D is the number of initial parameters, the ranges are
      copied pair by pair, x, x_cand and x_best start at the initial
      parameters, and the caller has to call Init.
     */
    constructor (ops: FloatOps, initialParams: seq<real>, paramRanges: seq<(real, real)>)
      requires |paramRanges| == |initialParams| > 0
      ensures Valid() && BestIsLowest()
      ensures this.ops == ops && D == |initialParams| && this.initialParams == initialParams
      ensures x == initialParams && xCand == initialParams && xBest == initialParams
      ensures state == NeedToInit && Settings() == DefaultParameters
      ensures |rangeMin| == D && |rangeMax| == D
      ensures forall i :: 0 <= i < D ==> rangeMin[i] == paramRanges[i].0 && rangeMax[i] == paramRanges[i].1
      ensures rdelta == ElementwiseDifference(rangeMax, rangeMin)
      ensures rmeans == Divided(ElementwiseSum(rangeMax, rangeMin), 2.0)
      ensures k == 1 && kR == 0 && steps == 0
      ensures numImproved == 0 && numWorse == 0 && numWorseAccepted == 0 && numAccepted == 0
      ensures fXBestRepeats == 0 && paramHist == [] && fParamHist == []
    {
      var d := |initialParams|;
      var lo := Filled(d, 0.0);
      var hi := Filled(d, 0.0);
      for i := 0 to d
        invariant |lo| == d && |hi| == d
        invariant forall j :: 0 <= j < i ==> lo[j] == paramRanges[j].0 && hi[j] == paramRanges[j].1
      {
        lo := lo[i := paramRanges[i].0];
        hi := hi[i := paramRanges[i].1];
      }
      this.ops := ops;
      D := d;
      this.initialParams := initialParams;
      rangeMin := lo;
      rangeMax := hi;
      rdelta := ElementwiseDifference(hi, lo);
      rmeans := Divided(ElementwiseSum(hi, lo), 2.0);

      downhill := DefaultParameters.downhill;
      temperatureRatioScale := DefaultParameters.temperatureRatioScale;
      temperatureAnnealScale := DefaultParameters.temperatureAnnealScale;
      costParameterScaleRatio := DefaultParameters.costParameterScaleRatio;
      accGenReannealRatio := DefaultParameters.accGenReannealRatio;
      partialsSamples := DefaultParameters.partialsSamples;
      fXBestRepeatMax := DefaultParameters.fXBestRepeatMax;
      reannealAfterSteps := DefaultParameters.reannealAfterSteps;

      xCand := initialParams;
      fXCand := 0.0;
      x := initialParams;
      fX := 0.0;
      xBest := initialParams;
      fXBest := 0.0;
      fXBestRepeats := 0;
      xSet := [];
      fXSet := [];
      numImproved, numWorse, numWorseAccepted, numAccepted, steps := 0, 0, 0, 0, 0;
      paramHist := [];
      fParamHist := [];
      k, kR := 1, 0;
      temp, temp0, tempF, m, n := [], [], [], [], [];
      c, cCost, tempCost0, tempCost := [], [], [], [];
      s, sMax, partials := [], [], [];
      state := NeedToInit;
    }

    /** The caller sets the algorithm parameters between construction and Init. */
    method Configure(p: Parameters)
      requires Valid() && state == NeedToInit
      modifies this`downhill, this`temperatureRatioScale, this`temperatureAnnealScale,
               this`costParameterScaleRatio, this`accGenReannealRatio, this`partialsSamples,
               this`fXBestRepeatMax, this`reannealAfterSteps
      ensures Valid() && Settings() == p
    {
      StoreParameters(p);
    }

    /** Writes the eight parameter members. */
    method StoreParameters(p: Parameters)
      modifies this`downhill, this`temperatureRatioScale, this`temperatureAnnealScale,
               this`costParameterScaleRatio, this`accGenReannealRatio, this`partialsSamples,
               this`fXBestRepeatMax, this`reannealAfterSteps
      ensures Settings() == p
    {
      downhill := p.downhill;
      temperatureRatioScale := p.temperatureRatioScale;
      temperatureAnnealScale := p.temperatureAnnealScale;
      costParameterScaleRatio := p.costParameterScaleRatio;
      accGenReannealRatio := p.accGenReannealRatio;
      partialsSamples := p.partialsSamples;
      fXBestRepeatMax := p.fXBestRepeatMax;
      reannealAfterSteps := p.reannealAfterSteps;
    }

    /** The caller stores the objective of x_cand. */
    method SetCandidateObjective(f: real)
      requires Valid()
      modifies this`fXCand
      ensures Valid() && fXCand == f
    {
      fXCand := f;
    }

    /** The caller stores the objective of sample i of x_set. */
    method SetSampleObjective(i: nat, f: real)
      requires Valid() && i < |fXSet|
      modifies this`fXSet
      ensures Valid() && fXSet == old(fXSet)[i := f]
    {
      fXSet := fXSet[i := f];
    }

    /**
      init(): the objectives start at the sentinel, the temperature vectors
      are resized to D with ones, m, n, c and the acceptance temperatures are
      derived from the parameters, and the caller has to compute the objective
      of x_cand.
     */
    method Init()
      requires Valid() && state == NeedToInit
      modifies this`fXBest, this`fX, this`fXCand,
               this`temp0, this`temp, this`s, this`sMax, this`partials, this`m, this`n,
               this`tempF, this`c, this`cCost, this`tempCost0, this`tempCost, this`state
      ensures Valid() && state == NeedToCompute
      ensures fXBest == Sentinel(ops, downhill) && fX == fXBest && fXCand == fXBest
      ensures temp0 == Filled(D, 1.0) && temp == Filled(D, 1.0)
      ensures s == Filled(D, 1.0) && sMax == Filled(D, 1.0) && partials == Filled(D, 1.0)
      ensures m == Filled(D, -ops.log(temperatureRatioScale))
      ensures n == Filled(D, ops.log(temperatureAnnealScale))
      ensures tempF == ElementwiseProduct(temp0, ElementwiseExp(ops, Negated(m)))
      ensures c == ElementwiseProduct(m, ElementwiseExp(ops, Divided(Negated(n), D as real)))
      ensures cCost == Scaled(c, costParameterScaleRatio)
      ensures tempCost0 == cCost && tempCost == cCost
      ensures paramHist == [] ==> BestIsLowest()
    {
      ResetObjectivesAndVectors();
      DeriveSchedule();
    }

    /** The first lines of init(): the objectives and the vectors, as the two methods below set them. */
    method ResetObjectivesAndVectors()
      requires Uninitialised()
      modifies this`fXBest, this`fX, this`fXCand, this`temp0, this`temp, this`s, this`sMax, this`partials,
               this`m, this`n
      ensures fXBest == Sentinel(ops, downhill) && fX == fXBest && fXCand == fXBest
      ensures temp0 == Filled(D, 1.0) && temp == Filled(D, 1.0)
      ensures s == Filled(D, 1.0) && sMax == Filled(D, 1.0) && partials == Filled(D, 1.0)
      ensures m == Filled(D, -ops.log(temperatureRatioScale))
      ensures n == Filled(D, ops.log(temperatureAnnealScale))
    {
      ResetObjectives();
      ResizeVectors();
    }

    /**
      The first part of init(): the objectives start at the sentinel of the
      direction of search. init() also resizes x, x_cand and x_best to D,
      which leaves them as they are, since they already have D elements.
     */
    method ResetObjectives()
      modifies this`fXBest, this`fX, this`fXCand
      ensures fXBest == Sentinel(ops, downhill) && fX == fXBest && fXCand == fXBest
    {
      fXBest := Sentinel(ops, downhill);
      fX := fXBest;
      fXCand := fXBest;
    }

    /**
      The second part of init(): the temperature and sensitivity vectors,
      empty until now, are resized to D elements of 1, and m and n are filled
      from the two temperature scales.
     */
    method ResizeVectors()
      requires Uninitialised()
      modifies this`temp0, this`temp, this`s, this`sMax, this`partials, this`m, this`n
      ensures temp0 == Filled(D, 1.0) && temp == Filled(D, 1.0)
      ensures s == Filled(D, 1.0) && sMax == Filled(D, 1.0) && partials == Filled(D, 1.0)
      ensures m == Filled(D, -ops.log(temperatureRatioScale))
      ensures n == Filled(D, ops.log(temperatureAnnealScale))
    {
      ResizedEmpty(D, 1.0);
      var ones := Resized(temp0, D, 1.0);
      temp0 := ones;
      temp := ones;
      s := ones;
      sMax := ones;
      partials := ones;
      m := Filled(D, -ops.log(temperatureRatioScale));
      n := Filled(D, ops.log(temperatureAnnealScale));
    }

    /**
      The last part of init(): the expected final temperatures, the control
      parameters c from m and n, and the acceptance temperatures from c and
      the cost scale ratio; then the caller has to compute the objective of
      x_cand.
     */
    method DeriveSchedule()
      requires |temp0| == D > 0 && |m| == D && |n| == D
      modifies this`tempF, this`c, this`cCost, this`tempCost0, this`tempCost, this`state
      ensures state == NeedToCompute
      ensures tempF == ElementwiseProduct(temp0, ElementwiseExp(ops, Negated(m)))
      ensures c == ElementwiseProduct(m, ElementwiseExp(ops, Divided(Negated(n), D as real)))
      ensures cCost == Scaled(c, costParameterScaleRatio)
      ensures tempCost0 == cCost && tempCost == cCost
    {
      tempF := ElementwiseProduct(temp0, ElementwiseExp(ops, Negated(m)));
      c := ElementwiseProduct(m, ElementwiseExp(ops, Divided(Negated(n), D as real)));
      cCost := Scaled(c, costParameterScaleRatio);
      tempCost0 := cCost;
      tempCost := cCost;
      state := NeedToCompute;
    }

    /** The stopping rule: the best objective has repeated often enough. */
    predicate StopCheck(): (stop: bool)
      reads this`fXBestRepeats, this`fXBestRepeatMax
      ensures fXBestRepeatMax == 0 ==> stop
    {
      fXBestRepeats >= fXBestRepeatMax
    }

    /** accepted_vs_generated(): accepted candidates over generated ones. */
    function AcceptedVsGenerated(): (r: real)
      requires numImproved + numWorse > 0
      reads this`numAccepted, this`numImproved, this`numWorse
      ensures r * ((numImproved + numWorse) as real) == numAccepted as real
      ensures 0.0 <= r
      ensures numAccepted <= numImproved + numWorse ==> r <= 1.0
    {
      AcceptedRatio(numAccepted, numImproved + numWorse)
    }

    /**
      cooling_schedule(): the parameter temperatures cool with the step count k,
      the acceptance temperatures with the number of accepted points.
     */
    method CoolingSchedule()
      requires Dimensions() && Initialised()
      modifies this`temp, this`tempCost
      ensures Initialised()
      ensures temp == CooledTemperatures(ops, temp0, c, k, D)
      ensures tempCost == CooledTemperatures(ops, tempCost0, cCost, numAccepted, D)
      ensures ops.ExpPositive() && Positive(temp0) ==> Positive(temp)
      ensures ops.ExpPositive() && Positive(tempCost0) ==> Positive(tempCost)
    {
      temp := CooledTemperatures(ops, temp0, c, k, D);
      tempCost := CooledTemperatures(ops, tempCost0, cCost, numAccepted, D);
      if ops.ExpPositive() && Positive(temp0) {
        CoolingKeepsPositive(ops, temp0, c, k, D);
      }
      if ops.ExpPositive() && Positive(tempCost0) {
        CoolingKeepsPositive(ops, tempCost0, cCost, numAccepted, D);
      }
    }

    /**
      The statistics of acceptance_check(): every candidate counts as improved
      or worse, and an accepted one counts as accepted and, when it is worse,
      as an accepted worse one.
     */
    method Tally(better: bool, accepted: bool)
      requires CountersOrdered()
      modifies this`numImproved, this`numWorse, this`numWorseAccepted, this`numAccepted
      ensures CountersOrdered()
      ensures numImproved == old(numImproved) + (if better then 1 else 0)
      ensures numWorse == old(numWorse) + (if better then 0 else 1)
      ensures numAccepted == old(numAccepted) + (if accepted then 1 else 0)
      ensures numWorseAccepted == old(numWorseAccepted) + (if !better && accepted then 1 else 0)
    {
      if better {
        numImproved := numImproved + 1;
      } else {
        numWorse := numWorse + 1;
      }
      if !better && accepted {
        numWorseAccepted := numWorseAccepted + 1;
      }
      if accepted {
        numAccepted := numAccepted + 1;
      }
    }

    /**
      The accepted branch of acceptance_check(): x moves to x_cand, both are
      recorded in the history, and the best point moves only for an objective
      strictly below f_x_best, whatever downhill; an objective equal to it
      counts as a repeat.
     */
    method MoveToCandidate()
      requires Dimensions() && PointsAdmitted()
      modifies this`x, this`fX, this`paramHist, this`fParamHist, this`fXBestRepeats, this`xBest, this`fXBest
      ensures PointsAdmitted()
      ensures old(BestIsLowest()) ==> BestIsLowest()
      ensures x == xCand && fX == fXCand
      ensures paramHist == old(paramHist) + [xCand] && fParamHist == old(fParamHist) + [fXCand]
      ensures fXCand < old(fXBest) ==> xBest == xCand && fXBest == fXCand && fXBestRepeats == 0
      ensures fXCand == old(fXBest) ==>
        xBest == old(xBest) && fXBest == old(fXBest) && fXBestRepeats == old(fXBestRepeats) + 1
      ensures fXCand > old(fXBest) ==>
        xBest == old(xBest) && fXBest == old(fXBest) && fXBestRepeats == old(fXBestRepeats)
    {
      x := xCand;
      fX := fXCand;
      paramHist := paramHist + [x];
      fParamHist := fParamHist + [fX];
      fXBestRepeats := fXBestRepeats + (if fXCand == fXBest then 1 else 0);
      if fXCand < fXBest {
        fXBestRepeats := 0;
        xBest := xCand;
      }
      fXBest := if fXCand < fXBest then fXCand else fXBest;
    }

    /**
      acceptance_check(u): counts the candidate as improved or worse, accepts
      it when its probability exceeds the draw u, and on acceptance moves to
      it, records it in the history and updates the best point.
     */
    method AcceptanceCheck(u: real)
      requires Dimensions() && PointsAdmitted() && CountersOrdered() && |tempCost| > 0
      modifies this`numImproved, this`numWorse, this`numWorseAccepted, this`numAccepted,
               this`x, this`fX, this`paramHist, this`fParamHist,
               this`fXBestRepeats, this`xBest, this`fXBest
      ensures PointsAdmitted() && CountersOrdered()
      ensures old(BestIsLowest()) ==> BestIsLowest()
      ensures fXBest <= old(fXBest)
      ensures IsImprovement(downhill, fXCand, old(fX)) ==>
        numImproved == old(numImproved) + 1 && numWorse == old(numWorse)
      ensures !IsImprovement(downhill, fXCand, old(fX)) ==>
        numImproved == old(numImproved) && numWorse == old(numWorse) + 1
      ensures AcceptanceProbability(ops, fXCand, old(fX), tempCost) > u ==>
        && x == xCand && fX == fXCand
        && paramHist == old(paramHist) + [xCand] && fParamHist == old(fParamHist) + [fXCand]
        && numAccepted == old(numAccepted) + 1
        && numWorseAccepted == old(numWorseAccepted) + (if IsImprovement(downhill, fXCand, old(fX)) then 0 else 1)
      ensures AcceptanceProbability(ops, fXCand, old(fX), tempCost) > u && fXCand < old(fXBest) ==>
        xBest == xCand && fXBest == fXCand && fXBestRepeats == 0
      ensures AcceptanceProbability(ops, fXCand, old(fX), tempCost) > u && fXCand == old(fXBest) ==>
        xBest == old(xBest) && fXBest == old(fXBest) && fXBestRepeats == old(fXBestRepeats) + 1
      ensures AcceptanceProbability(ops, fXCand, old(fX), tempCost) > u && fXCand > old(fXBest) ==>
        xBest == old(xBest) && fXBest == old(fXBest) && fXBestRepeats == old(fXBestRepeats)
      ensures AcceptanceProbability(ops, fXCand, old(fX), tempCost) <= u ==>
        && x == old(x) && fX == old(fX) && xBest == old(xBest) && fXBest == old(fXBest)
        && fXBestRepeats == old(fXBestRepeats) && paramHist == old(paramHist) && fParamHist == old(fParamHist)
        && numAccepted == old(numAccepted) && numWorseAccepted == old(numWorseAccepted)
    {
      var better := IsImprovement(downhill, fXCand, fX);
      var p := AcceptanceProbability(ops, fXCand, fX, tempCost);
      var accepted := p > u;
      Tally(better, accepted);
      if accepted {
        MoveToCandidate();
      }
    }

    /**
      generate_parameter(x_start, force): the rejection loop. It takes draws
      from position from on, turns each into a candidate and stops at the
      first admissible one: inside the ranges and, when force is set,
      different from x_start in every element.
     */
    method GenerateParameter(xStart: seq<real>, force: bool, draws: seq<seq<real>>, from: nat)
      returns (found: bool, xNew: seq<real>, next: nat)
      requires Dimensions() && |temp| == D
      requires |xStart| == D && from <= |draws| && DrawsFit(draws)
      ensures from <= next <= |draws|
      ensures found ==> from < next && xNew == Candidate(ops, temp, xStart, draws[next - 1])
      ensures found ==> Within(xNew, rangeMin, rangeMax) && (force ==> AllChanged(xNew, xStart))
      ensures found ==> forall j :: from <= j < next - 1 ==>
        !Admissible(Candidate(ops, temp, xStart, draws[j]), xStart, rangeMin, rangeMax, force)
      ensures !found ==> next == |draws| && forall j :: from <= j < |draws| ==>
        !Admissible(Candidate(ops, temp, xStart, draws[j]), xStart, rangeMin, rangeMax, force)
    {
      xNew := [];
      next := from;
      var generated := false;
      while !generated && next < |draws|
        invariant from <= next <= |draws|
        invariant generated ==> from < next && xNew == Candidate(ops, temp, xStart, draws[next - 1])
        invariant generated ==> Admissible(xNew, xStart, rangeMin, rangeMax, force)
        invariant forall j :: from <= j < (if generated then next - 1 else next) ==>
          !Admissible(Candidate(ops, temp, xStart, draws[j]), xStart, rangeMin, rangeMax, force)
        decreases |draws| - next, if generated then 0 else 1
      {
        var u := draws[next];
        var y := GeneratingStep(ops, temp, u);
        xNew := ElementwiseSum(xStart, y);
        next := next + 1;
        if Within(xNew, rangeMin, rangeMax) {
          generated := true;
        }
        if force && HasZero(ElementwiseDifference(xNew, xStart)) {
          generated := false;
        }
      }
      found := generated;
    }

    /** generate_next(): the next candidate, generated from x without forcing a change. */
    method GenerateNext(draws: seq<seq<real>>, from: nat) returns (found: bool, next: nat)
      requires Dimensions() && PointsAdmitted() && |temp| == D
      requires from <= |draws| && DrawsFit(draws)
      modifies this`xCand
      ensures PointsAdmitted()
      ensures from <= next <= |draws|
      ensures found ==> from < next && xCand == Candidate(ops, temp, x, draws[next - 1])
      ensures found ==> Within(xCand, rangeMin, rangeMax)
      ensures found ==> forall j :: from <= j < next - 1 ==>
        !Admissible(Candidate(ops, temp, x, draws[j]), x, rangeMin, rangeMax, false)
      ensures !found ==> xCand == old(xCand) && next == |draws|
    {
      var xNew;
      found, xNew, next := GenerateParameter(x, false, draws, from);
      if found {
        xCand := xNew;
      }
    }

    /**
      reanneal_test(): unless fewer than reanneal_after_steps steps have passed
      and the acceptance ratio is still at least acc_gen_reanneal_ratio, resize
      x_set and f_x_set to partials_samples and fill x_set with samples around x
      that change every parameter.
     */
    method ReannealTest(draws: seq<seq<real>>, from: nat) returns (due: bool, found: bool, next: nat)
      requires Dimensions() && |x| == D && |temp| == D
      requires numImproved + numWorse > 0
      requires from <= |draws| && DrawsFit(draws)
      modifies this`xSet, this`fXSet
      ensures due == ReannealDue(kR, reannealAfterSteps, AcceptedVsGenerated(), accGenReannealRatio)
      ensures from <= next <= |draws|
      ensures !due ==> found && next == from && xSet == old(xSet) && fXSet == old(fXSet)
      ensures due && found ==> SetPending() && fXSet == Resized(old(fXSet), partialsSamples, 0.0)
      ensures due && !found ==> next == |draws|
    {
      if kR < reannealAfterSteps && AcceptedVsGenerated() >= accGenReannealRatio {
        return false, true, from;
      }
      due := true;
      xSet := Resized(xSet, partialsSamples, []);
      fXSet := Resized(fXSet, partialsSamples, 0.0);
      next := from;
      var ps := 0;
      while ps < partialsSamples
        invariant 0 <= ps <= partialsSamples
        invariant from <= next <= |draws|
        invariant |xSet| == partialsSamples && fXSet == Resized(old(fXSet), partialsSamples, 0.0)
        invariant forall i :: 0 <= i < ps ==> SampleOk(xSet[i], x)
      {
        var xNew;
        found, xNew, next := GenerateParameter(x, true, draws, next);
        if !found {
          return;
        }
        xSet := xSet[ps := xNew];
        ps := ps + 1;
      }
      found := true;
    }

    /** reset_stats(): the counters of the acceptance statistics and k_r return to zero. */
    method ResetStats()
      modifies this`numImproved, this`numWorse, this`numWorseAccepted, this`numAccepted, this`kR
      ensures numImproved == 0 && numWorse == 0 && numWorseAccepted == 0 && numAccepted == 0 && kR == 0
    {
      numImproved := 0;
      numWorse := 0;
      numWorseAccepted := 0;
      numAccepted := 0;
      kR := 0;
    }

    /** The first loop of complete_reanneal(): the sum of the difference quotients of the samples. */
    method SumPartials()
      requires |x| == D && SetPending()
      modifies this`partials
      ensures partials == PartialsSum(xSet, fXSet, x, fX, partialsSamples)
    {
      partials := Filled(D, 0.0);
      var i := 0;
      while i < partialsSamples
        invariant 0 <= i <= partialsSamples
        invariant SamplesChanged(xSet, x, i)
        invariant partials == PartialsSum(xSet, fXSet, x, fX, i)
      {
        var sample: seq<real> := xSet[i];
        assert SampleOk(sample, x);
        partials := ElementwiseSum(partials, DifferenceQuotient(sample, fXSet[i], x, fX));
        i := i + 1;
      }
    }

    /**
      The partials half of complete_reanneal(): the mean of the difference
      quotients of the samples. finite is false when there are no samples
      (0 / 0) or when one of the partials is NaN or infinite.
     */
    method EstimatePartials() returns (finite: bool)
      requires |x| == D && SetPending()
      modifies this`partials
      ensures |partials| == D
      ensures partialsSamples > 0 ==> partials == Partials(xSet, fXSet, x, fX, partialsSamples)
      ensures finite <==> partialsSamples > 0 && !AnyNonFinite(ops, partials)
    {
      SumPartials();
      if partialsSamples == 0 {
        return false;
      }
      partials := Divided(partials, partialsSamples as real);
      finite := !AnyNonFinite(ops, partials);
    }

    /** The acceptance statistics and k_r, as reset_stats() leaves them. */
    ghost predicate StatsReset()
      reads this`numImproved, this`numWorse, this`numWorseAccepted, this`numAccepted, this`kR
    {
      numImproved == 0 && numWorse == 0 && numWorseAccepted == 0 && numAccepted == 0 && kR == 0
    }

    /**
      The rescaling half of complete_reanneal(): the sensitivities s, and,
      when the rescaled temperatures are all positive, the new temperatures
      and the step count that matches them. ok is false only when that step
      count does not fit an unsigned int.
     */
    method Rescale() returns (ok: bool)
      requires Dimensions() && Initialised()
      modifies this`s, this`k, this`temp
      ensures s == Sensitivities(rdelta, partials) && Initialised()
      ensures RescaleOutcome(ops, s, temp0, c, old(temp), old(k), temp, k, ok)
    {
      s := Sensitivities(rdelta, partials);
      var tempRe := RescaledTemperatures(ops, temp, s);
      ok := true;
      if Positive(tempRe) {
        var kRe := ReannealedStepCount(ops, temp0, tempRe, c);
        if kRe.None? {
          return false;
        }
        k := kRe.value;
        temp := tempRe;
      }
    }

    /**
      The second half of complete_reanneal(), once the partials are finite:
      when a partial is zero the sample objectives gave no slope and only the
      statistics are reset; otherwise the temperatures are rescaled and, when
      that succeeds, the statistics are reset.
     */
    method Adjust() returns (ok: bool)
      requires Dimensions() && Initialised()
      modifies this`s, this`k, this`temp,
               this`numImproved, this`numWorse, this`numWorseAccepted, this`numAccepted, this`kR
      ensures Initialised()
      ensures ok ==> numImproved == 0 && numWorse == 0 && numWorseAccepted == 0 && numAccepted == 0 && kR == 0
      ensures !ok ==>
        && numImproved == old(numImproved) && numWorse == old(numWorse) && numWorseAccepted == old(numWorseAccepted)
        && numAccepted == old(numAccepted) && kR == old(kR) && k == old(k) && temp == old(temp)
      ensures HasZero(partials) ==> ok && k == old(k) && temp == old(temp) && s == old(s)
      ensures !HasZero(partials) ==> s == Sensitivities(rdelta, partials) && RescaleOutcome(ops, s, temp0, c, old(temp), old(k), temp, k, ok)
    {
      if HasZero(partials) {
        ResetStats();
        return true;
      }
      ok := Rescale();
      if ok {
        ResetStats();
      }
    }

    /**
      complete_reanneal(): estimates the partials from the objectives of x_set,
      fails when one of them is NaN or infinite, keeps k and the temperatures
      when a partial is zero or when the rescaled temperatures are not all
      positive, otherwise moves to the rescaled temperatures and the step count
      that matches them; then resets the statistics.
     */
    method CompleteReanneal() returns (r: StepResult)
      requires Dimensions() && Initialised() && |x| == D && SetPending()
      modifies this`partials, this`s, this`k, this`temp,
               this`numImproved, this`numWorse, this`numWorseAccepted, this`numAccepted, this`kR
      ensures Initialised()
      ensures partialsSamples > 0 ==> partials == Partials(xSet, fXSet, x, fX, partialsSamples)
      ensures Reannealed(r)
      ensures r == Done && HasZero(partials) ==> s == old(s)
    {
      var finite := EstimatePartials();
      if !finite {
        return PartialsNotFinite;
      }
      var ok := Adjust();
      r := if ok then Done else KNotRepresentable;
    }

    /**
      The first half of an ordinary step: cooling_schedule() followed by
      acceptance_check(u). The temperatures are cooled by the step count and
      the number of accepted points before the check, exactly one more
      candidate has been counted, the best objective does not rise, and the
      history grows by at most the new x; the candidate is accepted or
      rejected against the cooled temp_cost with the outcome AcceptOutcome
      describes.
     */
    method CoolAndAccept(u: real)
      requires Dimensions() && Initialised() && PointsAdmitted() && CountersOrdered()
      modifies this`temp, this`tempCost,
               this`numImproved, this`numWorse, this`numWorseAccepted, this`numAccepted,
               this`x, this`fX, this`paramHist, this`fParamHist,
               this`fXBestRepeats, this`xBest, this`fXBest
      ensures Initialised() && PointsAdmitted() && CountersOrdered()
      ensures old(BestIsLowest()) ==> BestIsLowest()
      ensures fXBest <= old(fXBest)
      ensures paramHist == old(paramHist) || paramHist == old(paramHist) + [x]
      ensures numImproved + numWorse == old(numImproved) + old(numWorse) + 1
      ensures temp == CooledTemperatures(ops, temp0, c, k, D)
      ensures tempCost == CooledTemperatures(ops, tempCost0, cCost, old(numAccepted), D)
      ensures AcceptOutcome(AcceptanceProbability(ops, fXCand, old(fX), tempCost) > u, IsImprovement(downhill, fXCand, old(fX)),
                            xCand, fXCand, old(x), old(fX), old(xBest), old(fXBest), old(fXBestRepeats),
                            old(numAccepted), old(numWorseAccepted), old(paramHist), old(fParamHist),
                            x, fX, xBest, fXBest, fXBestRepeats, numAccepted, numWorseAccepted, paramHist, fParamHist)
    {
      CoolingSchedule();
      AcceptanceCheck(u);
    }

    /**
      The second half of an ordinary step: generate_next(), the increments
      of k and k_r, and reanneal_test(); the new x_cand lies in the ranges, and
      the state then asks for the sample set when a reanneal is due and for
      the objective of x_cand otherwise.
     */
    method ProposeNext(draws: seq<seq<real>>) returns (r: StepResult)
      requires Dimensions() && PointsAdmitted() && |temp| == D && numImproved + numWorse > 0
      requires DrawsFit(draws)
      modifies this`xCand, this`k, this`kR, this`xSet, this`fXSet, this`state
      ensures PointsAdmitted()
      ensures r == Done || r == DrawsExhausted
      ensures r == DrawsExhausted ==> state == old(state)
      ensures r == Done ==>
        && k == old(k) + 1 && kR == old(kR) + 1
        && Within(xCand, rangeMin, rangeMax)
        && (state == NeedToComputeSet <==> ReannealDue(kR, reannealAfterSteps, AcceptedVsGenerated(), accGenReannealRatio))
        && (state == NeedToComputeSet || state == NeedToCompute)
        && (state == NeedToComputeSet ==> SetPending())
    {
      var found, next := GenerateNext(draws, 0);
      if !found {
        return DrawsExhausted;
      }
      r := CountAndTest(draws, next);
    }

    /**
      After a candidate is found: the increments of k and k_r, then
      reanneal_test() and the state that follows from it.
     */
    method CountAndTest(draws: seq<seq<real>>, from: nat) returns (r: StepResult)
      requires Dimensions() && |x| == D && |temp| == D && numImproved + numWorse > 0
      requires from <= |draws| && DrawsFit(draws)
      modifies this`k, this`kR, this`xSet, this`fXSet, this`state
      ensures r == Done || r == DrawsExhausted
      ensures r == DrawsExhausted ==> state == old(state)
      ensures k == old(k) + 1 && kR == old(kR) + 1
      ensures r == Done ==>
        && (state == NeedToComputeSet <==> ReannealDue(kR, reannealAfterSteps, AcceptedVsGenerated(), accGenReannealRatio))
        && (state == NeedToComputeSet || state == NeedToCompute)
        && (state == NeedToComputeSet ==> SetPending())
    {
      CountStep();
      var due, found, next := ReannealTest(draws, from);
      if !found {
        return DrawsExhausted;
      }
      state := if due then NeedToComputeSet else NeedToCompute;
      r := Done;
    }

    /** The two increments of step(): k and k_r. */
    method CountStep()
      modifies this`k, this`kR
      ensures k == old(k) + 1 && kR == old(kR) + 1
    {
      k := k + 1;
      kR := kR + 1;
    }

    /**
      The start of step(): a pending reanneal is completed and the call is
      counted (Resumed).
     */
    method Resume() returns (r: StepResult)
      requires Valid() && state != NeedToInit
      modifies this`steps, this`state, this`partials, this`s, this`k, this`temp,
               this`numImproved, this`numWorse, this`numWorseAccepted, this`numAccepted, this`kR
      ensures Valid() && state != NeedToInit
      ensures steps == old(steps) + 1
      ensures Resumed(r)
      ensures old(state) == NeedToComputeSet && partialsSamples > 0 ==>
        partials == Partials(xSet, fXSet, x, fX, partialsSamples)
    {
      r := FinishPending();
      steps := steps + 1;
    }

    /**
      A pending reanneal is completed, after which the state is NeedToStep
      (Resumed); the partials are then the mean difference quotients.
     */
    method FinishPending() returns (r: StepResult)
      requires Dimensions() && Initialised() && |x| == D && PendingSetReady() && CountersOrdered()
      modifies this`state, this`partials, this`s, this`k, this`temp,
               this`numImproved, this`numWorse, this`numWorseAccepted, this`numAccepted, this`kR
      ensures Initialised() && CountersOrdered()
      ensures Resumed(r)
      ensures old(state) == NeedToComputeSet && partialsSamples > 0 ==>
        partials == Partials(xSet, fXSet, x, fX, partialsSamples)
    {
      if state == NeedToComputeSet {
        r := CompletePending();
      } else {
        r := Done;
      }
    }

    /** The pending reanneal of step(); on success the state becomes NeedToStep. */
    method CompletePending() returns (r: StepResult)
      requires Dimensions() && Initialised() && |x| == D && state == NeedToComputeSet && SetPending()
      requires CountersOrdered()
      modifies this`state, this`partials, this`s, this`k, this`temp,
               this`numImproved, this`numWorse, this`numWorseAccepted, this`numAccepted, this`kR
      ensures Initialised() && CountersOrdered()
      ensures Resumed(r)
      ensures partialsSamples > 0 ==> partials == Partials(xSet, fXSet, x, fX, partialsSamples)
    {
      r := CompleteReanneal();
      state := if r == Done then NeedToStep else NeedToComputeSet;
    }

    /**
      What complete_reanneal() leaves behind: k and the temperatures follow
      ReannealOutcome; on success the statistics are reset, and on failure
      they are kept too.
     */
    twostate predicate Reannealed(r: StepResult)
      reads this`k, this`kR, this`temp, this`numImproved, this`numWorse, this`numWorseAccepted, this`numAccepted,
            this`partials, this`partialsSamples, this`s, this`temp0, this`c
    {
      && ReannealOutcome(ops, rdelta, partials, partialsSamples, s, temp0, c, old(temp), old(k), temp, k, r)
      && (r == Done ==> StatsReset())
      && (r != Done ==> ScheduleKept())
    }

    /** The step counts, the generating temperatures and the statistics are as before. */
    twostate predicate ScheduleKept()
      reads this`k, this`kR, this`temp, this`numImproved, this`numWorse, this`numWorseAccepted, this`numAccepted
    {
      && k == old(k) && kR == old(kR) && temp == old(temp)
      && numImproved == old(numImproved) && numWorse == old(numWorse)
      && numWorseAccepted == old(numWorseAccepted) && numAccepted == old(numAccepted)
    }

    /**
      What the start of step() leaves behind. Without a pending reanneal the
      state, the step counts, the temperatures and the statistics are kept.
      With one, the pending reanneal is
      Reannealed, after which the state is NeedToStep on success, and the
      sample set stays pending on failure. The points and the history never
      move.
     */
    twostate predicate Resumed(r: StepResult)
      reads this`x, this`xCand, this`xBest, this`xSet, this`fXSet, this`fX, this`fXBest, this`fXBestRepeats,
            this`paramHist, this`fParamHist, this`k, this`kR, this`temp, this`tempCost,
            this`numImproved, this`numWorse, this`numWorseAccepted, this`numAccepted,
            this`state, this`partials, this`partialsSamples, this`s, this`temp0, this`c
    {
      && PointsUnmoved()
      && (old(state) != NeedToComputeSet ==> r == Done && state == old(state) && ScheduleKept())
      && (old(state) == NeedToComputeSet ==>
            Reannealed(r) && state == (if r == Done then NeedToStep else NeedToComputeSet))
    }

    /**
      The rest of step(): stop once the best objective has repeated
      f_x_best_repeat_max times, and otherwise cool, run acceptance_check(),
      generate the next candidate, advance k and k_r and ask for a sample set
      exactly when a reanneal is due. It runs only when no reanneal is
      pending: after one that failed, step() ends.
     */
    method StopOrAdvance(u: real, draws: seq<seq<real>>) returns (r: StepResult)
      requires Valid() && state != NeedToInit && state != NeedToComputeSet
      requires DrawsFit(draws)
      modifies this`state, this`temp, this`tempCost,
               this`numImproved, this`numWorse, this`numWorseAccepted, this`numAccepted,
               this`x, this`fX, this`paramHist, this`fParamHist,
               this`fXBestRepeats, this`xBest, this`fXBest,
               this`xCand, this`k, this`kR, this`xSet, this`fXSet
      ensures Valid()
      ensures old(BestIsLowest()) ==> BestIsLowest()
      ensures fXBest <= old(fXBest)
      ensures paramHist == old(paramHist) || paramHist == old(paramHist) + [x]
      ensures r == Done || r == DrawsExhausted
      ensures old(StopCheck()) ==> r == Done && state == ReadyToStop && Unmoved()
      ensures !old(StopCheck()) ==> Advanced(u, r)
    {
      if StopCheck() {
        state := ReadyToStop;
        return Done;
      }
      r := Advance(u, draws);
    }

    /**
      The part of step() past the stop test: cooling and acceptance_check(),
      then the next candidate and the reanneal test.
     */
    method Advance(u: real, draws: seq<seq<real>>) returns (r: StepResult)
      requires Dimensions() && Initialised() && PointsAdmitted() && CountersOrdered()
      requires state != NeedToInit && state != Unknown && state != NeedToComputeSet
      requires DrawsFit(draws)
      modifies this`state, this`temp, this`tempCost,
               this`numImproved, this`numWorse, this`numWorseAccepted, this`numAccepted,
               this`x, this`fX, this`paramHist, this`fParamHist,
               this`fXBestRepeats, this`xBest, this`fXBest,
               this`xCand, this`k, this`kR, this`xSet, this`fXSet
      ensures Initialised() && PointsAdmitted() && CountersOrdered() && PendingSetReady()
      ensures state != NeedToInit && state != Unknown
      ensures old(BestIsLowest()) ==> BestIsLowest()
      ensures fXBest <= old(fXBest)
      ensures paramHist == old(paramHist) || paramHist == old(paramHist) + [x]
      ensures Advanced(u, r)
    {
      CoolAndAccept(u);
      r := ProposeNext(draws);
    }

    /**
      One pass of cooling, acceptance, generation and the reanneal test:
      exactly one candidate has been counted, the temperatures are cooled by
      the step count and the number of accepted points from before the pass,
      and, unless the draws ran out, k and k_r are one higher, the new x_cand
      lies in the ranges and the state asks for the sample set exactly when a
      reanneal is due and for the objective of x_cand otherwise.
     */
    twostate predicate Advanced(u: real, r: StepResult)
      reads this`numImproved, this`numWorse, this`numAccepted, this`k, this`kR, this`temp, this`tempCost,
            this`temp0, this`c, this`tempCost0, this`cCost, this`state, this`xCand,
            this`reannealAfterSteps, this`accGenReannealRatio,
            this`x, this`fX, this`xBest, this`fXBest, this`fXBestRepeats, this`numWorseAccepted,
            this`paramHist, this`fParamHist, this`fXCand, this`downhill
    {
      && (r == Done || r == DrawsExhausted)
      && numImproved + numWorse == old(numImproved) + old(numWorse) + 1
      && |c| == |temp0| && |cCost| == |tempCost0| && D > 0
      && temp == CooledTemperatures(ops, temp0, c, old(k), D)
      && tempCost == CooledTemperatures(ops, tempCost0, cCost, old(numAccepted), D)
      && |tempCost| > 0
      && AcceptOutcome(AcceptanceProbability(ops, fXCand, old(fX), tempCost) > u, IsImprovement(downhill, fXCand, old(fX)),
                       old(xCand), fXCand, old(x), old(fX), old(xBest), old(fXBest), old(fXBestRepeats),
                       old(numAccepted), old(numWorseAccepted), old(paramHist), old(fParamHist),
                       x, fX, xBest, fXBest, fXBestRepeats, numAccepted, numWorseAccepted, paramHist, fParamHist)
      && (r == DrawsExhausted ==> state == old(state))
      && (r == Done ==>
            && k == old(k) + 1 && kR == old(kR) + 1
            && Within(xCand, rangeMin, rangeMax)
            && (state == NeedToComputeSet || state == NeedToCompute)
            && (state == NeedToComputeSet <==>
                  ReannealDue(kR, reannealAfterSteps, AcceptedVsGenerated(), accGenReannealRatio)))
    }

    /**
      The points, the objectives, the history, the sample set and the
      acceptance temperatures are as before.
     */
    twostate predicate PointsUnmoved()
      reads this`x, this`xCand, this`xBest, this`xSet, this`fXSet, this`fX, this`fXBest, this`fXBestRepeats,
            this`paramHist, this`fParamHist, this`tempCost
    {
      && x == old(x) && xCand == old(xCand) && xBest == old(xBest) && xSet == old(xSet) && fXSet == old(fXSet)
      && fX == old(fX) && fXBest == old(fXBest) && fXBestRepeats == old(fXBestRepeats)
      && paramHist == old(paramHist) && fParamHist == old(fParamHist) && tempCost == old(tempCost)
    }

    /**
      The points, the objectives, the history, the step counts, the
      temperatures and the statistics are as before; the partials and the
      sensitivities are not covered.
     */
    twostate predicate Unmoved()
      reads this`x, this`xCand, this`xBest, this`xSet, this`fXSet, this`fX, this`fXBest, this`fXBestRepeats,
            this`paramHist, this`fParamHist, this`k, this`kR, this`temp, this`tempCost,
            this`numImproved, this`numWorse, this`numWorseAccepted, this`numAccepted
    {
      PointsUnmoved() && ScheduleKept()
    }

    /**
      What step() does from any state but NeedToComputeSet, given its outcome
      r. Once the best objective has repeated f_x_best_repeat_max times the
      state is ReadyToStop and the rest is Unmoved. Otherwise exactly one more
      candidate has been counted, k and k_r are one higher, the temperatures
      are cooled by the old k and the acceptance temperatures by the old number
      of accepted points, acceptance_check() has had its AcceptOutcome, x_cand
      lies in the ranges and the state asks for the sample set exactly when a
      reanneal is due.
     */
    twostate predicate SteppedFromCompute(u: real, r: StepResult)
      requires old(Valid())
      reads this
    {
      && (r == Done || r == DrawsExhausted)
      && (r == Done && old(StopCheck()) ==> state == ReadyToStop && Unmoved())
      && (r == Done && !old(StopCheck()) ==>
            && k == old(k) + 1 && kR == old(kR) + 1
            && numImproved + numWorse == old(numImproved) + old(numWorse) + 1
            && |c| == |temp0| && temp == CooledTemperatures(ops, temp0, c, old(k), D)
            && |cCost| == |tempCost0| && |tempCost| > 0
            && tempCost == CooledTemperatures(ops, tempCost0, cCost, old(numAccepted), D)
            && AcceptOutcome(AcceptanceProbability(ops, fXCand, old(fX), tempCost) > u, IsImprovement(downhill, fXCand, old(fX)),
                             old(xCand), fXCand, old(x), old(fX), old(xBest), old(fXBest), old(fXBestRepeats),
                             old(numAccepted), old(numWorseAccepted), old(paramHist), old(fParamHist),
                             x, fX, xBest, fXBest, fXBestRepeats, numAccepted, numWorseAccepted, paramHist, fParamHist)
            && Within(xCand, rangeMin, rangeMax)
            && (state == NeedToComputeSet || state == NeedToCompute)
            && (state == NeedToComputeSet <==> ReannealDue(kR, reannealAfterSteps, AcceptedVsGenerated(), accGenReannealRatio)))
    }

    /**
      What step() does from NeedToComputeSet, given its outcome r and the step
      count kMid and temperatures tempMid the pending reanneal leaves, which
      follow ReannealOutcome. A failed reanneal leaves everything but the call
      count and the estimates as it was. Once the best objective has repeated
      f_x_best_repeat_max times the state is ReadyToStop with the statistics
      reset and the points unmoved. Otherwise the pass after the reanneal
      starts from reset statistics: one candidate counted, k one past kMid,
      k_r equal to 1, the temperatures cooled by kMid and the acceptance
      temperatures by 0, acceptance_check() with its AcceptOutcome, x_cand in
      the ranges and the state following the reanneal decision.
     */
    twostate predicate SteppedFromComputeSet(u: real, r: StepResult, kMid: nat, tempMid: seq<real>)
      requires old(Valid())
      reads this
    {
      && ReannealOutcome(ops, rdelta, partials, partialsSamples, s, temp0, c, old(temp), old(k), tempMid, kMid,
                         if r == DrawsExhausted then Done else r)
      && (r == PartialsNotFinite || r == KNotRepresentable ==> state == NeedToComputeSet && Unmoved())
      && (r == Done && old(StopCheck()) ==>
            state == ReadyToStop && k == kMid && temp == tempMid && PointsUnmoved() && StatsReset())
      && (r == Done && !old(StopCheck()) ==>
            && k == kMid + 1 && kR == 1 && numImproved + numWorse == 1
            && |c| == |temp0| && temp == CooledTemperatures(ops, temp0, c, kMid, D)
            && |cCost| == |tempCost0| && |tempCost| > 0
            && tempCost == CooledTemperatures(ops, tempCost0, cCost, 0, D)
            && AcceptOutcome(AcceptanceProbability(ops, fXCand, old(fX), tempCost) > u, IsImprovement(downhill, fXCand, old(fX)),
                             old(xCand), fXCand, old(x), old(fX), old(xBest), old(fXBest), old(fXBestRepeats),
                             0, 0, old(paramHist), old(fParamHist),
                             x, fX, xBest, fXBest, fXBestRepeats, numAccepted, numWorseAccepted, paramHist, fParamHist)
            && Within(xCand, rangeMin, rangeMax)
            && (state == NeedToComputeSet || state == NeedToCompute)
            && (state == NeedToComputeSet <==> ReannealDue(kR, reannealAfterSteps, AcceptedVsGenerated(), accGenReannealRatio)))
    }

    /**
      What step() does to the state, given its outcome r and the step count
      kMid and temperatures tempMid left by the pending reanneal, if any:
      without a pending reanneal those are the old ones.
     */
    twostate predicate Stepped(u: real, r: StepResult, kMid: nat, tempMid: seq<real>)
      requires old(Valid())
      reads this
    {
      && (old(state) != NeedToComputeSet ==> kMid == old(k) && tempMid == old(temp) && SteppedFromCompute(u, r))
      && (old(state) == NeedToComputeSet ==> SteppedFromComputeSet(u, r, kMid, tempMid))
    }

    /** step() with no reanneal pending: the call is counted, then the stop test or a pass. */
    method StepFromCompute(u: real, draws: seq<seq<real>>) returns (r: StepResult)
      requires Valid() && state != NeedToInit && state != NeedToComputeSet && DrawsFit(draws)
      modifies this`steps, this`state, this`partials, this`s, this`k, this`kR, this`temp, this`tempCost,
               this`numImproved, this`numWorse, this`numWorseAccepted, this`numAccepted,
               this`x, this`fX, this`paramHist, this`fParamHist, this`fXBestRepeats, this`xBest, this`fXBest,
               this`xCand, this`xSet, this`fXSet
      ensures Valid()
      ensures old(BestIsLowest()) ==> BestIsLowest()
      ensures steps == old(steps) + 1
      ensures fXBest <= old(fXBest)
      ensures paramHist == old(paramHist) || paramHist == old(paramHist) + [x]
      ensures SteppedFromCompute(u, r)
    {
      r := Resume();
      r := StopOrAdvance(u, draws);
    }

    /**
      step() with a reanneal pending: the call is counted and the reanneal
      completed; when it succeeds, the stop test or a pass follows.
     */
    method StepFromComputeSet(u: real, draws: seq<seq<real>>) returns (r: StepResult, ghost kMid: nat, ghost tempMid: seq<real>)
      requires Valid() && state == NeedToComputeSet && DrawsFit(draws)
      modifies this`steps, this`state, this`partials, this`s, this`k, this`kR, this`temp, this`tempCost,
               this`numImproved, this`numWorse, this`numWorseAccepted, this`numAccepted,
               this`x, this`fX, this`paramHist, this`fParamHist, this`fXBestRepeats, this`xBest, this`fXBest,
               this`xCand, this`xSet, this`fXSet
      ensures Valid()
      ensures old(BestIsLowest()) ==> BestIsLowest()
      ensures steps == old(steps) + 1
      ensures fXBest <= old(fXBest)
      ensures paramHist == old(paramHist) || paramHist == old(paramHist) + [x]
      ensures SteppedFromComputeSet(u, r, kMid, tempMid)
      ensures partialsSamples > 0 ==> partials == Partials(old(xSet), old(fXSet), old(x), old(fX), partialsSamples)
    {
      r := Resume();
      kMid, tempMid := k, temp;
      if r != Done {
        return;
      }
      r := StopOrAdvance(u, draws);
    }

    /**
      step(): counts the call, finishes a pending reanneal, stops once the best
      objective has repeated f_x_best_repeat_max times, and otherwise cools,
      runs acceptance_check(), generates the next candidate, advances k and
      k_r and asks for a sample set exactly when a reanneal is due.
      kMid and tempMid are the step count and the temperatures after the
      pending reanneal, if any, and before cooling.
     */
    method Step(u: real, draws: seq<seq<real>>) returns (r: StepResult, ghost kMid: nat, ghost tempMid: seq<real>)
      requires Valid() && state != NeedToInit && DrawsFit(draws)
      modifies this`steps, this`state, this`partials, this`s, this`k, this`kR, this`temp, this`tempCost,
               this`numImproved, this`numWorse, this`numWorseAccepted, this`numAccepted,
               this`x, this`fX, this`paramHist, this`fParamHist, this`fXBestRepeats, this`xBest, this`fXBest,
               this`xCand, this`xSet, this`fXSet
      ensures Valid()
      ensures old(BestIsLowest()) ==> BestIsLowest()
      ensures steps == old(steps) + 1
      ensures fXBest <= old(fXBest)
      ensures paramHist == old(paramHist) || paramHist == old(paramHist) + [x]
      ensures Stepped(u, r, kMid, tempMid)
      ensures old(state) == NeedToComputeSet && partialsSamples > 0 ==>
        partials == Partials(old(xSet), old(fXSet), old(x), old(fX), partialsSamples)
    {
      if state == NeedToComputeSet {
        r, kMid, tempMid := StepFromComputeSet(u, draws);
      } else {
        kMid, tempMid := k, temp;
        r := StepFromCompute(u, draws);
      }
    }
  }
}
