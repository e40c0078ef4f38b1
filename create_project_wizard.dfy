/** components/CreateProjectWizard.tsx: the three-step project wizard. Step 1
    chooses a crop, step 2 sets the field parameters and asks the estimate
    service for the plan, step 3 shows the summary and saves the project. */
module CreateProjectWizard {
  import opened Wrappers
  import opened Types
  import Constants
  import ProjectDetails

  const MISSING_INFORMATION := "Veuillez compléter toutes les informations requises."

  /** The arguments of the call to the estimate service. */
  datatype EstimateRequest = EstimateRequest(cropName: string, fieldSize: real, soilType: SoilType, irrigationSystem: IrrigationSystem)

  class Wizard {
    var step: int
    var selectedCrop: Option<Crop>
    var fieldSize: real
    var soilType: SoilType
    var irrigationSystem: IrrigationSystem
    var loading: bool
    var error: Option<string>
    var calculatedData: Option<CalculatedData>

    /** Steps 1 to 3; from step 2 on a crop is chosen; step 3 has an
        estimate; a calculation in flight has a crop. */
    predicate Valid()
      reads this
    {
      && 1 <= step <= 3
      && (step >= 2 ==> selectedCrop.Some?)
      && (step == 3 ==> calculatedData.Some?)
      && (loading ==> selectedCrop.Some?)
    }

    /** Step 1, no crop, one hectare, the first soil type and irrigation
        system, nothing loading, no error, no estimate. */
    constructor ()
      ensures Valid()
      ensures step == 1 && selectedCrop == None && fieldSize == 1.0
      ensures soilType == Constants.SOIL_TYPES[0] && irrigationSystem == Constants.IRRIGATION_SYSTEMS[0]
      ensures !loading && error == None && calculatedData == None
    {
      step := 1;
      selectedCrop := None;
      fieldSize := 1.0;
      soilType := Constants.SOIL_TYPES[0];
      irrigationSystem := Constants.IRRIGATION_SYSTEMS[0];
      loading := false;
      error := None;
      calculatedData := None;
    }

    /** `handleSelectCrop`: records the crop and moves to step 2. */
    method SelectCrop(crop: Crop)
      requires Valid()
      modifies this
      ensures Valid()
      ensures selectedCrop == Some(crop) && step == 2
      ensures fieldSize == old(fieldSize) && soilType == old(soilType) && irrigationSystem == old(irrigationSystem)
      ensures loading == old(loading) && error == old(error) && calculatedData == old(calculatedData)
    {
      selectedCrop := Some(crop);
      step := 2;
    }

    /** The field-size input. */
    method SetFieldSize(size: real)
      requires Valid()
      modifies this
      ensures Valid()
      ensures fieldSize == size
      ensures step == old(step) && selectedCrop == old(selectedCrop) && soilType == old(soilType)
      ensures irrigationSystem == old(irrigationSystem) && loading == old(loading)
      ensures error == old(error) && calculatedData == old(calculatedData)
    {
      fieldSize := size;
    }

    /** The soil-type select. */
    method SetSoilType(s: SoilType)
      requires Valid()
      modifies this
      ensures Valid()
      ensures soilType == s
      ensures step == old(step) && selectedCrop == old(selectedCrop) && fieldSize == old(fieldSize)
      ensures irrigationSystem == old(irrigationSystem) && loading == old(loading)
      ensures error == old(error) && calculatedData == old(calculatedData)
    {
      soilType := s;
    }

    /** The irrigation-system select. */
    method SetIrrigationSystem(i: IrrigationSystem)
      requires Valid()
      modifies this
      ensures Valid()
      ensures irrigationSystem == i
      ensures step == old(step) && selectedCrop == old(selectedCrop) && fieldSize == old(fieldSize)
      ensures soilType == old(soilType) && loading == old(loading)
      ensures error == old(error) && calculatedData == old(calculatedData)
    {
      irrigationSystem := i;
    }

    /** The synchronous part of `handleCalculate`: without a crop or with a
        size that is not positive it sets the error and asks nothing;
        otherwise it starts loading, clears the error and returns the
        service call it makes. */
    method BeginCalculate() returns (request: Option<EstimateRequest>)
      requires Valid()
      modifies this
      ensures Valid()
      ensures selectedCrop == old(selectedCrop) && fieldSize == old(fieldSize)
      ensures soilType == old(soilType) && irrigationSystem == old(irrigationSystem)
      ensures request.Some? <==> selectedCrop.Some? && fieldSize > 0.0
      ensures request.None? ==>
                && error == Some(MISSING_INFORMATION) && loading == old(loading)
                && step == old(step) && calculatedData == old(calculatedData)
      ensures request.Some? ==>
                && request.value == EstimateRequest(selectedCrop.value.name, fieldSize, soilType, irrigationSystem)
                && loading && error == None && step == old(step) && calculatedData == old(calculatedData)
    {
      if selectedCrop.None? || fieldSize <= 0.0 {
        error := Some(MISSING_INFORMATION);
        return None;
      }
      loading := true;
      error := None;
      request := Some(EstimateRequest(selectedCrop.value.name, fieldSize, soilType, irrigationSystem));
    }

    /** The rest of `handleCalculate`, once the service answered: an
        estimate is stored and shown on step 3 (the error stays the one the
        start cleared); a failure leaves its message
        as the error and the step as it was; either way loading ends. */
    method CompleteCalculate(outcome: Result<CalculatedData, string>)
      requires Valid() && loading
      modifies this
      ensures Valid()
      ensures !loading
      ensures outcome.Success? ==> calculatedData == Some(outcome.value) && step == 3 && error == old(error)
      ensures outcome.Failure? ==>
                calculatedData == old(calculatedData) && step == old(step) && error == Some(outcome.error)
      ensures selectedCrop == old(selectedCrop) && fieldSize == old(fieldSize)
      ensures soilType == old(soilType) && irrigationSystem == old(irrigationSystem)
    {
      match outcome {
        case Success(data) =>
          calculatedData := Some(data);
          step := 3;
        case Failure(message) =>
          error := Some(message);
      }
      loading := false;
    }

    /** `handleSaveProject`: nothing without a crop and an estimate;
        otherwise the project as the form describes it. */
    method Save() returns (draft: Option<ProjectDraft>)
      requires Valid()
      ensures draft.Some? <==> selectedCrop.Some? && calculatedData.Some?
      ensures draft.Some? ==>
                draft.value == ProjectDraft(selectedCrop.value.name, fieldSize, calculatedData.value, soilType, irrigationSystem)
      ensures step == 3 ==> draft.Some?
    {
      if selectedCrop.None? || calculatedData.None? {
        return None;
      }
      draft := Some(ProjectDraft(selectedCrop.value.name, fieldSize, calculatedData.value, soilType, irrigationSystem));
    }

    /** The back button of step 2 returns to the crop choice. */
    method BackToCropChoice()
      requires Valid() && step == 2
      modifies this
      ensures Valid()
      ensures step == 1
      ensures selectedCrop == old(selectedCrop) && fieldSize == old(fieldSize) && soilType == old(soilType)
      ensures irrigationSystem == old(irrigationSystem) && loading == old(loading)
      ensures error == old(error) && calculatedData == old(calculatedData)
    {
      step := 1;
    }

    /** The back button of step 3 returns to the parameters. */
    method BackToParameters()
      requires Valid() && step == 3
      modifies this
      ensures Valid()
      ensures step == 2
      ensures selectedCrop == old(selectedCrop) && fieldSize == old(fieldSize) && soilType == old(soilType)
      ensures irrigationSystem == old(irrigationSystem) && loading == old(loading)
      ensures error == old(error) && calculatedData == old(calculatedData)
    {
      step := 2;
    }

    /** The total yield step 3 announces, the same figure the project's
        overview shows; step 3 renders nothing without an estimate and a
        crop, which a valid wizard on step 3 always has. */
    function SummaryYield(): (r: Option<real>)
      reads this
      requires Valid()
      ensures r.Some? <==> calculatedData.Some? && selectedCrop.Some?
      ensures step == 3 ==> r.Some?
      ensures r.Some? ==> r.value == ProjectDetails.TotalYieldTonnes(calculatedData.value, fieldSize)
    {
      if calculatedData.None? || selectedCrop.None? then None
      else Some(ProjectDetails.TotalYieldTonnes(calculatedData.value, fieldSize))
    }
  }

  /** A whole run of the wizard: choose a crop, calculate with a positive
      size, get an estimate and save; the saved project carries exactly the
      choices made and the estimate received. */
  method HappyPath(crop: Crop, size: real, data: CalculatedData) returns (draft: Option<ProjectDraft>)
    requires size > 0.0
    ensures draft == Some(ProjectDraft(crop.name, size, data, Constants.SOIL_TYPES[0], Constants.IRRIGATION_SYSTEMS[0]))
  {
    var w := new Wizard();
    w.SelectCrop(crop);
    w.SetFieldSize(size);
    var request := w.BeginCalculate();
    w.CompleteCalculate(Success(data));
    draft := w.Save();
  }

  /** Calculating before any crop is chosen only shows the message. */
  method CalculateWithoutCrop() returns (error: Option<string>, step: int, asked: bool)
    ensures error == Some(MISSING_INFORMATION) && step == 1 && !asked
  {
    var w := new Wizard();
    var request := w.BeginCalculate();
    error, step, asked := w.error, w.step, request.Some?;
  }
}
