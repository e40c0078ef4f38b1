/** The records of types.ts. Coordinates, rates and sizes are reals; day
    counts are integers. */
module Types {

  /** A scheduled activity; `startDay` and `endDay` are offsets from the
      project's creation day. */
  datatype Task = Task(task: string, startDay: int, endDay: int, description: string)

  /** The estimate bundle returned by the generative-AI service. */
  datatype CalculatedData = CalculatedData(
    estimatedGrowthTimeDays: int,
    estimatedYieldPerHectareKg: real,
    waterNeedsLiterPerHectarePerDay: real,
    laborNeedsHoursPerHectare: real,
    taskCalendar: seq<Task>,
    estimatedPlantsPerHectare: real,
    estimatedBags: int)

  datatype SoilType = Argileux | Limoneux | Sableux | Fertile

  datatype IrrigationSystem = GoutteAGoutte | Aspersion | Manuel | Aucun

  /** The icon components a crop can carry. */
  datatype CropIcon = ManiocIcon | MaisIcon | IgnamesIcon | RizIcon | CacaoIcon

  datatype Crop = Crop(name: string, icon: CropIcon)

  datatype Project = Project(
    id: string,
    cropName: string,
    fieldSizeHectares: real,
    creationDate: string,
    calculatedData: CalculatedData,
    soilType: SoilType,
    irrigationSystem: IrrigationSystem)

  /** A project as the wizard emits it, before the app stamps it with an id
      and a creation date. */
  datatype ProjectDraft = ProjectDraft(
    cropName: string,
    fieldSizeHectares: real,
    calculatedData: CalculatedData,
    soilType: SoilType,
    irrigationSystem: IrrigationSystem)

  datatype Condition = Sunny | Cloudy | Rainy | PartlyCloudy

  datatype DailyForecast = DailyForecast(
    date: string,
    day: string,
    temp_max: real,
    temp_min: real,
    precipitation_chance: real,
    condition: Condition)

  /** A user-drawn rectangle in percentage-of-container units. */
  datatype Zone = Zone(
    id: string,
    name: string,
    x: real,
    y: real,
    width: real,
    height: real,
    color: string,
    borderColor: string)
}
