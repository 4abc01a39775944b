/** The business facts pricing and costing read. (apps/api/src/quotes/quote-operational-cost-source.ts) */
module QuoteFacts {
  import opened Prelude
  import opened PostEventCleaning

  datatype Service =
    | RegularHome | DeepCleaning | MoveIn | MoveOut
    | BathroomSanitisation | BedroomCleaning | LivingAreaCleaning
    | PostRenovation | KitchenCleaning | InteriorWindows | PostEventService
    | OtherService(name: string)

  /** Room counts as the contract spells them. */
  datatype Count = Studio | CountOne | CountTwo | CountThree | CountFour | FourPlus | FivePlus | OtherCount

  datatype LaundryFacilities = WasherDryer | WasherLine | NoWasher

  datatype LaundryFacts = LaundryFacts(
    facilities: Option<LaundryFacilities>, laundryLoads: Option<int>, ironingLoads: Option<int>)

  datatype AddOnService = PetHair | InsideOven | GarageSweeping | ExtraBathroom | OtherAddOn(name: string)

  datatype AddOn = AddOn(service: AddOnService, quantity: Option<int>)

  datatype OvenSize = StandardSingle | LargeDouble
  datatype GarageSize = SingleGarage | DoubleGarage | LargerMultiCar
  datatype BathroomType = StandardBathroom | LargeMaster

  /** What an Admin supplies about one add-on. */
  datatype ReviewDetail = ReviewDetail(
    ovenSize: Option<OvenSize>, severeBakedOnGrease: Option<bool>, garageSize: Option<GarageSize>,
    bathroomType: Option<BathroomType>)

  datatype Submission = Submission(
    service: Option<Service>, floorSize: FloorSize, bathrooms: Count, bedrooms: Count, livingAreas: Count,
    postEvent: Option<Facts>, addOns: seq<AddOn>, ecoFriendlyProducts: bool,
    laundry: Option<LaundryFacts>, websiteContractV2: bool, oneTime: bool,
    adminReview: map<nat, ReviewDetail>)

  /** COUNT_VALUE; anything else has no value. */
  function CountValue(count: Count): Option<nat> {
    match count
    case Studio => Some(1) case CountOne => Some(1) case CountTwo => Some(2) case CountThree => Some(3)
    case CountFour => Some(4) case FourPlus => Some(4) case FivePlus => Some(5) case OtherCount => None
  }

  predicate IsFloorPriced(service: Service) {
    service.RegularHome? || service.DeepCleaning? || service.MoveIn? || service.MoveOut?
  }
}
