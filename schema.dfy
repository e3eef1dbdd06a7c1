/**
 * Columns of the `funda` table and of the flat rows the pipeline produces.
 *
 * Each row key of the source is a string; here it is a constructor of
 * `Column`, named after the string (see `ColumnName`). The constructors are
 * declared in the order in which a parsed row first writes its keys.
 */
module Schema {
  import opened Base
  import opened Dicts

  datatype Column =
    | ListingId
    | AgentId
    | AgentUrl
    | AgentName
    | AgentAssociation
    | AddressCountry
    | AddressProvince
    | AddressCity
    | AddressNeighbourhood
    | AddressMunicipality
    | AddressHouseNumber
    | AddressHouseNumberSuffix
    | AddressPostalCode
    | AddressStreetName
    | NumberOfBedrooms
    | NumberOfRooms
    | ObjectType
    | EnergyLabel
    | FloorArea
    | PlotArea
    | PublishDate
    | UrlPath
    | Status
    | Price
    | PriceType
    | PriceCondition
    | PlacementType
    | Availability
    | Amenities
    | ConstructionDateRange
    | ConstructionPeriod
    | ConstructionType
    | OfferingType
    | Project
    | SaleDateRange
    | SelectedArea
    | Description
    | DescriptionTags
    | Zoning
    | Surrounding
    | ExteriorSpaceGardenSize
    | ExteriorSpaceType
    | ExteriorSpaceGardenOrientation
    | GarageCapacity
    | GarageType
    | NeighbourhoodInhabitants
    | NeighbourhoodAvgAskingpriceM2
    | NeighbourhoodFamiliesWithChildrenPct
    | ListingNrOfViews
    | ListingNrOfSaves
    | SearchQuery
    | Id
    | HandoverDateRange
    | ProcessingTime
    | RunId

  /** The column name used in the source and in SQL. */
  function ColumnName(c: Column): string {
    match c
    case ListingId => "listing_id"
    case AgentId => "agent_id"
    case AgentUrl => "agent_url"
    case AgentName => "agent_name"
    case AgentAssociation => "agent_association"
    case AddressCountry => "address_country"
    case AddressProvince => "address_province"
    case AddressCity => "address_city"
    case AddressNeighbourhood => "address_neighbourhood"
    case AddressMunicipality => "address_municipality"
    case AddressHouseNumber => "address_house_number"
    case AddressHouseNumberSuffix => "address_house_number_suffix"
    case AddressPostalCode => "address_postal_code"
    case AddressStreetName => "address_street_name"
    case NumberOfBedrooms => "number_of_bedrooms"
    case NumberOfRooms => "number_of_rooms"
    case ObjectType => "object_type"
    case EnergyLabel => "energy_label"
    case FloorArea => "floor_area"
    case PlotArea => "plot_area"
    case PublishDate => "publish_date"
    case UrlPath => "url_path"
    case Status => "status"
    case Price => "price"
    case PriceType => "price_type"
    case PriceCondition => "price_condition"
    case PlacementType => "placement_type"
    case Availability => "availability"
    case Amenities => "amenities"
    case ConstructionDateRange => "construction_date_range"
    case ConstructionPeriod => "construction_period"
    case ConstructionType => "construction_type"
    case OfferingType => "offering_type"
    case Project => "project"
    case SaleDateRange => "sale_date_range"
    case SelectedArea => "selected_area"
    case Description => "description"
    case DescriptionTags => "description_tags"
    case Zoning => "zoning"
    case Surrounding => "surrounding"
    case ExteriorSpaceGardenSize => "exterior_space_garden_size"
    case ExteriorSpaceType => "exterior_space_type"
    case ExteriorSpaceGardenOrientation => "exterior_space_garden_orientation"
    case GarageCapacity => "garage_capacity"
    case GarageType => "garage_type"
    case NeighbourhoodInhabitants => "neighbourhood_inhabitants"
    case NeighbourhoodAvgAskingpriceM2 => "neighbourhood_avg_askingprice_m2"
    case NeighbourhoodFamiliesWithChildrenPct => "neighbourhood_families_with_children_pct"
    case ListingNrOfViews => "listing_nr_of_views"
    case ListingNrOfSaves => "listing_nr_of_saves"
    case SearchQuery => "search_query"
    case Id => "id"
    case HandoverDateRange => "handover_date_range"
    case ProcessingTime => "_processing_time"
    case RunId => "_run_id"
  }

  /** Position of a column in a parsed row (declaration order). */
  function Ord(c: Column): nat {
    match c
    case ListingId => 0
    case AgentId => 1
    case AgentUrl => 2
    case AgentName => 3
    case AgentAssociation => 4
    case AddressCountry => 5
    case AddressProvince => 6
    case AddressCity => 7
    case AddressNeighbourhood => 8
    case AddressMunicipality => 9
    case AddressHouseNumber => 10
    case AddressHouseNumberSuffix => 11
    case AddressPostalCode => 12
    case AddressStreetName => 13
    case NumberOfBedrooms => 14
    case NumberOfRooms => 15
    case ObjectType => 16
    case EnergyLabel => 17
    case FloorArea => 18
    case PlotArea => 19
    case PublishDate => 20
    case UrlPath => 21
    case Status => 22
    case Price => 23
    case PriceType => 24
    case PriceCondition => 25
    case PlacementType => 26
    case Availability => 27
    case Amenities => 28
    case ConstructionDateRange => 29
    case ConstructionPeriod => 30
    case ConstructionType => 31
    case OfferingType => 32
    case Project => 33
    case SaleDateRange => 34
    case SelectedArea => 35
    case Description => 36
    case DescriptionTags => 37
    case Zoning => 38
    case Surrounding => 39
    case ExteriorSpaceGardenSize => 40
    case ExteriorSpaceType => 41
    case ExteriorSpaceGardenOrientation => 42
    case GarageCapacity => 43
    case GarageType => 44
    case NeighbourhoodInhabitants => 45
    case NeighbourhoodAvgAskingpriceM2 => 46
    case NeighbourhoodFamiliesWithChildrenPct => 47
    case ListingNrOfViews => 48
    case ListingNrOfSaves => 49
    case SearchQuery => 50
    case Id => 51
    case HandoverDateRange => 52
    case ProcessingTime => 53
    case RunId => 54
  }

  /** Position of a column in the table schema. */
  function SchemaPos(c: Column): (p: nat)
    ensures p < 55
  {
    match c
    case ListingId => 3
    case AgentId => 1
    case AgentUrl => 2
    case AgentName => 4
    case AgentAssociation => 5
    case AddressCountry => 6
    case AddressProvince => 7
    case AddressCity => 8
    case AddressNeighbourhood => 9
    case AddressMunicipality => 10
    case AddressHouseNumber => 11
    case AddressHouseNumberSuffix => 12
    case AddressPostalCode => 13
    case AddressStreetName => 14
    case NumberOfBedrooms => 15
    case NumberOfRooms => 16
    case ObjectType => 17
    case EnergyLabel => 18
    case FloorArea => 19
    case PlotArea => 20
    case PublishDate => 21
    case UrlPath => 22
    case Status => 23
    case Price => 24
    case PriceType => 25
    case PriceCondition => 26
    case PlacementType => 27
    case Availability => 28
    case Amenities => 29
    case ConstructionDateRange => 30
    case ConstructionPeriod => 31
    case ConstructionType => 32
    case OfferingType => 34
    case Project => 35
    case SaleDateRange => 36
    case SelectedArea => 37
    case Description => 38
    case DescriptionTags => 39
    case Zoning => 40
    case Surrounding => 41
    case ExteriorSpaceGardenSize => 42
    case ExteriorSpaceType => 43
    case ExteriorSpaceGardenOrientation => 44
    case GarageCapacity => 45
    case GarageType => 46
    case NeighbourhoodInhabitants => 47
    case NeighbourhoodAvgAskingpriceM2 => 48
    case NeighbourhoodFamiliesWithChildrenPct => 49
    case ListingNrOfViews => 51
    case ListingNrOfSaves => 50
    case SearchQuery => 52
    case Id => 0
    case HandoverDateRange => 33
    case ProcessingTime => 53
    case RunId => 54
  }

  /** Keys of the flattened listing: the listing id and the first agent. */
  function AgentColumns(): seq<Column> {
    [ListingId, AgentId, AgentUrl, AgentName, AgentAssociation]
  }

  /** Keys of the flattened listing: the address. */
  function AddressColumns(): seq<Column> {
    [AddressCountry, AddressProvince, AddressCity, AddressNeighbourhood, AddressMunicipality, AddressHouseNumber, AddressHouseNumberSuffix, AddressPostalCode, AddressStreetName]
  }

  /** Keys of the flattened listing: rooms, type, label and areas. */
  function FeatureColumns(): seq<Column> {
    [NumberOfBedrooms, NumberOfRooms, ObjectType, EnergyLabel, FloorArea, PlotArea]
  }

  /** Keys of the flattened listing: publication, price and availability. */
  function TermsColumns(): seq<Column> {
    [PublishDate, UrlPath, Status, Price, PriceType, PriceCondition, PlacementType, Availability]
  }

  /** Keys of the flattened listing: amenities, construction and offering. */
  function ConstructionColumns(): seq<Column> {
    [Amenities, ConstructionDateRange, ConstructionPeriod, ConstructionType, OfferingType, Project]
  }

  /** Keys of the flattened listing: sale dates, area, description and surroundings. */
  function SaleColumns(): seq<Column> {
    [SaleDateRange, SelectedArea, Description, DescriptionTags, Zoning, Surrounding]
  }

  /** Keys of the flattened listing: outdoor space and garage. */
  function ExteriorColumns(): seq<Column> {
    [ExteriorSpaceGardenSize, ExteriorSpaceType, ExteriorSpaceGardenOrientation, GarageCapacity, GarageType]
  }

  /** The keys the flattened listing literal writes, in order. */
  function ListingColumns(): seq<Column> {
    AgentColumns() + AddressColumns() + FeatureColumns() + TermsColumns()
      + ConstructionColumns() + SaleColumns() + ExteriorColumns()
  }

  /** The listing literal's keys chunk by chunk, as slices. */
  lemma ListingColumnsSlices()
    ensures |ListingColumns()| == 45
    ensures ListingColumns()[0..5] == AgentColumns()
    ensures ListingColumns()[5..14] == AddressColumns()
    ensures ListingColumns()[14..20] == FeatureColumns()
    ensures ListingColumns()[20..28] == TermsColumns()
    ensures ListingColumns()[28..34] == ConstructionColumns()
    ensures ListingColumns()[34..40] == SaleColumns()
    ensures ListingColumns()[40..45] == ExteriorColumns()
  {
    ConcatParts(AgentColumns(), AddressColumns(), FeatureColumns(), TermsColumns(),
      ConstructionColumns(), SaleColumns(), ExteriorColumns(), ListingColumns());
  }

  /** The elements of a slice are those of the sequence it is cut from. */
  lemma SliceElements<X>(v: seq<X>, lo: nat, hi: nat, w: seq<X>)
    requires lo <= hi <= |v| && v[lo..hi] == w
    ensures forall k :: lo <= k < hi ==> v[k] == w[k - lo]
  {
  }

  lemma AgentColumnsAt()
    ensures |ListingColumns()| == 45 && ListingColumns()[0] == ListingId
    ensures ListingColumns()[1] == AgentId
    ensures ListingColumns()[2] == AgentUrl
    ensures ListingColumns()[3] == AgentName
    ensures ListingColumns()[4] == AgentAssociation
  {
    ListingColumnsSlices();
    SliceElements(ListingColumns(), 0, 5, AgentColumns());
  }

  lemma AddressColumnsAt()
    ensures |ListingColumns()| == 45 && ListingColumns()[5] == AddressCountry
    ensures ListingColumns()[6] == AddressProvince
    ensures ListingColumns()[7] == AddressCity
    ensures ListingColumns()[8] == AddressNeighbourhood
    ensures ListingColumns()[9] == AddressMunicipality
    ensures ListingColumns()[10] == AddressHouseNumber
    ensures ListingColumns()[11] == AddressHouseNumberSuffix
    ensures ListingColumns()[12] == AddressPostalCode
    ensures ListingColumns()[13] == AddressStreetName
  {
    ListingColumnsSlices();
    SliceElements(ListingColumns(), 5, 14, AddressColumns());
  }

  lemma FeatureColumnsAt()
    ensures |ListingColumns()| == 45 && ListingColumns()[14] == NumberOfBedrooms
    ensures ListingColumns()[15] == NumberOfRooms
    ensures ListingColumns()[16] == ObjectType
    ensures ListingColumns()[17] == EnergyLabel
    ensures ListingColumns()[18] == FloorArea
    ensures ListingColumns()[19] == PlotArea
  {
    ListingColumnsSlices();
    SliceElements(ListingColumns(), 14, 20, FeatureColumns());
  }

  lemma TermsColumnsAt()
    ensures |ListingColumns()| == 45 && ListingColumns()[20] == PublishDate
    ensures ListingColumns()[21] == UrlPath
    ensures ListingColumns()[22] == Status
    ensures ListingColumns()[23] == Price
    ensures ListingColumns()[24] == PriceType
    ensures ListingColumns()[25] == PriceCondition
    ensures ListingColumns()[26] == PlacementType
    ensures ListingColumns()[27] == Availability
  {
    ListingColumnsSlices();
    SliceElements(ListingColumns(), 20, 28, TermsColumns());
  }

  lemma ConstructionColumnsAt()
    ensures |ListingColumns()| == 45 && ListingColumns()[28] == Amenities
    ensures ListingColumns()[29] == ConstructionDateRange
    ensures ListingColumns()[30] == ConstructionPeriod
    ensures ListingColumns()[31] == ConstructionType
    ensures ListingColumns()[32] == OfferingType
    ensures ListingColumns()[33] == Project
  {
    ListingColumnsSlices();
    SliceElements(ListingColumns(), 28, 34, ConstructionColumns());
  }

  lemma SaleColumnsAt()
    ensures |ListingColumns()| == 45 && ListingColumns()[34] == SaleDateRange
    ensures ListingColumns()[35] == SelectedArea
    ensures ListingColumns()[36] == Description
    ensures ListingColumns()[37] == DescriptionTags
    ensures ListingColumns()[38] == Zoning
    ensures ListingColumns()[39] == Surrounding
  {
    ListingColumnsSlices();
    SliceElements(ListingColumns(), 34, 40, SaleColumns());
  }

  lemma ExteriorColumnsAt()
    ensures |ListingColumns()| == 45 && ListingColumns()[40] == ExteriorSpaceGardenSize
    ensures ListingColumns()[41] == ExteriorSpaceType
    ensures ListingColumns()[42] == ExteriorSpaceGardenOrientation
    ensures ListingColumns()[43] == GarageCapacity
    ensures ListingColumns()[44] == GarageType
  {
    ListingColumnsSlices();
    SliceElements(ListingColumns(), 40, 45, ExteriorColumns());
  }

  /** The column the listing literal writes at each position. */
  lemma ListingColumnsAt()
    ensures |ListingColumns()| == 45
    ensures ListingColumns()[0] == ListingId
    ensures ListingColumns()[1] == AgentId
    ensures ListingColumns()[2] == AgentUrl
    ensures ListingColumns()[3] == AgentName
    ensures ListingColumns()[4] == AgentAssociation
    ensures ListingColumns()[5] == AddressCountry
    ensures ListingColumns()[6] == AddressProvince
    ensures ListingColumns()[7] == AddressCity
    ensures ListingColumns()[8] == AddressNeighbourhood
    ensures ListingColumns()[9] == AddressMunicipality
    ensures ListingColumns()[10] == AddressHouseNumber
    ensures ListingColumns()[11] == AddressHouseNumberSuffix
    ensures ListingColumns()[12] == AddressPostalCode
    ensures ListingColumns()[13] == AddressStreetName
    ensures ListingColumns()[14] == NumberOfBedrooms
    ensures ListingColumns()[15] == NumberOfRooms
    ensures ListingColumns()[16] == ObjectType
    ensures ListingColumns()[17] == EnergyLabel
    ensures ListingColumns()[18] == FloorArea
    ensures ListingColumns()[19] == PlotArea
    ensures ListingColumns()[20] == PublishDate
    ensures ListingColumns()[21] == UrlPath
    ensures ListingColumns()[22] == Status
    ensures ListingColumns()[23] == Price
    ensures ListingColumns()[24] == PriceType
    ensures ListingColumns()[25] == PriceCondition
    ensures ListingColumns()[26] == PlacementType
    ensures ListingColumns()[27] == Availability
    ensures ListingColumns()[28] == Amenities
    ensures ListingColumns()[29] == ConstructionDateRange
    ensures ListingColumns()[30] == ConstructionPeriod
    ensures ListingColumns()[31] == ConstructionType
    ensures ListingColumns()[32] == OfferingType
    ensures ListingColumns()[33] == Project
    ensures ListingColumns()[34] == SaleDateRange
    ensures ListingColumns()[35] == SelectedArea
    ensures ListingColumns()[36] == Description
    ensures ListingColumns()[37] == DescriptionTags
    ensures ListingColumns()[38] == Zoning
    ensures ListingColumns()[39] == Surrounding
    ensures ListingColumns()[40] == ExteriorSpaceGardenSize
    ensures ListingColumns()[41] == ExteriorSpaceType
    ensures ListingColumns()[42] == ExteriorSpaceGardenOrientation
    ensures ListingColumns()[43] == GarageCapacity
    ensures ListingColumns()[44] == GarageType
  {
    AgentColumnsAt();
    AddressColumnsAt();
    FeatureColumnsAt();
    TermsColumnsAt();
    ConstructionColumnsAt();
    SaleColumnsAt();
    ExteriorColumnsAt();
  }

  /** The keys the pipeline adds after the listing literal. */
  predicate IsEnrichmentColumn(c: Column) {
    c in {NeighbourhoodInhabitants, NeighbourhoodAvgAskingpriceM2, NeighbourhoodFamiliesWithChildrenPct,
          ListingNrOfViews, ListingNrOfSaves, SearchQuery}
  }

  /** The keys `store_results` adds around a row. */
  predicate IsMetadataColumn(c: Column) {
    c == Id || c == ProcessingTime || c == RunId
  }

  lemma AgentColumnsOrd()
    ensures |AgentColumns()| == 5
    ensures forall i :: 0 <= i < 5 ==> Ord(AgentColumns()[i]) == i + 0
  {
  }

  lemma AddressColumnsOrd()
    ensures |AddressColumns()| == 9
    ensures forall i :: 0 <= i < 9 ==> Ord(AddressColumns()[i]) == i + 5
  {
  }

  lemma FeatureColumnsOrd()
    ensures |FeatureColumns()| == 6
    ensures forall i :: 0 <= i < 6 ==> Ord(FeatureColumns()[i]) == i + 14
  {
  }

  lemma TermsColumnsOrd()
    ensures |TermsColumns()| == 8
    ensures forall i :: 0 <= i < 8 ==> Ord(TermsColumns()[i]) == i + 20
  {
  }

  lemma ConstructionColumnsOrd()
    ensures |ConstructionColumns()| == 6
    ensures forall i :: 0 <= i < 6 ==> Ord(ConstructionColumns()[i]) == i + 28
  {
  }

  lemma SaleColumnsOrd()
    ensures |SaleColumns()| == 6
    ensures forall i :: 0 <= i < 6 ==> Ord(SaleColumns()[i]) == i + 34
  {
  }

  lemma ExteriorColumnsOrd()
    ensures |ExteriorColumns()| == 5
    ensures forall i :: 0 <= i < 5 ==> Ord(ExteriorColumns()[i]) == i + 40
  {
  }

  lemma NeighbourhoodColumnsOrd()
    ensures Ord(NeighbourhoodInhabitants) == 45 && Ord(NeighbourhoodAvgAskingpriceM2) == 46
    ensures Ord(NeighbourhoodFamiliesWithChildrenPct) == 47
  {
  }

  lemma InsightColumnsOrd()
    ensures Ord(ListingNrOfViews) == 48 && Ord(ListingNrOfSaves) == 49 && Ord(SearchQuery) == 50
  {
  }

  lemma StoreColumnsOrd()
    ensures Ord(Id) == 51 && Ord(ProcessingTime) == 53 && Ord(RunId) == 54
  {
  }

  /** Positions of the columns that are added after the listing literal. */
  lemma AddedColumnsOrd()
    ensures Ord(NeighbourhoodInhabitants) == 45 && Ord(NeighbourhoodAvgAskingpriceM2) == 46
    ensures Ord(NeighbourhoodFamiliesWithChildrenPct) == 47
    ensures Ord(ListingNrOfViews) == 48 && Ord(ListingNrOfSaves) == 49 && Ord(SearchQuery) == 50
    ensures Ord(Id) == 51 && Ord(ProcessingTime) == 53 && Ord(RunId) == 54
  {
    NeighbourhoodColumnsOrd();
    InsightColumnsOrd();
    StoreColumnsOrd();
  }

  /** The listing literal writes the columns 0 to 44 in their declared order. */
  lemma {:induction false} ListingColumnsOrd()
    ensures |ListingColumns()| == 45
    ensures forall i :: 0 <= i < 45 ==> Ord(ListingColumns()[i]) == i
  {
    AgentColumnsOrd();
    AddressColumnsOrd();
    FeatureColumnsOrd();
    TermsColumnsOrd();
    ConstructionColumnsOrd();
    SaleColumnsOrd();
    ExteriorColumnsOrd();
  }

  /** The listing literal never writes a key twice. */
  lemma ListingColumnsDistinct()
    ensures Distinct(ListingColumns())
  {
    ListingColumnsOrd();
  }

  /** A column is written by the listing literal exactly when it precedes the enrichment columns. */
  lemma ListingColumnsMembers(c: Column)
    ensures c in ListingColumns() <==> Ord(c) < 45
  {
    ListingColumnsOrd();
    if Ord(c) < 45 {
      assert ListingColumns()[Ord(c)] == c by {
        OrdInjective(ListingColumns()[Ord(c)], c);
      }
    }
  }

  /** The column whose `Ord` is `n`, if any. */
  function ColumnAtOrd(n: int): Option<Column> {
    if n < 0 then None
    else if n < 11 then ColumnAtOrdPart0(n)
    else if n < 22 then ColumnAtOrdPart1(n)
    else if n < 33 then ColumnAtOrdPart2(n)
    else if n < 44 then ColumnAtOrdPart3(n)
    else if n < 55 then ColumnAtOrdPart4(n)
    else None
  }

  function ColumnAtOrdPart0(n: int): Option<Column> {
    match n
    case 0 => Some(ListingId)
    case 1 => Some(AgentId)
    case 2 => Some(AgentUrl)
    case 3 => Some(AgentName)
    case 4 => Some(AgentAssociation)
    case 5 => Some(AddressCountry)
    case 6 => Some(AddressProvince)
    case 7 => Some(AddressCity)
    case 8 => Some(AddressNeighbourhood)
    case 9 => Some(AddressMunicipality)
    case 10 => Some(AddressHouseNumber)
    case _ => None
  }

  function ColumnAtOrdPart1(n: int): Option<Column> {
    match n
    case 11 => Some(AddressHouseNumberSuffix)
    case 12 => Some(AddressPostalCode)
    case 13 => Some(AddressStreetName)
    case 14 => Some(NumberOfBedrooms)
    case 15 => Some(NumberOfRooms)
    case 16 => Some(ObjectType)
    case 17 => Some(EnergyLabel)
    case 18 => Some(FloorArea)
    case 19 => Some(PlotArea)
    case 20 => Some(PublishDate)
    case 21 => Some(UrlPath)
    case _ => None
  }

  function ColumnAtOrdPart2(n: int): Option<Column> {
    match n
    case 22 => Some(Status)
    case 23 => Some(Price)
    case 24 => Some(PriceType)
    case 25 => Some(PriceCondition)
    case 26 => Some(PlacementType)
    case 27 => Some(Availability)
    case 28 => Some(Amenities)
    case 29 => Some(ConstructionDateRange)
    case 30 => Some(ConstructionPeriod)
    case 31 => Some(ConstructionType)
    case 32 => Some(OfferingType)
    case _ => None
  }

  function ColumnAtOrdPart3(n: int): Option<Column> {
    match n
    case 33 => Some(Project)
    case 34 => Some(SaleDateRange)
    case 35 => Some(SelectedArea)
    case 36 => Some(Description)
    case 37 => Some(DescriptionTags)
    case 38 => Some(Zoning)
    case 39 => Some(Surrounding)
    case 40 => Some(ExteriorSpaceGardenSize)
    case 41 => Some(ExteriorSpaceType)
    case 42 => Some(ExteriorSpaceGardenOrientation)
    case 43 => Some(GarageCapacity)
    case _ => None
  }

  function ColumnAtOrdPart4(n: int): Option<Column> {
    match n
    case 44 => Some(GarageType)
    case 45 => Some(NeighbourhoodInhabitants)
    case 46 => Some(NeighbourhoodAvgAskingpriceM2)
    case 47 => Some(NeighbourhoodFamiliesWithChildrenPct)
    case 48 => Some(ListingNrOfViews)
    case 49 => Some(ListingNrOfSaves)
    case 50 => Some(SearchQuery)
    case 51 => Some(Id)
    case 52 => Some(HandoverDateRange)
    case 53 => Some(ProcessingTime)
    case 54 => Some(RunId)
    case _ => None
  }

  lemma OrdInverse(c: Column)
    ensures ColumnAtOrd(Ord(c)) == Some(c)
  {
    var n := Ord(c);
    if n < 11 {
      OrdInversePart0(c);
    } else if n < 22 {
      OrdInversePart1(c);
    } else if n < 33 {
      OrdInversePart2(c);
    } else if n < 44 {
      OrdInversePart3(c);
    } else {
      OrdInversePart4(c);
    }
  }

  lemma OrdInversePart0(c: Column)
    requires Ord(c) < 11
    ensures ColumnAtOrdPart0(Ord(c)) == Some(c)
  {
  }

  lemma OrdInversePart1(c: Column)
    requires 11 <= Ord(c) < 22
    ensures ColumnAtOrdPart1(Ord(c)) == Some(c)
  {
  }

  lemma OrdInversePart2(c: Column)
    requires 22 <= Ord(c) < 33
    ensures ColumnAtOrdPart2(Ord(c)) == Some(c)
  {
  }

  lemma OrdInversePart3(c: Column)
    requires 33 <= Ord(c) < 44
    ensures ColumnAtOrdPart3(Ord(c)) == Some(c)
  {
  }

  lemma OrdInversePart4(c: Column)
    requires 44 <= Ord(c) < 55
    ensures ColumnAtOrdPart4(Ord(c)) == Some(c)
  {
  }

  /** The column at position `n` of the table schema, if any. */
  function ColumnAtPos(n: int): Option<Column> {
    if n < 0 then None
    else if n < 11 then ColumnAtPosPart0(n)
    else if n < 22 then ColumnAtPosPart1(n)
    else if n < 33 then ColumnAtPosPart2(n)
    else if n < 44 then ColumnAtPosPart3(n)
    else if n < 55 then ColumnAtPosPart4(n)
    else None
  }

  function ColumnAtPosPart0(n: int): Option<Column> {
    match n
    case 0 => Some(Id)
    case 1 => Some(AgentId)
    case 2 => Some(AgentUrl)
    case 3 => Some(ListingId)
    case 4 => Some(AgentName)
    case 5 => Some(AgentAssociation)
    case 6 => Some(AddressCountry)
    case 7 => Some(AddressProvince)
    case 8 => Some(AddressCity)
    case 9 => Some(AddressNeighbourhood)
    case 10 => Some(AddressMunicipality)
    case _ => None
  }

  function ColumnAtPosPart1(n: int): Option<Column> {
    match n
    case 11 => Some(AddressHouseNumber)
    case 12 => Some(AddressHouseNumberSuffix)
    case 13 => Some(AddressPostalCode)
    case 14 => Some(AddressStreetName)
    case 15 => Some(NumberOfBedrooms)
    case 16 => Some(NumberOfRooms)
    case 17 => Some(ObjectType)
    case 18 => Some(EnergyLabel)
    case 19 => Some(FloorArea)
    case 20 => Some(PlotArea)
    case 21 => Some(PublishDate)
    case _ => None
  }

  function ColumnAtPosPart2(n: int): Option<Column> {
    match n
    case 22 => Some(UrlPath)
    case 23 => Some(Status)
    case 24 => Some(Price)
    case 25 => Some(PriceType)
    case 26 => Some(PriceCondition)
    case 27 => Some(PlacementType)
    case 28 => Some(Availability)
    case 29 => Some(Amenities)
    case 30 => Some(ConstructionDateRange)
    case 31 => Some(ConstructionPeriod)
    case 32 => Some(ConstructionType)
    case _ => None
  }

  function ColumnAtPosPart3(n: int): Option<Column> {
    match n
    case 33 => Some(HandoverDateRange)
    case 34 => Some(OfferingType)
    case 35 => Some(Project)
    case 36 => Some(SaleDateRange)
    case 37 => Some(SelectedArea)
    case 38 => Some(Description)
    case 39 => Some(DescriptionTags)
    case 40 => Some(Zoning)
    case 41 => Some(Surrounding)
    case 42 => Some(ExteriorSpaceGardenSize)
    case 43 => Some(ExteriorSpaceType)
    case _ => None
  }

  function ColumnAtPosPart4(n: int): Option<Column> {
    match n
    case 44 => Some(ExteriorSpaceGardenOrientation)
    case 45 => Some(GarageCapacity)
    case 46 => Some(GarageType)
    case 47 => Some(NeighbourhoodInhabitants)
    case 48 => Some(NeighbourhoodAvgAskingpriceM2)
    case 49 => Some(NeighbourhoodFamiliesWithChildrenPct)
    case 50 => Some(ListingNrOfSaves)
    case 51 => Some(ListingNrOfViews)
    case 52 => Some(SearchQuery)
    case 53 => Some(ProcessingTime)
    case 54 => Some(RunId)
    case _ => None
  }

  lemma SchemaPosInverse(c: Column)
    ensures ColumnAtPos(SchemaPos(c)) == Some(c)
  {
    var n := SchemaPos(c);
    if n < 11 {
      SchemaPosInversePart0(c);
    } else if n < 22 {
      SchemaPosInversePart1(c);
    } else if n < 33 {
      SchemaPosInversePart2(c);
    } else if n < 44 {
      SchemaPosInversePart3(c);
    } else {
      SchemaPosInversePart4(c);
    }
  }

  lemma SchemaPosInversePart0(c: Column)
    requires SchemaPos(c) < 11
    ensures ColumnAtPosPart0(SchemaPos(c)) == Some(c)
  {
  }

  lemma SchemaPosInversePart1(c: Column)
    requires 11 <= SchemaPos(c) < 22
    ensures ColumnAtPosPart1(SchemaPos(c)) == Some(c)
  {
  }

  lemma SchemaPosInversePart2(c: Column)
    requires 22 <= SchemaPos(c) < 33
    ensures ColumnAtPosPart2(SchemaPos(c)) == Some(c)
  {
  }

  lemma SchemaPosInversePart3(c: Column)
    requires 33 <= SchemaPos(c) < 44
    ensures ColumnAtPosPart3(SchemaPos(c)) == Some(c)
  {
  }

  lemma SchemaPosInversePart4(c: Column)
    requires 44 <= SchemaPos(c) < 55
    ensures ColumnAtPosPart4(SchemaPos(c)) == Some(c)
  {
  }

  lemma OrdInjective(c: Column, d: Column)
    requires Ord(c) == Ord(d)
    ensures c == d
  {
    OrdInverse(c);
    OrdInverse(d);
  }

  lemma SchemaPosInjective(c: Column, d: Column)
    requires SchemaPos(c) == SchemaPos(d)
    ensures c == d
  {
    SchemaPosInverse(c);
    SchemaPosInverse(d);
  }

  /** Table schema entries: id, listing and agent, address. */
  function SchemaHead(): seq<(Column, string)> {
    [
      (Id, "VARCHAR(100) PRIMARY KEY"),
      (AgentId, "VARCHAR(100)"),
      (AgentUrl, "VARCHAR(500)"),
      (ListingId, "VARCHAR(100)"),
      (AgentName, "VARCHAR(500)"),
      (AgentAssociation, "VARCHAR(500)"),
      (AddressCountry, "VARCHAR(100)"),
      (AddressProvince, "VARCHAR(100)"),
      (AddressCity, "VARCHAR(100)"),
      (AddressNeighbourhood, "VARCHAR(100)"),
      (AddressMunicipality, "VARCHAR(100)"),
      (AddressHouseNumber, "VARCHAR(100)"),
      (AddressHouseNumberSuffix, "VARCHAR(100)"),
      (AddressPostalCode, "VARCHAR(100)")
    ]
  }

  /** Table schema entries: street, features, publication and price. */
  function SchemaListing(): seq<(Column, string)> {
    [
      (AddressStreetName, "VARCHAR(500)"),
      (NumberOfBedrooms, "INTEGER"),
      (NumberOfRooms, "INTEGER"),
      (ObjectType, "VARCHAR(100)"),
      (EnergyLabel, "VARCHAR(100)"),
      (FloorArea, "INTEGER"),
      (PlotArea, "INTEGER"),
      (PublishDate, "TIMESTAMP"),
      (UrlPath, "VARCHAR(500)"),
      (Status, "VARCHAR(100)"),
      (Price, "INTEGER"),
      (PriceType, "VARCHAR(100)"),
      (PriceCondition, "VARCHAR(100)"),
      (PlacementType, "VARCHAR(100)"),
      (Availability, "VARCHAR(100)")
    ]
  }

  /** Table schema entries: availability to surroundings. */
  function SchemaConstruction(): seq<(Column, string)> {
    [
      (Amenities, "VARCHAR(1000)"),
      (ConstructionDateRange, "VARCHAR(100)"),
      (ConstructionPeriod, "VARCHAR(100)"),
      (ConstructionType, "VARCHAR(100)"),
      (HandoverDateRange, "VARCHAR(100)"),
      (OfferingType, "VARCHAR(100)"),
      (Project, "VARCHAR(100)"),
      (SaleDateRange, "VARCHAR(100)"),
      (SelectedArea, "VARCHAR(100)"),
      (Description, "VARCHAR"),
      (DescriptionTags, "VARCHAR(1000)"),
      (Zoning, "VARCHAR(100)"),
      (Surrounding, "VARCHAR(1000)")
    ]
  }

  /** Table schema entries: outdoor space and garage. */
  function SchemaExterior(): seq<(Column, string)> {
    [
      (ExteriorSpaceGardenSize, "VARCHAR(100)"),
      (ExteriorSpaceType, "VARCHAR(100)"),
      (ExteriorSpaceGardenOrientation, "VARCHAR(100)"),
      (GarageCapacity, "VARCHAR(100)"),
      (GarageType, "VARCHAR(100)")
    ]
  }

  /** Table schema entries: enrichment and metadata. */
  function SchemaTail(): seq<(Column, string)> {
    [
      (NeighbourhoodInhabitants, "INTEGER"),
      (NeighbourhoodAvgAskingpriceM2, "INTEGER"),
      (NeighbourhoodFamiliesWithChildrenPct, "REAL"),
      (ListingNrOfSaves, "INTEGER"),
      (ListingNrOfViews, "INTEGER"),
      (SearchQuery, "VARCHAR(500)"),
      (ProcessingTime, "TIMESTAMP"),
      (RunId, "VARCHAR(100)")
    ]
  }

  /** `get_funda_schema()`: every column with its SQL type, in table order. */
  function FundaSchema(): (d: Dict<Column, string>)
    ensures |d| == 55
  {
    SchemaHead() + SchemaListing() + SchemaConstruction() + SchemaExterior() + SchemaTail()
  }

  lemma SchemaHeadPos()
    ensures |SchemaHead()| == 14
    ensures forall i :: 0 <= i < 14 ==> SchemaPos(SchemaHead()[i].0) == i + 0
  {
  }

  lemma SchemaListingPos()
    ensures |SchemaListing()| == 15
    ensures forall i :: 0 <= i < 15 ==> SchemaPos(SchemaListing()[i].0) == i + 14
  {
  }

  lemma SchemaConstructionPos()
    ensures |SchemaConstruction()| == 13
    ensures forall i :: 0 <= i < 13 ==> SchemaPos(SchemaConstruction()[i].0) == i + 29
  {
    SchemaConstructionFront();
    SchemaConstructionBack();
  }

  lemma SchemaConstructionFront()
    ensures |SchemaConstruction()| == 13
    ensures forall i :: 0 <= i < 7 ==> SchemaPos(SchemaConstruction()[i].0) == i + 29
  {
  }

  lemma SchemaConstructionBack()
    ensures |SchemaConstruction()| == 13
    ensures forall i :: 7 <= i < 13 ==> SchemaPos(SchemaConstruction()[i].0) == i + 29
  {
  }

  lemma SchemaExteriorPos()
    ensures |SchemaExterior()| == 5
    ensures forall i :: 0 <= i < 5 ==> SchemaPos(SchemaExterior()[i].0) == i + 42
  {
  }

  lemma SchemaTailPos()
    ensures |SchemaTail()| == 8
    ensures forall i :: 0 <= i < 8 ==> SchemaPos(SchemaTail()[i].0) == i + 47
  {
    SchemaTailFront();
    SchemaTailBack();
  }

  lemma SchemaTailFront()
    ensures |SchemaTail()| == 8
    ensures forall i :: 0 <= i < 4 ==> SchemaPos(SchemaTail()[i].0) == i + 47
  {
  }

  lemma SchemaTailBack()
    ensures |SchemaTail()| == 8
    ensures forall i :: 4 <= i < 8 ==> SchemaPos(SchemaTail()[i].0) == i + 47
  {
  }

  /** The schema lists its columns at positions 0 to 54 in table order. */
  lemma {:induction false} FundaSchemaPos()
    ensures forall i :: 0 <= i < 55 ==> SchemaPos(FundaSchema()[i].0) == i
  {
    SchemaHeadPos();
    SchemaListingPos();
    SchemaConstructionPos();
    SchemaExteriorPos();
    SchemaTailPos();
  }

  /** The schema has one entry per column. */
  lemma FundaSchemaDistinct()
    ensures Distinct(Keys(FundaSchema()))
  {
    FundaSchemaPos();
    KeysAt(FundaSchema());
    forall i, j | 0 <= i < j < 55
      ensures Keys(FundaSchema())[i] != Keys(FundaSchema())[j]
    {
    }
  }

  /** Every column has an entry in the schema. */
  lemma FundaSchemaCovers(c: Column)
    ensures c in Keys(FundaSchema())
  {
    FundaSchemaPos();
    KeysAt(FundaSchema());
    var i := SchemaPos(c);
    SchemaPosInjective(FundaSchema()[i].0, c);
    assert Keys(FundaSchema())[i] == c;
  }

  /**
   * The older schema literal: the same entries, with `offering_type` written a
   * second time after `surrounding` and `object_type` a second time after
   * `garage_type`.
   */
  function LegacySchemaEntries(): seq<(Column, string)> {
    SchemaHead() + SchemaListing() + SchemaConstruction()
      + [(OfferingType, "VARCHAR(100)")]
      + SchemaExterior()
      + [(ObjectType, "VARCHAR(100)")]
      + SchemaTail()
  }

  /** `funda_schema` of the older module: the dict its literal evaluates to. */
  function LegacySchema(): (d: Dict<Column, string>)
    ensures Distinct(Keys(d))
  {
    FromPairs(LegacySchemaEntries())
  }

  /** Both repeated keys restate their first entry, so the older schema is the current one. */
  lemma LegacySchemaIsFundaSchema()
    ensures |LegacySchemaEntries()| == 57
    ensures LegacySchema() == FundaSchema()
  {
    var a := SchemaHead() + SchemaListing() + SchemaConstruction();
    var e := SchemaExterior();
    var t := SchemaTail();
    FundaSchemaDistinct();
    assert FundaSchema() == a + e + t;
    assert a[34] == (OfferingType, "VARCHAR(100)");
    assert (a + e)[17] == (ObjectType, "VARCHAR(100)");
    FromPairsRepeatTwice(a, (OfferingType, "VARCHAR(100)"), e, (ObjectType, "VARCHAR(100)"), t);
  }
}
