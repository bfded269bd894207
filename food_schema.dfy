/**
 * The shapes the food routers exchange: food sources, nutriments, full
 * products, search results and USDA Foundation foods. Only the fields the
 * modelled operations read or write are kept.
 */
module FoodSchema {
  import opened Wrappers

  /** `FOOD_SOURCES`. */
  datatype FoodSource = NCCDB | USDA | CNF | IFCDB | Branded | User | Foundation

  /** `DATA_SOURCES`: which global database a search or lookup uses. */
  datatype DataSource = FoundationData | BrandedData

  /** One nutrient row of a product; `per100g` is the `"100g"` field. */
  datatype Nutriment = Nutriment(
    name: Option<string>,
    value: Option<real>,
    per100g: Option<real>,
    serving: Option<real>,
    unit: Option<string>,
    preparedValue: Option<real>,
    prepared100g: Option<real>,
    preparedServing: Option<real>,
    preparedUnit: Option<string>)

  datatype LocalizedText = LocalizedText(lang: string, text: string)

  /** The parts of a Foundation serving-size label: amount, unit name and gram weight. */
  datatype PortionLabel = PortionLabel(amount: real, unitName: string, gramWeight: real)

  /** A full product, as the product-detail routes return it. */
  datatype FoodProduct = FoodProduct(
    code: Option<string>,
    productName: seq<LocalizedText>,
    brands: Option<string>,
    brandsTags: seq<string>,
    categories: Option<string>,
    categoriesTags: seq<string>,
    nutriments: seq<Nutriment>,
    source: FoodSource,
    completeness: real,
    createdT: Option<real>,
    lastModifiedT: Option<real>,
    creator: string,
    ecoscoreGrade: Option<string>,
    nutriscoreGrade: Option<string>,
    genericName: Option<seq<LocalizedText>>,
    quantity: Option<string>,
    servingQuantity: Option<real>,
    servingSize: Option<PortionLabel>,
    additivesN: Option<real>,
    countriesTags: seq<string>,
    mainCountriesTags: seq<string>,
    scansN: real,
    uniqueScansN: real)

  /** One search hit. */
  datatype FoodSearchResult = FoodSearchResult(
    code: Option<string>,
    productName: Option<string>,
    brands: Option<string>,
    categories: Option<string>,
    nutriscoreGrade: Option<string>,
    scansN: Option<real>,
    source: FoodSource)

  /** A nutrient of a Foundation food; `amount` is 0 when the file omits it. */
  datatype FoundationNutrient = FoundationNutrient(name: string, unitName: string, amount: real)

  datatype FoundationPortion = FoundationPortion(
    amount: Option<real>,
    value: Option<real>,
    measureUnitName: string,
    gramWeight: real)

  /** A USDA Foundation food; `foodCategory` is the category's description. */
  datatype FoundationFood = FoundationFood(
    fdcId: int,
    description: string,
    foodCategory: Option<string>,
    scientificName: Option<string>,
    foodNutrients: seq<FoundationNutrient>,
    foodPortions: Option<seq<FoundationPortion>>)

  /** A user's custom food as the search reads it. */
  datatype CustomFoodRecord = CustomFoodRecord(id: string, name: string, brand: Option<string>)
}
