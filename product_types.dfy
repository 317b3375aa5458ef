/** The catalogue: customizable products (cakes) and standard inventory products (catfish). Money is in cents. */
module ProductTypes {
  import opened Wrappers

  datatype Category = Cakes | Doughnuts | MeatPies | Catfish

  datatype Choice = Choice(choiceId: string, labelText: string, priceAdjustment: int)

  datatype GroupType = SingleSelect | MultiSelect | TextInput

  datatype OptionGroup = OptionGroup(
    groupKey: string,
    groupLabel: string,
    groupType: GroupType,
    isMandatory: bool,
    choices: Option<seq<Choice>>,
    maxLength: Option<int>,
    priceAdjustment: Option<int>)

  datatype CustomizableProduct = CustomizableProduct(
    id: string,
    name: string,
    slug: string,
    description: string,
    basePrice: int,
    category: Category,
    imageUrls: seq<string>,
    customizationGroups: seq<OptionGroup>,
    minLeadTimeHours: int)

  datatype Variant = Variant(variantId: string, labelText: string, price: int, stock: int)

  datatype StandardOptions = StandardOptions(optionKey: string, optionLabel: string, variants: seq<Variant>)

  datatype StandardProduct = StandardProduct(
    id: string,
    name: string,
    slug: string,
    description: string,
    basePrice: int,
    category: Category,
    imageUrls: seq<string>,
    standardOptions: StandardOptions)

  /** `CustomizableProduct | StandardProduct`, told apart by `isCustomizable`. */
  datatype Product = Customizable(cake: CustomizableProduct) | Standard(item: StandardProduct)

  /** A customer's answer to one group: a choice id or text, or a list of choice ids. */
  datatype SelectionValue = Text(text: string) | Many(ids: seq<string>)

  /** Selections keyed by group key (a `Record<string, string | string[]>`). */
  type Selections = map<string, SelectionValue>
}
