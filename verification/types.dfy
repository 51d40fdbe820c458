/** The records of the ordering app (types.ts) as immutable values.

    Conventions kept from the source's JavaScript truthiness: an empty string stands for
    an unset optional string (`selectedSingleChoiceAddon`, an addon's `weight`), and
    `saucesPerItem == 0` for an unset per-item sauce count. A mapping category that is
    absent from a selection is the empty dictionary. */
module Types {
  import opened Basics
  import opened Dict

  datatype SingleChoiceAddon = SingleChoiceAddon(price: int, options: seq<string>)

  /** `ComponentChoice` and `MultiChoice`: a titled list of option names. */
  datatype TitledChoice = TitledChoice(title: string, options: seq<string>)

  /** A side-dish choice where `choices` sides are picked per ordered unit. */
  datatype SideChoice = SideChoice(title: string, options: seq<string>, choices: int)

  /** What a menu item lets the customer choose. */
  datatype Customizations = Customizations(
    doneness: bool,
    sauceChoice: bool,
    saucesPerItem: int,
    drinkChoice: bool,
    dessertChoice: bool,
    pastaChoice: bool,
    componentChoice: Option<TitledChoice>,
    notes: bool,
    singleChoiceAddon: Option<SingleChoiceAddon>,
    multiChoice: Option<TitledChoice>,
    sideChoice: Option<SideChoice>)

  datatype MenuItem = MenuItem(
    id: string, name: string, price: int, customizations: Customizations, isAvailable: bool)

  datatype MenuCategory = MenuCategory(title: string, items: seq<MenuItem>)

  /** A priced extra. `weight` is not declared in types.ts but is read from the records the
      menu service returns; `""` when absent. */
  datatype Addon = Addon(
    id: string, name: string, price: int, category: string, isAvailable: bool, weight: string)

  /** `SelectedAddon`: an addon record together with how many of it were chosen. */
  datatype SelectedAddon = SelectedAddon(
    id: string, name: string, price: int, category: string, isAvailable: bool, weight: string,
    quantity: int)

  /** One entry of a server-supplied option list (`Option` in types.ts). */
  datatype Choice = Choice(name: string, isAvailable: bool)

  datatype OptionsData = OptionsData(
    sauces: seq<Choice>,
    dessertsA: seq<Choice>,
    dessertsB: seq<Choice>,
    pastasA: seq<Choice>,
    pastasB: seq<Choice>,
    coldNoodles: seq<Choice>,
    simpleMeals: Option<seq<Choice>>)

  /** The selection bundle: the options object the item editor passes to the cart, whose
      fields a cart line keeps as its `selected...` fields. The five mapping categories are
      dictionaries from choice name to quantity; sauces, desserts and pastas are lists of
      `{ name, quantity }` records, here entries keyed by name. */
  datatype Bundle = Bundle(
    donenesses: seq<Entry<int>>,
    drinks: seq<Entry<int>>,
    sideChoices: seq<Entry<int>>,
    multiChoice: seq<Entry<int>>,
    componentChoices: seq<Entry<int>>,
    sauces: seq<Entry<int>>,
    desserts: seq<Entry<int>>,
    pastas: seq<Entry<int>>,
    addons: seq<SelectedAddon>,
    singleChoiceAddon: string,
    notes: string)

  /** One mapping category inside the cart key: `''` for an absent or empty mapping, or the
      JSON text of its positive entries in name order, represented by those entries. */
  datatype Stable = Blank | Object(entries: seq<Entry<int>>)

  /** The cart key: the fields of the key object, in the source's field order. Its JSON text is
      determined by, and determines, these fields, so the record stands for that text. */
  datatype CartKey = CartKey(
    id: string,
    donenesses: Stable,
    drinks: Stable,
    sideChoices: Stable,
    multiChoice: Stable,
    componentChoices: Stable,
    notes: string,
    addons: string,
    sauces: string,
    desserts: string,
    pastas: string,
    singleChoiceAddon: string)

  /** `${cartKey}-${Date.now()}`: the key followed by a caller-supplied timestamp token. */
  datatype CartId = CartId(key: CartKey, token: nat)

  datatype CartItem = CartItem(
    cartId: CartId,
    cartKey: CartKey,
    item: MenuItem,
    quantity: int,
    categoryTitle: string,
    selection: Bundle,
    totalPrice: int)

  datatype CustomerInfo = CustomerInfo(name: string, phone: string, tableNumber: string)

  /** 內用 (dine in) and 外帶 (take out). */
  datatype OrderType = DineIn | TakeOut

  /** 待店長確認, 待處理, 製作中, 可以取餐, 已完成, 錯誤. */
  datatype OrderStatus =
    | AwaitingConfirmation
    | Pending
    | Preparing
    | ReadyForPickup
    | Completed
    | Failed

  datatype OrderData = OrderData(
    items: seq<CartItem>, totalPrice: int, customerInfo: CustomerInfo, orderType: OrderType)

  datatype Order = Order(
    id: string,
    status: OrderStatus,
    orderType: OrderType,
    items: seq<CartItem>,
    customerInfo: CustomerInfo,
    totalPrice: int,
    createdAt: string)

  /** The empty selection the item editor starts from for a new item. */
  const EmptyBundle := Bundle([], [], [], [], [], [], [], [], [], "", "")

  // ---- Reference data from constants.ts ----

  const NoCustomizations := Customizations(
    false, false, 0, false, false, false, None, false, None, None, None)

  /** set-1: 板腱牛排+脆皮炸雞(炸魚)套餐, 10oz, 399. */
  const Set1 := MenuItem(
    "set-1", "板腱牛排+脆皮炸雞(炸魚)套餐", 399,
    NoCustomizations.(doneness := true, sauceChoice := true, drinkChoice := true, notes := true,
                      saucesPerItem := 2,
                      componentChoice := Some(TitledChoice("炸物選擇", ["脆皮炸雞", "炸魚"]))),
    true)

  /** addon-soup: 湯品 加購, 30. */
  const AddonSoup := Addon("addon-soup", "湯品 加購", 30, "單點加購", true, "")

  /** addon-fries: 脆薯 加購, 60. */
  const AddonFries := Addon("addon-fries", "脆薯 加購", 60, "單點加購", true, "")
}
