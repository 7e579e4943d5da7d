/**
 * The records the dashboard keeps in its lists, and the values its
 * handlers compute for a new record.
 *
 * Amounts are modelled as `real`: JavaScript numbers are IEEE doubles,
 * and the model abstracts from their rounding.
 */
module Records {

  datatype Option<T> = None | Some(value: T)

  /** A row of the campaigns table; `acos` is stored, not recomputed on read. */
  datatype Campaign = Campaign(
    id: string,
    name: string,
    spend: real,
    sales: real,
    acos: real,
    initial: string,
    color: string)

  /** A row of the top-products list. */
  datatype Product = Product(
    id: string,
    name: string,
    spend: real,
    category: string,
    color: string)

  /** The order of the ACoS column: the source only ever holds 'desc' or 'asc'. */
  datatype SortOrder = Desc | Asc

  /** The time-series chart's view switch: 'Monthly' or 'Yearly'. */
  datatype ViewMode = Monthly | Yearly

  /**
   * The admin form. Every field is the raw text of its input element;
   * `kind` is the selected record type ('Campaign' or 'Product').
   */
  datatype FormData = FormData(
    kind: string,
    name: string,
    spend: string,
    sales: string,
    category: string)

  /** ACoS is reported per thousand of sales. */
  const AcosScale: real := 1000.0

  /**
   * The ACoS of a new campaign: spend relative to sales, scaled by 1000,
   * with 0 when there are no sales instead of a division by zero.
   */
  function Acos(spend: real, sales: real): (r: real)
    ensures sales > 0.0 ==> r * sales == spend * AcosScale
    ensures sales <= 0.0 ==> r == 0.0
    ensures spend >= 0.0 ==> r >= 0.0
  {
    if sales > 0.0 then spend / sales * AcosScale else 0.0
  }

  /** `toUpperCase` on one character, for the ASCII letters. */
  function UpperAscii(c: char): (u: char)
    ensures 'a' <= c <= 'z' ==> 'A' <= u <= 'Z' && u as int + 32 == c as int
    ensures !('a' <= c <= 'z') ==> u == c
  {
    if 'a' <= c <= 'z' then (c as int - 32) as char else c
  }

  /** `name.charAt(0).toUpperCase()`: the avatar letter of a campaign row. */
  function Initial(name: string): (r: string)
    ensures name == [] ==> r == []
    ensures name != [] ==> |r| == 1 && !('a' <= r[0] <= 'z')
    ensures name != [] && !('a' <= name[0] <= 'z') ==> r == name[..1]
    ensures name != [] && 'a' <= name[0] <= 'z' ==> 'A' <= r[0] <= 'Z' && r[0] as int + 32 == name[0] as int
  {
    if name == [] then [] else [UpperAscii(name[0])]
  }

  /** The campaign that the form creates; `now` stands for `Date.now()`. */
  function NewCampaign(name: string, spend: real, sales: real, now: string, color: string): (c: Campaign)
    ensures c.id == "C" + now && c.name == name && c.spend == spend && c.sales == sales
    ensures sales > 0.0 ==> c.acos * sales == spend * AcosScale
    ensures sales <= 0.0 ==> c.acos == 0.0
    ensures c.initial == Initial(name) && c.color == color
  {
    Campaign("C" + now, name, spend, sales, Acos(spend, sales), Initial(name), color)
  }

  /** The product that the form creates; `now` stands for `Date.now()`. */
  function NewProduct(name: string, spend: real, category: string, now: string, color: string): (p: Product)
    ensures p.id == "P" + now && p.name == name && p.spend == spend
    ensures p.category == category && p.color == color
  {
    Product("P" + now, name, spend, category, color)
  }

  /** The campaigns the dashboard starts with (literal data; their acos is not recomputed). */
  function SeedCampaigns(): (cs: seq<Campaign>)
    ensures |cs| == 5
  {
    [ Campaign("C1", "Premium Electronics - Q1", 2510.0, 12437.0, 12437.0, "E", "#FBCFE8"),
      Campaign("C2", "Summer Home Decor", 3320.0, 11122.0, 11163.0, "H", "#FECACA"),
      Campaign("C3", "Outdoor Gear Research", 3614.0, 10769.0, 10375.0, "O", "#D1FAE5"),
      Campaign("C4", "Kitchen Essentials Flash", 3805.0, 9379.0, 9914.0, "K", "#FEF3C7"),
      Campaign("C5", "Smart Home Automation", 4482.0, 8262.0, 7055.0, "S", "#DBEAFE") ]
  }

  /** The products the dashboard starts with. */
  function SeedProducts(): (ps: seq<Product>)
    ensures |ps| == 10
  {
    [ Product("P1", "Wireless Headphones Pro", 226674.0, "Electronics", "#7B93FF"),
      Product("P2", "Smart Watch Series 5", 185200.0, "Electronics", "#C687FF"),
      Product("P3", "Noise Cancelling Buds", 142300.0, "Electronics", "#FF87C4"),
      Product("P4", "Bluetooth Speaker XL", 98400.0, "Outdoor", "#E6C600"),
      Product("P5", "Smart Home Hub", 85000.0, "Home", "#4ADE80"),
      Product("P6", "Kitchen Air Fryer", 72000.0, "Home", "#F87171"),
      Product("P7", "Gaming Mouse RGB", 45000.0, "Electronics", "#60A5FA"),
      Product("P8", "Portable Projector", 38000.0, "Electronics", "#A78BFA"),
      Product("P9", "Ergonomic Desk Chair", 32000.0, "Home", "#FBBF24"),
      Product("P10", "Solar Camping Light", 12000.0, "Outdoor", "#34D399") ]
  }

  /** The key functions by which the handlers find records. */
  function CampaignId(c: Campaign): string { c.id }

  function ProductId(p: Product): string { p.id }
}
