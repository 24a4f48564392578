/** What every device fixes at construction, and the shape of the `getInfo()` arrays. */
module Snapshots {
  import opened Wrappers
  import opened DeviceBrands

  /** One value of a `getInfo()` array; `Record` is a nested associative array. */
  datatype InfoValue =
    | Null
    | Text(text: string)
    | Flag(flag: bool)
    | Integer(number: int)
    | Decimal(amount: real)
    | Record(fields: map<string, InfoValue>)

  /** A `getInfo()` result: an associative array from key to value (key order is not modelled). */
  type Info = map<string, InfoValue>

  /** A device's readonly constructor arguments together with the brand of its leaf class. */
  datatype Identity = Identity(name: string, roomId: Option<string>, brand: DeviceBrand)

  /** How a nullable room id appears in a snapshot. */
  function RoomValue(roomId: Option<string>): (v: InfoValue)
    ensures v.Null? <==> roomId.None?
    ensures roomId.Some? ==> v == Text(roomId.value)
  {
    match roomId
    case None => Null
    case Some(r) => Text(r)
  }

  /** `getBrand()` of a leaf class: every Xiaomi leaf returns 'Xiaomi', every Philips Hue leaf 'Philips Hue'. */
  function BrandLabel(b: DeviceBrand): (l: string)
    ensures l == "Xiaomi" <==> b == Xiaomi
    ensures l == "Philips Hue" <==> b == PhilipsHue
  {
    match b
    case Xiaomi => "Xiaomi"
    case PhilipsHue => "Philips Hue"
  }

  /** The label a leaf hard-codes is the display name its enum case gives. */
  lemma BrandLabelIsDisplayName(b: DeviceBrand)
    ensures BrandLabel(b) == b.DisplayName()
  {
  }

  /** The labels tell the brands apart. */
  lemma BrandLabelInjective(a: DeviceBrand, b: DeviceBrand)
    ensures BrandLabel(a) == BrandLabel(b) <==> a == b
  {
  }
}
