/** The Light capability: `LightInterface`, the shared `AbstractLight` base and its two brand leaves. */
module Lights {
  import opened Wrappers
  import opened DeviceBrands
  import opened Snapshots

  /** A colour; `AbstractLight` keeps it as the array ['red' => ., 'green' => ., 'blue' => .]. */
  datatype Rgb = Rgb(red: int, green: int, blue: int)

  /** The mutable part of a light. */
  datatype LightState = LightState(isOn: bool, brightness: int, color: Rgb)

  /** A call a light makes to its vendor's API hook, with the arguments the hook receives. */
  datatype LightCommand =
    | TurnOnCommand
    | TurnOffCommand
    | BrightnessCommand(level: int)
    | ColorCommand(red: int, green: int, blue: int)

  /** A new light is off, at half brightness, and white. */
  const Initial: LightState := LightState(false, 50, Rgb(255, 255, 255))

  const InfoKeys: set<string> := {"name", "brand", "type", "room_id", "is_on", "brightness", "color"}

  /** `getType()`: the type tag the capability's snapshots carry. */
  const TypeName: string := "light"

  function Max(a: int, b: int): int { if a < b then b else a }

  function Min(a: int, b: int): int { if a < b then a else b }

  /** `max(lo, min(hi, x))`: the point of [lo, hi] nearest to `x`. */
  function Clamp(lo: int, hi: int, x: int): (r: int)
    requires lo <= hi
    ensures lo <= r <= hi
    ensures lo <= x <= hi ==> r == x
    ensures x < lo ==> r == lo
    ensures hi < x ==> r == hi
  {
    Max(lo, Min(hi, x))
  }

  predicate ChannelsInRange(c: Rgb) {
    0 <= c.red <= 255 && 0 <= c.green <= 255 && 0 <= c.blue <= 255
  }

  /** The light invariant: brightness in [0, 100] and each colour channel in [0, 255]. */
  predicate InRange(s: LightState) {
    0 <= s.brightness <= 100 && ChannelsInRange(s.color)
  }

  /** `turnOn()` on the state: switched on, nothing else changes. */
  function TurnedOn(s: LightState): (t: LightState)
    ensures t.isOn && t.brightness == s.brightness && t.color == s.color
  {
    s.(isOn := true)
  }

  /** `turnOff()` on the state: switched off, nothing else changes. */
  function TurnedOff(s: LightState): (t: LightState)
    ensures !t.isOn && t.brightness == s.brightness && t.color == s.color
  {
    s.(isOn := false)
  }

  /** `setBrightness(level)` on the state: brightness becomes `level` clamped into [0, 100]. */
  function WithBrightness(s: LightState, level: int): (t: LightState)
    ensures 0 <= t.brightness <= 100
    ensures 0 <= level <= 100 ==> t.brightness == level
    ensures level < 0 ==> t.brightness == 0
    ensures 100 < level ==> t.brightness == 100
    ensures t.isOn == s.isOn && t.color == s.color
    ensures ChannelsInRange(s.color) ==> InRange(t)
  {
    s.(brightness := Clamp(0, 100, level))
  }

  /** `setColor(red, green, blue)` on the state: each channel is clamped into [0, 255] on its own. */
  function WithColor(s: LightState, red: int, green: int, blue: int): (t: LightState)
    ensures ChannelsInRange(t.color)
    ensures t.color.red == Clamp(0, 255, red)
    ensures t.color.green == Clamp(0, 255, green)
    ensures t.color.blue == Clamp(0, 255, blue)
    ensures t.isOn == s.isOn && t.brightness == s.brightness
    ensures 0 <= s.brightness <= 100 ==> InRange(t)
  {
    s.(color := Rgb(Clamp(0, 255, red), Clamp(0, 255, green), Clamp(0, 255, blue)))
  }

  /** The nested colour array of a snapshot. */
  function ColorValue(c: Rgb): (v: InfoValue)
    ensures v.Record? && v.fields.Keys == {"red", "green", "blue"}
    ensures v.fields["red"] == Integer(c.red)
    ensures v.fields["green"] == Integer(c.green)
    ensures v.fields["blue"] == Integer(c.blue)
  {
    Record(map["red" := Integer(c.red), "green" := Integer(c.green), "blue" := Integer(c.blue)])
  }

  /** `getInfo()`: exactly the seven keys, each holding the current field. */
  function Snapshot(id: Identity, s: LightState): (info: Info)
    ensures info.Keys == InfoKeys
    ensures info["type"] == Text(TypeName)
    ensures info["name"] == Text(id.name) && info["brand"] == Text(BrandLabel(id.brand))
    ensures info["room_id"] == RoomValue(id.roomId)
    ensures info["is_on"] == Flag(s.isOn) && info["brightness"] == Integer(s.brightness)
    ensures info["color"] == ColorValue(s.color)
  {
    map[
      "name" := Text(id.name),
      "brand" := Text(BrandLabel(id.brand)),
      "type" := Text(TypeName),
      "room_id" := RoomValue(id.roomId),
      "is_on" := Flag(s.isOn),
      "brightness" := Integer(s.brightness),
      "color" := ColorValue(s.color)
    ]
  }

  /** Switching on, or off, twice is the same as once. */
  lemma SwitchingIsIdempotent(s: LightState)
    ensures TurnedOn(TurnedOn(s)) == TurnedOn(s)
    ensures TurnedOff(TurnedOff(s)) == TurnedOff(s)
  {
  }

  /** Only the last brightness and the last colour set count. */
  lemma LastWriteWins(s: LightState, a: int, b: int, r1: int, g1: int, b1: int, r2: int, g2: int, b2: int)
    ensures WithBrightness(WithBrightness(s, a), b) == WithBrightness(s, b)
    ensures WithColor(WithColor(s, r1, g1, b1), r2, g2, b2) == WithColor(s, r2, g2, b2)
  {
  }

  /** Every operation keeps the light invariant. */
  lemma OperationsKeepRange(s: LightState, level: int, red: int, green: int, blue: int)
    requires InRange(s)
    ensures InRange(TurnedOn(s)) && InRange(TurnedOff(s))
    ensures InRange(WithBrightness(s, level)) && InRange(WithColor(s, red, green, blue))
  {
  }

  /**
   * A light of either brand. `brand` stands for the leaf class (XiaomiLight or PhilipsHueLight);
   * both leaves leave every hook empty, so the only brand-specific behaviour is the label.
   */
  class Light {
    const name: string
    const roomId: Option<string>
    const brand: DeviceBrand
    var isOn: bool
    var brightness: int
    var color: Rgb
    /** The calls the base made to the brand hooks, which a real leaf would forward to the vendor. */
    ghost var vendorCalls: seq<LightCommand>

    function State(): LightState
      reads this
    {
      LightState(isOn, brightness, color)
    }

    function Id(): Identity {
      Identity(name, roomId, brand)
    }

    ghost predicate Valid()
      reads this
    {
      InRange(State())
    }

    constructor (brand: DeviceBrand, name: string, roomId: Option<string> := None)
      ensures this.brand == brand && this.name == name && this.roomId == roomId
      ensures State() == Initial && Valid() && vendorCalls == []
    {
      this.brand := brand;
      this.name := name;
      this.roomId := roomId;
      isOn := false;
      brightness := 50;
      color := Rgb(255, 255, 255);
      vendorCalls := [];
    }

    method TurnOn()
      requires Valid()
      modifies this
      ensures Valid() && State() == TurnedOn(old(State()))
      ensures vendorCalls == old(vendorCalls) + [TurnOnCommand]
    {
      isOn := true;
      vendorCalls := vendorCalls + [TurnOnCommand];
    }

    method TurnOff()
      requires Valid()
      modifies this
      ensures Valid() && State() == TurnedOff(old(State()))
      ensures vendorCalls == old(vendorCalls) + [TurnOffCommand]
    {
      isOn := false;
      vendorCalls := vendorCalls + [TurnOffCommand];
    }

    /** Stores the clamped level; the hook is handed the level as given. */
    method SetBrightness(level: int)
      requires Valid()
      modifies this
      ensures Valid() && State() == WithBrightness(old(State()), level)
      ensures vendorCalls == old(vendorCalls) + [BrightnessCommand(level)]
    {
      brightness := Max(0, Min(100, level));
      vendorCalls := vendorCalls + [BrightnessCommand(level)];
    }

    function GetBrightness(): (level: int)
      reads this
      requires Valid()
      ensures 0 <= level <= 100
      ensures level == State().brightness
    {
      brightness
    }

    /** Stores the clamped channels; the hook is handed the channels as given. */
    method SetColor(red: int, green: int, blue: int)
      requires Valid()
      modifies this
      ensures Valid() && State() == WithColor(old(State()), red, green, blue)
      ensures vendorCalls == old(vendorCalls) + [ColorCommand(red, green, blue)]
    {
      color := Rgb(Max(0, Min(255, red)), Max(0, Min(255, green)), Max(0, Min(255, blue)));
      vendorCalls := vendorCalls + [ColorCommand(red, green, blue)];
    }

    /** The snapshot of the current fields; it reads them afresh on every call. */
    function GetInfo(): (info: Info)
      reads this
      ensures info.Keys == InfoKeys
      ensures info["name"] == Text(name) && info["type"] == Text(TypeName)
      ensures info["room_id"] == RoomValue(roomId)
      ensures info["is_on"] == Flag(isOn) && info["brightness"] == Integer(brightness)
      ensures info["color"] == ColorValue(color)
      ensures info["brand"] == Text(BrandLabel(brand))
    {
      Snapshot(Id(), State())
    }
  }
}
