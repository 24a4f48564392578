/** The `HasDeviceFactory` trait: the one place where brand strings are turned into factories. */
module FactoryResolver {
  import opened Wrappers
  import opened Ascii
  import opened DeviceBrands
  import opened Snapshots
  import opened Factories

  /** The InvalidArgumentException `getFactory` throws; it carries the brand exactly as it was passed in. */
  datatype UnknownBrand = UnknownBrand(brand: string)

  /**
   * `getFactory($brand)`: lower-cases the brand, then matches it against the enum values.
   * The second arm lists `DeviceBrand::PHILIPS_HUE->value`, which is 'philips', and 'philips' again.
   */
  function GetFactory(brand: string): (r: Result<DeviceFactory, UnknownBrand>)
    ensures r.Success? <==> ToLower(brand) == "xiaomi" || ToLower(brand) == "philips"
    ensures r.Success? ==> (r.value.brand == Xiaomi <==> ToLower(brand) == "xiaomi")
    ensures r.Failure? ==> r.error == UnknownBrand(brand)
  {
    var normalized := ToLower(brand);
    if normalized == Xiaomi.Value() then Success(DeviceFactory(Xiaomi))
    else if normalized == PhilipsHue.Value() || normalized == "philips" then Success(DeviceFactory(PhilipsHue))
    else Failure(UnknownBrand(brand))
  }

  /** `getBrandName($factory)`: the display name of the factory's brand. Only the two factory classes exist here. */
  function GetBrandName(f: DeviceFactory): (name: string)
    ensures name == f.brand.DisplayName()
    ensures name == "Xiaomi" <==> f.brand == Xiaomi
  {
    match f.brand
    case Xiaomi => Xiaomi.DisplayName()
    case PhilipsHue => PhilipsHue.DisplayName()
  }

  /** `getAvailableBrands()`. */
  function GetAvailableBrands(): (vs: seq<string>)
    ensures |vs| == |Cases()| && forall i :: 0 <= i < |vs| ==> vs[i] == Cases()[i].Value()
  {
    Values()
  }

  /**
   * PHP's `array_combine($keys, $values)`: the i-th key maps to the i-th value; where a key repeats,
   * its last occurrence wins.
   */
  function Combine(keys: seq<string>, vals: seq<string>): (m: map<string, string>)
    requires |keys| == |vals|
    ensures forall k :: k in m <==> k in keys
    decreases |keys|
  {
    if keys == [] then map[]
    else
      var n := |keys| - 1;
      assert forall k :: k in keys <==> k in keys[..n] || k == keys[n];
      Combine(keys[..n], vals[..n])[keys[n] := vals[n]]
  }

  /** A key of `array_combine` that does not occur again later maps to the value at its own position. */
  lemma {:induction false} CombineAt(keys: seq<string>, vals: seq<string>, i: nat)
    requires |keys| == |vals| && i < |keys|
    requires forall j :: i < j < |keys| ==> keys[j] != keys[i]
    ensures keys[i] in Combine(keys, vals) && Combine(keys, vals)[keys[i]] == vals[i]
    decreases |keys|
  {
    var n := |keys| - 1;
    if i < n {
      CombineAt(keys[..n], vals[..n], i);
    }
  }

  /** `getAvailableBrandsWithNames()`: each enum value mapped to its display name. */
  function GetAvailableBrandsWithNames(): (m: map<string, string>)
    ensures forall v :: v in m <==> v in GetAvailableBrands()
    ensures m == map["xiaomi" := "Xiaomi", "philips" := "Philips Hue"]
  {
    CombineAt(Values(), DisplayNames(), 0);
    CombineAt(Values(), DisplayNames(), 1);
    Combine(Values(), DisplayNames())
  }

  /** Each brand's enum value is a key of `getAvailableBrandsWithNames()`, mapped to its display name. */
  lemma BrandsWithNamesAgree(b: DeviceBrand)
    ensures b.Value() in GetAvailableBrandsWithNames()
    ensures GetAvailableBrandsWithNames()[b.Value()] == b.DisplayName()
  {
  }

  /** The resolver ignores case: two spellings that lower-case alike resolve alike. */
  lemma GetFactoryIgnoresCase(a: string, b: string)
    requires ToLower(a) == ToLower(b)
    ensures GetFactory(a).Success? <==> GetFactory(b).Success?
    ensures GetFactory(a).Success? ==> GetFactory(a) == GetFactory(b)
  {
  }

  /** Every enum value resolves to the factory of its own brand. */
  lemma GetFactoryOfEnumValue(b: DeviceBrand)
    ensures GetFactory(b.Value()) == Success(DeviceFactory(b))
  {
    ToLowerOfLower(b.Value());
  }

  /** Every brand `getAvailableBrands()` offers is accepted by `getFactory`. */
  lemma AvailableBrandsResolve()
    ensures forall v :: v in GetAvailableBrands() ==> GetFactory(v).Success?
  {
    GetFactoryOfEnumValue(Xiaomi);
    GetFactoryOfEnumValue(PhilipsHue);
  }

  /** The brand name of a resolved factory follows the matched arm. */
  lemma BrandNameOfResolved(brand: string)
    requires GetFactory(brand).Success?
    ensures GetBrandName(GetFactory(brand).value) == (if ToLower(brand) == "xiaomi" then "Xiaomi" else "Philips Hue")
  {
  }

  /** A factory's brand name is the label its devices report, so creating and describing agree. */
  lemma BrandNameIsDeviceLabel(f: DeviceFactory)
    ensures GetBrandName(f) == BrandLabel(f.brand)
  {
  }

  /**
   * Feeding a device's reported brand label back into the resolver: 'Xiaomi' resolves to the Xiaomi
   * factory, but 'Philips Hue' lower-cases to 'philips hue', which no arm matches.
   */
  lemma LabelRoundTrip(b: DeviceBrand)
    ensures GetFactory(BrandLabel(b)).Success? <==> b == Xiaomi
    ensures b == Xiaomi ==> GetFactory(BrandLabel(b)) == Success(DeviceFactory(Xiaomi))
    ensures b == PhilipsHue ==> GetFactory(BrandLabel(b)) == Failure(UnknownBrand("Philips Hue"))
  {
    match b
    case Xiaomi => XiaomiLabelResolves();
    case PhilipsHue => PhilipsHueLabelRejected();
  }

  /** 'Xiaomi' lower-cases to the Xiaomi enum value. */
  lemma XiaomiLabelResolves()
    ensures GetFactory("Xiaomi") == Success(DeviceFactory(Xiaomi))
  {
    var r := ToLower("Xiaomi");
    assert r[0] == 'x' && r[1] == 'i' && r[2] == 'a' && r[3] == 'o' && r[4] == 'm' && r[5] == 'i';
    assert r == "xiaomi";
  }

  /** 'Philips Hue' lower-cases to 'philips hue', which is longer than either value the match lists. */
  lemma PhilipsHueLabelRejected()
    ensures GetFactory("Philips Hue") == Failure(UnknownBrand("Philips Hue"))
  {
    assert |ToLower("Philips Hue")| == 11;
  }

  /** An upper-case spelling of an enum value resolves like the value itself. */
  lemma UpperCaseResolves()
    ensures GetFactory("XIAOMI") == GetFactory("xiaomi") == Success(DeviceFactory(Xiaomi))
  {
    var r := ToLower("XIAOMI");
    assert r[0] == 'x' && r[1] == 'i' && r[2] == 'a' && r[3] == 'o' && r[4] == 'm' && r[5] == 'i';
    assert r == "xiaomi";
    GetFactoryOfEnumValue(Xiaomi);
  }

  /** The second match arm accepts 'philips' in any case. */
  lemma CapitalisedPhilipsResolves()
    ensures GetFactory("Philips") == Success(DeviceFactory(PhilipsHue))
  {
    var r := ToLower("Philips");
    assert r[0] == 'p' && r[1] == 'h' && r[2] == 'i' && r[3] == 'l' && r[4] == 'i' && r[5] == 'p' && r[6] == 's';
    assert r == "philips";
  }

  /** No arm lists 'philips_hue', so that spelling is rejected with the string as given. */
  lemma PhilipsHueSpellingRejected()
    ensures GetFactory("philips_hue") == Failure(UnknownBrand("philips_hue"))
  {
    assert |ToLower("philips_hue")| == 11;
  }

  /** A brand of no enum case is rejected with the string as given. */
  lemma UnknownBrandRejected()
    ensures GetFactory("acme") == Failure(UnknownBrand("acme"))
  {
    assert |ToLower("acme")| == 4;
  }
}
