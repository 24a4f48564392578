/** The `DeviceBrand` string-backed enum: the brands a device family can come from. */
module DeviceBrands {

  /** The two cases, in declaration order: XIAOMI = 'xiaomi', PHILIPS_HUE = 'philips'. */
  datatype DeviceBrand = Xiaomi | PhilipsHue {

    /** The backing value of the case. Note that PHILIPS_HUE is backed by 'philips'. */
    function Value(): (v: string)
      ensures v == (if this == Xiaomi then "xiaomi" else "philips")
    {
      match this
      case Xiaomi => "xiaomi"
      case PhilipsHue => "philips"
    }

    /** `displayName()`: the human-readable name of the brand. */
    function DisplayName(): (n: string)
      ensures n == (if this == Xiaomi then "Xiaomi" else "Philips Hue")
    {
      match this
      case Xiaomi => "Xiaomi"
      case PhilipsHue => "Philips Hue"
    }
  }

  /** `cases()`: every case, in declaration order. */
  function Cases(): seq<DeviceBrand> {
    [Xiaomi, PhilipsHue]
  }

  /** Every brand is one of the listed cases, exactly once. */
  lemma CasesComplete(b: DeviceBrand)
    ensures b in Cases()
    ensures forall i, j :: 0 <= i < j < |Cases()| ==> Cases()[i] != Cases()[j]
  {
    match b
    case Xiaomi => assert Cases()[0] == b;
    case PhilipsHue => assert Cases()[1] == b;
  }

  /** `values()`: the backing value of each case, at the index of the case. */
  function Values(): (vs: seq<string>)
    ensures |vs| == |Cases()|
    ensures forall i :: 0 <= i < |vs| ==> vs[i] == Cases()[i].Value()
    ensures vs == ["xiaomi", "philips"]
  {
    seq(|Cases()|, i requires 0 <= i < |Cases()| => Cases()[i].Value())
  }

  /** `displayNames()`: the display name of each case, at the index of the case. */
  function DisplayNames(): (ns: seq<string>)
    ensures |ns| == |Values()|
    ensures forall i :: 0 <= i < |ns| ==> ns[i] == Cases()[i].DisplayName()
    ensures ns == ["Xiaomi", "Philips Hue"]
  {
    seq(|Cases()|, i requires 0 <= i < |Cases()| => Cases()[i].DisplayName())
  }

  /** Backing values tell the cases apart, and so do display names. */
  lemma ValuesAndNamesDistinct(a: DeviceBrand, b: DeviceBrand)
    ensures a.Value() == b.Value() <==> a == b
    ensures a.DisplayName() == b.DisplayName() <==> a == b
  {
  }

  /** The lists of values and of display names have no repeated entry. */
  lemma ListsHaveNoDuplicates()
    ensures forall i, j :: 0 <= i < j < |Values()| ==> Values()[i] != Values()[j]
    ensures forall i, j :: 0 <= i < j < |DisplayNames()| ==> DisplayNames()[i] != DisplayNames()[j]
  {
  }
}
