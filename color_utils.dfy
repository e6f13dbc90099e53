/** The dashboard's colour scheme: fixed colours per partner type, project
    status and region with a grey fallback, the official colour of each of the
    17 SDGs, and an eight-colour cycle for chart series. */
module ColorUtils {
  import opened Common
  import opened DashboardUtils

  const Primary: string := "#009cdc"
  const Secondary: string := "#f47a42"
  const ThemeGrey: string := "#9c9c9c"

  /** The colour for a key missing from a table. */
  const Fallback: string := "#95a5a6"

  /** The colour for anything that is not an SDG number. */
  const NoSdg: string := "#777777"

  /** An object literal used as a colour table: keys in declaration order. */
  datatype Swatch = Swatch(key: string, color: string)

  const TypeColors: seq<Swatch> := [
    Swatch("Private Sector", Primary), Swatch("Government", Secondary), Swatch("NGO", "#4caf50"),
    Swatch("Academic", "#9c27b0"), Swatch("International Organization", "#ff9800"),
    Swatch("UN Agency", "#1976d2")]

  const StatusColors: seq<Swatch> := [
    Swatch("Planning", Primary), Swatch("In Progress", Secondary), Swatch("Completed", "#4caf50"),
    Swatch("Active", Primary)]

  const RegionColors: seq<Swatch> := [
    Swatch("Africa", "#3498db"), Swatch("Asia", "#e74c3c"), Swatch("Europe", "#2ecc71"),
    Swatch("Latin America", "#f1c40f"), Swatch("Middle East", "#9b59b6"),
    Swatch("North America", "#1abc9c"), Swatch("Oceania", "#34495e")]

  const ChartColors: seq<string> := [Primary, Secondary, "#4caf50", "#9c27b0", "#ff9800", ThemeGrey, "#607d8b", "#ffc107"]

  /** The SDG colours, SDG n at position n - 1. */
  const SdgColors: seq<string> := [
    "#E5243B", "#DDA63A", "#4C9F38", "#C5192D", "#FF3A21", "#26BDE2", "#FCC30B", "#A21942",
    "#FD6925", "#DD1367", "#FD9D24", "#BF8B2E", "#3F7E44", "#0A97D9", "#56C02B", "#00689D",
    "#19486A"]

  /** `table[key] || fallback`; every colour in the tables is a non-empty
      string, so `||` falls back only for a missing key. */
  function ColorOf(table: seq<Swatch>, key: string, fallback: string): (c: string)
    ensures (exists i :: 0 <= i < |table| && table[i].key == key) ==>
      exists i :: 0 <= i < |table| && table[i].key == key && c == table[i].color
                  && forall k :: 0 <= k < i ==> table[k].key != key
    ensures (forall i :: 0 <= i < |table| ==> table[i].key != key) ==> c == fallback
  {
    if table == [] then fallback
    else if table[0].key == key then table[0].color
    else
      var c := ColorOf(table[1..], key, fallback);
      assert forall k :: 0 <= k < |table| - 1 ==> table[1..][k] == table[k + 1];
      c
  }

  function RegionColor(region: string): string
  {
    ColorOf(RegionColors, region, Fallback)
  }

  function PartnerTypeColor(t: string): string
  {
    ColorOf(TypeColors, t, Fallback)
  }

  function StatusColor(s: string): string
  {
    ColorOf(StatusColors, s, Fallback)
  }

  /** A key listed at position i, and at no earlier position, gets colour i. */
  lemma {:induction false} ColorAt(table: seq<Swatch>, i: nat, fallback: string)
    requires i < |table| && forall k :: 0 <= k < i ==> table[k].key != table[i].key
    ensures ColorOf(table, table[i].key, fallback) == table[i].color
  {
    if i > 0 {
      ColorAt(table[1..], i - 1, fallback);
    }
  }

  /** Some entries of the tables as shipped. */
  lemma TypeLookups()
    ensures PartnerTypeColor("Government") == Secondary && PartnerTypeColor("UN Agency") == "#1976d2"
  {
    var t := TypeColors;
    assert t[0].key != t[1].key by { assert |t[0].key| != |t[1].key|; }
    ColorAt(t, 1, Fallback);
    assert forall k :: 0 <= k < 5 ==> |t[k].key| != |t[5].key|;
    ColorAt(t, 5, Fallback);
  }

  /** "Planning" and "Active" share the primary colour. */
  lemma StatusLookups()
    ensures StatusColor("Planning") == StatusColor("Active") == Primary
  {
    var t := StatusColors;
    ColorAt(t, 0, Fallback);
    assert forall k :: 0 <= k < 3 ==> |t[k].key| != |t[3].key|;
    ColorAt(t, 3, Fallback);
  }

  lemma RegionLookups()
    ensures RegionColor("Oceania") == "#34495e" && RegionColor("Africa") == "#3498db"
  {
    var t := RegionColors;
    ColorAt(t, 0, Fallback);
    assert forall k :: 0 <= k < 6 ==> t[k].key[0] != t[6].key[0];
    ColorAt(t, 6, Fallback);
  }

  // ===========================================================================
  // getSDGColor

  /** The argument: an SDG number, or a name such as "SDG 7". */
  datatype SdgIdentifier = Number(n: int) | Name(text: string)

  /** `sdgColors[n] || '#777777'` for a whole number n. */
  function SdgNumberColor(n: int): (c: string)
    ensures 1 <= n <= 17 ==> c == SdgColors[n - 1]
    ensures !(1 <= n <= 17) ==> c == NoSdg
  {
    if 1 <= n <= 17 then SdgColors[n - 1] else NoSdg
  }

  /** A name has its first "SDG " removed and is read with parseInt; a name
      that yields no number (NaN) gets the no-SDG colour. */
  function SdgColor(id: SdgIdentifier): string
  {
    match id
    case Number(n) => SdgNumberColor(n)
    case Name(text) =>
      match ParseInt(ReplaceFirst(text, "SDG ", ""))
      case None => NoSdg
      case Some(n) => SdgNumberColor(n)
  }

  /** The label `SDG n` gets the colour of the number n. */
  lemma SdgNameColor(n: int)
    ensures SdgColor(Name(SdgName(n))) == SdgColor(Number(n))
  {
    ReplaceFirstOfPrefix("SDG ", IntToString(n));
    ParseIntOfIntToString(n);
  }

  /** Only the 17 SDG numbers have colours of their own, all different from
      the no-SDG grey. */
  lemma SdgColorRange(n: int)
    ensures 1 <= n <= 17 ==> SdgColor(Number(n)) != NoSdg
    ensures !(1 <= n <= 17) ==> SdgColor(Number(n)) == NoSdg
  {
    assert forall i :: 0 <= i < |SdgColors| ==> SdgColors[i][1] != '7';
  }

  // ===========================================================================
  // getChartColor

  /** JavaScript's `index % 8`: the remainder takes the sign of the dividend. */
  function JsRem8(a: int): (r: int)
    ensures a >= 0 ==> r == a % 8
    ensures a < 0 ==> -8 < r <= 0 && (a - r) % 8 == 0
  {
    if a >= 0 then a % 8 else -((-a) % 8)
  }

  /** `chartColors[index % chartColors.length]`: a negative index with a
      non-zero remainder reads past the array (undefined, written None), and
      -0 reads entry 0. */
  function ChartColor(index: int): (c: Option<string>)
    ensures index >= 0 ==> c == Some(ChartColors[index % 8])
  {
    var r := JsRem8(index);
    if 0 <= r then Some(ChartColors[r]) else None
  }

  /** The chart colours repeat with period 8 over the non-negative indices;
      a negative index is coloured only when it is a multiple of 8. */
  lemma ChartColorCycle(index: int)
    ensures index >= 0 ==> ChartColor(index + 8) == ChartColor(index)
    ensures index < 0 ==> (ChartColor(index).Some? <==> index % 8 == 0)
    ensures index < 0 && index % 8 == 0 ==> ChartColor(index) == Some(Primary)
  {
    if index < 0 {
      assert (-index) % 8 == 0 <==> index % 8 == 0;
    }
  }
}
