/** The tenant store (stores/tenant.ts): the municipality whose branding the
    site shows, its display getters with their platform defaults, the mapping
    of a Drupal domain record to a tenant, colour lightening and darkening
    for the branding palette, and the settings and storage updates. */
module Tenant {
  import opened Wrappers
  import Text
  import Json
  import Arith

  // ---------------------------------------------------------------------------
  // Hexadecimal colours

  predicate AllHex(s: string) {
    forall i :: 0 <= i < |s| ==> Text.IsHexDigit(s[i])
  }

  /** `s.replace('#', '')`: the first '#' removed, the rest kept. */
  function RemoveFirstHash(s: string): (r: string)
    ensures '#' !in s ==> r == s
    ensures |s| > 0 && s[0] == '#' ==> r == s[1..]
    ensures |r| == if '#' in s then |s| - 1 else |s|
  {
    if |s| == 0 then ""
    else if s[0] == '#' then s[1..]
    else [s[0]] + RemoveFirstHash(s[1..])
  }

  /** The longest prefix of hexadecimal digits: what `parseInt(s, 16)` reads. */
  function HexRun(s: string): (r: string)
    ensures r <= s && AllHex(r)
    ensures |r| < |s| ==> !Text.IsHexDigit(s[|r|])
  {
    if |s| == 0 || !Text.IsHexDigit(s[0]) then ""
    else [s[0]] + HexRun(s[1..])
  }

  function Pow16(k: nat): (p: nat)
    ensures p > 0
  {
    if k == 0 then 1 else 16 * Pow16(k - 1)
  }

  /** The number a string of hexadecimal digits denotes, either case. */
  function HexValue(s: string): (v: nat)
    requires AllHex(s)
    ensures v < Pow16(|s|)
  {
    if |s| == 0 then 0 else HexValue(s[..|s| - 1]) * 16 + Text.HexDigitValue(s[|s| - 1])
  }

  /** `parseInt(s, 16)`: the value of the leading hex digits, or None for NaN when there are none. */
  function ParseHex(s: string): (r: Option<nat>)
    ensures r.None? <==> HexRun(s) == ""
  {
    var run := HexRun(s);
    if run == "" then None else Some(HexValue(run))
  }

  /** The colour strings the model reads: after the first '#' is removed, no
      leading white space, sign or `0x` (which `parseInt` would skip or
      honour) and at most six leading hex digits. A colour of at most six hex
      digits is read even without its '#' (DecodeDigits covers the '#' form). */
  function ColorInput(color: string): (r: bool)
    ensures |color| <= 6 && AllHex(color) ==> r
  {
    HexRunAllHex(color);
    var s := RemoveFirstHash(color);
    && (|s| > 0 ==> !Text.IsJsSpace(s[0]) && s[0] != '+' && s[0] != '-')
    && !(|s| >= 2 && s[0] == '0' && (s[1] == 'x' || s[1] == 'X'))
    && |HexRun(s)| <= 6
  }

  /** The parsed number as the bit operations see it: NaN acts as 0. */
  function ColorNumber(color: string): (n: nat)
    requires ColorInput(color)
    ensures n < 0x100_0000
  {
    var p := ParseHex(RemoveFirstHash(color));
    if p.None? then 0
    else
      assert Pow16(|HexRun(RemoveFirstHash(color))|) <= Pow16(6) by {
        Pow16Mono(|HexRun(RemoveFirstHash(color))|, 6);
      }
      p.value
  }

  lemma {:induction false} Pow16Mono(j: nat, k: nat)
    requires j <= k
    ensures Pow16(j) <= Pow16(k)
    decreases k
  {
    if j < k {
      Pow16Mono(j, k - 1);
    }
  }

  datatype Rgb = Rgb(red: nat, green: nat, blue: nat)

  predicate ValidRgb(c: Rgb) {
    c.red < 256 && c.green < 256 && c.blue < 256
  }

  /** `num >> 16`, `(num >> 8) & 0xff` and `num & 0xff` for a 24-bit number. */
  function Unpack(n: nat): (c: Rgb)
    requires n < 0x100_0000
    ensures ValidRgb(c)
    ensures n == c.red * 0x1_0000 + c.green * 0x100 + c.blue
  {
    Rgb(n / 0x1_0000, n / 0x100 % 0x100, n % 0x100)
  }

  function Pack(c: Rgb): (n: nat)
    requires ValidRgb(c)
    ensures n < 0x100_0000
  {
    c.red * 0x1_0000 + c.green * 0x100 + c.blue
  }

  lemma UnpackPack(c: Rgb)
    requires ValidRgb(c)
    ensures Unpack(Pack(c)) == c
  {
    var n := Pack(c);
    Arith.DivModUnique(n, 0x1_0000, c.red, c.green * 0x100 + c.blue);
    Arith.DivModUnique(n, 0x100, c.red * 0x100 + c.green, c.blue);
    Arith.DivModUnique(c.red * 0x100 + c.green, 0x100, c.red, c.green);
  }

  /** The channels of a colour string. */
  function Channels(color: string): (c: Rgb)
    requires ColorInput(color)
    ensures ValidRgb(c)
  {
    Unpack(ColorNumber(color))
  }

  /** `n.toString(16)`: lower-case hexadecimal digits without leading zeros. */
  function ToHex(n: nat): (s: string)
    ensures |s| > 0
    decreases n
  {
    if n < 16 then [Text.HexDigitChar(n)] else ToHex(n / 16) + [Text.HexDigitChar(n % 16)]
  }

  /** x written with exactly k lower-case hexadecimal digits. */
  function HexPad(x: nat, k: nat): (s: string)
    requires x < Pow16(k)
    ensures |s| == k && AllHex(s)
    ensures forall i :: 0 <= i < k ==> !('A' <= s[i] <= 'F')
  {
    if k == 0 then "" else HexPad(x / 16, k - 1) + [Text.HexDigitChar(x % 16)]
  }

  /** Below 16^k, adding 16^k before printing puts a 1 in front of the k-digit form. */
  lemma {:induction false} ToHexLeadingOne(x: nat, k: nat)
    requires x < Pow16(k)
    ensures ToHex(Pow16(k) + x) == "1" + HexPad(x, k)
    decreases k
  {
    if k > 0 {
      var n := Pow16(k) + x;
      assert n / 16 == Pow16(k - 1) + x / 16 && n % 16 == x % 16;
      ToHexLeadingOne(x / 16, k - 1);
    }
  }

  lemma {:induction false} HexValuePad(x: nat, k: nat)
    requires x < Pow16(k)
    ensures HexValue(HexPad(x, k)) == x
    decreases k
  {
    if k > 0 {
      var s := HexPad(x, k);
      assert s[..|s| - 1] == HexPad(x / 16, k - 1);
      HexValuePad(x / 16, k - 1);
      Text.HexDigitRoundTrip(x % 16);
    }
  }

  /** A colour as the store writes it: '#' and six lower-case hexadecimal digits. */
  predicate IsEncodedColor(s: string) {
    |s| == 7 && s[0] == '#' && forall i :: 1 <= i < 7 ==> Text.IsHexDigit(s[i]) && !('A' <= s[i] <= 'F')
  }

  /** The template `#${(0x1000000 + R * 0x10000 + G * 0x100 + B).toString(16).slice(1)}`. */
  function Encode(c: Rgb): (s: string)
    requires ValidRgb(c)
  {
    "#" + ToHex(0x100_0000 + c.red * 0x1_0000 + c.green * 0x100 + c.blue)[1..]
  }

  /** Encoding gives the seven-character form, and reading it back gives the channels. */
  lemma EncodeDecode(c: Rgb)
    requires ValidRgb(c)
    ensures IsEncodedColor(Encode(c))
    ensures ColorInput(Encode(c)) && Channels(Encode(c)) == c
  {
    var n := Pack(c);
    EncodeDigits(c);
    var digits := HexPad(n, 6);
    DecodeDigits(digits);
    HexValuePad(n, 6);
    UnpackPack(c);
  }

  /** '#' followed by at most six hexadecimal digits reads as the number they denote. */
  lemma DecodeDigits(d: string)
    requires |d| <= 6 && AllHex(d)
    ensures ColorInput("#" + d) && ColorNumber("#" + d) == HexValue(d)
  {
    assert RemoveFirstHash("#" + d) == d;
    HexRunAllHex(d);
  }

  lemma {:induction false} HexRunAllHex(s: string)
    ensures AllHex(s) ==> HexRun(s) == s
  {
    if |s| > 0 && AllHex(s) {
      HexRunAllHex(s[1..]);
      assert s == [s[0]] + s[1..];
    }
  }

  function Min(a: int, b: int): int { if a < b then a else b }
  function Max(a: int, b: int): int { if a < b then b else a }

  /** lightenColor with the rounded shift `amt`: each channel moves up by amt, capped at 255. */
  function Lighten(color: string, amt: nat): (r: string)
    requires ColorInput(color)
    ensures IsEncodedColor(r) && ColorInput(r)
    ensures var c := Channels(color); var d := Channels(r);
      d == Rgb(Min(255, c.red + amt), Min(255, c.green + amt), Min(255, c.blue + amt))
    ensures var c := Channels(color); var d := Channels(r);
      d.red >= c.red && d.green >= c.green && d.blue >= c.blue
  {
    var c := Channels(color);
    var shifted := Rgb(Min(255, c.red + amt), Min(255, c.green + amt), Min(255, c.blue + amt));
    EncodeDecode(shifted);
    Encode(shifted)
  }

  /** darkenColor with the rounded shift `amt`: each channel moves down by amt, floored at 0. */
  function Darken(color: string, amt: nat): (r: string)
    requires ColorInput(color)
    ensures IsEncodedColor(r) && ColorInput(r)
    ensures var c := Channels(color); var d := Channels(r);
      d == Rgb(Max(0, c.red - amt), Max(0, c.green - amt), Max(0, c.blue - amt))
    ensures var c := Channels(color); var d := Channels(r);
      d.red <= c.red && d.green <= c.green && d.blue <= c.blue
  {
    var c := Channels(color);
    var shifted := Rgb(Max(0, c.red - amt), Max(0, c.green - amt), Max(0, c.blue - amt));
    EncodeDecode(shifted);
    Encode(shifted)
  }

  /** `Math.round(2.55 * percent)` computed exactly: the nearest integer, halves rounded up. */
  function Amount(percent: nat): (r: nat)
    ensures 100 * r <= 255 * percent + 50 < 100 * r + 100
  {
    (255 * percent + 50) / 100
  }

  /** The branding palette shifts every colour by 20 percent, that is by 51. */
  const BrandingPercent: nat := 20

  lemma BrandingAmount()
    ensures Amount(BrandingPercent) == 51
  {
  }

  /** Lightening by nothing or darkening by nothing keeps a colour's channels;
      lightening a white channel or darkening a black one leaves it where it is. */
  lemma ShiftFixedPoints(color: string, amt: nat)
    requires ColorInput(color)
    ensures Channels(Lighten(color, 0)) == Channels(color)
    ensures Channels(Darken(color, 0)) == Channels(color)
    ensures Channels(color).red == 255 ==> Channels(Lighten(color, amt)).red == 255
    ensures Channels(color).red == 0 ==> Channels(Darken(color, amt)).red == 0
  {
  }

  /** Darkening undoes lightening for a channel the cap did not reach. */
  lemma DarkenUndoesLighten(color: string, amt: nat)
    requires ColorInput(color)
    requires var c := Channels(color); c.red + amt <= 255 && c.green + amt <= 255 && c.blue + amt <= 255
    ensures Channels(Darken(Lighten(color, amt), amt)) == Channels(color)
  {
  }

  lemma EncodeDigits(c: Rgb)
    requires ValidRgb(c)
    ensures Encode(c) == "#" + HexPad(Pack(c), 6)
  {
    assert Pow16(6) == 0x100_0000;
    ToHexLeadingOne(Pack(c), 6);
  }

  lemma DefaultPrimaryChannels()
    ensures ColorInput(DefaultPrimary) && Channels(DefaultPrimary) == Rgb(0, 122, 204)
  {
    assert DefaultPrimary == "#" + "007acc";
    HexValueStep("", '0', "0", 0);
    HexValueStep("0", '0', "00", 0);
    HexValueStep("00", '7', "007", 0);
    HexValueStep("007", 'a', "007a", 7);
    HexValueStep("007a", 'c', "007ac", 0x7a);
    HexValueStep("007ac", 'c', "007acc", 0x7ac);
    DecodeDigits("007acc");
    UnpackPack(Rgb(0, 122, 204));
  }

  /** Appending a digit multiplies the value by 16 and adds the digit. */
  lemma HexValueStep(s: string, c: char, t: string, v: nat)
    requires AllHex(s) && Text.IsHexDigit(c) && HexValue(s) == v && t == s + [c]
    ensures AllHex(t) && HexValue(t) == v * 16 + Text.HexDigitValue(c)
  {
    assert t[..|s|] == s;
  }

  lemma HexPadStep(x: nat, k: nat, prefix: string, d: nat)
    requires 0 < k && x < Pow16(k) && d < 16 && x % 16 == d && HexPad(x / 16, k - 1) == prefix
    ensures HexPad(x, k) == prefix + [Text.HexDigitChar(d)]
  {
  }

  lemma PadPrimaryLight()
    ensures HexPad(0x33adff, 6) == "33adff"
  {
    HexPadStep(0x3, 1, "", 3);
    HexPadStep(0x33, 2, "3", 3);
    HexPadStep(0x33a, 3, "33", 10);
    HexPadStep(0x33ad, 4, "33a", 13);
    HexPadStep(0x33adf, 5, "33ad", 15);
    HexPadStep(0x33adff, 6, "33adf", 15);
  }

  lemma PadPrimaryDark()
    ensures HexPad(0x004799, 6) == "004799"
  {
    HexPadStep(0x0, 1, "", 0);
    HexPadStep(0x00, 2, "0", 0);
    HexPadStep(0x004, 3, "00", 4);
    HexPadStep(0x0047, 4, "004", 7);
    HexPadStep(0x00479, 5, "0047", 9);
    HexPadStep(0x004799, 6, "00479", 9);
  }

  lemma PadShorthandLight()
    ensures HexPad(0x3342ff, 6) == "3342ff"
  {
    HexPadStep(0x3, 1, "", 3);
    HexPadStep(0x33, 2, "3", 3);
    HexPadStep(0x334, 3, "33", 4);
    HexPadStep(0x3342, 4, "334", 2);
    HexPadStep(0x3342f, 5, "3342", 15);
    HexPadStep(0x3342ff, 6, "3342f", 15);
  }

  lemma EncodePrimaryLight()
    ensures Encode(Rgb(51, 173, 255)) == "#33adff"
  {
    EncodeDigits(Rgb(51, 173, 255));
    assert Pack(Rgb(51, 173, 255)) == 0x33adff;
    PadPrimaryLight();
  }

  lemma EncodePrimaryDark()
    ensures Encode(Rgb(0, 71, 153)) == "#004799"
  {
    EncodeDigits(Rgb(0, 71, 153));
    assert Pack(Rgb(0, 71, 153)) == 0x004799;
    PadPrimaryDark();
  }

  lemma EncodeShorthandLight()
    ensures Encode(Rgb(51, 66, 255)) == "#3342ff"
  {
    EncodeDigits(Rgb(51, 66, 255));
    assert Pack(Rgb(51, 66, 255)) == 0x3342ff;
    PadShorthandLight();
  }

  /** The platform's primary colour and its branding variants. */
  lemma DefaultPrimaryPalette()
    ensures Lighten(DefaultPrimary, 51) == "#33adff"
    ensures Darken(DefaultPrimary, 51) == "#004799"
  {
    DefaultPrimaryChannels();
    assert Lighten(DefaultPrimary, 51) == Encode(Rgb(51, 173, 255));
    assert Darken(DefaultPrimary, 51) == Encode(Rgb(0, 71, 153));
    EncodePrimaryLight();
    EncodePrimaryDark();
  }

  lemma ShorthandChannels()
    ensures ColorInput("#fff") && Channels("#fff") == Rgb(0, 15, 255)
  {
    assert "#fff" == "#" + "fff";
    HexValueStep("", 'f', "f", 0);
    HexValueStep("f", 'f', "ff", 15);
    HexValueStep("ff", 'f', "fff", 0xff);
    DecodeDigits("fff");
    UnpackPack(Rgb(0, 15, 255));
  }

  /** A three-digit shorthand colour is read as the number it spells, not
      expanded: "#fff" has channels 0, 15 and 255, so it lightens to "#3342ff". */
  lemma ShorthandColor()
    ensures ColorInput("#fff") && Channels("#fff") == Rgb(0, 15, 255)
    ensures Lighten("#fff", 51) == "#3342ff"
  {
    ShorthandChannels();
    assert Lighten("#fff", 51) == Encode(Rgb(51, 66, 255));
    EncodeShorthandLight();
  }

  // ---------------------------------------------------------------------------
  // Tenants

  /** Tenant; `settings` is the open settings object. */
  datatype Tenant = Tenant(
    name: string, domain: string, logo: Option<string>,
    primaryColor: Option<string>, secondaryColor: Option<string>,
    settings: Option<Json.Entries>)

  /** The attributes of a Drupal domain record that mapDomainToTenant reads. */
  datatype DomainRecord = DomainRecord(
    hostname: string, name: string, logoUrl: Option<string>,
    primaryColor: Option<string>, secondaryColor: Option<string>,
    thirdPartySettings: Option<Json.Entries>)

  const DefaultPrimary := "#007acc"
  const DefaultSecondary := "#28a745"
  const DefaultName := "ÅbenForms"
  const DefaultDomains := {"aabenforms.dk", "localhost", "127.0.0.1"}

  /** isDefaultTenant: the tenant is the platform's own domain. */
  function IsDefaultTenant(t: Option<Tenant>): (r: bool)
    ensures r <==> t.Some? && t.value.domain in DefaultDomains
  {
    t.Some? && (t.value.domain == "aabenforms.dk" || t.value.domain == "localhost" || t.value.domain == "127.0.0.1")
  }

  /** `tenant?.field || fallback` for the optional string fields. */
  function FieldOr(t: Option<Tenant>, field: Tenant -> Option<string>, fallback: string): (r: string)
    ensures r != "" || fallback == ""
    ensures t.Some? && field(t.value).Some? && field(t.value).value != "" ==> r == field(t.value).value
    ensures t.None? || field(t.value).None? || field(t.value).value == "" ==> r == fallback
  {
    if t.Some? then Json.OrDefault(field(t.value), fallback) else fallback
  }

  /** primaryColor: the tenant's colour, or #007acc when it is missing or empty. */
  function PrimaryColor(t: Option<Tenant>): (r: string)
    ensures t.Some? && t.value.primaryColor.Some? && t.value.primaryColor.value != "" ==> r == t.value.primaryColor.value
    ensures t.None? || t.value.primaryColor.None? || t.value.primaryColor.value == "" ==> r == DefaultPrimary
  {
    FieldOr(t, (x: Tenant) => x.primaryColor, DefaultPrimary)
  }

  /** secondaryColor: the tenant's colour, or #28a745 when it is missing or empty. */
  function SecondaryColor(t: Option<Tenant>): (r: string)
    ensures t.Some? && t.value.secondaryColor.Some? && t.value.secondaryColor.value != "" ==> r == t.value.secondaryColor.value
    ensures t.None? || t.value.secondaryColor.None? || t.value.secondaryColor.value == "" ==> r == DefaultSecondary
  {
    FieldOr(t, (x: Tenant) => x.secondaryColor, DefaultSecondary)
  }

  /** logoUrl: the tenant's logo when it is a non-empty string, otherwise null. */
  function LogoUrl(t: Option<Tenant>): (r: Option<string>)
    ensures r.Some? <==> t.Some? && t.value.logo.Some? && t.value.logo.value != ""
    ensures r.Some? ==> r == t.value.logo
  {
    if t.Some? && t.value.logo.Some? && t.value.logo.value != "" then t.value.logo else None
  }

  /** tenantName: the tenant's name, or ÅbenForms when there is no tenant or the name is empty. */
  function TenantName(t: Option<Tenant>): (r: string)
    ensures r != ""
    ensures t.Some? && t.value.name != "" ==> r == t.value.name
    ensures t.None? || t.value.name == "" ==> r == DefaultName
  {
    if t.Some? && t.value.name != "" then t.value.name else DefaultName
  }

  /** isMitIdEnabled: on unless the settings hold exactly `false` for it. */
  function IsMitIdEnabled(t: Option<Tenant>): (r: bool)
    ensures !r <==> t.Some? && t.value.settings.Some? && Json.Get(t.value.settings.value, "enableMitId") == Some(Json.Bool(false))
  {
    !(t.Some? && t.value.settings.Some? && Json.Get(t.value.settings.value, "enableMitId") == Some(Json.Bool(false)))
  }

  /** `obj?.key` on an optional object value: undefined unless it is an object holding the key. */
  function Member(v: Option<Json.Value>, key: string): Option<Json.Value> {
    if v.Some? && v.value.Obj? then Json.Get(v.value.entries, key) else None
  }

  /** `x || fallback` on a value that may be undefined. */
  function ValueOr(v: Option<Json.Value>, fallback: Json.Value): (r: Json.Value)
    ensures Json.Present(v) ==> r == v.value
    ensures !Json.Present(v) ==> r == fallback
  {
    if Json.Present(v) then v.value else fallback
  }

  /** The three settings mapDomainToTenant derives from `third_party_settings.aabenforms`. */
  function DerivedSettings(tps: Json.Entries): (r: Json.Entries)
    ensures Json.UniqueKeys(r)
  {
    var own := Json.Get(tps, "aabenforms");
    [("enableMitId", Json.Bool(Member(own, "enable_mitid") != Some(Json.Bool(false)))),
     ("defaultLanguage", ValueOr(Member(own, "default_language"), Json.Str("da"))),
     ("timezone", ValueOr(Member(own, "timezone"), Json.Str("Europe/Copenhagen")))]
  }

  /** mapDomainToTenant: the record's name, host and logo, its colours with
      the platform defaults, and its third-party settings with three derived
      keys laid over them. */
  function MapDomainToTenant(d: DomainRecord): (t: Tenant)
    ensures t.name == d.name && t.domain == d.hostname && t.logo == d.logoUrl
    ensures t.primaryColor == Some(Json.OrDefault(d.primaryColor, DefaultPrimary))
    ensures t.secondaryColor == Some(Json.OrDefault(d.secondaryColor, DefaultSecondary))
    ensures t.settings.Some?
    ensures var tps := d.thirdPartySettings.GetOr([]);
      forall k :: k != "enableMitId" && k != "defaultLanguage" && k != "timezone" ==>
        Json.Get(t.settings.value, k) == Json.Get(tps, k)
    ensures var tps := d.thirdPartySettings.GetOr([]);
      && Json.Get(t.settings.value, "enableMitId") == Some(Json.Bool(Member(Json.Get(tps, "aabenforms"), "enable_mitid") != Some(Json.Bool(false))))
      && Json.Get(t.settings.value, "defaultLanguage") == Some(ValueOr(Member(Json.Get(tps, "aabenforms"), "default_language"), Json.Str("da")))
      && Json.Get(t.settings.value, "timezone") == Some(ValueOr(Member(Json.Get(tps, "aabenforms"), "timezone"), Json.Str("Europe/Copenhagen")))
  {
    var tps := d.thirdPartySettings.GetOr([]);
    var extra := DerivedSettings(tps);
    var settings := Json.Merge(tps, extra);
    assert Json.Get(extra, "defaultLanguage") == Some(extra[1].1) by {
      assert extra[1..][0].0 == "defaultLanguage";
    }
    assert Json.Get(extra, "timezone") == Some(extra[2].1) by {
      var tail := extra[1..][1..];
      assert tail[0].0 == "timezone";
      assert Json.Get(tail, "timezone") == Some(extra[2].1);
      assert extra[1..][0].0 != "timezone";
      assert Json.Get(extra[1..], "timezone") == Json.Get(tail, "timezone");
    }
    assert forall k :: Json.Get(settings, k) == if Json.Get(extra, k).Some? then Json.Get(extra, k) else Json.Get(tps, k) by {
      forall k ensures Json.Get(settings, k) == if Json.Get(extra, k).Some? then Json.Get(extra, k) else Json.Get(tps, k) {
        Json.GetMerge(tps, extra, k);
      }
    }
    Tenant(
      d.name, d.hostname, d.logoUrl,
      Some(Json.OrDefault(d.primaryColor, DefaultPrimary)),
      Some(Json.OrDefault(d.secondaryColor, DefaultSecondary)),
      Some(settings))
  }

  /** A mapped tenant has MitID on unless its record's aabenforms settings turn it off with exactly `false`. */
  lemma MappedMitId(d: DomainRecord)
    ensures IsMitIdEnabled(Some(MapDomainToTenant(d))) <==>
      Member(Json.Get(d.thirdPartySettings.GetOr([]), "aabenforms"), "enable_mitid") != Some(Json.Bool(false))
  {
  }

  /** A mapped tenant's colour getters agree with what the record sent, defaults included. */
  lemma MappedColors(d: DomainRecord)
    ensures PrimaryColor(Some(MapDomainToTenant(d))) == Json.OrDefault(d.primaryColor, DefaultPrimary)
    ensures SecondaryColor(Some(MapDomainToTenant(d))) == Json.OrDefault(d.secondaryColor, DefaultSecondary)
  {
    assert Json.OrDefault(d.primaryColor, DefaultPrimary) != "";
    assert Json.OrDefault(d.secondaryColor, DefaultSecondary) != "";
  }

  /** The platform tenant setDefaultTenant installs for a host name. */
  function DefaultTenant(hostname: string): (t: Tenant)
    ensures t.domain == hostname
  {
    Tenant(DefaultName, hostname, None, Some(DefaultPrimary), Some(DefaultSecondary),
      Some([("enableMitId", Json.Bool(true)), ("defaultLanguage", Json.Str("da")), ("timezone", Json.Str("Europe/Copenhagen"))]))
  }

  /** The platform tenant shows the platform defaults, has MitID on, and is the
      default tenant exactly when the host is one of the platform's domains. */
  lemma DefaultTenantGetters(hostname: string)
    ensures var t := Some(DefaultTenant(hostname));
      && PrimaryColor(t) == DefaultPrimary && SecondaryColor(t) == DefaultSecondary
      && TenantName(t) == DefaultName && LogoUrl(t) == None
      && IsMitIdEnabled(t) && (IsDefaultTenant(t) <==> hostname in DefaultDomains)
  {
  }

  /** `{ ...settings, ...update }` applied to a tenant. */
  function WithSettings(t: Tenant, update: Json.Entries): Tenant {
    t.(settings := Some(Json.Merge(t.settings.GetOr([]), update)))
  }

  /** updateSettings changes only the settings, and there the update wins and the other keys stay. */
  lemma WithSettingsGet(t: Tenant, update: Json.Entries, k: string)
    requires Json.UniqueKeys(update)
    ensures var u := WithSettings(t, update);
      && u.name == t.name && u.domain == t.domain && u.logo == t.logo
      && u.primaryColor == t.primaryColor && u.secondaryColor == t.secondaryColor
      && Json.Get(u.settings.value, k) ==
           if Json.Get(update, k).Some? then Json.Get(update, k) else Json.Get(t.settings.GetOr([]), k)
  {
    Json.GetMerge(t.settings.GetOr([]), update, k);
  }

  /** The object `JSON.stringify(tenant)` writes; undefined fields are omitted. */
  function TenantValue(t: Tenant): Json.Value {
    Json.Obj(
      [("name", Json.Str(t.name)), ("domain", Json.Str(t.domain))]
      + (if t.logo.Some? then [("logo", Json.Str(t.logo.value))] else [])
      + (if t.primaryColor.Some? then [("primaryColor", Json.Str(t.primaryColor.value))] else [])
      + (if t.secondaryColor.Some? then [("secondaryColor", Json.Str(t.secondaryColor.value))] else [])
      + (if t.settings.Some? then [("settings", Json.Obj(t.settings.value))] else []))
  }

  const TenantKey := "tenant_data"

  class TenantStore {
    var tenant: Option<Tenant>
    var loading: bool
    var error: Option<string>
    /** localStorage. */
    var storage: map<string, string>

    constructor (storage0: map<string, string>)
      ensures tenant == None && !loading && error == None && storage == storage0
    {
      tenant := None;
      loading := false;
      error := None;
      storage := storage0;
    }

    /** updateSettings: nothing without a tenant; otherwise the settings are
        merged and the whole tenant is written to storage. */
    method UpdateSettings(update: Json.Entries)
      modifies this`tenant, this`storage
      ensures old(tenant).None? ==> tenant == None && storage == old(storage)
      ensures old(tenant).Some? ==>
        && tenant == Some(WithSettings(old(tenant).value, update))
        && storage == old(storage)[TenantKey := Json.Serialize(TenantValue(tenant.value))]
    {
      if tenant.Some? {
        var t := WithSettings(tenant.value, update);
        tenant := Some(t);
        storage := storage[TenantKey := Json.Serialize(TenantValue(t))];
      }
    }

    /** clearTenant: no tenant, no error, and the stored tenant removed. */
    method ClearTenant()
      modifies this`tenant, this`error, this`storage
      ensures tenant == None && error == None
      ensures storage == old(storage) - {TenantKey}
    {
      tenant := None;
      error := None;
      storage := storage - {TenantKey};
    }

    /** setDefaultTenant for the current host name; storage is not written. */
    method SetDefaultTenant(hostname: string)
      modifies this`tenant
      ensures tenant == Some(DefaultTenant(hostname))
    {
      tenant := Some(DefaultTenant(hostname));
    }
  }
}
