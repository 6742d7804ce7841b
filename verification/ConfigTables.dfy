/** The keys and defaults the thin client ships, and the theorems for them. */
module ConfigTables {
  import opened Text
  import opened Config
  import opened ConfigProofs

  const DEVICE_FIELDS: Fields := map[
    HostnamePrefix := TEXT, KeyboardLayout := TEXT, KeyboardVariant := TEXT, Timezone := TEXT,
    NtpServer := TEXT, Resolution := TEXT, AdminPassword := Config.Text(false), AutoConnect := TEXT,
    AllowSettings := Flag, AllowConsole := Flag, AllowTerminal := Flag, SessionBar := Flag, ShowIp := Flag,
    ScreenBlankMinutes := Range(0, 180)]

  const DEVICE_DEFAULTS: Table := map[
    HostnamePrefix := Str("thin"), KeyboardLayout := Str("us"), KeyboardVariant := Str(""), Timezone := Str("UTC"),
    NtpServer := Str("pool.ntp.org"), Resolution := Str("auto"), AdminPassword := Str(""), AutoConnect := Str(""),
    AllowSettings := Bool(true), AllowConsole := Bool(false), AllowTerminal := Bool(false),
    SessionBar := Bool(true), ShowIp := Bool(true), ScreenBlankMinutes := Int(0)]

  const PROTOCOLS := ["rdp", "vnc"]

  const CONNECTION_FIELDS: Fields := map[
    Id := TEXT, Name := TEXT, Group := TEXT, Description := TEXT, Host := TEXT, Username := TEXT, Domain := TEXT,
    Password := Config.Text(false), Gateway := TEXT, GatewayUsername := TEXT, GatewayDomain := TEXT, App := TEXT,
    PromptCredentials := Flag, AudioOut := Flag, AudioIn := Flag, RedirectClipboard := Flag,
    RedirectUsbStorage := Flag, RedirectUsbDevices := Flag, RedirectSmartcard := Flag, RedirectPrinters := Flag,
    AutoReconnect := Flag,
    Protocol := Choice(PROTOCOLS), CertPolicy := Choice(["ignore", "tofu", "strict"]),
    Security := Choice(["auto", "nla", "tls", "rdp"]), Gfx := Choice(["auto", "avc444", "avc420", "rfx", "none"]),
    Network := Choice(["auto", "lan", "broadband", "modem"]),
    DisplayMode := Display, Port := Range(1, 65535), ReconnectDelay := Range(2, 120), ExtraArgs := Words]

  const CONNECTION_DEFAULTS: Table := map[
    Id := Str(""), Name := Str(""), Group := Str("Connections"), Description := Str(""), Host := Str(""),
    Username := Str(""), Domain := Str(""), Password := Str(""), Gateway := Str(""), GatewayUsername := Str(""),
    GatewayDomain := Str(""), App := Str(""),
    PromptCredentials := Bool(true), AudioOut := Bool(true), AudioIn := Bool(true), RedirectClipboard := Bool(true),
    RedirectUsbStorage := Bool(true), RedirectUsbDevices := Bool(false), RedirectSmartcard := Bool(true),
    RedirectPrinters := Bool(true), AutoReconnect := Bool(true),
    Protocol := Str("rdp"), CertPolicy := Str("strict"), Security := Str("auto"), Gfx := Str("auto"),
    Network := Str("auto"), DisplayMode := Str("fullscreen"), Port := Int(3389), ReconnectDelay := Int(5),
    ExtraArgs := Arr([])]

  const THINCLIENT := Profile(DEVICE_FIELDS, DEVICE_DEFAULTS, CONNECTION_FIELDS, CONNECTION_DEFAULTS,
                               PROTOCOLS, 3389, 5900)

  lemma DefaultIsNormal(k: Kind, v: Json)
    requires match k
             case Text(_) => v.Str? && Trimmed(v.s)
             case Choice(choices) =>
               v.Str? && Trimmed(v.s) && v.s in choices && forall i :: 0 <= i < |v.s| ==> !('A' <= v.s[i] <= 'Z')
             case Display => v == Str("fullscreen")
             case _ => Normal(k, v)
    ensures Normal(k, v)
  {
    if k.Text? { TextIsNormal(k.strip, v.s); }
    if k.Choice? || k.Display? { FoldedWord(v.s); }
  }

  lemma DeviceDefaultsFit()
    ensures Fits(DEVICE_FIELDS, DEVICE_DEFAULTS)
  {
    forall k | k in DEVICE_FIELDS ensures k in DEVICE_DEFAULTS && Normal(DEVICE_FIELDS[k], DEVICE_DEFAULTS[k]) {
      DefaultIsNormal(DEVICE_FIELDS[k], DEVICE_DEFAULTS[k]);
    }
  }

  lemma ConnectionTextsFit()
    ensures forall k :: k in CONNECTION_FIELDS && (CONNECTION_FIELDS[k].Text? || CONNECTION_FIELDS[k].Choice?) ==>
              k in CONNECTION_DEFAULTS && Normal(CONNECTION_FIELDS[k], CONNECTION_DEFAULTS[k])
  {
    forall k | k in CONNECTION_FIELDS && (CONNECTION_FIELDS[k].Text? || CONNECTION_FIELDS[k].Choice?)
      ensures k in CONNECTION_DEFAULTS && Normal(CONNECTION_FIELDS[k], CONNECTION_DEFAULTS[k])
    {
      DefaultIsNormal(CONNECTION_FIELDS[k], CONNECTION_DEFAULTS[k]);
    }
  }

  lemma ConnectionValuesFit()
    ensures forall k :: k in CONNECTION_FIELDS && !CONNECTION_FIELDS[k].Text? && !CONNECTION_FIELDS[k].Choice? ==>
              k in CONNECTION_DEFAULTS && Normal(CONNECTION_FIELDS[k], CONNECTION_DEFAULTS[k])
  {
    forall k | k in CONNECTION_FIELDS && !CONNECTION_FIELDS[k].Text? && !CONNECTION_FIELDS[k].Choice?
      ensures k in CONNECTION_DEFAULTS && Normal(CONNECTION_FIELDS[k], CONNECTION_DEFAULTS[k])
    {
      DefaultIsNormal(CONNECTION_FIELDS[k], CONNECTION_DEFAULTS[k]);
    }
  }

  lemma ConnectionDefaultsFit()
    ensures Fits(CONNECTION_FIELDS, CONNECTION_DEFAULTS)
  {
    ConnectionTextsFit();
    ConnectionValuesFit();
  }

  lemma DeviceKeys()
    ensures DEVICE_DEFAULTS.Keys == DEVICE_FIELDS.Keys
    ensures AutoConnect in DEVICE_FIELDS && DEVICE_FIELDS[AutoConnect] == TEXT
  {
  }

  lemma ConnectionKeys()
    ensures forall k :: k in {Id, Name, Host} ==> k in CONNECTION_FIELDS && CONNECTION_FIELDS[k] == TEXT
    ensures Port in CONNECTION_FIELDS && CONNECTION_FIELDS[Port] == Range(1, 65535)
  {
  }

  /** The shipped defaults are already in normal form. */
  lemma ThinClientIsSane()
    ensures Sane(THINCLIENT)
  {
    DeviceDefaultsFit();
    ConnectionDefaultsFit();
    DeviceKeys();
    ConnectionKeys();
  }

  /** Settings survive a save and a reload unchanged. */
  lemma ThinClientFixedPoint(layers: seq<Json>)
    ensures Sane(THINCLIENT) && Load(THINCLIENT, [Saved(Load(THINCLIENT, layers))]) == Load(THINCLIENT, layers)
  {
    ThinClientIsSane();
    SaveLoadFixedPoint(THINCLIENT, layers);
  }
}
