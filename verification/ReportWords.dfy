/** The words the thin client's report is written in, and the theorem for them. */
module ReportWords {
  import opened Prelude
  import opened Text
  import opened Report
  import opened ReportProofs

  const KEYS := Keys(
    "Network diagnostics", "Target", "Configured target", "Effective endpoint", "Local", "Default gateway",
    "Gateway ping (informational)", "DNS", "Route to target", "TCP ", "No credentials were sent.")

  const MARKS := Marks("OK", "FAILED", "SKIPPED")

  const BLANKS := Blanks(
    "Configured server", "not configured", "no active interface", "no IPv4 address", "no default gateway", "no detail",
    "service", "not tested", "private RDP service not tested", "RD Gateway")

  const ENGLISH := Words(KEYS, MARKS, BLANKS, ["RDP", "VNC"])

  /** Printable ASCII that neither begins nor ends with a space. */
  predicate Printable(s: string) {
    s != "" && (forall i :: 0 <= i < |s| ==> ' ' <= s[i] <= '~') && s[0] != ' ' && s[|s| - 1] != ' '
  }

  lemma PrintableIsWord(s: string)
    requires Printable(s)
    ensures Word(s) && (':' !in s ==> IsKey(s))
  {
  }

  lemma MarksAreSound()
    ensures MarksSound(MARKS)
  {
  }

  lemma PrintableNames()
    ensures Printable(BLANKS.name) && Printable(BLANKS.host) && Printable(BLANKS.detail)
  {
  }

  lemma PrintableBlanks()
    ensures Printable(BLANKS.interface) && Printable(BLANKS.address) && Printable(BLANKS.gateway)
  {
  }

  lemma PrintableNotes()
    ensures Printable(BLANKS.service) && Printable(BLANKS.untested) && Printable(BLANKS.gatewayNote)
  {
  }

  lemma PrintablePrivateNote()
    ensures Printable(BLANKS.privateNote)
  {
  }

  lemma BlanksAreSound(b: Blanks)
    requires b == BLANKS
    ensures BlanksSound(b)
  {
    PrintableNames();
    PrintableBlanks();
    PrintableNotes();
    PrintablePrivateNote();
    forall s | s in [b.name, b.host, b.interface, b.address, b.gateway, b.detail, b.service, b.untested,
        b.privateNote, b.gatewayNote]
      ensures Word(s)
    {
      PrintableIsWord(s);
    }
  }

  lemma TcpIsSound()
    ensures TcpSound(KEYS)
  {
    assert KEYS.tcp[0] == 'T';
    assert KEYS.local[0] != 'T' && KEYS.gateway[0] != 'T' && KEYS.ping[0] != 'T' && KEYS.dns[0] != 'T'
        && KEYS.route[0] != 'T';
  }

  lemma PrintableTitle()
    ensures Printable(KEYS.title) && ':' !in KEYS.title
  {
  }

  lemma PrintableClosing()
    ensures Printable(KEYS.closing) && ':' !in KEYS.closing
  {
  }

  lemma PrintableTargets()
    ensures Printable(KEYS.target) && ':' !in KEYS.target
    ensures Printable(KEYS.configured) && ':' !in KEYS.configured
  {
  }

  lemma PrintableEffective()
    ensures Printable(KEYS.effective) && ':' !in KEYS.effective
  {
  }

  lemma PrintableKeys()
    ensures Printable(KEYS.local) && ':' !in KEYS.local
    ensures Printable(KEYS.gateway) && ':' !in KEYS.gateway
    ensures Printable(KEYS.dns) && ':' !in KEYS.dns
    ensures Printable(KEYS.route) && ':' !in KEYS.route
  {
  }

  lemma PrintablePing()
    ensures Printable(KEYS.ping) && ':' !in KEYS.ping
  {
  }

  lemma KeysAreKeys(k: Keys)
    requires k == KEYS
    ensures IsKey(k.title) && IsKey(k.closing) && IsKey(k.target) && IsKey(k.configured) && IsKey(k.effective)
    ensures IsKey(k.local) && IsKey(k.gateway) && IsKey(k.ping) && IsKey(k.dns) && IsKey(k.route)
  {
    PrintableTitle();
    PrintableClosing();
    PrintableTargets();
    PrintableEffective();
    PrintableKeys();
    PrintablePing();
    forall s | s in [k.title, k.closing, k.target, k.configured, k.effective, k.local, k.gateway, k.ping, k.dns,
        k.route]
      ensures IsKey(s)
    {
      PrintableIsWord(s);
    }
  }

  lemma KnownSlots()
    ensures SlotOf(ENGLISH, KEYS.local) == Some(LocalSlot) && SlotOf(ENGLISH, KEYS.gateway) == Some(GatewaySlot)
    ensures SlotOf(ENGLISH, KEYS.ping) == Some(PingSlot) && SlotOf(ENGLISH, KEYS.dns) == Some(DnsSlot)
    ensures SlotOf(ENGLISH, KEYS.route) == Some(RouteSlot)
  {
  }

  lemma QuietSlots()
    ensures SlotOf(ENGLISH, KEYS.target).None?
    ensures SlotOf(ENGLISH, KEYS.configured).None?
    ensures SlotOf(ENGLISH, KEYS.effective).None?
  {
    assert KEYS.target[1] != KEYS.tcp[1];
    assert KEYS.configured[0] == 'C' && KEYS.effective[0] == 'E';
  }

  lemma EnglishIsSound(w: Words)
    requires w == ENGLISH
    ensures Sound(w)
  {
    MarksAreSound();
    BlanksAreSound(w.blanks);
    TcpIsSound();
    KeysAreKeys(w.keys);
    KnownSlots();
    QuietSlots();
  }

  lemma UpperNames()
    ensures Upper("service") == "SERVICE" && Upper("rdp") == "RDP" && Upper("vnc") == "VNC"
  {
  }

  lemma SpokenKeys()
    ensures IsKey("RDP") && SlotOf(ENGLISH, "RDP") == Some(Shake("RDP"))
    ensures IsKey("VNC") && SlotOf(ENGLISH, "VNC") == Some(Shake("VNC"))
  {
  }

  lemma ServiceKey()
    ensures IsKey("SERVICE") && SlotOf(ENGLISH, "SERVICE").None?
  {
  }

  lemma ProtocolsAreSound(protocol: string)
    requires protocol == "" || protocol == "rdp" || protocol == "vnc"
    ensures ProtocolSound(ENGLISH, protocol)
  {
    UpperNames();
    SpokenKeys();
    ServiceKey();
  }

  /** Findings about an RDP or VNC server, of texts that fit on a line. */
  predicate Ordinary(f: Findings) {
    && (f.target.protocol == "" || f.target.protocol == "rdp" || f.target.protocol == "vnc")
    && OneLine(f.target.name) && OneLine(f.target.host)
    && (f.target.private.Some? ==> OneLine(f.target.private.value.host))
    && Plain(f.interface) && Plain(f.address) && Plain(f.gateway)
    && Plain(f.ping.detail) && Plain(f.dns.detail) && Plain(f.tcp.detail)
    && (f.route.Some? ==> Plain(f.route.value.detail)) && (f.protocol.Some? ==> Plain(f.protocol.value.detail))
  }

  /** The report as shipped shows its checks, whatever their details. */
  lemma EnglishRoundTrip(w: Words, f: Findings)
    requires w == ENGLISH && Ordinary(f)
    ensures ParsedRows(w, Join(ReportLines(w, f))) == ExpectedRows(w, f)
  {
    EnglishIsSound(w);
    ProtocolsAreSound(f.target.protocol);
    ReportRoundTrip(w, f);
  }

  /** The stand-ins say that something is missing. */
  predicate SayMissing(b: Blanks) {
    && "no active" <= Lower(b.interface) && "no ipv" <= Lower(b.address) && "no " <= Lower(b.gateway)
    && b.interface != "" && b.address != "" && b.gateway != ""
  }

  lemma BlanksSayMissing(b: Blanks)
    requires b == BLANKS
    ensures SayMissing(b)
  {
  }

  lemma DashedContains(before: string, after: string, word: string)
    ensures word <= Lower(before) ==> Contains(Lower(Dashed(before, after)), word)
    ensures word <= Lower(after) ==> Contains(Lower(Dashed(before, after)), word)
  {
    var text := Lower(Dashed(before, after));
    if word <= Lower(before) {
      assert word <= text[0..];
    }
    if word <= Lower(after) {
      assert text[|before| + 3..] == Lower(after);
    }
  }

  lemma MissingIsOffline(b: Blanks, f: Findings)
    requires SayMissing(b) && (f.interface == "" || f.address == "")
    ensures SaysOffline(LocalText(b, f))
  {
    var before, after := Or(f.interface, b.interface), Or(f.address, b.address);
    DashedContains(before, after, "no active");
    DashedContains(before, after, "no ipv");
  }

  /** A word with a space inside, as the parser looks for, is not in a text whose only spaces are around the dash. */
  lemma DashedLacks(before: string, after: string, word: string)
    requires ' ' !in before && ' ' !in after
    requires |word| > 3 && word[0] == 'n' && word[2] == ' ' && (word[3] == 'a' || word[3] == 'i')
    ensures !Contains(Lower(Dashed(before, after)), word)
  {
    var text, n := Lower(Dashed(before, after)), |before|;
    forall i | 0 <= i < |text| - 3
      ensures !(text[i] == 'n' && text[i + 2] == ' ' && (text[i + 3] == 'a' || text[i + 3] == 'i'))
    {
      assert text[i + 2] == ' ' ==> i + 2 == n || i == n;
    }
    forall i | 0 <= i <= |text| ensures !(word <= text[i..]) {
      var rest := text[i..];
      assert |rest| > 3 ==> rest[0] == text[i] && rest[2] == text[i + 2] && rest[3] == text[i + 3];
    }
  }

  lemma NetworkText(interface: string, address: string)
    ensures Dashed(interface, address) == interface + " — " + address
  {
    assert interface + [' '] + ['—'] + ([' '] + address) == interface + " — " + address;
  }

  lemma PresentIsShown(b: Blanks, f: Findings)
    requires f.interface != "" && f.address != ""
    ensures LocalText(b, f) == f.interface + " — " + f.address
    ensures ' ' !in f.interface && ' ' !in f.address ==> !SaysOffline(LocalText(b, f))
  {
    NetworkText(f.interface, f.address);
    if ' ' !in f.interface && ' ' !in f.address {
      DashedLacks(f.interface, f.address, "no active");
      DashedLacks(f.interface, f.address, "no ipv");
    }
  }

  /**
   The network's row shows the interface and the address and has failed exactly when one is
   missing or the text says there is none, so it never fails for names without spaces; the
   gateway's row has failed exactly when there is none.
   */
  predicate NetworkSeen(f: Findings, network: Row, gateway: Row) {
    var missing, text := f.interface == "" || f.address == "", f.interface + " — " + f.address;
    && network.title == "Network" && gateway.title == "Gateway"
    && (network.state == Failed <==> missing || SaysOffline(text))
    && (network.state == Ok <==> !missing && !SaysOffline(text))
    && (!missing ==> network.detail == text)
    && (!missing && ' ' !in f.interface && ' ' !in f.address ==> network.state == Ok)
    && (gateway.state == Failed <==> f.gateway == "" || "no " <= Lower(f.gateway))
    && (gateway.state == Ok <==> f.gateway != "" && !("no " <= Lower(f.gateway)))
  }

  lemma NetworkExpected(w: Words, f: Findings)
    requires SayMissing(w.blanks)
    ensures NetworkSeen(f, ExpectedRows(w, f)[0], ExpectedRows(w, f)[1])
  {
    if f.interface == "" || f.address == "" {
      MissingIsOffline(w.blanks, f);
    } else {
      PresentIsShown(w.blanks, f);
    }
  }

  /** What a reader of the printed report sees of the network. */
  lemma NetworkShown(w: Words, f: Findings)
    requires w == ENGLISH && Ordinary(f)
    ensures var rows := ParsedRows(w, Join(ReportLines(w, f))); |rows| >= 2 && NetworkSeen(f, rows[0], rows[1])
  {
    EnglishRoundTrip(w, f);
    BlanksSayMissing(w.blanks);
    NetworkExpected(w, f);
  }
}
