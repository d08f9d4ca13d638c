/** The device tables of the configuration: parsing them, and writing a captured device into them. */
module DeviceConfig {
  import opened Common
  import opened Discovery
  import opened Hex
  import opened Selectors

  datatype Value =
    | Text(text: string)
    | Number(number: real)
    | Flag(flag: bool)
    | List(items: seq<Value>)
    | Table(entries: map<Key, Value>)

  /** The keys of a device table; every other key is unknown to the parser. */
  datatype Key =
    | Name | Action | TransportKey | Mode | VendorId | ProductId | InterfaceNumber | Serial | IdPath
    | OnReports | OffReports
    | InputClassifier | OnEvents | OffEvents | ToggleEvents | ToggleOffTimeout
    | Unknown(key: string)

  type Fields = map<Key, Value>

  datatype ConfigError = ConfigError(what: string)

  /** Every event name the kernel headers define, and the codes that are keys or buttons. */
  datatype Ecodes = Ecodes(codes: EventCodes, keys: set<int>)

  predicate HidrawKey(k: Key) {
    CommonKey(k) || k.OnReports? || k.OffReports?
  }

  predicate EvdevKey(k: Key) {
    CommonKey(k) || k.InputClassifier? || k.OnEvents? || k.OffEvents? || k.ToggleEvents? || k.ToggleOffTimeout?
  }

  predicate CommonKey(k: Key) {
    || k.Name? || k.Action? || k.TransportKey? || k.Mode? || k.VendorId? || k.ProductId?
    || k.InterfaceNumber? || k.Serial? || k.IdPath?
  }

  const DEFAULT_TIMEOUT := 60.0

  // -- Scalars -------------------------------------------------------------------------

  function Field(t: Fields, key: Key): Option<Value> {
    if key in t then Some(t[key]) else None
  }

  function RequiredField(t: Fields, key: Key): Result<Value, ConfigError> {
    if key in t then Ok(t[key]) else Err(ConfigError("missing"))
  }

  function NonEmptyText(v: Value): Result<string, ConfigError> {
    if v.Text? && v.text != "" then Ok(v.text) else Err(ConfigError("not a nonempty string"))
  }

  function RequiredText(t: Fields, key: Key): Result<string, ConfigError> {
    var v :- RequiredField(t, key);
    NonEmptyText(v)
  }

  function OptionalText(v: Option<Value>): Result<Option<string>, ConfigError> {
    if v == None then Ok(None) else
    var s :- NonEmptyText(v.value);
    Ok(Some(s))
  }

  function UsbId(v: Value): Result<string, ConfigError> {
    if v.Text? && |v.text| == 4 && IsHex(v.text) then Ok(Lower(v.text)) else Err(ConfigError("not four hex digits"))
  }

  function OptionalInterface(v: Option<Value>): Result<Option<string>, ConfigError> {
    if v == None then Ok(None)
    else if v.value.Text? && 1 <= |v.value.text| <= 2 && IsHex(v.value.text) then Ok(Some(Zfill2(Lower(v.value.text))))
    else Err(ConfigError("not one or two hex digits"))
  }

  function OptionalClassifier(v: Option<Value>): Result<Option<string>, ConfigError> {
    var s :- OptionalText(v);
    if s.Some? && s.value !in CLASSIFIERS then Err(ConfigError("unsupported classifier")) else Ok(s)
  }

  // -- Lists ---------------------------------------------------------------------------

  function DecodeAll(items: seq<Value>): Result<seq<Report>, ConfigError> {
    if |items| == 0 then Ok([])
    else if !items[0].Text? || Decode(items[0].text) == None then Err(ConfigError("invalid HID report"))
    else
      var rest :- DecodeAll(items[1..]);
      Ok([Decode(items[0].text).value] + rest)
  }

  function Reports(v: Value): Result<seq<Report>, ConfigError> {
    if !v.List? || v.items == [] then Err(ConfigError("not a nonempty array")) else
    var reports :- DecodeAll(v.items);
    if NoRepeats(reports) then Ok(reports) else Err(ConfigError("duplicate HID reports"))
  }

  /** A symbolic key or button name. */
  predicate KnownEvent(e: Ecodes, v: Value) {
    && v.Text? && (StartsWith(v.text, "KEY_") || StartsWith(v.text, "BTN_"))
    && v.text in e.codes && e.codes[v.text] in e.keys
  }

  function CodesOf(e: Ecodes, names: seq<string>): set<int> {
    set n | n in names && n in e.codes :: e.codes[n]
  }

  /** The names of the first `n` items, all known and of distinct codes. */
  function EventsFirst(e: Ecodes, items: seq<Value>, n: nat): Result<seq<string>, ConfigError>
    requires n <= |items|
  {
    if n == 0 then Ok([]) else
    var earlier :- EventsFirst(e, items, n - 1);
    if !KnownEvent(e, items[n - 1]) then Err(ConfigError("not a key or button name"))
    else if e.codes[items[n - 1].text] in CodesOf(e, earlier) then Err(ConfigError("duplicate event codes"))
    else Ok(earlier + [items[n - 1].text])
  }

  function Events(e: Ecodes, v: Value): Result<seq<string>, ConfigError> {
    if !v.List? || v.items == [] then Err(ConfigError("not a nonempty array")) else EventsFirst(e, v.items, |v.items|)
  }

  /** The list of names and the set of codes filled in a loop. */
  method ParseEvents(e: Ecodes, v: Value) returns (r: Result<seq<string>, ConfigError>)
    ensures r == Events(e, v)
  {
    if !v.List? || v.items == [] {
      return Err(ConfigError("not a nonempty array"));
    }
    var events: seq<string> := [];
    var codes: set<int> := {};
    for i := 0 to |v.items|
      invariant EventsFirst(e, v.items, i) == Ok(events) && codes == CodesOf(e, events)
    {
      if !KnownEvent(e, v.items[i]) {
        FailsForGood(e, v.items, i + 1, |v.items|);
        return Err(ConfigError("not a key or button name"));
      }
      var code := e.codes[v.items[i].text];
      if code in codes {
        FailsForGood(e, v.items, i + 1, |v.items|);
        return Err(ConfigError("duplicate event codes"));
      }
      MoreCodes(e, events, v.items[i].text);
      codes := codes + {code};
      events := events + [v.items[i].text];
    }
    return Ok(events);
  }

  /** A key or button the event tables know. */
  predicate KeyName(e: Ecodes, name: string) {
    && |name| >= 4 && name[..4] in {"KEY_", "BTN_"}
    && name in e.codes && e.codes[name] in e.keys
  }

  /** The first `n` items are these names of keys, no code twice. */
  predicate NamesKeys(e: Ecodes, items: seq<Value>, n: nat, names: seq<string>)
    requires n <= |items|
  {
    && |names| == n
    && (forall i | 0 <= i < n :: items[i] == Text(names[i]) && KeyName(e, names[i]))
    && (forall i, j | 0 <= i < j < n :: e.codes[names[i]] != e.codes[names[j]])
  }

  lemma NamesOneMore(e: Ecodes, items: seq<Value>, n: nat, names: seq<string>)
    requires 0 < n <= |items| && |names| == n
    ensures NamesKeys(e, items, n, names)
            <==> && NamesKeys(e, items, n - 1, names[..n - 1])
                 && items[n - 1] == Text(names[n - 1]) && KnownEvent(e, items[n - 1])
                 && e.codes[names[n - 1]] !in CodesOf(e, names[..n - 1])
  {
    var prior := names[..n - 1];
    assert forall i | 0 <= i < n - 1 :: names[i] == prior[i] && names[i] in prior;
    assert forall name <- prior :: exists i :: 0 <= i < n - 1 && names[i] == name;
  }

  /** The events of a nonempty list are exactly its names, and every other value is an error. */
  lemma EventsExactly(e: Ecodes, v: Value, names: seq<string>)
    ensures Events(e, v) == Ok(names) <==> v.List? && v.items != [] && NamesKeys(e, v.items, |v.items|, names)
  {
    if v.List? {
      EventsFirstExactly(e, v.items, |v.items|, names);
    }
  }

  lemma {:induction false} EventsFirstExactly(e: Ecodes, items: seq<Value>, n: nat, names: seq<string>)
    requires n <= |items|
    ensures EventsFirst(e, items, n) == Ok(names) <==> NamesKeys(e, items, n, names)
  {
    if n > 0 {
      var earlier := EventsFirst(e, items, n - 1);
      if |names| == n {
        NamesOneMore(e, items, n, names);
        EventsFirstExactly(e, items, n - 1, names[..n - 1]);
        assert names == names[..n - 1] + [names[n - 1]];
      }
      if earlier.Ok? {
        EventsFirstExactly(e, items, n - 1, earlier.value);
        assert KnownEvent(e, items[n - 1]) ==> (earlier.value + [items[n - 1].text])[..n - 1] == earlier.value;
      }
    }
  }

  lemma {:induction false} FailsForGood(e: Ecodes, items: seq<Value>, n: nat, m: nat)
    requires n <= m <= |items| && EventsFirst(e, items, n).Err?
    ensures EventsFirst(e, items, m) == EventsFirst(e, items, n)
  {
    if n < m {
      FailsForGood(e, items, n, m - 1);
    }
  }

  lemma MoreCodes(e: Ecodes, names: seq<string>, name: string)
    requires name in e.codes
    ensures CodesOf(e, names + [name]) == CodesOf(e, names) + {e.codes[name]}
  {
    assert name in names + [name];
  }

  // -- One device ----------------------------------------------------------------------

  /** What every device table says beside its trigger. */
  datatype Identity = Identity(
    name: string, action: string, vendorId: string, productId: string,
    interfaceNumber: Option<string>, serial: Option<string>, idPath: Option<string>)

  function ParseIdentity(t: Fields): Result<Identity, ConfigError> {
    var name :- RequiredText(t, Name);
    var action :- RequiredText(t, Action);
    var rawVendor :- RequiredField(t, VendorId);
    var vendor :- UsbId(rawVendor);
    var rawProduct :- RequiredField(t, ProductId);
    var product :- UsbId(rawProduct);
    var interface :- OptionalInterface(Field(t, InterfaceNumber));
    var serial :- OptionalText(Field(t, Serial));
    var path :- OptionalText(Field(t, IdPath));
    Ok(Identity(name, action, vendor, product, interface, serial, path))
  }

  function WithTrigger(i: Identity, trigger: Trigger): Profile {
    Profile(i.name, i.action, i.vendorId, i.productId, i.interfaceNumber, i.serial, i.idPath, trigger)
  }

  /** `parsed` is the identity found in the table, asked for after the mode. */
  function ParseHidraw(t: Fields, parsed: Result<Identity, ConfigError>): Result<Profile, ConfigError> {
    var mode :- RequiredText(t, Mode);
    if mode != "on-off" then Err(ConfigError("mode")) else
    var identity :- parsed;
    var rawOn :- RequiredField(t, OnReports);
    var onReports :- Reports(rawOn);
    var rawOff :- RequiredField(t, OffReports);
    var offReports :- Reports(rawOff);
    if exists r <- onReports :: r in offReports then Err(ConfigError("reports overlap"))
    else Ok(WithTrigger(identity, Hidraw(onReports, offReports)))
  }

  function ParseOnOff(e: Ecodes, t: Fields, identity: Identity, classifier: Option<string>)
    : Result<Profile, ConfigError>
  {
    if ToggleEvents in t || ToggleOffTimeout in t then Err(ConfigError("fields of the other mode")) else
    var rawOn :- RequiredField(t, OnEvents);
    var onEvents :- Events(e, rawOn);
    var rawOff :- RequiredField(t, OffEvents);
    var offEvents :- Events(e, rawOff);
    if CodesOf(e, onEvents) * CodesOf(e, offEvents) != {} then Err(ConfigError("events overlap"))
    else Ok(WithTrigger(identity, Evdev("on-off", classifier, onEvents, offEvents, [], DEFAULT_TIMEOUT)))
  }

  function ParseToggle(e: Ecodes, t: Fields, identity: Identity, classifier: Option<string>)
    : Result<Profile, ConfigError>
  {
    if OnEvents in t || OffEvents in t then Err(ConfigError("fields of the other mode")) else
    var raw :- RequiredField(t, ToggleEvents);
    var events :- Events(e, raw);
    var timeout := Field(t, ToggleOffTimeout).GetOr(Number(DEFAULT_TIMEOUT));
    if !timeout.Number? || timeout.number < 0.0 then Err(ConfigError("not a nonnegative number"))
    else Ok(WithTrigger(identity, Evdev("toggle", classifier, [], [], events, timeout.number)))
  }

  function ParseEvdev(e: Ecodes, t: Fields, parsed: Result<Identity, ConfigError>): Result<Profile, ConfigError> {
    var mode :- RequiredText(t, Mode);
    var identity :- parsed;
    var classifier :- OptionalClassifier(Field(t, InputClassifier));
    if mode == "on-off" then ParseOnOff(e, t, identity, classifier)
    else if mode == "toggle" then ParseToggle(e, t, identity, classifier)
    else Err(ConfigError("mode"))
  }

  function ParseDevice(e: Ecodes, v: Value): Result<Profile, ConfigError> {
    if !v.Table? then Err(ConfigError("not a table"))
    else if exists k <- v.entries :: !HidrawKey(k) && !EvdevKey(k) then Err(ConfigError("unknown keys"))
    else
      var transport :- RequiredText(v.entries, TransportKey);
      if transport == "hidraw" then
        if forall k <- v.entries :: HidrawKey(k) then ParseHidraw(v.entries, ParseIdentity(v.entries))
        else Err(ConfigError("unknown keys"))
      else if transport == "evdev" then
        if forall k <- v.entries :: EvdevKey(k) then ParseEvdev(e, v.entries, ParseIdentity(v.entries))
        else Err(ConfigError("unknown keys"))
      else Err(ConfigError("transport"))
  }

  // -- All devices ---------------------------------------------------------------------

  function NamesOf(profiles: seq<Profile>): set<string> {
    set p | p in profiles :: p.name
  }

  type Parsed = Result<Profile, ConfigError>

  function ParseEach(e: Ecodes, items: seq<Value>): seq<Parsed> {
    seq(|items|, i requires 0 <= i < |items| => ParseDevice(e, items[i]))
  }

  /** One more device: its name is new, and its action exists. */
  function GatherNext(earlier: seq<Profile>, p: Parsed, actions: set<string>): Result<seq<Profile>, ConfigError> {
    var profile :- p;
    if profile.name in NamesOf(earlier) then Err(ConfigError("duplicate device name"))
    else if profile.action !in actions then Err(ConfigError("unknown action"))
    else Ok(earlier + [profile])
  }

  function Gather(parsed: seq<Parsed>, actions: set<string>): Result<seq<Profile>, ConfigError> {
    if parsed == [] then Ok([]) else
    var earlier :- Gather(parsed[..|parsed| - 1], actions);
    GatherNext(earlier, parsed[|parsed| - 1], actions)
  }

  function Devices(e: Ecodes, v: Value, actions: set<string>): Result<seq<Profile>, ConfigError> {
    if !v.List? then Err(ConfigError("not an array of tables"))
    else if v.items == [] then Err(ConfigError("no device"))
    else Gather(ParseEach(e, v.items), actions)
  }

  /** The profiles and their names gathered in a loop. */
  method ParseDevices(e: Ecodes, v: Value, actions: set<string>) returns (r: Result<seq<Profile>, ConfigError>)
    ensures r == Devices(e, v, actions)
  {
    if !v.List? {
      return Err(ConfigError("not an array of tables"));
    }
    if v.items == [] {
      return Err(ConfigError("no device"));
    }
    ghost var parsed := ParseEach(e, v.items);
    var profiles: seq<Profile> := [];
    var names: set<string> := {};
    for i := 0 to |v.items|
      invariant Gather(parsed[..i], actions) == Ok(profiles) && names == NamesOf(profiles)
    {
      var p := ParseDevice(e, v.items[i]);
      assert parsed[i] == p;
      GatherStep(parsed, i, actions);
      if p.Err? {
        return Err(p.error);
      }
      if p.value.name in names {
        return Err(ConfigError("duplicate device name"));
      }
      if p.value.action !in actions {
        return Err(ConfigError("unknown action"));
      }
      MoreNames(profiles, p.value);
      names := names + {p.value.name};
      profiles := profiles + [p.value];
    }
    assert parsed[..|v.items|] == parsed;
    return Ok(profiles);
  }

  /** The next step, and that an error is final. */
  lemma GatherStep(parsed: seq<Parsed>, i: nat, actions: set<string>)
    requires i < |parsed| && Gather(parsed[..i], actions).Ok?
    ensures Gather(parsed[..i + 1], actions) == GatherNext(Gather(parsed[..i], actions).value, parsed[i], actions)
    ensures Gather(parsed[..i + 1], actions).Err? ==> Gather(parsed, actions) == Gather(parsed[..i + 1], actions)
  {
    assert parsed[..i + 1][..i] == parsed[..i];
    if Gather(parsed[..i + 1], actions).Err? {
      FailsForever(parsed, i + 1, |parsed|, actions);
      assert parsed[..|parsed|] == parsed;
    }
  }

  lemma {:induction false} FailsForever(parsed: seq<Parsed>, n: nat, m: nat, actions: set<string>)
    requires n <= m <= |parsed| && Gather(parsed[..n], actions).Err?
    ensures Gather(parsed[..m], actions) == Gather(parsed[..n], actions)
  {
    if n < m {
      FailsForever(parsed, n, m - 1, actions);
      assert parsed[..m][..m - 1] == parsed[..m - 1];
    }
  }

  lemma MoreNames(profiles: seq<Profile>, p: Profile)
    ensures NamesOf(profiles + [p]) == NamesOf(profiles) + {p.name}
  {
    assert p in profiles + [p];
  }
}
