/** Writing a captured device into the document, so that the configuration parser reads it back. */
module DeviceDraft {
  import opened Common
  import opened Discovery
  import opened Hex
  import opened Selectors
  import opened DeviceConfig

  function Texts(names: seq<string>): seq<Value> {
    seq(|names|, i requires 0 <= i < |names| => Text(names[i]))
  }

  function Encoded(reports: seq<Report>): seq<Value> {
    seq(|reports|, i requires 0 <= i < |reports| => Text(Encode(reports[i])))
  }

  /** A table with one more entry, if there is a value for it. */
  function With(t: Fields, key: Key, v: Option<Value>): Fields {
    if v.Some? then t[key := v.value] else t
  }

  function OptionalEntry(v: Option<string>): Option<Value> {
    if v.Some? then Some(Text(v.value)) else None
  }

  function TransportText(t: Transport): string {
    if t == EvdevTransport then "evdev" else "hidraw"
  }

  function IdentityFields(name: string, action: string, d: SelectorDraft): Fields {
    var required := map[
      Name := Text(name), Action := Text(action), TransportKey := Text(TransportText(d.transport)),
      VendorId := Text(d.vendorId), ProductId := Text(d.productId)];
    var faced := With(required, InterfaceNumber, OptionalEntry(d.interfaceNumber));
    With(With(faced, Serial, OptionalEntry(d.serial)), IdPath, OptionalEntry(d.idPath))
  }

  function ClassifierEntry(d: SelectorDraft): Option<Value> {
    if d.classifier.Some? then Some(Text(d.classifier.value.name)) else None
  }

  /** The table of a captured device. */
  function DeviceTable(name: string, action: string, d: SelectorDraft, trigger: Trigger): Fields {
    var t := IdentityFields(name, action, d);
    match trigger
    case Hidraw(onReports, offReports) =>
      t[Mode := Text("on-off")][OnReports := List(Encoded(onReports))][OffReports := List(Encoded(offReports))]
    case Evdev(_, _, _, _, _, _) => EvdevEntries(With(t, InputClassifier, ClassifierEntry(d)), trigger)
  }

  function EvdevEntries(t: Fields, trigger: Trigger): Fields
    requires trigger.Evdev?
  {
    if trigger.mode == "on-off" then
      t[Mode := Text(trigger.mode)]
       [OnEvents := List(Texts(trigger.onEvents))]
       [OffEvents := List(Texts(trigger.offEvents))]
    else
      t[Mode := Text(trigger.mode)][ToggleEvents := List(Texts(trigger.toggleEvents))]
      [ToggleOffTimeout := Number(trigger.toggleOffTimeout)]
  }

  /** What a profile says of its device's identity. */
  function DraftOf(p: Profile): SelectorDraft {
    SelectorDraft(
      if p.trigger.Evdev? then EvdevTransport else HidrawTransport,
      p.vendorId, p.productId, p.interfaceNumber, p.serial, p.idPath,
      if p.trigger.Evdev? && p.trigger.classifier.Some? then Some(Classifier(p.trigger.classifier.value, "1"))
      else None)
  }

  /** Selectors in the form the program writes them. */
  predicate NormalSelectors(d: SelectorDraft) {
    && IsUsbId(d.vendorId) && IsUsbId(d.productId)
    && (d.interfaceNumber.Some? ==> |d.interfaceNumber.value| == 2 && IsLowerHex(d.interfaceNumber.value))
    && (d.serial.Some? ==> d.serial.value != "") && (d.idPath.Some? ==> d.idPath.value != "")
    && (d.classifier.Some? ==>
          d.transport == EvdevTransport && d.classifier.value.name in CLASSIFIERS && d.classifier.value.value == "1")
  }

  /** The two directions of a hidraw trigger: reports that can be told apart. */
  predicate ValidHidraw(trigger: Trigger)
    requires trigger.Hidraw?
  {
    && trigger.onReports != [] && trigger.offReports != []
    && NoRepeats(trigger.onReports) && NoRepeats(trigger.offReports)
    && (forall r <- trigger.onReports :: r != [] && r !in trigger.offReports)
    && (forall r <- trigger.offReports :: r != [])
  }

  const ANY_DEVICE := SelectorDraft(EvdevTransport, "0000", "0000", None, None, None, None)

  function Unless(empty: bool, v: Value): Option<Value> {
    if empty then None else Some(v)
  }

  /** The table an evdev draft is checked with when it is built: what does not belong to its mode stays in. */
  function ValidationFields(trigger: Trigger): Fields
    requires trigger.Evdev?
  {
    var t := IdentityFields("captured-evdev-device", "captured-action", ANY_DEVICE)[Mode := Text(trigger.mode)];
    var (onEvents, offEvents) := (List(Texts(trigger.onEvents)), List(Texts(trigger.offEvents)));
    var (toggleEvents, timeout) := (List(Texts(trigger.toggleEvents)), Number(trigger.toggleOffTimeout));
    if trigger.mode == "on-off" then
      With(With(t[OnEvents := onEvents][OffEvents := offEvents],
                ToggleEvents, Unless(trigger.toggleEvents == [], toggleEvents)),
           ToggleOffTimeout, Unless(trigger.toggleOffTimeout == DEFAULT_TIMEOUT, timeout))
    else if trigger.mode == "toggle" then
      With(With(t[ToggleEvents := toggleEvents][ToggleOffTimeout := timeout],
                OnEvents, Unless(trigger.onEvents == [], onEvents)),
           OffEvents, Unless(trigger.offEvents == [], offEvents))
    else t
  }

  /** The drafts there are: captured reports, and events that passed the check of `ValidExactly`. */
  predicate ValidTrigger(e: Ecodes, trigger: Trigger) {
    match trigger
    case Hidraw(_, _) => ValidHidraw(trigger)
    case Evdev(_, _, _, _, _, _) => Coherent(e, trigger)
  }

  // -- Lists read back -----------------------------------------------------------------

  lemma {:induction false} DecodeEncoded(reports: seq<Report>)
    requires forall i | 0 <= i < |reports| :: reports[i] != []
    ensures DecodeAll(Encoded(reports)) == Ok(reports)
  {
    if reports != [] {
      DecodeEncode(reports[0]);
      DecodeEncoded(reports[1..]);
      EncodedSplits(reports);
      assert [reports[0]] + reports[1..] == reports;
    }
  }

  lemma EncodedSplits(reports: seq<Report>)
    requires reports != []
    ensures Encoded(reports)[0] == Text(Encode(reports[0])) && Encoded(reports)[1..] == Encoded(reports[1..])
  {
  }

  lemma {:induction false} EventsAreNames(e: Ecodes, names: seq<string>, n: nat)
    requires n <= |names|
    ensures var r := EventsFirst(e, Texts(names), n);
            r.Ok? ==> r.value == names[..n]
  {
    if n > 0 {
      EventsAreNames(e, names, n - 1);
    }
  }

  predicate GoodEvents(e: Ecodes, names: seq<string>) {
    Events(e, List(Texts(names))).Ok?
  }

  lemma GoodEventsReadBack(e: Ecodes, names: seq<string>)
    requires GoodEvents(e, names)
    ensures Events(e, List(Texts(names))) == Ok(names)
  {
    EventsAreNames(e, names, |names|);
    assert names[..|names|] == names;
  }

  /** Which evdev drafts pass: one mode's events, and nothing of the other mode. */
  predicate Coherent(e: Ecodes, trigger: Trigger)
    requires trigger.Evdev?
  {
    || (&& trigger.mode == "on-off" && GoodEvents(e, trigger.onEvents) && GoodEvents(e, trigger.offEvents)
        && CodesOf(e, trigger.onEvents) * CodesOf(e, trigger.offEvents) == {}
        && trigger.toggleEvents == [] && trigger.toggleOffTimeout == DEFAULT_TIMEOUT)
    || (&& trigger.mode == "toggle" && GoodEvents(e, trigger.toggleEvents) && trigger.toggleOffTimeout >= 0.0
        && trigger.onEvents == [] && trigger.offEvents == [])
  }

  // -- Tables read back ----------------------------------------------------------------

  /** An identity in the form the parser leaves it in. */
  predicate NormalIdentity(i: Identity) {
    && i.name != "" && i.action != "" && i.serial != Some("") && i.idPath != Some("")
    && |i.vendorId| == 4 && IsLowerHex(i.vendorId) && |i.productId| == 4 && IsLowerHex(i.productId)
    && (i.interfaceNumber.Some? ==> |i.interfaceNumber.value| == 2 && IsLowerHex(i.interfaceNumber.value))
  }

  predicate Identifies(t: Fields, i: Identity) {
    && Field(t, Key.Name) == Some(Text(i.name)) && Field(t, Action) == Some(Text(i.action))
    && Field(t, VendorId) == Some(Text(i.vendorId)) && Field(t, ProductId) == Some(Text(i.productId))
    && Field(t, InterfaceNumber) == OptionalEntry(i.interfaceNumber)
    && Field(t, Serial) == OptionalEntry(i.serial) && Field(t, IdPath) == OptionalEntry(i.idPath)
  }

  lemma IdentityReadsBack(t: Fields, i: Identity)
    requires Identifies(t, i) && NormalIdentity(i)
    ensures ParseIdentity(t) == Ok(i)
  {
    LowerHexIsLower(i.vendorId);
    LowerHexIsLower(i.productId);
    if i.interfaceNumber.Some? {
      LowerHexIsLower(i.interfaceNumber.value);
    }
  }

  function IdentityOf(name: string, action: string, d: SelectorDraft): Identity {
    Identity(name, action, d.vendorId, d.productId, d.interfaceNumber, d.serial, d.idPath)
  }

  /** Entries of other keys do not touch the identity. */
  ghost predicate Extends(t: Fields, base: Fields) {
    forall k: Key | k in base || (CommonKey(k) && !k.Mode?) :: Field(t, k) == Field(base, k)
  }

  lemma IdentityFieldsIdentify(t: Fields, name: string, action: string, d: SelectorDraft)
    requires Extends(t, IdentityFields(name, action, d))
    ensures Identifies(t, IdentityOf(name, action, d))
    ensures Field(t, TransportKey) == Some(Text(TransportText(d.transport)))
  {
  }

  lemma ClassifierReadsBack(classifier: Option<string>)
    requires classifier.Some? ==> classifier.value in CLASSIFIERS
    ensures OptionalClassifier(OptionalEntry(classifier)) == Ok(classifier)
  {
    assert "" !in CLASSIFIERS;
  }

  /** What an evdev parser makes of a table with the given entries. */
  lemma EvdevByFields(e: Ecodes, t: Fields, i: Identity, mode: string, classifier: Option<string>)
    requires Field(t, Mode) == Some(Text(mode)) && OptionalClassifier(Field(t, InputClassifier)) == Ok(classifier)
    ensures mode == "on-off" ==> ParseEvdev(e, t, Ok(i)) == ParseOnOff(e, t, i, classifier)
    ensures mode == "toggle" ==> ParseEvdev(e, t, Ok(i)) == ParseToggle(e, t, i, classifier)
    ensures mode !in {"on-off", "toggle"} ==> ParseEvdev(e, t, Ok(i)).Err?
  {
  }

  lemma DeviceByTransport(e: Ecodes, t: Fields)
    ensures (forall k <- t :: EvdevKey(k)) && Field(t, TransportKey) == Some(Text("evdev")) ==>
              ParseDevice(e, Table(t)) == ParseEvdev(e, t, ParseIdentity(t))
    ensures (forall k <- t :: HidrawKey(k)) && Field(t, TransportKey) == Some(Text("hidraw")) ==>
              ParseDevice(e, Table(t)) == ParseHidraw(t, ParseIdentity(t))
  {
  }

  lemma ValidationExtends(trigger: Trigger)
    requires trigger.Evdev?
    ensures Extends(ValidationFields(trigger), IdentityFields("captured-evdev-device", "captured-action", ANY_DEVICE))
  {
  }

  lemma ValidationKeys(trigger: Trigger)
    requires trigger.Evdev?
    ensures var t := ValidationFields(trigger);
            (forall k <- t :: EvdevKey(k)) && Field(t, Mode) == Some(Text(trigger.mode)) && InputClassifier !in t
  {
  }

  lemma OnOffEntries(e: Ecodes, t: Fields, i: Identity, classifier: Option<string>,
                     onEvents: seq<string>, offEvents: seq<string>)
    requires Field(t, OnEvents) == Some(List(Texts(onEvents))) && Field(t, OffEvents) == Some(List(Texts(offEvents)))
    ensures ParseOnOff(e, t, i, classifier).Ok?
            <==> && ToggleEvents !in t && ToggleOffTimeout !in t && GoodEvents(e, onEvents) && GoodEvents(e, offEvents)
                 && CodesOf(e, onEvents) * CodesOf(e, offEvents) == {}
    ensures ParseOnOff(e, t, i, classifier).Ok? ==>
              ParseOnOff(e, t, i, classifier).value
              == WithTrigger(i, Evdev("on-off", classifier, onEvents, offEvents, [], DEFAULT_TIMEOUT))
  {
    if GoodEvents(e, onEvents) && GoodEvents(e, offEvents) {
      GoodEventsReadBack(e, onEvents);
      GoodEventsReadBack(e, offEvents);
    }
  }

  lemma ToggleEntries(e: Ecodes, t: Fields, i: Identity, classifier: Option<string>, events: seq<string>, timeout: real)
    requires Field(t, ToggleEvents) == Some(List(Texts(events))) && Field(t, ToggleOffTimeout) == Some(Number(timeout))
    ensures ParseToggle(e, t, i, classifier).Ok?
            <==> OnEvents !in t && OffEvents !in t && GoodEvents(e, events) && timeout >= 0.0
    ensures ParseToggle(e, t, i, classifier).Ok? ==>
              ParseToggle(e, t, i, classifier).value
              == WithTrigger(i, Evdev("toggle", classifier, [], [], events, timeout))
  {
    if GoodEvents(e, events) {
      GoodEventsReadBack(e, events);
    }
  }

  /** The validation table parses exactly when its evdev part does. */
  lemma ValidationParses(e: Ecodes, trigger: Trigger)
    requires trigger.Evdev?
    ensures var i := IdentityOf("captured-evdev-device", "captured-action", ANY_DEVICE);
            ParseDevice(e, Table(ValidationFields(trigger))) == ParseEvdev(e, ValidationFields(trigger), Ok(i))
  {
    var t := ValidationFields(trigger);
    ValidationExtends(trigger);
    ValidationKeys(trigger);
    IdentityFieldsIdentify(t, "captured-evdev-device", "captured-action", ANY_DEVICE);
    IdentityReadsBack(t, IdentityOf("captured-evdev-device", "captured-action", ANY_DEVICE));
    DeviceByTransport(e, t);
  }

  lemma OnOffValidation(trigger: Trigger)
    requires trigger.Evdev? && trigger.mode == "on-off"
    ensures var t := ValidationFields(trigger);
            && Field(t, OnEvents) == Some(List(Texts(trigger.onEvents)))
            && Field(t, OffEvents) == Some(List(Texts(trigger.offEvents)))
            && (ToggleEvents in t <==> trigger.toggleEvents != [])
            && (ToggleOffTimeout in t <==> trigger.toggleOffTimeout != DEFAULT_TIMEOUT)
  {
  }

  lemma ToggleValidation(trigger: Trigger)
    requires trigger.Evdev? && trigger.mode == "toggle"
    ensures var t := ValidationFields(trigger);
            && Field(t, ToggleEvents) == Some(List(Texts(trigger.toggleEvents)))
            && Field(t, ToggleOffTimeout) == Some(Number(trigger.toggleOffTimeout))
            && (OnEvents in t <==> trigger.onEvents != []) && (OffEvents in t <==> trigger.offEvents != [])
  {
  }

  /** What the validation table's parser says, entry by entry. */
  lemma ValidationByMode(e: Ecodes, trigger: Trigger, t: Fields, i: Identity)
    requires trigger.Evdev? && t == ValidationFields(trigger)
    ensures ParseEvdev(e, t, Ok(i)).Ok? <==> Coherent(e, trigger)
  {
    ValidationKeys(trigger);
    ClassifierReadsBack(None);
    EvdevByFields(e, t, i, trigger.mode, None);
    if trigger.mode == "on-off" {
      OnOffValidation(trigger);
      OnOffEntries(e, t, i, None, trigger.onEvents, trigger.offEvents);
    } else if trigger.mode == "toggle" {
      ToggleValidation(trigger);
      ToggleEntries(e, t, i, None, trigger.toggleEvents, trigger.toggleOffTimeout);
    }
  }

  /** The drafts that can be built are exactly the coherent ones. */
  lemma ValidExactly(e: Ecodes, trigger: Trigger)
    requires trigger.Evdev?
    ensures ParseDevice(e, Table(ValidationFields(trigger))).Ok? <==> Coherent(e, trigger)
  {
    ValidationParses(e, trigger);
    ValidationByMode(e, trigger, ValidationFields(trigger),
      IdentityOf("captured-evdev-device", "captured-action", ANY_DEVICE));
  }

  lemma HidrawLookups(name: string, action: string, d: SelectorDraft, onReports: seq<Report>, offReports: seq<Report>)
    ensures var t := DeviceTable(name, action, d, Hidraw(onReports, offReports));
            && Extends(t, IdentityFields(name, action, d)) && (forall k <- t :: HidrawKey(k))
            && Field(t, Mode) == Some(Text("on-off"))
            && Field(t, OnReports) == Some(List(Encoded(onReports)))
            && Field(t, OffReports) == Some(List(Encoded(offReports)))
  {
  }

  predicate TriggerKey(k: Key) {
    k.Mode? || k.OnEvents? || k.OffEvents? || k.ToggleEvents? || k.ToggleOffTimeout?
  }

  lemma EvdevEntriesAdd(t: Fields, trigger: Trigger)
    requires trigger.Evdev? && forall k <- t :: !TriggerKey(k)
    ensures var v := EvdevEntries(t, trigger);
            && (forall k: Key | !TriggerKey(k) :: Field(v, k) == Field(t, k))
            && Field(v, Mode) == Some(Text(trigger.mode))
            && (trigger.mode == "on-off" ==>
                  && Field(v, OnEvents) == Some(List(Texts(trigger.onEvents)))
                  && Field(v, OffEvents) == Some(List(Texts(trigger.offEvents)))
                  && ToggleEvents !in v && ToggleOffTimeout !in v)
            && (trigger.mode != "on-off" ==>
                  && Field(v, ToggleEvents) == Some(List(Texts(trigger.toggleEvents)))
                  && Field(v, ToggleOffTimeout) == Some(Number(trigger.toggleOffTimeout))
                  && OnEvents !in v && OffEvents !in v)
  {
  }

  /** The entries before the trigger's: the identity and the classifier. */
  lemma ClassifiedLookups(name: string, action: string, d: SelectorDraft)
    ensures var t := With(IdentityFields(name, action, d), InputClassifier, ClassifierEntry(d));
            && Extends(t, IdentityFields(name, action, d)) && (forall k <- t :: EvdevKey(k) && !TriggerKey(k))
            && Field(t, InputClassifier) == ClassifierEntry(d)
  {
  }

  lemma EvdevLookups(name: string, action: string, d: SelectorDraft, trigger: Trigger)
    requires trigger.Evdev?
    ensures var t := DeviceTable(name, action, d, trigger);
            Extends(t, IdentityFields(name, action, d)) && (forall k <- t :: EvdevKey(k))
  {
    var base := With(IdentityFields(name, action, d), InputClassifier, ClassifierEntry(d));
    var t := DeviceTable(name, action, d, trigger);
    ClassifiedLookups(name, action, d);
    EvdevEntriesAdd(base, trigger);
    forall k | k in t ensures EvdevKey(k) {
      assert TriggerKey(k) || Field(t, k) == Field(base, k);
    }
  }

  /** The table's identity parses back. */
  lemma DraftIdentifies(t: Fields, name: string, action: string, d: SelectorDraft)
    requires Extends(t, IdentityFields(name, action, d)) && NormalSelectors(d) && name != "" && action != ""
    ensures ParseIdentity(t) == Ok(IdentityOf(name, action, d))
    ensures Field(t, TransportKey) == Some(Text(TransportText(d.transport)))
  {
    IdentityFieldsIdentify(t, name, action, d);
    IdentityReadsBack(t, IdentityOf(name, action, d));
  }

  lemma ReportsReadBack(reports: seq<Report>)
    requires reports != [] && NoRepeats(reports) && forall r <- reports :: r != []
    ensures Reports(List(Encoded(reports))) == Ok(reports)
  {
    assert forall i | 0 <= i < |reports| :: reports[i] in reports;
    DecodeEncoded(reports);
  }

  lemma HidrawReadsBack(e: Ecodes, name: string, action: string, d: SelectorDraft, trigger: Trigger)
    requires NormalSelectors(d) && d.transport == HidrawTransport && name != "" && action != ""
    requires trigger.Hidraw? && ValidHidraw(trigger)
    ensures ParseDevice(e, Table(DeviceTable(name, action, d, trigger))) == Ok(ProfileOf(d, name, action, trigger))
  {
    var t := DeviceTable(name, action, d, trigger);
    HidrawLookups(name, action, d, trigger.onReports, trigger.offReports);
    DraftIdentifies(t, name, action, d);
    DeviceByTransport(e, t);
    ReportsReadBack(trigger.onReports);
    ReportsReadBack(trigger.offReports);
    HidrawByFields(t, IdentityOf(name, action, d), trigger.onReports, trigger.offReports);
  }

  lemma HidrawByFields(t: Fields, i: Identity, onReports: seq<Report>, offReports: seq<Report>)
    requires Field(t, Mode) == Some(Text("on-off")) && OnReports in t && OffReports in t
    requires Reports(t[OnReports]) == Ok(onReports) && Reports(t[OffReports]) == Ok(offReports)
    requires forall r <- onReports :: r !in offReports
    ensures ParseHidraw(t, Ok(i)) == Ok(WithTrigger(i, Hidraw(onReports, offReports)))
  {
  }

  lemma EvdevReadsBack(e: Ecodes, name: string, action: string, d: SelectorDraft, trigger: Trigger)
    requires NormalSelectors(d) && d.transport == EvdevTransport && name != "" && action != ""
    requires trigger.Evdev? && ValidTrigger(e, trigger)
    ensures ParseDevice(e, Table(DeviceTable(name, action, d, trigger))) == Ok(ProfileOf(d, name, action, trigger))
  {
    var t := DeviceTable(name, action, d, trigger);
    EvdevLookups(name, action, d, trigger);
    DraftIdentifies(t, name, action, d);
    DeviceByTransport(e, t);
    EvdevTriggerReadsBack(e, name, action, d, trigger);
  }

  lemma EvdevTriggerReadsBack(e: Ecodes, name: string, action: string, d: SelectorDraft, trigger: Trigger)
    requires trigger.Evdev? && Coherent(e, trigger) && NormalSelectors(d)
    ensures ParseEvdev(e, DeviceTable(name, action, d, trigger), Ok(IdentityOf(name, action, d)))
            == Ok(ProfileOf(d, name, action, trigger))
  {
    var t := DeviceTable(name, action, d, trigger);
    var i := IdentityOf(name, action, d);
    var classifier := if d.classifier.Some? then Some(d.classifier.value.name) else None;
    ClassifiedLookups(name, action, d);
    EvdevEntriesAdd(With(IdentityFields(name, action, d), InputClassifier, ClassifierEntry(d)), trigger);
    ClassifierReadsBack(classifier);
    EvdevByFields(e, t, i, trigger.mode, classifier);
    if trigger.mode == "on-off" {
      OnOffEntries(e, t, i, classifier, trigger.onEvents, trigger.offEvents);
    } else {
      ToggleEntries(e, t, i, classifier, trigger.toggleEvents, trigger.toggleOffTimeout);
    }
  }

  /** A captured device's table is parsed back into the same trigger and the same selectors. */
  lemma CapturedDeviceReadsBack(e: Ecodes, name: string, action: string, d: SelectorDraft, trigger: Trigger)
    requires NormalSelectors(d) && Fits(trigger, d) && ValidTrigger(e, trigger) && name != "" && action != ""
    ensures var r := ParseDevice(e, Table(DeviceTable(name, action, d, trigger)));
            && r == Ok(ProfileOf(d, name, action, trigger)) && r.value.name == name && r.value.action == action
            && DraftOf(r.value) == d
            && (trigger.Hidraw? ==> r.value.trigger == trigger)
            && (trigger.Evdev? ==>
                  r.value.trigger.Evdev? && r.value.trigger.(classifier := None) == trigger.(classifier := None))
  {
    if trigger.Hidraw? {
      HidrawReadsBack(e, name, action, d, trigger);
    } else {
      EvdevReadsBack(e, name, action, d, trigger);
    }
  }

  // -- The other way round -------------------------------------------------------------

  lemma ParsedIdentityIsNormal(t: Fields)
    requires ParseIdentity(t).Ok?
    ensures NormalIdentity(ParseIdentity(t).value)
  {
    LoweredHex(t[VendorId].text);
    LoweredHex(t[ProductId].text);
    if InterfaceNumber in t {
      ZeroFilled(t[InterfaceNumber].text);
    }
  }

  lemma {:induction false} DecodedAreNonEmpty(items: seq<Value>)
    requires DecodeAll(items).Ok?
    ensures |DecodeAll(items).value| == |items| && forall r <- DecodeAll(items).value :: r != []
  {
    if items != [] {
      EncodeDecode(items[0].text);
      DecodedAreNonEmpty(items[1..]);
    }
  }

  lemma ParsedReportsAreValid(v: Value)
    requires Reports(v).Ok?
    ensures Reports(v).value != [] && NoRepeats(Reports(v).value) && forall r <- Reports(v).value :: r != []
  {
    DecodedAreNonEmpty(v.items);
  }

  lemma {:induction false} EventItemsAreTexts(e: Ecodes, items: seq<Value>, n: nat)
    requires n <= |items| && EventsFirst(e, items, n).Ok?
    ensures items[..n] == Texts(EventsFirst(e, items, n).value)
  {
    if n > 0 {
      EventItemsAreTexts(e, items, n - 1);
      assert items[..n] == items[..n - 1] + [items[n - 1]];
    }
  }

  /** A parsed list of events is good. */
  lemma ParsedEventsAreGood(e: Ecodes, v: Value)
    requires Events(e, v).Ok?
    ensures GoodEvents(e, Events(e, v).value)
  {
    EventItemsAreTexts(e, v.items, |v.items|);
    assert v.items[..|v.items|] == v.items;
  }

  lemma ParsedHidrawIsValid(t: Fields, i: Identity)
    requires ParseHidraw(t, Ok(i)).Ok?
    ensures var p := ParseHidraw(t, Ok(i)).value;
            p == WithTrigger(i, p.trigger) && p.trigger.Hidraw? && ValidHidraw(p.trigger)
  {
    ParsedReportsAreValid(t[OnReports]);
    ParsedReportsAreValid(t[OffReports]);
  }

  lemma ParsedEvdevIsCoherent(e: Ecodes, t: Fields, i: Identity)
    requires ParseEvdev(e, t, Ok(i)).Ok?
    ensures var p := ParseEvdev(e, t, Ok(i)).value;
            && p == WithTrigger(i, p.trigger) && p.trigger.Evdev? && Coherent(e, p.trigger)
            && (p.trigger.classifier.Some? ==> p.trigger.classifier.value in CLASSIFIERS)
  {
    var mode := RequiredText(t, Mode).value;
    var classifier := OptionalClassifier(Field(t, InputClassifier)).value;
    EvdevByFields(e, t, i, mode, classifier);
    if mode == "on-off" {
      ParsedEventsAreGood(e, t[OnEvents]);
      ParsedEventsAreGood(e, t[OffEvents]);
    } else {
      ParsedEventsAreGood(e, t[ToggleEvents]);
    }
  }

  /** Whatever the parser accepts has normal selectors and a valid trigger. */
  lemma ParsedIsNormal(e: Ecodes, v: Value)
    requires ParseDevice(e, v).Ok?
    ensures var p := ParseDevice(e, v).value;
            && NormalSelectors(DraftOf(p)) && Fits(p.trigger, DraftOf(p)) && ValidTrigger(e, p.trigger)
            && p.name != "" && p.action != "" && p == ProfileOf(DraftOf(p), p.name, p.action, p.trigger)
  {
    var t := v.entries;
    ParsedIdentityIsNormal(t);
    var i := ParseIdentity(t).value;
    if t[TransportKey].text == "hidraw" {
      ParsedHidrawIsValid(t, i);
    } else {
      ParsedEvdevIsCoherent(e, t, i);
    }
  }

  /** So a parsed device, written again, parses to the same profile. */
  lemma ParsedWritesBack(e: Ecodes, v: Value)
    requires ParseDevice(e, v).Ok?
    ensures var p := ParseDevice(e, v).value;
            ParseDevice(e, Table(DeviceTable(p.name, p.action, DraftOf(p), p.trigger))) == Ok(p)
  {
    var p := ParseDevice(e, v).value;
    ParsedIsNormal(e, v);
    CapturedDeviceReadsBack(e, p.name, p.action, DraftOf(p), p.trigger);
  }
}
