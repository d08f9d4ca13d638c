/** Proposing the identity by which a new profile will recognise the selected device. */
module Selectors {
  import opened Common
  import opened Discovery
  import opened Hex

  const CLASSIFIERS := [
    "ID_INPUT_TRACKBALL", "ID_INPUT_POINTINGSTICK", "ID_INPUT_TOUCHPAD", "ID_INPUT_TOUCHSCREEN",
    "ID_INPUT_TABLET_PAD", "ID_INPUT_TABLET", "ID_INPUT_JOYSTICK", "ID_INPUT_KEYBOARD",
    "ID_INPUT_MOUSE", "ID_INPUT_KEY"]

  datatype Transport = HidrawTransport | EvdevTransport

  datatype Classifier = Classifier(name: string, value: string)

  datatype SelectorDraft = SelectorDraft(
    transport: Transport,
    vendorId: string,
    productId: string,
    interfaceNumber: Option<string>,
    serial: Option<string>,
    idPath: Option<string>,
    classifier: Option<Classifier>)

  datatype SelectorError = UnsupportedSubsystem | MissingProperty(name: string) | NotPresent | Ambiguous

  function TransportOf(c: Candidate): Option<Transport> {
    if c.subsystem == "input" then Some(EvdevTransport)
    else if c.subsystem == "hidraw" then Some(HidrawTransport)
    else None
  }

  predicate MatchesBase(c: Candidate, d: SelectorDraft) {
    && TransportOf(c) == Some(d.transport)
    && Get(c.properties, "ID_VENDOR_ID") == Some(d.vendorId)
    && Get(c.properties, "ID_MODEL_ID") == Some(d.productId)
    && (d.interfaceNumber.Some? ==> Get(c.properties, "ID_USB_INTERFACE_NUM") == d.interfaceNumber)
  }

  function BaseMatches(all: seq<Candidate>, d: SelectorDraft): seq<Candidate> {
    if all == [] then []
    else (if MatchesBase(all[0], d) then [all[0]] else []) + BaseMatches(all[1..], d)
  }

  function Holding(candidates: seq<Candidate>, name: string, value: string): (r: seq<Candidate>)
    ensures |r| <= |candidates|
  {
    if candidates == [] then []
    else (if Get(candidates[0].properties, name) == Some(value) then [candidates[0]] else [])
         + Holding(candidates[1..], name, value)
  }

  predicate UniqueProperty(candidates: seq<Candidate>, name: string, value: string) {
    |Holding(candidates, name, value)| == 1
  }

  // -- The narrowing classifier --------------------------------------------------------

  /** The selected device has the classifier, and it leaves some other base match out. */
  predicate Narrows(selected: Candidate, matches: seq<Candidate>, name: string) {
    Get(selected.properties, name) == Some("1") && |Holding(matches, name, "1")| < |matches|
  }

  /** The best of the first `n` classifiers: the smallest count, and the earliest of those. */
  function BestOf(selected: Candidate, matches: seq<Candidate>, n: nat): (best: Option<nat>)
    requires n <= |CLASSIFIERS|
    ensures best.Some? ==> best.value < n
  {
    if n == 0 then None
    else
      var earlier := BestOf(selected, matches, n - 1);
      if !Narrows(selected, matches, CLASSIFIERS[n - 1]) then earlier
      else if earlier.Some?
              && Left(matches, earlier.value) <= Left(matches, n - 1)
      then earlier
      else Some(n - 1)
  }

  function Narrowing(selected: Candidate, matches: seq<Candidate>): Option<Classifier> {
    if selected.subsystem != "input" || |matches| < 2 then None
    else
      var best := BestOf(selected, matches, |CLASSIFIERS|);
      if best.Some? then Some(Classifier(CLASSIFIERS[best.value], "1")) else None
  }

  /** How many matches a classifier leaves in. */
  function Left(matches: seq<Candidate>, k: nat): nat
    requires k < |CLASSIFIERS|
  {
    |Holding(matches, CLASSIFIERS[k], "1")|
  }

  /** A classifier leaves in no more matches than another, and as few only from an earlier place. */
  predicate NoWorse(matches: seq<Candidate>, b: nat, k: nat)
    requires b < |CLASSIFIERS| && k < |CLASSIFIERS|
  {
    Left(matches, b) < Left(matches, k) || (Left(matches, b) == Left(matches, k) && b <= k)
  }

  /** No classifier of the selected device leaves fewer base matches, nor as few at an earlier place. */
  lemma {:induction false} BestIsNarrowest(selected: Candidate, matches: seq<Candidate>, n: nat, k: nat)
    requires k < n <= |CLASSIFIERS| && Narrows(selected, matches, CLASSIFIERS[k])
    ensures var best := BestOf(selected, matches, n);
            best.Some? && Narrows(selected, matches, CLASSIFIERS[best.value]) && NoWorse(matches, best.value, k)
  {
    var earlier := BestOf(selected, matches, n - 1);
    BestNarrows(selected, matches, n - 1);
    if k < n - 1 {
      BestIsNarrowest(selected, matches, n - 1, k);
    }
    if Narrows(selected, matches, CLASSIFIERS[n - 1])
       && (earlier == None || Left(matches, earlier.value) > Left(matches, n - 1)) {
      assert BestOf(selected, matches, n) == Some(n - 1);
    } else {
      assert BestOf(selected, matches, n) == earlier;
    }
  }

  lemma {:induction false} BestNarrows(selected: Candidate, matches: seq<Candidate>, n: nat)
    requires n <= |CLASSIFIERS|
    ensures var best := BestOf(selected, matches, n);
            best.Some? ==> Narrows(selected, matches, CLASSIFIERS[best.value])
  {
    if n > 0 {
      BestNarrows(selected, matches, n - 1);
    }
  }

  datatype Rank = Rank(count: nat, index: nat)

  predicate Before(a: Rank, b: Rank) {
    a.count < b.count || (a.count == b.count && a.index < b.index)
  }

  function Least(ranked: seq<Rank>): Option<Rank> {
    if ranked == [] then None
    else
      var (least, last) := (Least(ranked[..|ranked| - 1]), ranked[|ranked| - 1]);
      if least.Some? && !Before(last, least.value) then least else Some(last)
  }

  /** The rank of the classifier at a place. */
  function RankOf(matches: seq<Candidate>, place: Option<nat>): Option<Rank>
    requires place.Some? ==> place.value < |CLASSIFIERS|
  {
    if place == None then None else Some(Rank(Left(matches, place.value), place.value))
  }

  /** The list of ranks filled in a loop, and its least element. */
  method NarrowingClassifier(selected: Candidate, matches: seq<Candidate>) returns (classifier: Option<Classifier>)
    ensures classifier == Narrowing(selected, matches)
  {
    if selected.subsystem != "input" || |matches| < 2 {
      return None;
    }
    var ranked: seq<Rank> := [];
    for index := 0 to |CLASSIFIERS|
      invariant Least(ranked) == RankOf(matches, BestOf(selected, matches, index))
    {
      var name := CLASSIFIERS[index];
      if Get(selected.properties, name) == Some("1") {
        var count := |Holding(matches, name, "1")|;
        if count < |matches| {
          ghost var before := ranked;
          ranked := ranked + [Rank(count, index)];
          assert ranked[..|before|] == before;
        }
      }
    }
    var least := Least(ranked);
    return if least.Some? then Some(Classifier(CLASSIFIERS[least.value.index], "1")) else None;
  }

  // -- The proposal --------------------------------------------------------------------

  /** A property that is present and not empty. */
  function Required(c: Candidate, name: string): Result<string, SelectorError> {
    var value := Get(c.properties, name);
    if value.Some? && value.value != "" then Ok(value.value) else Err(MissingProperty(name))
  }

  /** The unique serial number, or else the unique port when a port may be used. */
  function Disambiguate(selected: Candidate, matches: seq<Candidate>, allowPort: bool)
      : Result<(Option<string>, Option<string>), SelectorError> {
    if |matches| <= 1 then Ok((None, None))
    else
      var serial := Required(selected, "ID_SERIAL_SHORT");
      if serial.Ok? && UniqueProperty(matches, "ID_SERIAL_SHORT", serial.value) then Ok((Some(serial.value), None))
      else
        var path := Required(selected, "ID_PATH");
        if allowPort && path.Ok? && UniqueProperty(matches, "ID_PATH", path.value) then Ok((None, Some(path.value)))
        else Err(Ambiguous)
  }

  /** The selected device's transport, identifiers and interface, and its narrowing classifier. */
  function NarrowestDraft(selected: Candidate, all: seq<Candidate>): SelectorDraft
    requires TransportOf(selected).Some?
    requires Required(selected, "ID_VENDOR_ID").Ok? && Required(selected, "ID_MODEL_ID").Ok?
  {
    var base := SelectorDraft(
      TransportOf(selected).value, Required(selected, "ID_VENDOR_ID").value, Required(selected, "ID_MODEL_ID").value,
      Get(selected.properties, "ID_USB_INTERFACE_NUM"), None, None, None);
    base.(classifier := Narrowing(selected, BaseMatches(all, base)))
  }

  /** Every candidate's subsystem is looked up, so one that is neither input nor hidraw is an error. */
  function ProposeSelectors(selected: Candidate, all: seq<Candidate>, allowPort: bool)
    : Result<SelectorDraft, SelectorError>
  {
    if TransportOf(selected) == None then Err(UnsupportedSubsystem)
    else if Required(selected, "ID_VENDOR_ID").Err? then Err(MissingProperty("ID_VENDOR_ID"))
    else if Required(selected, "ID_MODEL_ID").Err? then Err(MissingProperty("ID_MODEL_ID"))
    else if exists c <- all :: TransportOf(c) == None then Err(UnsupportedSubsystem)
    else
      var narrowest := NarrowestDraft(selected, all);
      var matches := BaseMatches(all, narrowest.(classifier := None));
      if selected !in matches then Err(NotPresent)
      else
        match Disambiguate(selected, Classified(matches, narrowest.classifier), allowPort)
        case Err(e) => Err(e)
        case Ok((serial, path)) => Ok(narrowest.(serial := serial, idPath := path))
  }

  // -- Who matches a draft -------------------------------------------------------------

  /** The profile a draft becomes; its trigger is of the draft's transport. */
  function ProfileOf(d: SelectorDraft, name: string, action: string, trigger: Trigger): Profile {
    Profile(name, action, d.vendorId, d.productId, d.interfaceNumber, d.serial, d.idPath,
            if trigger.Evdev?
            then trigger.(classifier := if d.classifier.Some? then Some(d.classifier.value.name) else None)
            else trigger)
  }

  predicate Fits(trigger: Trigger, d: SelectorDraft) {
    trigger.Evdev? <==> d.transport == EvdevTransport
  }

  predicate StartsWith(s: string, prefix: string) {
    |prefix| <= |s| && s[..|prefix|] == prefix
  }

  function NodePrefix(t: Transport): string {
    if t == EvdevTransport then "/dev/input/event" else "/dev/hidraw"
  }

  /** The permission module's own matching of a candidate against selectors. */
  predicate PermissionMatches(c: Candidate, d: SelectorDraft) {
    && c.subsystem == (if d.transport == EvdevTransport then "input" else "hidraw")
    && StartsWith(c.node, NodePrefix(d.transport))
    && HexProperty(c.properties, "ID_VENDOR_ID").GetOr("") == d.vendorId
    && HexProperty(c.properties, "ID_MODEL_ID").GetOr("") == d.productId
    && (d.interfaceNumber.Some? ==> InterfaceProperty(c.properties) == d.interfaceNumber)
    && (d.serial.Some? ==> Get(c.properties, "ID_SERIAL_SHORT") == d.serial)
    && (d.idPath.Some? ==> Get(c.properties, "ID_PATH") == d.idPath)
    && (d.classifier.Some? ==> Get(c.properties, d.classifier.value.name) == Some(d.classifier.value.value))
  }

  /** What discovery makes of the USB properties it reads. */
  predicate Normalized(c: Candidate) {
    && HexProperty(c.properties, "ID_VENDOR_ID") == Get(c.properties, "ID_VENDOR_ID")
    && HexProperty(c.properties, "ID_MODEL_ID") == Get(c.properties, "ID_MODEL_ID")
    && InterfaceProperty(c.properties) == Get(c.properties, "ID_USB_INTERFACE_NUM")
  }

  predicate StandardNode(c: Candidate) {
    TransportOf(c).Some? ==> StartsWith(c.node, NodePrefix(TransportOf(c).value))
  }

  /** A draft's meaning, said once: its base, its classifier, its serial and its port. */
  predicate Accepts(d: SelectorDraft, c: Candidate) {
    && MatchesBase(c, d)
    && (d.classifier.Some? ==> Get(c.properties, d.classifier.value.name) == Some(d.classifier.value.value))
    && (d.serial.Some? ==> Get(c.properties, "ID_SERIAL_SHORT") == d.serial)
    && (d.idPath.Some? ==> Get(c.properties, "ID_PATH") == d.idPath)
  }

  /** Both matchers of the program agree with that meaning. */
  lemma BothMatchersAccept(d: SelectorDraft, c: Candidate, name: string, action: string, trigger: Trigger)
    requires Normalized(c) && StandardNode(c) && Fits(trigger, d) && d.vendorId != "" && d.productId != ""
    requires d.classifier.Some? ==> d.classifier.value.value == "1" && d.transport == EvdevTransport
    ensures MatchesIdentity(ProfileOf(d, name, action, trigger), c) <==> Accepts(d, c)
    ensures PermissionMatches(c, d) <==> Accepts(d, c)
  {
  }

  // -- Uniqueness ----------------------------------------------------------------------

  function Accepted(all: seq<Candidate>, d: SelectorDraft): seq<Candidate> {
    if all == [] then []
    else (if Accepts(d, all[0]) then [all[0]] else []) + Accepted(all[1..], d)
  }

  function Held(candidates: seq<Candidate>, name: string, value: Option<string>): seq<Candidate> {
    if value.Some? then Holding(candidates, name, value.value) else candidates
  }

  lemma HeldOneMore(c: Candidate, rest: seq<Candidate>, name: string, value: Option<string>)
    ensures value == None || Get(c.properties, name) == value ==>
              Held([c] + rest, name, value) == [c] + Held(rest, name, value)
    ensures !(value == None || Get(c.properties, name) == value) ==>
              Held([c] + rest, name, value) == Held(rest, name, value)
  {
    assert ([c] + rest)[1..] == rest;
  }

  function Classified(matches: seq<Candidate>, classifier: Option<Classifier>): seq<Candidate> {
    if classifier.Some? then Holding(matches, classifier.value.name, classifier.value.value) else matches
  }

  /** The candidates narrowed by classifier, then by serial number, then by port. */
  function Narrowed(matches: seq<Candidate>, d: SelectorDraft): seq<Candidate> {
    Held(Held(Classified(matches, d.classifier), "ID_SERIAL_SHORT", d.serial), "ID_PATH", d.idPath)
  }

  lemma NarrowedOneMore(c: Candidate, rest: seq<Candidate>, d: SelectorDraft)
    requires MatchesBase(c, d)
    ensures Narrowed([c] + rest, d) == (if Accepts(d, c) then [c] else []) + Narrowed(rest, d)
  {
    var (name, value) :=
      if d.classifier.Some? then (d.classifier.value.name, Some(d.classifier.value.value)) else ("", None);
    var (first, second) := (Held(rest, name, value), Held(Held(rest, name, value), "ID_SERIAL_SHORT", d.serial));
    assert Classified([c] + rest, d.classifier) == Held([c] + rest, name, value);
    assert Classified(rest, d.classifier) == first;
    HeldOneMore(c, rest, name, value);
    HeldOneMore(c, first, "ID_SERIAL_SHORT", d.serial);
    HeldOneMore(c, second, "ID_PATH", d.idPath);
  }

  /** Narrowing the base matches leaves the candidates the draft accepts. */
  lemma {:induction false} AcceptedInTurn(all: seq<Candidate>, d: SelectorDraft)
    ensures Narrowed(BaseMatches(all, d), d) == Accepted(all, d)
  {
    if all != [] {
      AcceptedInTurn(all[1..], d);
      if MatchesBase(all[0], d) {
        NarrowedOneMore(all[0], BaseMatches(all[1..], d), d);
        assert BaseMatches(all, d) == [all[0]] + BaseMatches(all[1..], d);
      } else {
        assert BaseMatches(all, d) == BaseMatches(all[1..], d);
      }
    }
  }

  lemma {:induction false} BaseIgnoresTheRest(all: seq<Candidate>, d: SelectorDraft, e: SelectorDraft)
    requires e == d.(serial := e.serial, idPath := e.idPath, classifier := e.classifier)
    ensures BaseMatches(all, e) == BaseMatches(all, d)
  {
    if all != [] {
      BaseIgnoresTheRest(all[1..], d, e);
    }
  }

  lemma {:induction false} AcceptedAreListed(all: seq<Candidate>, d: SelectorDraft)
    ensures forall c :: c in Accepted(all, d) <==> c in all && Accepts(d, c)
    ensures forall c | Accepts(d, c) :: multiset(Accepted(all, d))[c] == multiset(all)[c]
  {
    if all != [] {
      AcceptedAreListed(all[1..], d);
      assert all == [all[0]] + all[1..];
    }
  }

  lemma HoldingAreListed(candidates: seq<Candidate>, name: string, value: string)
    ensures forall c ::
              c in Holding(candidates, name, value) <==> c in candidates && Get(c.properties, name) == Some(value)
  {
    if candidates != [] {
      HoldingAreListed(candidates[1..], name, value);
      assert candidates == [candidates[0]] + candidates[1..];
    }
  }

  lemma {:induction false} BaseAreListed(all: seq<Candidate>, d: SelectorDraft)
    ensures forall c :: c in BaseMatches(all, d) <==> c in all && MatchesBase(c, d)
  {
    if all != [] {
      BaseAreListed(all[1..], d);
      assert all == [all[0]] + all[1..];
    }
  }

  /** A proposed draft accepts the selected candidate and has the shape a profile can have. */
  lemma ProposalAcceptsSelected(selected: Candidate, all: seq<Candidate>, allowPort: bool)
    requires ProposeSelectors(selected, all, allowPort).Ok?
    ensures var d := ProposeSelectors(selected, all, allowPort).value;
            && selected in all && Accepts(d, selected) && d.vendorId != "" && d.productId != ""
            && (d.classifier.Some? ==> d.classifier.value.value == "1" && d.transport == EvdevTransport)
  {
    var d := ProposeSelectors(selected, all, allowPort).value;
    var base := d.(serial := None, idPath := None, classifier := None);
    BaseAreListed(all, base);
    if d.classifier.Some? {
      BestNarrows(selected, BaseMatches(all, base), |CLASSIFIERS|);
    }
  }

  lemma DisambiguationIsUnique(selected: Candidate, matches: seq<Candidate>, allowPort: bool)
    requires Disambiguate(selected, matches, allowPort).Ok?
    ensures var (serial, path) := Disambiguate(selected, matches, allowPort).value;
            |Held(Held(matches, "ID_SERIAL_SHORT", serial), "ID_PATH", path)| <= 1
  {
  }

  /** The list has one entry the draft accepts. */
  lemma ProposalAcceptsOne(selected: Candidate, all: seq<Candidate>, allowPort: bool)
    requires ProposeSelectors(selected, all, allowPort).Ok?
    ensures Accepted(all, ProposeSelectors(selected, all, allowPort).value) == [selected]
  {
    var d := ProposeSelectors(selected, all, allowPort).value;
    var base := d.(serial := None, idPath := None, classifier := None);
    ProposalAcceptsSelected(selected, all, allowPort);
    DisambiguationIsUnique(selected, Classified(BaseMatches(all, base), d.classifier), allowPort);
    BaseIgnoresTheRest(all, base, d);
    AcceptedInTurn(all, d);
    AcceptedAreListed(all, d);
    JustOne(Accepted(all, d), selected);
  }

  lemma JustOne<T>(s: seq<T>, x: T)
    requires |s| <= 1 && x in s
    ensures s == [x]
  {
  }

  /**
   Of the candidate list, exactly the selected entry matches the draft, both as the profile built from it
   and as a permission rule.
   */
  lemma DraftMatchesOnlySelected(selected: Candidate, all: seq<Candidate>, allowPort: bool,
                                 name: string, action: string, trigger: Trigger)
    requires forall c <- all :: Normalized(c) && StandardNode(c)
    requires ProposeSelectors(selected, all, allowPort).Ok?
    requires Fits(trigger, ProposeSelectors(selected, all, allowPort).value)
    ensures var d := ProposeSelectors(selected, all, allowPort).value;
            exists k :: && 0 <= k < |all| && all[k] == selected
                        && forall i | 0 <= i < |all| ::
                             && (MatchesIdentity(ProfileOf(d, name, action, trigger), all[i]) <==> i == k)
                             && (PermissionMatches(all[i], d) <==> i == k)
  {
    var d := ProposeSelectors(selected, all, allowPort).value;
    ProposalAcceptsSelected(selected, all, allowPort);
    ProposalAcceptsOne(selected, all, allowPort);
    AcceptedAreListed(all, d);
    var k :| 0 <= k < |all| && all[k] == selected;
    forall i | 0 <= i < |all|
      ensures (MatchesIdentity(ProfileOf(d, name, action, trigger), all[i]) <==> i == k)
      ensures PermissionMatches(all[i], d) <==> i == k
    {
      BothMatchersAccept(d, all[i], name, action, trigger);
      if all[i] == selected {
        OnlyOnce(all, selected, i, k);
      } else {
        assert all[i] !in Accepted(all, d);
      }
    }
  }

  /** The drafts the program tries in turn: no further selector, the serial number, and the port if it may be used. */
  function Tried(selected: Candidate, narrowest: SelectorDraft, allowPort: bool): seq<SelectorDraft> {
    var (serial, path) := (Required(selected, "ID_SERIAL_SHORT"), Required(selected, "ID_PATH"));
    [narrowest]
    + (if serial.Ok? then [narrowest.(serial := Some(serial.value))] else [])
    + (if allowPort && path.Ok? then [narrowest.(idPath := Some(path.value))] else [])
  }

  lemma FailedDisambiguation(selected: Candidate, matches: seq<Candidate>, allowPort: bool)
    requires selected in matches && Disambiguate(selected, matches, allowPort).Err?
    ensures var (serial, path) := (Required(selected, "ID_SERIAL_SHORT"), Required(selected, "ID_PATH"));
            && |matches| >= 2
            && (serial.Ok? ==> |Holding(matches, "ID_SERIAL_SHORT", serial.value)| >= 2)
            && (allowPort && path.Ok? ==> |Holding(matches, "ID_PATH", path.value)| >= 2)
  {
    var (serial, path) := (Required(selected, "ID_SERIAL_SHORT"), Required(selected, "ID_PATH"));
    if serial.Ok? {
      HoldingAreListed(matches, "ID_SERIAL_SHORT", serial.value);
    }
    if path.Ok? {
      HoldingAreListed(matches, "ID_PATH", path.value);
    }
  }

  lemma AcceptedByTried(all: seq<Candidate>, base: SelectorDraft, d: SelectorDraft)
    requires base == d.(serial := None, idPath := None, classifier := None)
    ensures Accepted(all, d) == Narrowed(BaseMatches(all, base), d)
  {
    BaseIgnoresTheRest(all, base, d);
    AcceptedInTurn(all, d);
  }

  /** The selected candidate is among the narrowed matches. */
  lemma SelectedIsNarrowed(selected: Candidate, all: seq<Candidate>)
    requires TransportOf(selected).Some?
    requires Required(selected, "ID_VENDOR_ID").Ok? && Required(selected, "ID_MODEL_ID").Ok?
    requires var d := NarrowestDraft(selected, all); selected in BaseMatches(all, d.(classifier := None))
    ensures var d := NarrowestDraft(selected, all);
            selected in Classified(BaseMatches(all, d.(classifier := None)), d.classifier)
  {
    var d := NarrowestDraft(selected, all);
    var matches := BaseMatches(all, d.(classifier := None));
    if d.classifier.Some? {
      BestNarrows(selected, matches, |CLASSIFIERS|);
      HoldingAreListed(matches, d.classifier.value.name, "1");
    }
  }

  /** A proposal fails as ambiguous only if each draft the program tries is shared with another entry. */
  lemma AmbiguityIsReal(selected: Candidate, all: seq<Candidate>, allowPort: bool)
    requires ProposeSelectors(selected, all, allowPort) == Err(Ambiguous)
    ensures forall d <- Tried(selected, NarrowestDraft(selected, all), allowPort) :: |Accepted(all, d)| >= 2
  {
    var narrowest := NarrowestDraft(selected, all);
    var base := narrowest.(classifier := None);
    SelectedIsNarrowed(selected, all);
    FailedDisambiguation(selected, Classified(BaseMatches(all, base), narrowest.classifier), allowPort);
    forall d | d in Tried(selected, narrowest, allowPort) ensures |Accepted(all, d)| >= 2 {
      AcceptedByTried(all, base, d);
    }
  }

  /** The first of these drafts that no other entry of the list shares. */
  function FirstUnshared(all: seq<Candidate>, drafts: seq<SelectorDraft>): Option<SelectorDraft> {
    if drafts == [] then None
    else if |Accepted(all, drafts[0])| <= 1 then Some(drafts[0])
    else FirstUnshared(all, drafts[1..])
  }

  /** The selected device is present, has its identifiers, and only evdev and hidraw devices are listed. */
  predicate Proposable(selected: Candidate, all: seq<Candidate>) {
    && TransportOf(selected).Some? && selected in all && (forall c <- all :: TransportOf(c).Some?)
    && Required(selected, "ID_VENDOR_ID").Ok? && Required(selected, "ID_MODEL_ID").Ok?
  }

  lemma SelectedIsAMatch(selected: Candidate, all: seq<Candidate>)
    requires Proposable(selected, all)
    ensures selected in BaseMatches(all, NarrowestDraft(selected, all).(classifier := None))
  {
    BaseAreListed(all, NarrowestDraft(selected, all).(classifier := None));
  }

  /** A property the selected device has is unique among matches it is one of iff no other match holds it. */
  lemma UniqueIsUnshared(selected: Candidate, matches: seq<Candidate>, name: string)
    requires selected in matches && Required(selected, name).Ok?
    ensures UniqueProperty(matches, name, Required(selected, name).value)
            <==> |Holding(matches, name, Required(selected, name).value)| <= 1
  {
    HoldingAreListed(matches, name, Required(selected, name).value);
  }

  /**
   A device that is present, supported and identified gets the first unshared draft of those the program tries:
   the plain one, else one with its serial number, else, if allowed, one with its port; and an ambiguity exactly
   if each of them is shared.  Any other device is refused for another reason.
   */
  lemma ProposalIsTheFirstUnshared(selected: Candidate, all: seq<Candidate>, allowPort: bool)
    ensures var r := ProposeSelectors(selected, all, allowPort);
            if !Proposable(selected, all) then r.Err? && r != Err(Ambiguous)
            else
              match FirstUnshared(all, Tried(selected, NarrowestDraft(selected, all), allowPort))
              case Some(d) => r == Ok(d)
              case None => r == Err(Ambiguous)
  {
    if Proposable(selected, all) {
      var narrowest := NarrowestDraft(selected, all);
      var base := narrowest.(classifier := None);
      var matches := Classified(BaseMatches(all, base), narrowest.classifier);
      SelectedIsAMatch(selected, all);
      SelectedIsNarrowed(selected, all);
      TriedInTurn(selected, all, narrowest, matches, allowPort);
    } else if TransportOf(selected).Some? && Required(selected, "ID_VENDOR_ID").Ok?
              && Required(selected, "ID_MODEL_ID").Ok? {
      BaseAreListed(all, NarrowestDraft(selected, all).(classifier := None));
    }
  }

  lemma TriedInTurn(selected: Candidate, all: seq<Candidate>, narrowest: SelectorDraft, matches: seq<Candidate>,
                    allowPort: bool)
    requires narrowest.serial == None && narrowest.idPath == None && selected in matches
    requires matches == Classified(BaseMatches(all, narrowest.(classifier := None)), narrowest.classifier)
    ensures var r := Disambiguate(selected, matches, allowPort);
            match FirstUnshared(all, Tried(selected, narrowest, allowPort))
            case Some(d) => r.Ok? && d == narrowest.(serial := r.value.0, idPath := r.value.1)
            case None => r == Err(Ambiguous)
  {
    var base := narrowest.(classifier := None);
    var (serial, path) := (Required(selected, "ID_SERIAL_SHORT"), Required(selected, "ID_PATH"));
    AcceptedByTried(all, base, narrowest);
    if serial.Ok? {
      AcceptedByTried(all, base, narrowest.(serial := Some(serial.value)));
      UniqueIsUnshared(selected, matches, "ID_SERIAL_SHORT");
    }
    if path.Ok? {
      AcceptedByTried(all, base, narrowest.(idPath := Some(path.value)));
      UniqueIsUnshared(selected, matches, "ID_PATH");
    }
    TriedList(all, selected, narrowest, allowPort);
  }

  /** The list unrolled. */
  lemma TriedList(all: seq<Candidate>, selected: Candidate, narrowest: SelectorDraft, allowPort: bool)
    ensures var (serial, path) := (Required(selected, "ID_SERIAL_SHORT"), Required(selected, "ID_PATH"));
            FirstUnshared(all, Tried(selected, narrowest, allowPort))
            == if |Accepted(all, narrowest)| <= 1 then Some(narrowest)
               else if serial.Ok? && |Accepted(all, narrowest.(serial := Some(serial.value)))| <= 1
               then Some(narrowest.(serial := Some(serial.value)))
               else if allowPort && path.Ok? && |Accepted(all, narrowest.(idPath := Some(path.value)))| <= 1
               then Some(narrowest.(idPath := Some(path.value)))
               else None
  {
    var (serial, path) := (Required(selected, "ID_SERIAL_SHORT"), Required(selected, "ID_PATH"));
    var withPort := if allowPort && path.Ok? then [narrowest.(idPath := Some(path.value))] else [];
    var withSerial := if serial.Ok? then [narrowest.(serial := Some(serial.value))] else [];
    assert Tried(selected, narrowest, allowPort) == [narrowest] + (withSerial + withPort);
    FirstOfMore(all, narrowest, withSerial + withPort);
    if serial.Ok? {
      FirstOfMore(all, withSerial[0], withPort);
    } else {
      assert withSerial + withPort == withPort;
    }
    if withPort != [] {
      FirstOfMore(all, withPort[0], []);
      assert [withPort[0]] + [] == withPort && FirstUnshared(all, []) == None;
    }
  }

  lemma FirstOfMore(all: seq<Candidate>, d: SelectorDraft, rest: seq<SelectorDraft>)
    ensures FirstUnshared(all, [d] + rest)
            == if |Accepted(all, d)| <= 1 then Some(d) else FirstUnshared(all, rest)
  {
    assert ([d] + rest)[1..] == rest;
  }

  /** There is a narrowing classifier exactly if some classifier of an input device narrows; it is the narrowest. */
  lemma NarrowingExactly(selected: Candidate, matches: seq<Candidate>)
    ensures var c := Narrowing(selected, matches);
            && (c.Some? <==>
                  && selected.subsystem == "input" && |matches| >= 2
                  && exists k | 0 <= k < |CLASSIFIERS| :: Narrows(selected, matches, CLASSIFIERS[k]))
            && (c.Some? ==>
                  exists b | 0 <= b < |CLASSIFIERS| ::
                    c == Some(Classifier(CLASSIFIERS[b], "1")) && Narrowest(selected, matches, b))
  {
    var best := BestOf(selected, matches, |CLASSIFIERS|);
    BestNarrows(selected, matches, |CLASSIFIERS|);
    forall k | 0 <= k < |CLASSIFIERS| && Narrows(selected, matches, CLASSIFIERS[k])
      ensures best.Some? && NoWorse(matches, best.value, k)
    {
      BestIsNarrowest(selected, matches, |CLASSIFIERS|, k);
    }
    if best.Some? {
      assert Narrowest(selected, matches, best.value);
    }
  }

  /** The plain draft is the selected device's own transport, identifiers and interface, and its classifier. */
  lemma NarrowestIsItsOwn(selected: Candidate, all: seq<Candidate>)
    requires Proposable(selected, all)
    ensures var d := NarrowestDraft(selected, all);
            && Some(d.transport) == TransportOf(selected) && d.serial == None && d.idPath == None
            && Get(selected.properties, "ID_VENDOR_ID") == Some(d.vendorId)
            && Get(selected.properties, "ID_MODEL_ID") == Some(d.productId)
            && d.interfaceNumber == Get(selected.properties, "ID_USB_INTERFACE_NUM")
            && d.classifier == Narrowing(selected, BaseMatches(all, d.(classifier := None)))
  {
  }

  /** Of the device's own classifiers that leave a match out, none leaves fewer in, nor as few at an earlier place. */
  predicate Narrowest(selected: Candidate, matches: seq<Candidate>, b: nat)
    requires b < |CLASSIFIERS|
  {
    && Narrows(selected, matches, CLASSIFIERS[b])
    && forall k | 0 <= k < |CLASSIFIERS| && Narrows(selected, matches, CLASSIFIERS[k]) :: NoWorse(matches, b, k)
  }

  datatype RuleError =
    | InvalidVendor
    | InvalidProduct
    | InvalidInterface
    | InvalidClassifier
    | InvalidText(value: string)

  predicate IsUsbId(s: string) {
    |s| == 4 && IsLowerHex(s)
  }

  /** Neither empty nor holding a control character. */
  predicate IsRuleText(s: string) {
    s != "" && forall c <- s :: c as int >= 32 && c as int != 127
  }

  function BadText(d: SelectorDraft): Option<string> {
    if d.serial.Some? && !IsRuleText(d.serial.value) then d.serial
    else if d.idPath.Some? && !IsRuleText(d.idPath.value) then d.idPath
    else None
  }

  /** The permission module's normal form of a draft, or what it refuses. */
  function NormalizeSelectors(d: SelectorDraft): Result<SelectorDraft, RuleError> {
    var interface := if d.interfaceNumber.Some? then Some(Zfill2(Lower(d.interfaceNumber.value))) else None;
    if !IsUsbId(Lower(d.vendorId)) then Err(InvalidVendor)
    else if !IsUsbId(Lower(d.productId)) then Err(InvalidProduct)
    else if interface.Some? && !(|interface.value| == 2 && IsLowerHex(interface.value)) then Err(InvalidInterface)
    else if d.classifier.Some?
            && (|| d.transport != EvdevTransport
                || d.classifier.value.name !in CLASSIFIERS || d.classifier.value.value != "1")
    then Err(InvalidClassifier)
    else if BadText(d).Some? then Err(InvalidText(BadText(d).value))
    else Ok(d.(vendorId := Lower(d.vendorId), productId := Lower(d.productId), interfaceNumber := interface))
  }

  predicate NoControl(s: string) {
    forall c <- s :: ' ' <= c && c != 127 as char
  }

  /** The normal form is lower-case hex with a padded interface number, and stays as it is. */
  lemma NormalFormIsStable(d: SelectorDraft)
    requires NormalizeSelectors(d).Ok?
    ensures var n := NormalizeSelectors(d).value;
            && NormalizeSelectors(n) == Ok(n)
            && |n.vendorId| == 4 && IsLowerHex(n.vendorId) && |n.productId| == 4 && IsLowerHex(n.productId)
            && n == d.(vendorId := Lower(d.vendorId), productId := Lower(d.productId),
                       interfaceNumber := n.interfaceNumber)
            && (d.interfaceNumber == None ==> n.interfaceNumber == None)
            && (d.interfaceNumber.Some? ==>
                  && n.interfaceNumber.Some? && |n.interfaceNumber.value| == 2 && IsLowerHex(n.interfaceNumber.value)
                  && n.interfaceNumber.value
                     in {Lower(d.interfaceNumber.value), "0" + Lower(d.interfaceNumber.value),
                         "00" + Lower(d.interfaceNumber.value)})
  {
    var n := NormalizeSelectors(d).value;
    LowerHexIsLower(n.vendorId);
    LowerHexIsLower(n.productId);
    if n.interfaceNumber.Some? {
      LowerHexIsLower(n.interfaceNumber.value);
      var given := Lower(d.interfaceNumber.value);
      assert n.interfaceNumber.value[0] in n.interfaceNumber.value;
      assert given == "" ==> "00" + given == "00";
    }
  }

  /**
   A proposal from normalized candidates is its own normal form, so the permission module matches with the very
   same draft; it is refused exactly for what the device itself reports: malformed identifiers, a malformed
   interface number or a control character, and never for its classifier.
   */
  lemma ProposalIsNormal(selected: Candidate, all: seq<Candidate>, allowPort: bool)
    requires forall c <- all :: Normalized(c)
    requires ProposeSelectors(selected, all, allowPort).Ok?
    ensures var d := ProposeSelectors(selected, all, allowPort).value;
            var r := NormalizeSelectors(d);
            && (r.Ok? ==> r.value == d)
            && (r.Ok? <==> && |d.vendorId| == 4 && IsLowerHex(d.vendorId)
                           && |d.productId| == 4 && IsLowerHex(d.productId)
                           && (d.interfaceNumber.Some? ==>
                                 |d.interfaceNumber.value| == 2 && IsLowerHex(d.interfaceNumber.value))
                           && (d.serial.Some? ==> d.serial.value != "" && NoControl(d.serial.value))
                           && (d.idPath.Some? ==> d.idPath.value != "" && NoControl(d.idPath.value)))
  {
    var d := ProposeSelectors(selected, all, allowPort).value;
    ProposalAcceptsSelected(selected, all, allowPort);
    if d.classifier.Some? {
      var base := BaseMatches(all, d.(serial := None, idPath := None, classifier := None));
      var best := BestOf(selected, base, |CLASSIFIERS|);
      assert CLASSIFIERS[best.value] in CLASSIFIERS;
    }
  }

  lemma OnlyOnce<T>(s: seq<T>, x: T, i: nat, k: nat)
    requires i < |s| && k < |s| && s[i] == x && s[k] == x
    ensures i == k || multiset(s)[x] >= 2
  {
    if i != k {
      var (low, high) := if i < k then (i, k) else (k, i);
      assert s == s[..high] + s[high..];
      assert x in s[..high] by { assert s[..high][low] == x; }
      assert x in s[high..] by { assert s[high..][0] == x; }
    }
  }

  /**
   In any order of the candidates, the new profile is available on the selected node exactly when the node
   can be read, has the codes the trigger needs, and no other profile resolves to it.
   */
  lemma ProposalResolves(codes: EventCodes, selected: Candidate, all: seq<Candidate>, allowPort: bool,
                         profiles: seq<Profile>, i: nat, trigger: Trigger, shuffled: seq<Candidate>)
    requires forall c <- all :: Normalized(c) && StandardNode(c)
    requires ProposeSelectors(selected, all, allowPort).Ok?
    requires Fits(trigger, ProposeSelectors(selected, all, allowPort).value)
    requires i < |profiles|
    requires profiles[i]
             == ProfileOf(ProposeSelectors(selected, all, allowPort).value, profiles[i].name, profiles[i].action,
                          trigger)
    requires multiset(shuffled) == multiset(all)
    ensures ResolveProfiles(codes, profiles, shuffled)[i] == Resolution(profiles[i], Available, Some(selected.node))
            <==> && selected.eventCodes.Some?
                 && (trigger.Evdev? ==>
                       forall name <- trigger.onEvents + trigger.offEvents + trigger.toggleEvents ::
                         name in codes ==> codes[name] in selected.eventCodes.value)
                 && forall j | 0 <= j < |profiles| && j != i ::
                      ResolveEach(codes, profiles, shuffled)[j].node != Some(selected.node)
  {
    var d := ProposeSelectors(selected, all, allowPort).value;
    var p := profiles[i];
    if selected.eventCodes.Some? {
      NeedsItsEvents(codes, p, selected.eventCodes.value);
    }
    ProposalAcceptsSelected(selected, all, allowPort);
    ProposalAcceptsOne(selected, all, allowPort);
    AcceptedAreListed(all, d);
    assert selected in multiset(shuffled) && multiset(shuffled)[selected] == 1;
    var k :| 0 <= k < |shuffled| && shuffled[k] == selected;
    forall m | 0 <= m < |shuffled| ensures MatchesIdentity(p, shuffled[m]) <==> m == k {
      assert shuffled[m] in multiset(shuffled);
      BothMatchersAccept(d, shuffled[m], p.name, p.action, trigger);
      if shuffled[m] == selected {
        OnlyOnce(shuffled, selected, m, k);
      } else {
        assert shuffled[m] !in Accepted(all, d);
      }
    }
    if CouldBe(codes, p, selected) {
      OnePotentialMatch(codes, p, shuffled, k);
    } else {
      NoPotentialMatch(codes, p, shuffled);
    }
    AvailableExactly(codes, profiles, shuffled, i, selected.node);
  }
}
