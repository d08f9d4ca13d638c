/** Matching configured profiles against the devices present. */
module Discovery {
  import opened Common

  type Report = Bytes

  type Properties = map<string, string>

  /** The numeric code of each symbolic event name. */
  type EventCodes = map<string, int>

  datatype Trigger =
    | Hidraw(onReports: seq<Report>, offReports: seq<Report>)
    | Evdev(mode: string, classifier: Option<string>, onEvents: seq<string>, offEvents: seq<string>,
            toggleEvents: seq<string>, toggleOffTimeout: real)

  datatype Profile = Profile(
    name: string,
    action: string,
    vendorId: string,
    productId: string,
    interfaceNumber: Option<string>,
    serial: Option<string>,
    idPath: Option<string>,
    trigger: Trigger)

  /** `eventCodes` is None when the node cannot be read. */
  datatype Candidate = Candidate(node: string, subsystem: string, properties: Properties, eventCodes: Option<set<int>>)

  datatype Status = Available | Unavailable | AmbiguousDevice | NodeConflict | PermissionDenied

  datatype Resolution = Resolution(profile: Profile, status: Status, node: Option<string>) {
    predicate IsAvailable() {
      status == Available && node.Some?
    }
  }

  function LowerChar(c: char): char {
    if 'A' <= c <= 'Z' then c - 'A' + 'a' else c
  }

  function Lower(s: string): (r: string)
    ensures |r| == |s|
  {
    seq(|s|, i requires 0 <= i < |s| => LowerChar(s[i]))
  }

  /** Left-pad with a zero to two characters, behind a sign if there is one. */
  function Zfill2(s: string): string {
    if |s| >= 2 then s
    else if |s| == 0 then "00"
    else if s[0] == '+' || s[0] == '-' then s + "0"
    else "0" + s
  }

  function Get(properties: Properties, name: string): Option<string> {
    if name in properties then Some(properties[name]) else None
  }

  function HexProperty(properties: Properties, name: string): Option<string> {
    if name in properties then Some(Lower(properties[name])) else None
  }

  function InterfaceProperty(properties: Properties): Option<string> {
    var value := HexProperty(properties, "ID_USB_INTERFACE_NUM");
    if value.Some? then Some(Zfill2(value.value)) else None
  }

  function RequiredEventCodes(codes: EventCodes, p: Profile): set<int> {
    if p.trigger.Hidraw? then {}
    else
      var names := p.trigger.onEvents + p.trigger.offEvents + p.trigger.toggleEvents;
      set n | n in names && n in codes :: codes[n]
  }

  predicate MatchesIdentity(p: Profile, c: Candidate) {
    && c.subsystem == (if p.trigger.Hidraw? then "hidraw" else "input")
    && HexProperty(c.properties, "ID_VENDOR_ID") == Some(p.vendorId)
    && HexProperty(c.properties, "ID_MODEL_ID") == Some(p.productId)
    && (p.interfaceNumber.Some? ==> InterfaceProperty(c.properties) == p.interfaceNumber)
    && (p.serial.Some? ==> Get(c.properties, "ID_SERIAL_SHORT") == p.serial)
    && (p.idPath.Some? ==> Get(c.properties, "ID_PATH") == p.idPath)
    && (p.trigger.Evdev? && p.trigger.classifier.Some? ==>
          Get(c.properties, p.trigger.classifier.value) == Some("1"))
  }

  /** The profile could mean this candidate: identity matches and no required code is known to be missing. */
  predicate CouldBe(codes: EventCodes, p: Profile, c: Candidate) {
    && MatchesIdentity(p, c)
    && (c.eventCodes == None || RequiredEventCodes(codes, p) <= c.eventCodes.value)
  }

  /** A device has the codes an evdev trigger needs if it has that of each of its events that has one. */
  lemma NeedsItsEvents(codes: EventCodes, p: Profile, available: set<int>)
    ensures RequiredEventCodes(codes, p) <= available
            <==> (p.trigger.Evdev? ==>
                    forall name <- p.trigger.onEvents + p.trigger.offEvents + p.trigger.toggleEvents ::
                      name in codes ==> codes[name] in available)
  {
    if p.trigger.Evdev? && RequiredEventCodes(codes, p) <= available {
      forall name <- p.trigger.onEvents + p.trigger.offEvents + p.trigger.toggleEvents
        ensures name in codes ==> codes[name] in available
      {
        assert name in codes ==> codes[name] in RequiredEventCodes(codes, p);
      }
    }
  }

  function PotentialMatches(codes: EventCodes, p: Profile, candidates: seq<Candidate>): seq<Candidate> {
    if candidates == [] then []
    else (if CouldBe(codes, p, candidates[0]) then [candidates[0]] else [])
         + PotentialMatches(codes, p, candidates[1..])
  }

  function ResolveProfile(codes: EventCodes, p: Profile, candidates: seq<Candidate>): Resolution {
    var matches := PotentialMatches(codes, p, candidates);
    if |matches| == 0 then Resolution(p, Unavailable, None)
    else if |matches| > 1 then Resolution(p, AmbiguousDevice, None)
    else if matches[0].eventCodes == None then Resolution(p, PermissionDenied, Some(matches[0].node))
    else Resolution(p, Available, Some(matches[0].node))
  }

  function ResolveEach(codes: EventCodes, profiles: seq<Profile>, candidates: seq<Candidate>): (r: seq<Resolution>)
    ensures |r| == |profiles|
    ensures forall i | 0 <= i < |r| :: r[i] == ResolveProfile(codes, profiles[i], candidates)
  {
    seq(|profiles|, i requires 0 <= i < |profiles| => ResolveProfile(codes, profiles[i], candidates))
  }

  function NodeCount(resolutions: seq<Resolution>, node: string): nat {
    if resolutions == [] then 0
    else NodeCount(resolutions[..|resolutions| - 1], node)
         + (if resolutions[|resolutions| - 1].node == Some(node) then 1 else 0)
  }

  /** Resolve every profile; a node two profiles resolve to is given to neither. */
  function ResolveProfiles(codes: EventCodes, profiles: seq<Profile>, candidates: seq<Candidate>): (r: seq<Resolution>)
    ensures |r| == |profiles|
    ensures forall i | 0 <= i < |r| :: r[i].profile == profiles[i]
  {
    var each := ResolveEach(codes, profiles, candidates);
    seq(|each|, i requires 0 <= i < |each| =>
      if each[i].node.Some? && NodeCount(each, each[i].node.value) > 1
      then each[i].(status := NodeConflict, node := None)
      else each[i])
  }

  /** Resolution `i` holds the node. */
  predicate Holds(resolutions: seq<Resolution>, node: string, i: int) {
    0 <= i < |resolutions| && resolutions[i].node == Some(node)
  }

  lemma {:induction false} CountsAHolder(resolutions: seq<Resolution>, node: string)
    ensures NodeCount(resolutions, node) >= 1 <==> exists i :: Holds(resolutions, node, i)
  {
    if resolutions != [] {
      var k := |resolutions| - 1;
      CountsAHolder(resolutions[..k], node);
      if i :| Holds(resolutions[..k], node, i) {
        assert Holds(resolutions, node, i);
      }
      if i :| Holds(resolutions, node, i) && i < k {
        assert Holds(resolutions[..k], node, i);
      } else if Holds(resolutions, node, k) {
      }
    }
  }

  /** A node is counted twice exactly when two resolutions hold it. */
  lemma {:induction false} CountsHolders(resolutions: seq<Resolution>, node: string)
    ensures NodeCount(resolutions, node) >= 2 <==>
              exists i, j :: i < j && Holds(resolutions, node, i) && Holds(resolutions, node, j)
  {
    if resolutions != [] {
      var k := |resolutions| - 1;
      CountsHolders(resolutions[..k], node);
      CountsAHolder(resolutions[..k], node);
      if i, j :| i < j && Holds(resolutions[..k], node, i) && Holds(resolutions[..k], node, j) {
        assert Holds(resolutions, node, i) && Holds(resolutions, node, j);
      }
      if i :| Holds(resolutions[..k], node, i) && Holds(resolutions, node, k) {
        assert Holds(resolutions, node, i);
      }
      if i, j :| i < j && Holds(resolutions, node, i) && Holds(resolutions, node, j) {
        assert Holds(resolutions[..k], node, i);
        assert j < k ==> Holds(resolutions[..k], node, j);
      }
    }
  }

  /** No two profiles resolve to one node. */
  lemma NodesAreDistinct(codes: EventCodes, profiles: seq<Profile>, candidates: seq<Candidate>, i: nat, j: nat)
    requires i < j < |profiles|
    ensures var r := ResolveProfiles(codes, profiles, candidates);
            r[i].node.Some? ==> r[i].node != r[j].node
  {
    var each := ResolveEach(codes, profiles, candidates);
    if each[i].node.Some? {
      CountsHolders(each, each[i].node.value);
      assert Holds(each, each[i].node.value, i);
      assert each[j].node == each[i].node ==> Holds(each, each[i].node.value, j);
    }
  }

  /** A profile is available on a node exactly when it alone resolves to that node, readably. */
  lemma AvailableExactly(codes: EventCodes, profiles: seq<Profile>, candidates: seq<Candidate>, i: nat, node: string)
    requires i < |profiles|
    ensures var each := ResolveEach(codes, profiles, candidates);
            ResolveProfiles(codes, profiles, candidates)[i] == Resolution(profiles[i], Available, Some(node))
            <==> && each[i] == Resolution(profiles[i], Available, Some(node))
                 && forall j | 0 <= j < |profiles| && j != i :: each[j].node != Some(node)
  {
    var each := ResolveEach(codes, profiles, candidates);
    CountsHolders(each, node);
    if each[i].node == Some(node) && exists j :: 0 <= j < |profiles| && j != i && each[j].node == Some(node) {
      var j :| 0 <= j < |profiles| && j != i && each[j].node == Some(node);
      assert Holds(each, node, i) && Holds(each, node, j);
    }
  }

  /** A profile that could mean exactly one candidate resolves to it, readable or not. */
  lemma {:induction false} OnePotentialMatch(codes: EventCodes, p: Profile, candidates: seq<Candidate>, k: nat)
    requires k < |candidates| && CouldBe(codes, p, candidates[k])
    requires forall i | 0 <= i < |candidates| && i != k :: !CouldBe(codes, p, candidates[i])
    ensures PotentialMatches(codes, p, candidates) == [candidates[k]]
    ensures ResolveProfile(codes, p, candidates)
            == Resolution(p, if candidates[k].eventCodes == None then PermissionDenied else Available,
                          Some(candidates[k].node))
  {
    if k == 0 {
      NoPotentialMatch(codes, p, candidates[1..]);
    } else {
      OnePotentialMatch(codes, p, candidates[1..], k - 1);
    }
  }

  lemma {:induction false} NoPotentialMatch(codes: EventCodes, p: Profile, candidates: seq<Candidate>)
    requires forall i | 0 <= i < |candidates| :: !CouldBe(codes, p, candidates[i])
    ensures PotentialMatches(codes, p, candidates) == []
  {
    if candidates != [] {
      NoPotentialMatch(codes, p, candidates[1..]);
    }
  }

  /** Candidates `i` and `j` could both be meant. */
  predicate BothCouldBe(codes: EventCodes, p: Profile, candidates: seq<Candidate>, i: int, j: int) {
    && 0 <= i < j < |candidates|
    && CouldBe(codes, p, candidates[i]) && CouldBe(codes, p, candidates[j])
  }

  /** A profile is ambiguous exactly if it could mean two candidates, and then it has no node. */
  lemma {:induction false} AmbiguousExactly(codes: EventCodes, p: Profile, candidates: seq<Candidate>)
    ensures ResolveProfile(codes, p, candidates).status == AmbiguousDevice
            <==> exists i, j :: BothCouldBe(codes, p, candidates, i, j)
    ensures ResolveProfile(codes, p, candidates).status == AmbiguousDevice ==>
              ResolveProfile(codes, p, candidates) == Resolution(p, AmbiguousDevice, None)
    ensures ResolveProfile(codes, p, candidates).status == Unavailable
            <==> forall i | 0 <= i < |candidates| :: !CouldBe(codes, p, candidates[i])
  {
    if i, j :| BothCouldBe(codes, p, candidates, i, j) {
      TwoPotentialMatches(codes, p, candidates, i, j);
    } else if k :| 0 <= k < |candidates| && CouldBe(codes, p, candidates[k]) {
      forall i | 0 <= i < |candidates| && i != k ensures !CouldBe(codes, p, candidates[i]) {
        assert !BothCouldBe(codes, p, candidates, i, k) && !BothCouldBe(codes, p, candidates, k, i);
      }
      OnePotentialMatch(codes, p, candidates, k);
    } else {
      NoPotentialMatch(codes, p, candidates);
    }
  }

  lemma {:induction false} TwoPotentialMatches(codes: EventCodes, p: Profile, candidates: seq<Candidate>,
                                               i: nat, j: nat)
    requires BothCouldBe(codes, p, candidates, i, j)
    ensures |PotentialMatches(codes, p, candidates)| >= 2
  {
    if i == 0 {
      SomePotentialMatch(codes, p, candidates[1..], j - 1);
    } else {
      TwoPotentialMatches(codes, p, candidates[1..], i - 1, j - 1);
    }
  }

  lemma {:induction false} SomePotentialMatch(codes: EventCodes, p: Profile, candidates: seq<Candidate>, k: nat)
    requires k < |candidates| && CouldBe(codes, p, candidates[k])
    ensures |PotentialMatches(codes, p, candidates)| >= 1
  {
    if k > 0 {
      SomePotentialMatch(codes, p, candidates[1..], k - 1);
    }
  }

  /** Two profiles that would have one node conflict over it and get none; every other resolution stands. */
  lemma ConflictExactly(codes: EventCodes, profiles: seq<Profile>, candidates: seq<Candidate>, i: nat)
    requires i < |profiles|
    ensures var own := ResolveProfile(codes, profiles[i], candidates);
            ResolveProfiles(codes, profiles, candidates)[i]
            == if own.node.Some? && exists j | 0 <= j < |profiles| && j != i ::
                                      ResolveProfile(codes, profiles[j], candidates).node == own.node
               then Resolution(profiles[i], NodeConflict, None)
               else own
  {
    var each := ResolveEach(codes, profiles, candidates);
    var own := ResolveProfile(codes, profiles[i], candidates);
    if own.node.Some? {
      CountsHolders(each, own.node.value);
      assert Holds(each, own.node.value, i);
      if j :| 0 <= j < |profiles| && j != i && ResolveProfile(codes, profiles[j], candidates).node == own.node {
        assert Holds(each, own.node.value, j);
      }
    }
  }
}
