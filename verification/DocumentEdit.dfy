/** Adding a captured device to the document, or putting it in another's place, and reading the document back. */
module DocumentEdit {
  import opened Common
  import opened Discovery
  import opened Selectors
  import opened DeviceConfig
  import opened DeviceDraft

  datatype DraftError = NotAnArray | ProfileNotFound | DuplicateName | WrongTransport

  predicate Named(v: Value, name: string) {
    v.Table? && Field(v.entries, Name) == Some(Text(name))
  }

  function CountNamed(items: seq<Value>, name: string): nat {
    if items == [] then 0
    else CountNamed(items[..|items| - 1], name) + (if Named(items[|items| - 1], name) then 1 else 0)
  }

  /** A configuration document: its devices, and everything else. */
  class Document {
    var devices: Option<Value>
    var others: map<string, Value>

    constructor (devices: Option<Value>, others: map<string, Value>)
      ensures this.devices == devices && this.others == others
    {
      this.devices, this.others := devices, others;
    }

    /** The device list, an absent one being created. */
    function Items(): seq<Value>
      reads this
    {
      if devices.Some? && devices.value.List? then devices.value.items else []
    }

    /** The positions of a name. */
    method FindNamed(items: seq<Value>, name: string) returns (indexes: seq<nat>)
      ensures |indexes| == CountNamed(items, name)
      ensures forall k <- indexes :: k < |items| && Named(items[k], name)
    {
      indexes := [];
      for i := 0 to |items|
        invariant |indexes| == CountNamed(items[..i], name)
        invariant forall k <- indexes :: k < i && Named(items[k], name)
      {
        assert items[..i + 1][..i] == items[..i];
        if Named(items[i], name) {
          indexes := indexes + [i];
        }
      }
      assert items[..|items|] == items;
    }

    /** Append the captured device, or put it in the place of exactly one named device; nothing else moves. */
    method ApplyDeviceDraft(name: string, action: string, d: SelectorDraft, trigger: Trigger,
                            replaceName: Option<string>)
        returns (r: Result<(), DraftError>)
      modifies this
      ensures others == old(others)
      ensures r.Ok? <==> && (old(devices).Some? ==> old(devices).value.List?) && Fits(trigger, d)
                         && CountNamed(old(Items()), replaceName.GetOr(name)) == (if replaceName.Some? then 1 else 0)
      ensures r.Err? ==> Items() == old(Items()) && (old(devices).Some? ==> devices == old(devices))
      ensures r.Ok? && replaceName == None ==>
                devices == Some(List(old(Items()) + [Table(DeviceTable(name, action, d, trigger))]))
      ensures r.Ok? && replaceName.Some? ==>
                exists i :: 0 <= i < |old(Items())| && Named(old(Items())[i], replaceName.value)
                            && devices == Some(List(old(Items())[i := Table(DeviceTable(name, action, d, trigger))]))
    {
      if devices == None {
        devices := Some(List([]));
      }
      if !devices.value.List? {
        return Err(NotAnArray);
      }
      var items := devices.value.items;
      var indexes := FindNamed(items, replaceName.GetOr(name));
      if replaceName.Some? && |indexes| != 1 {
        return Err(ProfileNotFound);
      }
      if replaceName == None && indexes != [] {
        return Err(DuplicateName);
      }
      if trigger.Evdev? != (d.transport == EvdevTransport) {
        return Err(WrongTransport);
      }
      var device := Table(DeviceTable(name, action, d, trigger));
      assert indexes != [] ==> indexes[0] in indexes;
      devices := Some(List(if replaceName == None then items + [device] else items[indexes[0] := device]));
      return Ok(());
    }
  }

  // -- Reading the document back -------------------------------------------------------

  /** A gathered list is the parsed one, with distinct names. */
  lemma {:induction false} GatherShape(parsed: seq<Parsed>, actions: set<string>)
    requires Gather(parsed, actions).Ok?
    ensures var ps := Gather(parsed, actions).value;
            && |ps| == |parsed| && (forall i | 0 <= i < |ps| :: parsed[i] == Ok(ps[i]))
            && (forall i, j | 0 <= i < j < |ps| :: ps[i].name != ps[j].name)
  {
    if parsed != [] {
      GatherShape(parsed[..|parsed| - 1], actions);
    }
  }

  lemma NameInNames(ps: seq<Profile>, name: string)
    ensures name in NamesOf(ps) <==> exists i :: 0 <= i < |ps| && ps[i].name == name
  {
    if exists i :: 0 <= i < |ps| && ps[i].name == name {
      var i :| 0 <= i < |ps| && ps[i].name == name;
      assert ps[i] in ps;
    }
  }

  /** No other device has the name. */
  predicate NameIsFree(ps: seq<Profile>, i: nat, name: string) {
    forall j | 0 <= j < |ps| && j != i :: ps[j].name != name
  }

  /** One more device: the document is accepted exactly when its name is new and its action exists. */
  lemma GatherAppended(parsed: seq<Parsed>, actions: set<string>, p: Profile)
    requires Gather(parsed, actions).Ok?
    ensures var ps := Gather(parsed, actions).value;
            var r := Gather(parsed + [Ok(p)], actions);
            && (r.Ok? <==> p.action in actions && NameIsFree(ps, |ps|, p.name))
            && (r.Ok? ==> r.value == ps + [p])
  {
    assert (parsed + [Ok(p)])[..|parsed|] == parsed;
    NameInNames(Gather(parsed, actions).value, p.name);
  }

  /** The last device of a list whose others were accepted with `p` in place `i`. */
  lemma GatherLast(ps: seq<Profile>, i: nat, p: Profile, actions: set<string>)
    requires i < |ps| - 1 && ps[|ps| - 1].action in actions
    requires forall j | 0 <= j < |ps| - 1 :: ps[j].name != ps[|ps| - 1].name
    ensures var n := |ps| - 1;
            var r := GatherNext(ps[..n][i := p], Ok(ps[n]), actions);
            (r.Ok? <==> ps[n].name != p.name) && (r.Ok? ==> r.value == ps[i := p])
  {
    var n := |ps| - 1;
    var earlier := ps[..n][i := p];
    NameInNames(earlier, ps[n].name);
    assert earlier[i] == p && forall j | 0 <= j < n && j != i :: earlier[j] == ps[j];
    assert ps[i := p] == earlier + [ps[n]];
  }

  /** Another device in place `i`: the document is accepted exactly when its name is its own and its action exists. */
  lemma {:induction false} GatherReplaced(parsed: seq<Parsed>, actions: set<string>, i: nat, p: Profile)
    requires Gather(parsed, actions).Ok? && i < |parsed|
    ensures var ps := Gather(parsed, actions).value;
            var r := Gather(parsed[i := Ok(p)], actions);
            && |ps| == |parsed|
            && (r.Ok? <==> p.action in actions && NameIsFree(ps, i, p.name))
            && (r.Ok? ==> r.value == ps[i := p])
  {
    var n := |parsed| - 1;
    var ps := Gather(parsed, actions).value;
    GatherShape(parsed, actions);
    assert Gather(parsed[..n], actions) == Ok(ps[..n]);
    assert parsed == parsed[..n] + [parsed[n]];
    if i == n {
      assert parsed[i := Ok(p)] == parsed[..n] + [Ok(p)];
      GatherAppended(parsed[..n], actions, p);
    } else {
      GatherReplaced(parsed[..n], actions, i, p);
      assert parsed[i := Ok(p)][..n] == parsed[..n][i := Ok(p)];
      GatherLast(ps, i, p, actions);
    }
  }

  lemma ParseEachReplaced(e: Ecodes, items: seq<Value>, i: nat, v: Value)
    requires i < |items|
    ensures ParseEach(e, items[i := v]) == ParseEach(e, items)[i := ParseDevice(e, v)]
    ensures ParseEach(e, items + [v]) == ParseEach(e, items) + [ParseDevice(e, v)]
  {
  }

  /** After a replacement: accepted exactly when no other device has the name, the others unchanged in place. */
  lemma ReplacementReadsBack(e: Ecodes, items: seq<Value>, actions: set<string>, i: nat,
                             name: string, action: string, d: SelectorDraft, trigger: Trigger)
    requires i < |items| && Devices(e, List(items), actions).Ok?
    requires NormalSelectors(d) && Fits(trigger, d) && ValidTrigger(e, trigger)
    requires name != "" && action in actions && action != ""
    ensures var ps := Devices(e, List(items), actions).value;
            var r := Devices(e, List(items[i := Table(DeviceTable(name, action, d, trigger))]), actions);
            && |ps| == |items|
            && (r.Ok? <==> NameIsFree(ps, i, name))
            && (r.Ok? ==> r.value == ps[i := ProfileOf(d, name, action, trigger)])
            && DraftOf(ProfileOf(d, name, action, trigger)) == d
  {
    var p := ProfileOf(d, name, action, trigger);
    CapturedDeviceReadsBack(e, name, action, d, trigger);
    ParseEachReplaced(e, items, i, Table(DeviceTable(name, action, d, trigger)));
    GatherReplaced(ParseEach(e, items), actions, i, p);
  }

  /** After an addition: accepted exactly when the name is new, the others unchanged in place. */
  lemma AdditionReadsBack(e: Ecodes, items: seq<Value>, actions: set<string>,
                          name: string, action: string, d: SelectorDraft, trigger: Trigger)
    requires items == [] || Devices(e, List(items), actions).Ok?
    requires NormalSelectors(d) && Fits(trigger, d) && ValidTrigger(e, trigger)
    requires name != "" && action in actions && action != ""
    ensures var ps := if items == [] then [] else Devices(e, List(items), actions).value;
            var r := Devices(e, List(items + [Table(DeviceTable(name, action, d, trigger))]), actions);
            && (r.Ok? <==> NameIsFree(ps, |ps|, name))
            && (r.Ok? ==> r.value == ps + [ProfileOf(d, name, action, trigger)])
            && DraftOf(ProfileOf(d, name, action, trigger)) == d
  {
    var p := ProfileOf(d, name, action, trigger);
    var v := Table(DeviceTable(name, action, d, trigger));
    CapturedDeviceReadsBack(e, name, action, d, trigger);
    assert ParseEach(e, items + [v]) == ParseEach(e, items) + [Ok(p)];
    GatherAppended(ParseEach(e, items), actions, p);
  }
}
