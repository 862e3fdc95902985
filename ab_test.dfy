/** client/src/hooks/useABTest.ts: the sticky 50/50 assignment of a
    visitor to the control or treatment group, and the names of the
    analytics events that carry the group. Local storage is a map passed
    in and out, the random draw a parameter, and the tracker's presence
    a flag. */
module ABTest {
  import opened Wrappers

  datatype Group = Control | Treatment

  function GroupName(g: Group): string
  {
    match g
    case Control => "control"
    case Treatment => "treatment"
  }

  /** The stored text, if it names a group. */
  function ParseGroup(stored: Option<string>): (g: Option<Group>)
    ensures g.Some? <==> stored.Some? && (stored.value == "control" || stored.value == "treatment")
    ensures g.Some? ==> GroupName(g.value) == stored.value
  {
    if stored == Some("control") then Some(Control)
    else if stored == Some("treatment") then Some(Treatment)
    else None
  }

  /** A fresh 50/50 draw: control below one half. */
  function Draw(randomValue: real): (g: Group)
    ensures g == Control <==> randomValue < 0.5
  {
    if randomValue < 0.5 then Control else Treatment
  }

  /** A call `umami.track(name, payload)`; payload values are strings. */
  datatype TrackCall = TrackCall(name: string, payload: map<string, string>)

  /** The payload of `ab_test_assigned`: the test name and the group. */
  function AssignedPayload(testName: string, group: Group): map<string, string>
  {
    map["test_name" := testName, "group" := GroupName(group)]
  }

  function Lookup(storage: map<string, string>, key: string): Option<string>
  {
    if key in storage then Some(storage[key]) else None
  }

  /** The hook's state: the group it returns. */
  class Hook {
    var group: Group

    /** Before the effect runs the hook reports control. */
    constructor ()
      ensures group == Control
    {
      group := Control;
    }

    /** The mount effect. A stored group is adopted as it is, with no draw,
        no write and no tracking call; otherwise the draw decides, the
        group is stored under `storageKey`, and the assignment is tracked
        when the tracker is present. */
    method AssignGroup(storage: map<string, string>, testName: string, storageKey: string,
                       randomValue: real, hasTracker: bool)
      returns (storageAfter: map<string, string>, tracked: seq<TrackCall>)
      modifies this
      ensures ParseGroup(Lookup(storage, storageKey)).Some? ==>
                group == ParseGroup(Lookup(storage, storageKey)).value && storageAfter == storage && tracked == []
      ensures ParseGroup(Lookup(storage, storageKey)).None? ==>
                group == Draw(randomValue)
                && storageAfter == storage[storageKey := GroupName(group)]
                && tracked == (if hasTracker then [TrackCall("ab_test_assigned", AssignedPayload(testName, group))] else [])
      ensures ParseGroup(Lookup(storageAfter, storageKey)) == Some(group)
    {
      var existing := Lookup(storage, storageKey);
      if existing == Some("control") || existing == Some("treatment") {
        group := if existing == Some("control") then Control else Treatment;
        storageAfter := storage;
        tracked := [];
        return;
      }
      var assignedGroup := if randomValue < 0.5 then Control else Treatment;
      storageAfter := storage[storageKey := GroupName(assignedGroup)];
      group := assignedGroup;
      tracked := [];
      if hasTracker {
        tracked := tracked + [TrackCall("ab_test_assigned", AssignedPayload(testName, assignedGroup))];
      }
    }
  }

  /** The assignment as a value: the group and what is written back. */
  function Assign(storage: map<string, string>, storageKey: string, randomValue: real): (r: (Group, map<string, string>))
    ensures ParseGroup(Lookup(r.1, storageKey)) == Some(r.0)
    ensures forall k :: k in storage && k != storageKey ==> k in r.1 && r.1[k] == storage[k]
  {
    var existing := ParseGroup(Lookup(storage, storageKey));
    if existing.Some? then (existing.value, storage)
    else (Draw(randomValue), storage[storageKey := GroupName(Draw(randomValue))])
  }

  /** Assignment is sticky: once a group is stored, every later visit gets
      that group whatever it draws, and writes nothing new. */
  lemma AssignmentIsSticky(storage: map<string, string>, storageKey: string, draw1: real, draw2: real)
    ensures var (g1, s1) := Assign(storage, storageKey, draw1);
            Assign(s1, storageKey, draw2) == (g1, s1)
  {
  }

  /** `ab_${testName}_${eventName}`. */
  function EventName(testName: string, eventName: string): (n: string)
    ensures |n| == |testName| + |eventName| + 4 && n[..3] == "ab_"
  {
    "ab_" + testName + "_" + eventName
  }

  /** `{ group, ...properties }`: the group first, then every property,
      so a `group` property overrides the test group. An absent
      `properties` argument is the empty map. */
  function ConversionPayload(group: Group, properties: map<string, string>): (p: map<string, string>)
    ensures p.Keys == properties.Keys + {"group"}
    ensures forall k :: k in properties ==> p[k] == properties[k]
    ensures "group" !in properties ==> p["group"] == GroupName(group)
  {
    map["group" := GroupName(group)] + properties
  }

  /** `trackABTestEvent`: one call, made only when the tracker exists; the
      test name is in the event name but not in the payload. */
  function TrackABTestEvent(testName: string, group: Group, eventName: string,
                            properties: map<string, string>, hasTracker: bool): (calls: seq<TrackCall>)
    ensures |calls| == if hasTracker then 1 else 0
    ensures hasTracker ==> calls[0].name == EventName(testName, eventName)
                           && calls[0].payload == ConversionPayload(group, properties)
  {
    if hasTracker then [TrackCall(EventName(testName, eventName), ConversionPayload(group, properties))] else []
  }

  /** The conversion event reports the caller's group only when no
      property is named `group`; one that is wins. */
  lemma GroupCanBeOverridden(testName: string, eventName: string)
    ensures var calls := TrackABTestEvent(testName, Control, eventName, map["group" := "treatment"], true);
            calls[0].payload["group"] == "treatment"
  {
  }

  /** Because '_' joins the parts, different test and event names can
      produce the same event name. */
  lemma EventNamesCanCollide()
    ensures EventName("a_b", "c") == EventName("a", "b_c")
  {
  }
}
